/**
 * hax/hax/queue/__init__.py: BQProcessor turns one notification envelope
 * into at most one HA state broadcast. The decision is a pure function of
 * the parsed envelope and the configuration-object lookup; the processor
 * then puts the broadcast on the shared Motr queue and waits on the
 * delivery herald for the message ids it is answered with.
 */
module HaxQueue {

  datatype Option<+T> = None | Some(value: T)

  /** A JSON value as json.loads returns it. */
  datatype Json =
    | JNull
    | JBool(b: bool)
    | JNumber(n: int)
    | JFloat(x: real)
    | JString(s: string)
    | JArray(items: seq<Json>)
    | JObject(fields: map<string, Json>)

  /** The exceptions the decision can let escape. */
  datatype PyError = KeyError(key: string) | TypeError

  /** A value, or the exception computing it raised. */
  datatype PyResult<+T> = Value(value: T) | Exception(error: PyError)

  /** How a method ended: it returned, or raised. */
  datatype PyOutcome = Returned | Raise(error: PyError)

  /** The fid create_drive_fid builds from a drive id. */
  datatype Fid = DriveFid(id: int)

  /** hax.types.HAState */
  datatype HAState = HAState(fid: Fid, status: Json)

  /** hax.types.MessageId */
  datatype MessageId = MessageId(value: int)

  /** hax.types.HaLinkMessagePromise: the ids the herald waits for. */
  datatype HaLinkMessagePromise = HaLinkMessagePromise(ids: seq<MessageId>)

  /**
   * ConfObjUtil.obj_name_to_id as a table from (obj_type, obj_name) to the
   * object's id; a pair outside the table raises KeyError.
   */
  type NameTable = map<(Json, Json), int>

  /** `obj[key]` in Python: a dict lookup, KeyError for a missing key, TypeError for anything but a dict. */
  function Subscript(obj: Json, key: string): (r: PyResult<Json>)
    ensures r.Value? <==> obj.JObject? && key in obj.fields
    ensures r.Value? ==> r.value == obj.fields[key]
    ensures r == Exception(TypeError) <==> !obj.JObject?
    ensures r == Exception(KeyError(key)) <==> obj.JObject? && key !in obj.fields
  {
    match obj
      case JObject(fields) => if key in fields then Value(fields[key]) else Exception(KeyError(key))
      case _ => Exception(TypeError)
  }

  /**
   * to_ha_state: the KeyError of a missing obj_type or obj_name, or of a
   * failed name lookup, is caught and gives None, so None means exactly a
   * dict without a known object; the obj_state lookup lies outside the try,
   * so its KeyError escapes, and so does the TypeError of a payload that is
   * not a dict. Nothing else can be raised.
   */
  function ToHaState(objinfo: Json, names: NameTable): (r: PyResult<Option<HAState>>)
    ensures r == Value(None) <==>
      objinfo.JObject? &&
      ("obj_type" !in objinfo.fields || "obj_name" !in objinfo.fields ||
       (objinfo.fields["obj_type"], objinfo.fields["obj_name"]) !in names)
    ensures r.Exception? ==> r.error == TypeError || r.error == KeyError("obj_state")
  {
    match Subscript(objinfo, "obj_type")
      case Exception(TypeError) => Exception(TypeError)
      case Exception(KeyError(_)) => Value(None)
      case Value(objType) =>
        match Subscript(objinfo, "obj_name")
          case Exception(e) => if e.KeyError? then Value(None) else Exception(e)
          case Value(objName) =>
            if (objType, objName) !in names then Value(None)
            else match Subscript(objinfo, "obj_state")
              case Exception(e) => Exception(e)
              case Value(status) => Value(Some(HAState(DriveFid(names[(objType, objName)]), status)))
  }

  /** What payload_process does with one envelope. */
  datatype Decision =
    | Drop                  // return without broadcasting
    | Fail(error: PyError)  // raise
    | Submit(state: HAState) // broadcast this one state and wait for its delivery

  /**
   * The decision of payload_process on the envelope as json.loads parsed it
   * (None when it raised JSONDecodeError, the one exception handled there).
   */
  function Decide(parsed: Option<Json>, names: NameTable): Decision {
    match parsed
      case None => Drop
      case Some(envelope) =>
        match Subscript(envelope, "payload")
          case Exception(e) => Fail(e)
          case Value(payload) =>
            match ToHaState(payload, names)
              case Exception(e) => Fail(e)
              case Value(None) => Drop
              case Value(Some(s)) => Submit(s)
  }

  // ---- the decision's properties ----

  /**
   * A known object gives the HAState whose status is the payload's obj_state
   * as it is and whose fid is the drive fid of the looked-up id; without an
   * obj_state, KeyError("obj_state") escapes.
   */
  lemma ToHaStateKnown(fields: map<string, Json>, names: NameTable)
    requires "obj_type" in fields && "obj_name" in fields
    requires (fields["obj_type"], fields["obj_name"]) in names
    ensures var r := ToHaState(JObject(fields), names);
      && ("obj_state" in fields ==>
            r == Value(Some(HAState(DriveFid(names[(fields["obj_type"], fields["obj_name"])]), fields["obj_state"]))))
      && ("obj_state" !in fields ==> r == Exception(KeyError("obj_state")))
  {
  }

  /** A payload that is not a dict raises TypeError, which nothing catches. */
  lemma ToHaStateNotDict(objinfo: Json, names: NameTable)
    requires !objinfo.JObject?
    ensures ToHaState(objinfo, names) == Exception(TypeError)
  {
  }

  /** An envelope that is not valid JSON is dropped. */
  lemma DecideInvalidJson(names: NameTable)
    ensures Decide(None, names) == Drop
  {
  }

  /**
   * Valid JSON without a 'payload' key raises KeyError('payload'): only the
   * decode error is handled.
   */
  lemma DecideNoPayload(fields: map<string, Json>, names: NameTable)
    requires "payload" !in fields
    ensures Decide(Some(JObject(fields)), names) == Fail(KeyError("payload"))
  {
  }

  /**
   * The three outcomes in full: a parsed envelope is broadcast exactly when
   * to_ha_state gives a state for its payload, dropped exactly when the
   * envelope did not parse or to_ha_state gives None, and its error escapes
   * otherwise.
   */
  lemma DecideCases(parsed: Option<Json>, names: NameTable)
    ensures var d := Decide(parsed, names);
      && (d.Submit? <==>
            parsed.Some? && Subscript(parsed.value, "payload").Value?
            && ToHaState(Subscript(parsed.value, "payload").value, names).Value?
            && ToHaState(Subscript(parsed.value, "payload").value, names).value.Some?)
      && (d.Drop? <==>
            parsed.None? ||
            (Subscript(parsed.value, "payload").Value?
             && ToHaState(Subscript(parsed.value, "payload").value, names) == Value(None)))
      && (d.Fail? ==> d.error in {TypeError, KeyError("payload"), KeyError("obj_state")})
  {
  }

  /**
   * A broadcast state carries the payload's obj_state unchanged and the fid
   * of the id the lookup gives for its obj_type and obj_name.
   */
  lemma DecideSubmits(parsed: Option<Json>, names: NameTable)
    requires Decide(parsed, names).Submit?
    ensures var payload := parsed.value.fields["payload"];
      && parsed.value.JObject? && "payload" in parsed.value.fields && payload.JObject?
      && (payload.fields["obj_type"], payload.fields["obj_name"]) in names
      && Decide(parsed, names).state ==
           HAState(DriveFid(names[(payload.fields["obj_type"], payload.fields["obj_name"])]), payload.fields["obj_state"])
  {
  }

  // ---- the processor ----

  /** The BroadcastHAStates message put on the Motr queue. */
  datatype BroadcastHAStates = BroadcastHAStates(states: seq<HAState>, replyTo: ReplyQueue)

  /** The queue.Queue a broadcast is answered on. */
  class ReplyQueue {
    const maxsize: nat

    constructor (maxsize: nat)
      ensures this.maxsize == maxsize
    {
      this.maxsize := maxsize;
    }
  }

  /** The shared queue the processor puts broadcasts on, as the list of what was put. */
  class Outbox {
    var items: seq<BroadcastHAStates>

    constructor ()
      ensures items == []
    {
      items := [];
    }

    method Put(m: BroadcastHAStates)
      modifies this
      ensures items == old(items) + [m]
    {
      items := items + [m];
    }
  }

  /** hax.motr.delivery.DeliveryHerald, as the list of promises waited for. */
  class DeliveryHerald {
    var promises: seq<HaLinkMessagePromise>

    constructor ()
      ensures promises == []
    {
      promises := [];
    }

    method WaitForAny(p: HaLinkMessagePromise)
      modifies this
      ensures promises == old(promises) + [p]
    {
      promises := promises + [p];
    }
  }

  class BQProcessor {
    const queue: Outbox
    const herald: DeliveryHerald
    /** What ConfObjUtil.obj_name_to_id knows. */
    const names: NameTable
    /** json.loads: the value a text parses to, None when it raises JSONDecodeError. */
    const parse: string -> Option<Json>

    constructor (queue: Outbox, herald: DeliveryHerald, names: NameTable, parse: string -> Option<Json>)
      ensures this.queue == queue && this.herald == herald && this.names == names && this.parse == parse
    {
      this.queue := queue;
      this.herald := herald;
      this.names := names;
      this.parse := parse;
    }

    /**
     * payload_process(msg). `reply` is what the consumer of the broadcast
     * answers on its reply queue. Dropped and failing envelopes touch
     * neither the queue nor the herald; a broadcast puts exactly one message
     * with exactly the one state and a fresh reply queue of capacity 1, and
     * the herald then waits once, for exactly the ids answered.
     */
    method PayloadProcess(msg: string, reply: seq<MessageId>) returns (r: PyOutcome)
      modifies queue, herald
      ensures match Decide(parse(msg), names)
        case Drop => r == Returned && queue.items == old(queue.items) && herald.promises == old(herald.promises)
        case Fail(e) => r == Raise(e) && queue.items == old(queue.items) && herald.promises == old(herald.promises)
        case Submit(s) =>
          && r == Returned
          && |queue.items| == |old(queue.items)| + 1
          && queue.items[..|old(queue.items)|] == old(queue.items)
          && queue.items[|old(queue.items)|].states == [s]
          && fresh(queue.items[|old(queue.items)|].replyTo)
          && queue.items[|old(queue.items)|].replyTo.maxsize == 1
          && herald.promises == old(herald.promises) + [HaLinkMessagePromise(reply)]
    {
      var hastates: seq<HAState> := [];
      var parsed := parse(msg);
      if parsed.None? {
        return Returned;
      }
      var payload := Subscript(parsed.value, "payload");
      if payload.Exception? {
        return Raise(payload.error);
      }
      var hastate := ToHaState(payload.value, names);
      if hastate.Exception? {
        return Raise(hastate.error);
      }
      if hastate.value.Some? {
        hastates := hastates + [hastate.value.value];
      }
      if hastates == [] {
        return Returned;
      }
      var q := new ReplyQueue(1);
      queue.Put(BroadcastHAStates(hastates, q));
      var ids := reply;
      herald.WaitForAny(HaLinkMessagePromise(ids));
      r := Returned;
    }

    /** process((i, msg)): the sequence number only reaches the log; the text goes to payload_process. */
    method Process(message: (int, string), reply: seq<MessageId>) returns (r: PyOutcome)
      modifies queue, herald
      ensures match Decide(parse(message.1), names)
        case Drop => r == Returned && queue.items == old(queue.items) && herald.promises == old(herald.promises)
        case Fail(e) => r == Raise(e) && queue.items == old(queue.items) && herald.promises == old(herald.promises)
        case Submit(s) =>
          && r == Returned
          && |queue.items| == |old(queue.items)| + 1
          && queue.items[..|old(queue.items)|] == old(queue.items)
          && queue.items[|old(queue.items)|].states == [s]
          && fresh(queue.items[|old(queue.items)|].replyTo)
          && queue.items[|old(queue.items)|].replyTo.maxsize == 1
          && herald.promises == old(herald.promises) + [HaLinkMessagePromise(reply)]
    {
      var (i, msg) := message;
      r := PayloadProcess(msg, reply);
    }
  }
}
