/**
 * Values shared by the pcswrap model: the cluster snapshots a connector
 * reports, the calls it receives, the errors that can escape, and the
 * Trace that records what one client operation did.
 */
module PcsTypes {

  datatype Option<+T> = None | Some(value: T)

  /** A node as the cluster manager reports it (pcswrap.types.Node). */
  datatype Node = Node(name: string, online: bool, standby: bool)

  /** A resource as the cluster manager reports it (pcswrap.types.Resource). */
  datatype Resource = Resource(name: string, active: bool)

  /** One snapshot of the cluster: what each connector query would return now. */
  datatype Cluster = Cluster(
    nodes: seq<Node>,          // get_nodes()
    resources: seq<Resource>,  // get_resources()
    stonith: seq<Resource>,    // get_stonith_resources()
    name: string)              // get_cluster_name()

  /** The requests a PcsConnector accepts, queries first, then mutations. */
  datatype Call =
    | GetNodes
    | GetResources
    | GetStonithResources
    | GetClusterName
    | StandbyNode(node: string)
    | UnstandbyNode(node: string)
    | ShutdownNode(node: string)
    | StandbyAll
    | UnstandbyAll
    | DisableResource(resource: Resource)
    | EnableResource(resource: Resource)

  /**
   * What the cluster side observes, in order: a request it received, or the
   * start of a convergence wait (with the waiter's title and timeout) that
   * will poll it.
   */
  datatype Event = Called(call: Call) | Waited(title: string, timeout: int)

  /** The exceptions that can leave a client operation. */
  datatype Error =
    | TimeoutError(title: string)    // pcswrap.exception.TimeoutException
    | ConnectorError(call: Call)     // the cluster tool rejected this request
    | MaintenanceFailed              // pcswrap.exception.MaintenanceFailed
    | AttributeError(attribute: string)
    | IndexError

  /** Normal return, or the exception raised. */
  datatype Outcome = Ok | Raised(error: Error)

  /** A query's value, or the exception it raised. */
  datatype Result<+T> = Success(value: T) | Failure(error: Error)

  /** What one operation did: how it ended, what it sent, and the snapshot it left. */
  datatype Trace = Trace(outcome: Outcome, events: seq<Event>, after: Cluster)

  /**
   * The snapshots a waiter's successive polls see before its deadline passes;
   * the deadline always leaves room for at least one poll.
   */
  type Polls = s: seq<Cluster> | |s| > 0 witness [Cluster([], [], [], "")]

  /** The request events for a list of calls, one per call, in order. */
  function Calls(cs: seq<Call>): (es: seq<Event>)
    ensures |es| == |cs|
    ensures forall i | 0 <= i < |cs| :: es[i] == Called(cs[i])
  {
    if cs == [] then [] else [Called(cs[0])] + Calls(cs[1..])
  }

  /** A trace preceded by some events. */
  function Prepend(es: seq<Event>, t: Trace): Trace {
    Trace(t.outcome, es + t.events, t.after)
  }

  /** Returning normally without sending anything. */
  function Done(c: Cluster): Trace {
    Trace(Ok, [], c)
  }

  /**
   * Sending `calls` one after the other and then carrying on as `rest`: the
   * first call the tool rejects raises at once, so nothing after it is sent.
   * Requests do not change the snapshot (the cluster converges on its own,
   * which only polling observes).
   */
  function Issue(calls: seq<Call>, failing: set<Call>, before: Cluster, rest: Trace): Trace
    decreases |calls|
  {
    if calls == [] then rest
    else if calls[0] in failing then Trace(Raised(ConnectorError(calls[0])), [Called(calls[0])], before)
    else Prepend([Called(calls[0])], Issue(calls[1..], failing, before, rest))
  }

  /** When the tool accepts every call, all of them are sent, in order, before `rest`. */
  lemma IssueAccepted(calls: seq<Call>, failing: set<Call>, before: Cluster, rest: Trace)
    requires forall i | 0 <= i < |calls| :: calls[i] !in failing
    ensures Issue(calls, failing, before, rest) == Prepend(Calls(calls), rest)
  {
    IssueSplit(calls, |calls|, failing, before, rest);
    assert calls[..|calls|] == calls;
    assert calls[|calls|..] == [];
  }

  /**
   * When the tool rejects one of the calls, the first rejected call raises,
   * the snapshot is untouched, the requests sent are a prefix of `calls`
   * (nothing of `rest`), and the last one sent is the rejected one.
   */
  lemma IssueRejected(calls: seq<Call>, failing: set<Call>, before: Cluster, rest: Trace)
    requires exists i | 0 <= i < |calls| :: calls[i] in failing
    ensures var t := Issue(calls, failing, before, rest);
      && t.outcome.Raised? && t.outcome.error.ConnectorError?
      && t.outcome.error.call in failing && t.outcome.error.call in calls
      && t.after == before
      && t.events <= Calls(calls)
      && |t.events| > 0 && t.events[|t.events| - 1] == Called(t.outcome.error.call)
  {
    var i := FirstRejected(calls, failing);
    IssueStopsAt(calls, i, failing, before, rest);
    var t := Issue(calls, failing, before, rest);
    assert t.outcome == Raised(ConnectorError(calls[i])) && t.after == before;
    CallsSnoc(calls, i);
    assert t.events == Calls(calls[..i + 1]);
    assert Calls(calls[..i + 1]) == Calls(calls)[..i + 1];
  }

  /** The position of the first call the tool rejects. */
  function FirstRejected(calls: seq<Call>, failing: set<Call>): (i: nat)
    requires exists i | 0 <= i < |calls| :: calls[i] in failing
    ensures i < |calls| && calls[i] in failing
    ensures forall j | 0 <= j < i :: calls[j] !in failing
    decreases |calls|
  {
    if calls[0] in failing then 0
    else
      var k :| 0 <= k < |calls| && calls[k] in failing;
      assert calls[1..][k - 1] in failing;
      1 + FirstRejected(calls[1..], failing)
  }

  /** Only requests from `calls` and events of `rest` are ever sent. */
  lemma {:induction false} IssueSends(calls: seq<Call>, failing: set<Call>, before: Cluster, rest: Trace)
    ensures forall e | e in Issue(calls, failing, before, rest).events :: e in Calls(calls) || e in rest.events
    decreases |calls|
  {
    if calls != [] && calls[0] !in failing {
      IssueSends(calls[1..], failing, before, rest);
      assert Calls(calls) == [Called(calls[0])] + Calls(calls[1..]);
    }
  }

  /** Splitting off the first `k` calls, none of which the tool rejects. */
  lemma {:induction false} IssueSplit(calls: seq<Call>, k: nat, failing: set<Call>, before: Cluster, rest: Trace)
    requires k <= |calls|
    requires forall j | 0 <= j < k :: calls[j] !in failing
    ensures Issue(calls, failing, before, rest) ==
            Prepend(Calls(calls[..k]), Issue(calls[k..], failing, before, rest))
    decreases k
  {
    if k == 0 {
      assert calls[k..] == calls;
      assert calls[..k] == [];
    } else {
      var tail := calls[1..];
      assert forall j | 0 <= j < k - 1 :: tail[j] == calls[j + 1];
      IssueSplit(tail, k - 1, failing, before, rest);
      assert tail[k - 1..] == calls[k..];
      IssueSplitStep(calls, k, failing, before, rest);
    }
  }

  lemma IssueSplitStep(calls: seq<Call>, k: nat, failing: set<Call>, before: Cluster, rest: Trace)
    requires 0 < k <= |calls| && calls[0] !in failing
    requires Issue(calls[1..], failing, before, rest) ==
             Prepend(Calls(calls[1..][..k - 1]), Issue(calls[k..], failing, before, rest))
    ensures Issue(calls, failing, before, rest) ==
            Prepend(Calls(calls[..k]), Issue(calls[k..], failing, before, rest))
  {
    var x := Issue(calls[k..], failing, before, rest);
    var a := Calls(calls[1..][..k - 1]);
    var head := calls[..k];
    assert head != [] && head[0] == calls[0] && head[1..] == calls[1..][..k - 1];
    assert Calls(head) == [Called(calls[0])] + a;
    assert Issue(calls, failing, before, rest) == Prepend([Called(calls[0])], Prepend(a, x));
    PrependPrepend([Called(calls[0])], a, x);
  }

  lemma PrependPrepend(a: seq<Event>, b: seq<Event>, t: Trace)
    ensures Prepend(a, Prepend(b, t)) == Prepend(a + b, t)
  {
    assert a + (b + t.events) == (a + b) + t.events;
  }

  /** Sending one more call extends the request events by one. */
  lemma CallsSnoc(cs: seq<Call>, i: nat)
    requires i < |cs|
    ensures Calls(cs[..i + 1]) == Calls(cs[..i]) + [Called(cs[i])]
  {
    assert cs[..i + 1][..i] == cs[..i];
  }

  /** A single call: it raises its connector error when rejected, and is sent before `rest` when accepted. */
  lemma IssueOne(c: Call, failing: set<Call>, before: Cluster, rest: Trace)
    ensures Issue([c], failing, before, rest) ==
      if c in failing then Trace(Raised(ConnectorError(c)), [Called(c)], before) else Prepend([Called(c)], rest)
  {
    assert [c][1..] == [];
  }

  /** The first rejected call, at index `i`, ends the sequence with its connector error. */
  lemma IssueStopsAt(calls: seq<Call>, i: nat, failing: set<Call>, before: Cluster, rest: Trace)
    requires i < |calls| && calls[i] in failing
    requires forall j | 0 <= j < i :: calls[j] !in failing
    ensures Issue(calls, failing, before, rest) ==
            Trace(Raised(ConnectorError(calls[i])), Calls(calls[..i]) + [Called(calls[i])], before)
  {
    IssueSplit(calls, i, failing, before, rest);
    assert calls[i..][0] == calls[i];
  }
}
