/**
 * The polling waiter (pcswrap.internal.waiter.Waiter): it polls a connector
 * query until a predicate holds of what the query reports, or until its
 * deadline passes. The clock is abstracted away: the snapshots its polls see
 * before the deadline are given as a `Polls` oracle.
 */
module PcsWaiter {
  import opened PcsTypes
  import opened PcsConnector

  /**
   * One waiter's configuration: the title it reports on timeout, its timeout,
   * the query it polls, and the predicate (`converged`) over the snapshot that query reads.
   */
  datatype WaitSpec = WaitSpec(title: string, timeout: int, provider: Call, converged: Cluster -> bool)

  /** The index of the first snapshot on which `p` holds, if any. */
  function FirstConverged(p: Cluster -> bool, polls: seq<Cluster>): (k: Option<nat>)
    ensures k.Some? ==> k.value < |polls| && p(polls[k.value])
    ensures k.Some? ==> forall j | 0 <= j < k.value :: !p(polls[j])
    ensures k.None? <==> forall j | 0 <= j < |polls| :: !p(polls[j])
  {
    if polls == [] then None
    else if p(polls[0]) then Some(0)
    else match FirstConverged(p, polls[1..])
      case None => None
      case Some(k) => Some(k + 1)
  }

  /** `n` copies of one event. */
  function Repeat(e: Event, n: nat): (es: seq<Event>)
    ensures |es| == n && forall i | 0 <= i < n :: es[i] == e
  {
    seq(n, _ => e)
  }

  /**
   * What one wait does: it announces itself, then polls once per snapshot
   * until the predicate holds (success) or the snapshots run out (timeout).
   * A poll the tool rejects raises at once, so it is the only poll.
   */
  function WaitRun(spec: WaitSpec, polls: Polls, failing: set<Call>): Trace {
    var start := [Waited(spec.title, spec.timeout)];
    if spec.provider in failing then
      Trace(Raised(ConnectorError(spec.provider)), start + [Called(spec.provider)], polls[0])
    else match FirstConverged(spec.converged, polls)
      case Some(k) => Trace(Ok, start + Repeat(Called(spec.provider), k + 1), polls[k])
      case None => Trace(Raised(TimeoutError(spec.title)), start + Repeat(Called(spec.provider), |polls|), polls[|polls| - 1])
  }

  /**
   * A wait succeeds only with the predicate true of the last snapshot polled,
   * and does succeed when some snapshot before the deadline satisfies it and
   * the polls are accepted; it times out only when no snapshot satisfies it;
   * otherwise the rejected poll's connector error escapes. It first
   * announces itself and afterwards sends nothing but polls.
   */
  lemma WaitRunMeaning(spec: WaitSpec, polls: Polls, failing: set<Call>)
    ensures var t := WaitRun(spec, polls, failing);
      && (t.outcome == Ok ==> spec.converged(t.after))
      && (t.outcome.Raised? ==>
           || t.outcome.error == TimeoutError(spec.title)
           || (t.outcome.error == ConnectorError(spec.provider) && spec.provider in failing))
      && (t.outcome == Raised(TimeoutError(spec.title)) ==> forall j | 0 <= j < |polls| :: !spec.converged(polls[j]))
      && (spec.provider !in failing && (exists j | 0 <= j < |polls| :: spec.converged(polls[j])) ==> t.outcome == Ok)
      && t.after in polls
      && |t.events| > 1 && t.events[0] == Waited(spec.title, spec.timeout)
      && (forall i | 1 <= i < |t.events| :: t.events[i] == Called(spec.provider))
  {
  }

  /** Waiter(title, timeout_seconds, provider_fn, predicate).wait() */
  method Wait(conn: Connector, spec: WaitSpec, polls: Polls) returns (r: Outcome)
    modifies conn
    ensures var t := WaitRun(spec, polls, conn.failing);
      conn.log == old(conn.log) + t.events && conn.cluster == t.after && r == t.outcome
  {
    conn.BeginWait(spec.title, spec.timeout);
    ghost var started := conn.log;
    var k := 0;
    while k < |polls|
      invariant 0 <= k <= |polls|
      invariant conn.log == started + Repeat(Called(spec.provider), k)
      invariant k > 0 ==> conn.cluster == polls[k - 1] && spec.provider !in conn.failing
      invariant forall j | 0 <= j < k :: !spec.converged(polls[j])
    {
      conn.Advance(polls[k]);
      var polled := conn.Request(spec.provider);
      assert Repeat(Called(spec.provider), k) + [Called(spec.provider)] == Repeat(Called(spec.provider), k + 1);
      if polled.Raised? {
        return polled;
      }
      if spec.converged(conn.cluster) {
        return Ok;
      }
      k := k + 1;
    }
    r := Raised(TimeoutError(spec.title));
  }
}
