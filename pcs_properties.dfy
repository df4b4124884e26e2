/**
 * What pcswrap/pcswrap/client.py promises about its operations, proved of
 * their specification functions (and so, through the methods' contracts, of
 * the methods): the order in which requests reach the cluster, what a
 * success guarantees about the cluster, how failures are mapped, and that
 * maintenance never rolls back.
 */
module PcsProperties {
  import opened PcsTypes
  import opened PcsWaiter
  import opened PcsClient

  // ---- get_online_nodes ----

  /** The filter keeps the connector's order: filtering a concatenation filters each part. */
  lemma {:induction false} OnlineNodesAppend(a: seq<Node>, b: seq<Node>)
    ensures OnlineNodes(a + b) == OnlineNodes(a) + OnlineNodes(b)
    decreases |a|
  {
    if a == [] {
      assert a + b == b;
    } else {
      assert (a + b)[1..] == a[1..] + b;
      OnlineNodesAppend(a[1..], b);
    }
  }

  /** Nothing is dropped unless it is offline: the filter is the identity exactly when every node is online. */
  lemma {:induction false} OnlineNodesAllOnline(ns: seq<Node>)
    ensures OnlineNodes(ns) == ns <==> forall i | 0 <= i < |ns| :: ns[i].online
    decreases |ns|
  {
    if ns != [] {
      var tail := ns[1..];
      OnlineNodesAllOnline(tail);
      if ns[0].online {
        assert ns == [ns[0]] + tail;
        assert OnlineNodes(ns) == [ns[0]] + OnlineNodes(tail);
        assert OnlineNodes(ns) == ns <==> OnlineNodes(tail) == tail;
        if forall i | 0 <= i < |tail| :: tail[i].online {
          forall i | 0 <= i < |ns|
            ensures ns[i].online
          {
            if i > 0 {
              assert ns[i] == tail[i - 1];
            }
          }
        }
        if forall i | 0 <= i < |ns| :: ns[i].online {
          forall i | 0 <= i < |tail|
            ensures tail[i].online
          {
            assert tail[i] == ns[i + 1];
          }
        }
      } else {
        assert |OnlineNodes(ns)| < |ns|;
      }
    }
  }

  // ---- the Client() probe ----

  /** A rejected probe raises its connector error before anything else is sent. */
  lemma OpenRejected(before: Cluster, failing: set<Call>, rest: Trace)
    requires GetNodes in failing
    ensures OpenRun(before, failing, rest) == Trace(Raised(ConnectorError(GetNodes)), [Called(GetNodes)], before)
  {
  }

  /** An accepted probe is one get_nodes request followed by the operation. */
  lemma OpenAccepted(before: Cluster, failing: set<Call>, rest: Trace)
    requires GetNodes !in failing
    ensures OpenRun(before, failing, rest) == Prepend([Called(GetNodes)], rest)
  {
    IssueOne(GetNodes, failing, before, rest);
  }

  /** The probe adds nothing but its get_nodes request. */
  lemma OpenSends(before: Cluster, failing: set<Call>, rest: Trace)
    ensures forall e | e in OpenRun(before, failing, rest).events :: e == Called(GetNodes) || e in rest.events
  {
    if GetNodes in failing {
      OpenRejected(before, failing, rest);
    } else {
      OpenAccepted(before, failing, rest);
    }
  }

  // ---- standby_all / unstandby_all ----

  /**
   * standby_all sends its one mutation first and only then waits; when it
   * returns, no resource of the last snapshot polled runs; its errors are
   * the mutation's, the poll's or the waiter's timeout.
   */
  lemma StandbyAllMeaning(before: Cluster, failing: set<Call>, timeout: int, polls: Polls)
    ensures var t := StandbyAllRun(before, failing, timeout, polls);
      && t.events[0] == Called(StandbyAll)
      && (StandbyAll in failing ==> t == Trace(Raised(ConnectorError(StandbyAll)), [Called(StandbyAll)], before))
      && (StandbyAll !in failing ==>
            |t.events| > 2 && t.events[1] == Waited("no running resources", timeout)
            && forall i | 2 <= i < |t.events| :: t.events[i] == Called(GetResources))
      && (t.outcome == Ok ==> AllStopped(t.after.resources))
      && (t.outcome.Raised? ==>
            t.outcome.error in {ConnectorError(StandbyAll), ConnectorError(GetResources), TimeoutError("no running resources")})
  {
    var w := WaitRun(NoRunningResources(timeout), polls, failing);
    WaitRunMeaning(NoRunningResources(timeout), polls, failing);
    if StandbyAll !in failing {
      IssueOne(StandbyAll, failing, before, w);
      assert StandbyAllRun(before, failing, timeout, polls).events == [Called(StandbyAll)] + w.events;
    }
  }

  /** unstandby_all likewise, with get_nodes polls and no standby node on success. */
  lemma UnstandbyAllMeaning(before: Cluster, failing: set<Call>, timeout: int, polls: Polls)
    ensures var t := UnstandbyAllRun(before, failing, timeout, polls);
      && t.events[0] == Called(UnstandbyAll)
      && (UnstandbyAll in failing ==> t == Trace(Raised(ConnectorError(UnstandbyAll)), [Called(UnstandbyAll)], before))
      && (UnstandbyAll !in failing ==>
            |t.events| > 2 && t.events[1] == Waited("no standby nodes in cluster", timeout)
            && forall i | 2 <= i < |t.events| :: t.events[i] == Called(GetNodes))
      && (t.outcome == Ok ==> NonStandbyNodes(t.after.nodes))
      && (t.outcome.Raised? ==>
            t.outcome.error in {ConnectorError(UnstandbyAll), ConnectorError(GetNodes), TimeoutError("no standby nodes in cluster")})
  {
    var w := WaitRun(NoStandbyNodes(timeout), polls, failing);
    WaitRunMeaning(NoStandbyNodes(timeout), polls, failing);
    if UnstandbyAll !in failing {
      IssueOne(UnstandbyAll, failing, before, w);
      assert UnstandbyAllRun(before, failing, timeout, polls).events == [Called(UnstandbyAll)] + w.events;
    }
  }

  // ---- disable_stonith / enable_stonith ----

  /**
   * The shape both stonith switches share: list the stonith resources, send
   * one request per resource, then wait with `spec`. These lemmas are stated
   * for any request list and any waiter and instantiated below.
   */
  function SwitchRun(calls: seq<Call>, spec: WaitSpec, before: Cluster, failing: set<Call>, polls: Polls): Trace {
    Issue([GetStonithResources], failing, before, Issue(calls, failing, before, WaitRun(spec, polls, failing)))
  }

  /** All requests accepted: the listing, every request in order, and only then the wait. */
  lemma SwitchAccepted(calls: seq<Call>, spec: WaitSpec, before: Cluster, failing: set<Call>, polls: Polls)
    requires GetStonithResources !in failing
    requires forall i | 0 <= i < |calls| :: calls[i] !in failing
    ensures SwitchRun(calls, spec, before, failing, polls) ==
            Prepend([Called(GetStonithResources)] + Calls(calls), WaitRun(spec, polls, failing))
  {
    var w := WaitRun(spec, polls, failing);
    var inner := Issue(calls, failing, before, w);
    IssueAccepted(calls, failing, before, w);
    assert inner == Prepend(Calls(calls), w);
    IssueOne(GetStonithResources, failing, before, inner);
    assert SwitchRun(calls, spec, before, failing, polls) == Prepend([Called(GetStonithResources)], inner);
    assert [Called(GetStonithResources)] + (Calls(calls) + w.events) == [Called(GetStonithResources)] + Calls(calls) + w.events;
  }

  /** The accepted switch's events, position by position. */
  lemma SwitchOrder(calls: seq<Call>, spec: WaitSpec, before: Cluster, failing: set<Call>, polls: Polls)
    requires GetStonithResources !in failing
    requires forall i | 0 <= i < |calls| :: calls[i] !in failing
    ensures var t := SwitchRun(calls, spec, before, failing, polls);
      var n := |calls|;
      && |t.events| > n + 2 && t.events[0] == Called(GetStonithResources)
      && (forall i | 0 <= i < n :: t.events[i + 1] == Called(calls[i]))
      && t.events[n + 1] == Waited(spec.title, spec.timeout)
      && (forall i | n + 2 <= i < |t.events| :: t.events[i] == Called(spec.provider))
  {
    var w := WaitRun(spec, polls, failing);
    var pre := [Called(GetStonithResources)] + Calls(calls);
    SwitchAccepted(calls, spec, before, failing, polls);
    WaitRunMeaning(spec, polls, failing);
    var es := pre + w.events;
    assert SwitchRun(calls, spec, before, failing, polls).events == es;
    assert |pre| == |calls| + 1;
    forall i | 0 <= i < |calls|
      ensures es[i + 1] == Called(calls[i])
    {
      assert es[i + 1] == pre[i + 1] == Calls(calls)[i];
    }
    assert es[|calls| + 1] == w.events[0];
    forall i | |calls| + 2 <= i < |es|
      ensures es[i] == Called(spec.provider)
    {
      assert es[i] == w.events[i - |pre|];
    }
  }

  /**
   * The first rejected request, at index `i`, raises its connector error:
   * the requests before it and it were sent, no wait started, and the
   * snapshot is the one before.
   */
  lemma SwitchRejected(calls: seq<Call>, i: nat, spec: WaitSpec, before: Cluster, failing: set<Call>, polls: Polls)
    requires GetStonithResources !in failing
    requires i < |calls| && calls[i] in failing
    requires forall j | 0 <= j < i :: calls[j] !in failing
    ensures SwitchRun(calls, spec, before, failing, polls) ==
            Trace(Raised(ConnectorError(calls[i])), [Called(GetStonithResources)] + Calls(calls[..i + 1]), before)
  {
    var w := WaitRun(spec, polls, failing);
    IssueStopsAt(calls, i, failing, before, w);
    CallsSnoc(calls, i);
    IssueOne(GetStonithResources, failing, before, Issue(calls, failing, before, w));
  }

  /**
   * A switch returns only when the listing and every request were accepted
   * and the waiter's predicate holds of the last snapshot; otherwise it
   * raises the rejected listing's, request's or poll's connector error, or
   * the waiter's timeout.
   */
  lemma SwitchOutcome(calls: seq<Call>, spec: WaitSpec, before: Cluster, failing: set<Call>, polls: Polls)
    ensures var t := SwitchRun(calls, spec, before, failing, polls);
      && (t.outcome == Ok ==>
            && spec.converged(t.after) && GetStonithResources !in failing
            && forall i | 0 <= i < |calls| :: calls[i] !in failing)
      && (t.outcome.Raised? ==>
            || t.outcome.error == TimeoutError(spec.title)
            || (t.outcome.error.ConnectorError? && t.outcome.error.call in failing
                && (t.outcome.error.call in calls || t.outcome.error.call in {GetStonithResources, spec.provider})))
  {
    var w := WaitRun(spec, polls, failing);
    WaitRunMeaning(spec, polls, failing);
    if GetStonithResources !in failing {
      IssueOne(GetStonithResources, failing, before, Issue(calls, failing, before, w));
      if exists i | 0 <= i < |calls| :: calls[i] in failing {
        IssueRejected(calls, failing, before, w);
      } else {
        IssueAccepted(calls, failing, before, w);
      }
    }
  }

  /** Everything a switch sends: the listing, its requests, the wait and the wait's polls. */
  lemma SwitchSends(calls: seq<Call>, spec: WaitSpec, before: Cluster, failing: set<Call>, polls: Polls)
    ensures forall e | e in SwitchRun(calls, spec, before, failing, polls).events ::
      e in Calls(calls) || e in {Called(GetStonithResources), Waited(spec.title, spec.timeout), Called(spec.provider)}
  {
    var w := WaitRun(spec, polls, failing);
    WaitRunMeaning(spec, polls, failing);
    var inner := Issue(calls, failing, before, w);
    IssueSends(calls, failing, before, w);
    IssueSends([GetStonithResources], failing, before, inner);
    assert Calls([GetStonithResources]) == [Called(GetStonithResources)];
    forall e | e in w.events
      ensures e == Waited(spec.title, spec.timeout) || e == Called(spec.provider)
    {
      var k :| 0 <= k < |w.events| && w.events[k] == e;
    }
  }

  /** disable_stonith is the switch over the listed resources' disable requests. */
  lemma DisableStonithIsSwitch(before: Cluster, failing: set<Call>, timeout: int, polls: Polls)
    ensures DisableStonithRun(before, failing, timeout, polls) ==
            SwitchRun(Disables(before.stonith), StonithDisabled(timeout), before, failing, polls)
  {
  }

  /**
   * disable_stonith with every request accepted: get_stonith_resources, then
   * disable_resource exactly once per listed resource in list order, and only
   * then the wait for "stonith resources are disabled".
   */
  lemma DisableStonithOrder(before: Cluster, failing: set<Call>, timeout: int, polls: Polls)
    requires GetStonithResources !in failing
    requires forall r | r in before.stonith :: DisableResource(r) !in failing
    ensures var t := DisableStonithRun(before, failing, timeout, polls);
      var n := |before.stonith|;
      && |t.events| > n + 2 && t.events[0] == Called(GetStonithResources)
      && (forall i | 0 <= i < n :: t.events[i + 1] == Called(DisableResource(before.stonith[i])))
      && t.events[n + 1] == Waited("stonith resources are disabled", timeout)
      && (forall i | n + 2 <= i < |t.events| :: t.events[i] == Called(GetStonithResources))
  {
    var calls := Disables(before.stonith);
    forall i | 0 <= i < |calls|
      ensures calls[i] !in failing
    {
      assert before.stonith[i] in before.stonith;
    }
    DisableStonithIsSwitch(before, failing, timeout, polls);
    SwitchOrder(calls, StonithDisabled(timeout), before, failing, polls);
  }

  /**
   * disable_stonith stopping at the first rejected disable_resource, for the
   * resource at index `i`: that request's connector error, every earlier
   * resource's request and this one sent in order, and no wait.
   */
  lemma DisableStonithRejected(before: Cluster, failing: set<Call>, timeout: int, polls: Polls, i: nat)
    requires GetStonithResources !in failing
    requires i < |before.stonith| && DisableResource(before.stonith[i]) in failing
    requires forall j | 0 <= j < i :: DisableResource(before.stonith[j]) !in failing
    ensures var t := DisableStonithRun(before, failing, timeout, polls);
      && t.outcome == Raised(ConnectorError(DisableResource(before.stonith[i])))
      && |t.events| == i + 2 && t.events[0] == Called(GetStonithResources)
      && (forall j | 0 <= j <= i :: t.events[j + 1] == Called(DisableResource(before.stonith[j])))
      && t.after == before
  {
    SwitchRejected(Disables(before.stonith), i, StonithDisabled(timeout), before, failing, polls);
  }

  /**
   * disable_stonith returns only with no stonith resource running in the last
   * snapshot polled, and after every disable request was accepted; it raises
   * only the waiter's timeout or a connector error of a request it sent.
   */
  lemma DisableStonithOutcome(before: Cluster, failing: set<Call>, timeout: int, polls: Polls)
    ensures var t := DisableStonithRun(before, failing, timeout, polls);
      && (t.outcome == Ok ==>
            AllStopped(t.after.stonith) && forall r | r in before.stonith :: DisableResource(r) !in failing)
      && (t.outcome.Raised? ==>
            || t.outcome.error == TimeoutError("stonith resources are disabled")
            || t.outcome.error == ConnectorError(GetStonithResources)
            || exists r | r in before.stonith :: t.outcome.error == ConnectorError(DisableResource(r)))
  {
    var calls := Disables(before.stonith);
    SwitchOutcome(calls, StonithDisabled(timeout), before, failing, polls);
    var t := DisableStonithRun(before, failing, timeout, polls);
    if t.outcome == Ok {
      forall r | r in before.stonith
        ensures DisableResource(r) !in failing
      {
        var i :| 0 <= i < |before.stonith| && before.stonith[i] == r;
        assert calls[i] == DisableResource(r);
      }
    }
    if t.outcome.Raised? && t.outcome.error.ConnectorError? && t.outcome.error.call in calls {
      var i :| 0 <= i < |calls| && calls[i] == t.outcome.error.call;
      assert before.stonith[i] in before.stonith;
    }
  }

  /** disable_stonith sends nothing but stonith listings, disable requests and its wait. */
  lemma DisableStonithSends(before: Cluster, failing: set<Call>, timeout: int, polls: Polls)
    ensures forall e | e in DisableStonithRun(before, failing, timeout, polls).events ::
      || e == Called(GetStonithResources)
      || e == Waited("stonith resources are disabled", timeout)
      || (e.Called? && e.call.DisableResource?)
  {
    var calls := Disables(before.stonith);
    SwitchSends(calls, StonithDisabled(timeout), before, failing, polls);
    forall e | e in Calls(calls)
      ensures e.Called? && e.call.DisableResource?
    {
      var i :| 0 <= i < |calls| && Calls(calls)[i] == e;
    }
  }

  lemma EnableStonithIsSwitch(before: Cluster, failing: set<Call>, timeout: int, polls: Polls)
    ensures EnableStonithRun(before, failing, timeout, polls) ==
            SwitchRun(Enables(before.stonith), StonithEnabled(timeout), before, failing, polls)
  {
  }

  /** enable_stonith with every request accepted: listing, enables in list order, then the wait. */
  lemma EnableStonithOrder(before: Cluster, failing: set<Call>, timeout: int, polls: Polls)
    requires GetStonithResources !in failing
    requires forall r | r in before.stonith :: EnableResource(r) !in failing
    ensures var t := EnableStonithRun(before, failing, timeout, polls);
      var n := |before.stonith|;
      && |t.events| > n + 2 && t.events[0] == Called(GetStonithResources)
      && (forall i | 0 <= i < n :: t.events[i + 1] == Called(EnableResource(before.stonith[i])))
      && t.events[n + 1] == Waited("stonith resources are enabled", timeout)
      && (forall i | n + 2 <= i < |t.events| :: t.events[i] == Called(GetStonithResources))
  {
    var calls := Enables(before.stonith);
    forall i | 0 <= i < |calls|
      ensures calls[i] !in failing
    {
      assert before.stonith[i] in before.stonith;
    }
    EnableStonithIsSwitch(before, failing, timeout, polls);
    SwitchOrder(calls, StonithEnabled(timeout), before, failing, polls);
  }

  /** enable_stonith stopping at the first rejected enable_resource, with no wait. */
  lemma EnableStonithRejected(before: Cluster, failing: set<Call>, timeout: int, polls: Polls, i: nat)
    requires GetStonithResources !in failing
    requires i < |before.stonith| && EnableResource(before.stonith[i]) in failing
    requires forall j | 0 <= j < i :: EnableResource(before.stonith[j]) !in failing
    ensures var t := EnableStonithRun(before, failing, timeout, polls);
      && t.outcome == Raised(ConnectorError(EnableResource(before.stonith[i])))
      && |t.events| == i + 2 && t.events[0] == Called(GetStonithResources)
      && (forall j | 0 <= j <= i :: t.events[j + 1] == Called(EnableResource(before.stonith[j])))
      && t.after == before
  {
    SwitchRejected(Enables(before.stonith), i, StonithEnabled(timeout), before, failing, polls);
  }

  /** enable_stonith returns only with every stonith resource running in the last snapshot polled. */
  lemma EnableStonithOutcome(before: Cluster, failing: set<Call>, timeout: int, polls: Polls)
    ensures var t := EnableStonithRun(before, failing, timeout, polls);
      && (t.outcome == Ok ==>
            AllStarted(t.after.stonith) && forall r | r in before.stonith :: EnableResource(r) !in failing)
      && (t.outcome.Raised? ==>
            || t.outcome.error == TimeoutError("stonith resources are enabled")
            || t.outcome.error == ConnectorError(GetStonithResources)
            || exists r | r in before.stonith :: t.outcome.error == ConnectorError(EnableResource(r)))
  {
    var calls := Enables(before.stonith);
    SwitchOutcome(calls, StonithEnabled(timeout), before, failing, polls);
    var t := EnableStonithRun(before, failing, timeout, polls);
    if t.outcome == Ok {
      forall r | r in before.stonith
        ensures EnableResource(r) !in failing
      {
        var i :| 0 <= i < |before.stonith| && before.stonith[i] == r;
        assert calls[i] == EnableResource(r);
      }
    }
    if t.outcome.Raised? && t.outcome.error.ConnectorError? && t.outcome.error.call in calls {
      var i :| 0 <= i < |calls| && calls[i] == t.outcome.error.call;
      assert before.stonith[i] in before.stonith;
    }
  }

  /** enable_stonith sends nothing but stonith listings, enable requests and its wait. */
  lemma EnableStonithSends(before: Cluster, failing: set<Call>, timeout: int, polls: Polls)
    ensures forall e | e in EnableStonithRun(before, failing, timeout, polls).events ::
      || e == Called(GetStonithResources)
      || e == Waited("stonith resources are enabled", timeout)
      || (e.Called? && e.call.EnableResource?)
  {
    var calls := Enables(before.stonith);
    SwitchSends(calls, StonithEnabled(timeout), before, failing, polls);
    forall e | e in Calls(calls)
      ensures e.Called? && e.call.EnableResource?
    {
      var i :| 0 <= i < |calls| && Calls(calls)[i] == e;
    }
  }

  // ---- _cluster_maintenance ----

  /**
   * The exception mapping of _cluster_maintenance: a timeout of
   * disable_stonith becomes MaintenanceFailed and standby_all is never
   * requested; any other error of disable_stonith escapes unchanged; after a
   * successful disable_stonith, any failure of standby_all becomes
   * MaintenanceFailed and success is standby_all's success.
   */
  lemma MaintenanceErrorMapping(before: Cluster, failing: set<Call>, timeout: int, stonithPolls: Polls, standbyPolls: Polls)
    ensures var d := DisableStonithRun(before, failing, timeout, stonithPolls);
      var t := MaintenanceSteps(before, failing, timeout, stonithPolls, standbyPolls);
      && (d.outcome.Raised? && d.outcome.error.TimeoutError? ==>
            t.outcome == Raised(MaintenanceFailed) && Called(StandbyAll) !in t.events)
      && (d.outcome.Raised? && !d.outcome.error.TimeoutError? ==>
            t == d && t.outcome != Raised(MaintenanceFailed))
      && (d.outcome == Ok ==>
            var s := StandbyAllRun(d.after, failing, timeout, standbyPolls);
            && (s.outcome.Raised? ==> t.outcome == Raised(MaintenanceFailed))
            && (s.outcome == Ok ==> t.outcome == Ok)
            && t.events == d.events + s.events)
  {
    var d := DisableStonithRun(before, failing, timeout, stonithPolls);
    DisableStonithSends(before, failing, timeout, stonithPolls);
    DisableStonithOutcome(before, failing, timeout, stonithPolls);
  }

  /** What maintenance sends when the probe is accepted: get_nodes, then the two steps. */
  lemma MaintenanceProbed(before: Cluster, failing: set<Call>, timeout: int, stonithPolls: Polls, standbyPolls: Polls)
    requires GetNodes !in failing
    ensures MaintenanceRun(before, failing, timeout, stonithPolls, standbyPolls) ==
            Prepend([Called(GetNodes)], MaintenanceSteps(before, failing, timeout, stonithPolls, standbyPolls))
  {
    OpenAccepted(before, failing, MaintenanceSteps(before, failing, timeout, stonithPolls, standbyPolls));
  }

  /**
   * Maintenance fails only with MaintenanceFailed or a connector error of the
   * probe, of the stonith listing or of a disable request.
   */
  lemma MaintenanceErrors(before: Cluster, failing: set<Call>, timeout: int, stonithPolls: Polls, standbyPolls: Polls)
    ensures var t := MaintenanceRun(before, failing, timeout, stonithPolls, standbyPolls);
      t.outcome.Raised? ==>
        || t.outcome.error == MaintenanceFailed
        || t.outcome.error == ConnectorError(GetNodes)
        || t.outcome.error == ConnectorError(GetStonithResources)
        || exists r | r in before.stonith :: t.outcome.error == ConnectorError(DisableResource(r))
  {
    MaintenanceErrorMapping(before, failing, timeout, stonithPolls, standbyPolls);
    DisableStonithOutcome(before, failing, timeout, stonithPolls);
    if GetNodes !in failing {
      MaintenanceProbed(before, failing, timeout, stonithPolls, standbyPolls);
    }
  }

  /** The requests maintenance may send: none of them enables, unstandbys or undoes anything. */
  predicate MaintenanceEvent(e: Event, timeout: int) {
    || e in {Called(GetNodes), Called(GetStonithResources), Called(StandbyAll), Called(GetResources)}
    || (e.Called? && e.call.DisableResource?)
    || e in {Waited("stonith resources are disabled", timeout), Waited("no running resources", timeout)}
  }

  /** unstandby_all sends nothing but its mutation, its wait and get_nodes polls. */
  lemma UnstandbyAllSends(before: Cluster, failing: set<Call>, timeout: int, polls: Polls)
    ensures forall e | e in UnstandbyAllRun(before, failing, timeout, polls).events ::
      e in {Called(UnstandbyAll), Waited("no standby nodes in cluster", timeout), Called(GetNodes)}
  {
    var t := UnstandbyAllRun(before, failing, timeout, polls);
    UnstandbyAllMeaning(before, failing, timeout, polls);
    forall e | e in t.events
      ensures e in {Called(UnstandbyAll), Waited("no standby nodes in cluster", timeout), Called(GetNodes)}
    {
      var k :| 0 <= k < |t.events| && t.events[k] == e;
    }
  }

  /** standby_all sends nothing but its mutation, its wait and get_resources polls. */
  lemma StandbyAllSends(before: Cluster, failing: set<Call>, timeout: int, polls: Polls)
    ensures forall e | e in StandbyAllRun(before, failing, timeout, polls).events ::
      e in {Called(StandbyAll), Waited("no running resources", timeout), Called(GetResources)}
  {
    var t := StandbyAllRun(before, failing, timeout, polls);
    StandbyAllMeaning(before, failing, timeout, polls);
    forall e | e in t.events
      ensures e in {Called(StandbyAll), Waited("no running resources", timeout), Called(GetResources)}
    {
      var k :| 0 <= k < |t.events| && t.events[k] == e;
    }
  }

  /**
   * No rollback: whatever happens, maintenance never sends enable_resource,
   * unstandby_all, unstandby_node or anything but its own steps, so an
   * interrupted maintenance leaves stonith disabled.
   */
  lemma MaintenanceNoRollback(before: Cluster, failing: set<Call>, timeout: int, stonithPolls: Polls, standbyPolls: Polls)
    ensures var t := MaintenanceRun(before, failing, timeout, stonithPolls, standbyPolls);
      && (forall e | e in t.events :: MaintenanceEvent(e, timeout))
      && (forall e | e in t.events :: e.Called? ==> !e.call.EnableResource? && !e.call.UnstandbyAll? && !e.call.UnstandbyNode?)
  {
    var steps := MaintenanceSteps(before, failing, timeout, stonithPolls, standbyPolls);
    MaintenanceStepsSend(before, failing, timeout, stonithPolls, standbyPolls);
    OpenSends(before, failing, steps);
  }

  /** What maintenance sends after its probe. */
  lemma MaintenanceStepsSend(before: Cluster, failing: set<Call>, timeout: int, stonithPolls: Polls, standbyPolls: Polls)
    ensures forall e | e in MaintenanceSteps(before, failing, timeout, stonithPolls, standbyPolls).events :: MaintenanceEvent(e, timeout)
  {
    var d := DisableStonithRun(before, failing, timeout, stonithPolls);
    DisableStonithSends(before, failing, timeout, stonithPolls);
    StandbyAllSends(d.after, failing, timeout, standbyPolls);
  }

  /**
   * A successful maintenance follows a disable_stonith that succeeded and saw
   * every stonith resource stopped, and leaves no resource running in the
   * last snapshot polled; when the stonith resources are among the resources
   * that snapshot reports, they are stopped there too.
   */
  lemma MaintenanceSuccess(before: Cluster, failing: set<Call>, timeout: int, stonithPolls: Polls, standbyPolls: Polls)
    ensures var t := MaintenanceRun(before, failing, timeout, stonithPolls, standbyPolls);
      t.outcome == Ok ==>
        && GetNodes !in failing
        && DisableStonithRun(before, failing, timeout, stonithPolls).outcome == Ok
        && AllStopped(DisableStonithRun(before, failing, timeout, stonithPolls).after.stonith)
        && AllStopped(t.after.resources)
        && ((forall r | r in t.after.stonith :: r in t.after.resources) ==> AllStopped(t.after.stonith))
  {
    var t := MaintenanceRun(before, failing, timeout, stonithPolls, standbyPolls);
    var d := DisableStonithRun(before, failing, timeout, stonithPolls);
    MaintenanceErrorMapping(before, failing, timeout, stonithPolls, standbyPolls);
    if t.outcome == Ok {
      MaintenanceProbed(before, failing, timeout, stonithPolls, standbyPolls);
      DisableStonithOutcome(before, failing, timeout, stonithPolls);
      StandbyAllMeaning(d.after, failing, timeout, standbyPolls);
      if forall r | r in t.after.stonith :: r in t.after.resources {
        forall i | 0 <= i < |t.after.stonith|
          ensures !t.after.stonith[i].active
        {
          assert t.after.stonith[i] in t.after.resources;
          var j :| 0 <= j < |t.after.resources| && t.after.resources[j] == t.after.stonith[i];
        }
      }
    }
  }

  /**
   * With every request accepted, maintenance succeeds as soon as the stonith
   * polls and then the resource polls each see their condition once.
   */
  lemma MaintenanceSucceeds(before: Cluster, timeout: int, stonithPolls: Polls, standbyPolls: Polls)
    requires exists j | 0 <= j < |stonithPolls| :: AllStopped(stonithPolls[j].stonith)
    requires exists j | 0 <= j < |standbyPolls| :: AllStopped(standbyPolls[j].resources)
    ensures MaintenanceRun(before, {}, timeout, stonithPolls, standbyPolls).outcome == Ok
  {
    var d := DisableStonithRun(before, {}, timeout, stonithPolls);
    MaintenanceProbed(before, {}, timeout, stonithPolls, standbyPolls);
    DisableStonithIsSwitch(before, {}, timeout, stonithPolls);
    SwitchAccepted(Disables(before.stonith), StonithDisabled(timeout), before, {}, stonithPolls);
    WaitRunMeaning(StonithDisabled(timeout), stonithPolls, {});
    IssueOne(StandbyAll, {}, d.after, WaitRun(NoRunningResources(timeout), standbyPolls, {}));
    WaitRunMeaning(NoRunningResources(timeout), standbyPolls, {});
  }

  // ---- _cluster_unmaintenance ----

  /**
   * Unmaintenance order: after the probe comes unstandby_all, and every wait
   * it starts uses the one timeout given; when unstandby_all raises, its
   * error escapes and stonith is neither listed nor enabled.
   */
  lemma UnmaintenanceOrder(before: Cluster, failing: set<Call>, timeout: int, standbyPolls: Polls, stonithPolls: Polls)
    ensures var t := UnmaintenanceRun(before, failing, timeout, standbyPolls, stonithPolls);
      && t.events[0] == Called(GetNodes)
      && (GetNodes !in failing ==> |t.events| > 1 && t.events[1] == Called(UnstandbyAll))
      && (forall e | e in t.events :: e.Waited? ==> e.timeout == timeout)
      && (var u := UnstandbyAllRun(before, failing, timeout, standbyPolls);
          u.outcome.Raised? ==>
            && (GetNodes !in failing ==> t.outcome == u.outcome)
            && Called(GetStonithResources) !in t.events
            && forall e | e in t.events :: e.Called? ==> !e.call.EnableResource?)
  {
    var steps := UnmaintenanceSteps(before, failing, timeout, standbyPolls, stonithPolls);
    UnmaintenanceStepsOrder(before, failing, timeout, standbyPolls, stonithPolls);
    OpenSends(before, failing, steps);
    if GetNodes in failing {
      OpenRejected(before, failing, steps);
    } else {
      OpenAccepted(before, failing, steps);
      assert UnmaintenanceRun(before, failing, timeout, standbyPolls, stonithPolls).events[1] == steps.events[0];
    }
  }

  /** Unmaintenance after its probe: unstandby_all first, one timeout throughout, no stonith step after a failed unstandby. */
  lemma UnmaintenanceStepsOrder(before: Cluster, failing: set<Call>, timeout: int, standbyPolls: Polls, stonithPolls: Polls)
    ensures var t := UnmaintenanceSteps(before, failing, timeout, standbyPolls, stonithPolls);
      && |t.events| > 0 && t.events[0] == Called(UnstandbyAll)
      && (forall e | e in t.events :: e.Waited? ==> e.timeout == timeout)
      && (var u := UnstandbyAllRun(before, failing, timeout, standbyPolls);
          u.outcome.Raised? ==>
            && t == u
            && forall e | e in t.events :: e in {Called(UnstandbyAll), Waited("no standby nodes in cluster", timeout), Called(GetNodes)})
  {
    var u := UnstandbyAllRun(before, failing, timeout, standbyPolls);
    UnstandbyAllMeaning(before, failing, timeout, standbyPolls);
    UnstandbyAllSends(before, failing, timeout, standbyPolls);
    if !u.outcome.Raised? {
      var en := EnableStonithRun(u.after, failing, timeout, stonithPolls);
      EnableStonithSends(u.after, failing, timeout, stonithPolls);
      assert UnmaintenanceSteps(before, failing, timeout, standbyPolls, stonithPolls).events == u.events + en.events;
    }
  }

  /**
   * Unmaintenance returns only with every stonith resource running in the
   * last snapshot polled; its errors escape as they are, never as
   * MaintenanceFailed.
   */
  lemma UnmaintenanceOutcome(before: Cluster, failing: set<Call>, timeout: int, standbyPolls: Polls, stonithPolls: Polls)
    ensures var t := UnmaintenanceRun(before, failing, timeout, standbyPolls, stonithPolls);
      && (t.outcome == Ok ==> AllStarted(t.after.stonith))
      && (t.outcome.Raised? ==> t.outcome.error.ConnectorError? || t.outcome.error.TimeoutError?)
  {
    var u := UnstandbyAllRun(before, failing, timeout, standbyPolls);
    UnstandbyAllMeaning(before, failing, timeout, standbyPolls);
    EnableStonithOutcome(u.after, failing, timeout, stonithPolls);
    if GetNodes !in failing {
      OpenAccepted(before, failing, UnmaintenanceSteps(before, failing, timeout, standbyPolls, stonithPolls));
    }
  }

  /**
   * Unmaintenance of a cluster that is already back to normal (no standby
   * node, every stonith resource running) succeeds at the first poll of
   * each wait when the tool accepts every request.
   */
  lemma UnmaintenanceFromNormal(before: Cluster, timeout: int, standbyPolls: Polls, stonithPolls: Polls)
    requires NonStandbyNodes(standbyPolls[0].nodes) && AllStarted(stonithPolls[0].stonith)
    ensures var t := UnmaintenanceRun(before, {}, timeout, standbyPolls, stonithPolls);
      t.outcome == Ok && t.after == stonithPolls[0]
  {
    var u := UnstandbyAllRun(before, {}, timeout, standbyPolls);
    IssueOne(UnstandbyAll, {}, before, WaitRun(NoStandbyNodes(timeout), standbyPolls, {}));
    EnableStonithIsSwitch(u.after, {}, timeout, stonithPolls);
    SwitchAccepted(Enables(u.after.stonith), StonithEnabled(timeout), u.after, {}, stonithPolls);
    OpenAccepted(before, {}, UnmaintenanceSteps(before, {}, timeout, standbyPolls, stonithPolls));
  }
}
