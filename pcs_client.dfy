/**
 * pcswrap/pcswrap/client.py: the cluster predicates, the Client that pairs
 * each connector mutation with a convergence wait, and the maintenance and
 * unmaintenance transactions built from those pairs.
 *
 * Each operation that talks to the cluster has a specification function
 * (`...Run`) giving its Trace as a function of the snapshot before, the
 * requests the tool rejects and the snapshots its waits poll; the methods
 * are proved to produce exactly that trace, and PcsProperties proves what
 * the source promises about the traces.
 */
module PcsClient {
  import opened PcsTypes
  import opened PcsConnector
  import opened PcsWaiter

  /** The timeout `standby_all`, `unstandby_all` and the stonith switches use by default. */
  const DefaultTimeout: int := 120

  /** all_stopped: no resource of the list is active. */
  function AllStopped(rs: seq<Resource>): (b: bool)
    ensures b <==> forall i | 0 <= i < |rs| :: !rs[i].active
  {
    if rs == [] then true else !rs[0].active && AllStopped(rs[1..])
  }

  /** non_standby_nodes: no node of the list is in standby. */
  function NonStandbyNodes(ns: seq<Node>): (b: bool)
    ensures b <==> forall i | 0 <= i < |ns| :: !ns[i].standby
  {
    if ns == [] then true else !ns[0].standby && NonStandbyNodes(ns[1..])
  }

  /** all_started (local to enable_stonith): every resource of the list is active. */
  function AllStarted(rs: seq<Resource>): (b: bool)
    ensures b <==> forall i | 0 <= i < |rs| :: rs[i].active
  {
    if rs == [] then true else rs[0].active && AllStarted(rs[1..])
  }

  /** The filter in get_online_nodes: the online nodes, in the order given. */
  function OnlineNodes(ns: seq<Node>): (r: seq<Node>)
    ensures forall n :: n in r <==> n in ns && n.online
    ensures |r| <= |ns|
  {
    if ns == [] then [] else (if ns[0].online then [ns[0]] else []) + OnlineNodes(ns[1..])
  }

  /** The four waiters the client builds. */
  function NoRunningResources(timeout: int): WaitSpec {
    WaitSpec("no running resources", timeout, GetResources, (c: Cluster) => AllStopped(c.resources))
  }

  function NoStandbyNodes(timeout: int): WaitSpec {
    WaitSpec("no standby nodes in cluster", timeout, GetNodes, (c: Cluster) => NonStandbyNodes(c.nodes))
  }

  function StonithDisabled(timeout: int): WaitSpec {
    WaitSpec("stonith resources are disabled", timeout, GetStonithResources, (c: Cluster) => AllStopped(c.stonith))
  }

  function StonithEnabled(timeout: int): WaitSpec {
    WaitSpec("stonith resources are enabled", timeout, GetStonithResources, (c: Cluster) => AllStarted(c.stonith))
  }

  /** One disable_resource request per resource, in list order. */
  function Disables(rs: seq<Resource>): (cs: seq<Call>)
    ensures |cs| == |rs| && forall i | 0 <= i < |rs| :: cs[i] == DisableResource(rs[i])
  {
    if rs == [] then [] else [DisableResource(rs[0])] + Disables(rs[1..])
  }

  /** One enable_resource request per resource, in list order. */
  function Enables(rs: seq<Resource>): (cs: seq<Call>)
    ensures |cs| == |rs| && forall i | 0 <= i < |rs| :: cs[i] == EnableResource(rs[i])
  {
    if rs == [] then [] else [EnableResource(rs[0])] + Enables(rs[1..])
  }

  // ---- specifications of the operations ----

  /** Client(): the constructor probes the connector with get_nodes before `rest`. */
  function OpenRun(before: Cluster, failing: set<Call>, rest: Trace): Trace {
    Issue([GetNodes], failing, before, rest)
  }

  function StandbyAllRun(before: Cluster, failing: set<Call>, timeout: int, polls: Polls): Trace {
    Issue([StandbyAll], failing, before, WaitRun(NoRunningResources(timeout), polls, failing))
  }

  function UnstandbyAllRun(before: Cluster, failing: set<Call>, timeout: int, polls: Polls): Trace {
    Issue([UnstandbyAll], failing, before, WaitRun(NoStandbyNodes(timeout), polls, failing))
  }

  function DisableStonithRun(before: Cluster, failing: set<Call>, timeout: int, polls: Polls): Trace {
    Issue([GetStonithResources], failing, before,
      Issue(Disables(before.stonith), failing, before, WaitRun(StonithDisabled(timeout), polls, failing)))
  }

  function EnableStonithRun(before: Cluster, failing: set<Call>, timeout: int, polls: Polls): Trace {
    Issue([GetStonithResources], failing, before,
      Issue(Enables(before.stonith), failing, before, WaitRun(StonithEnabled(timeout), polls, failing)))
  }

  /** Once get_stonith_resources is accepted, the requests for what it listed follow. */
  lemma DisableStonithRunListed(before: Cluster, failing: set<Call>, timeout: int, polls: Polls)
    requires GetStonithResources !in failing
    ensures DisableStonithRun(before, failing, timeout, polls) ==
      Prepend([Called(GetStonithResources)], Issue(Disables(before.stonith), failing, before, WaitRun(StonithDisabled(timeout), polls, failing)))
  {
    IssueOne(GetStonithResources, failing, before, Issue(Disables(before.stonith), failing, before, WaitRun(StonithDisabled(timeout), polls, failing)));
  }

  /** Once get_stonith_resources is accepted, the requests for what it listed follow. */
  lemma EnableStonithRunListed(before: Cluster, failing: set<Call>, timeout: int, polls: Polls)
    requires GetStonithResources !in failing
    ensures EnableStonithRun(before, failing, timeout, polls) ==
      Prepend([Called(GetStonithResources)], Issue(Enables(before.stonith), failing, before, WaitRun(StonithEnabled(timeout), polls, failing)))
  {
    IssueOne(GetStonithResources, failing, before, Issue(Enables(before.stonith), failing, before, WaitRun(StonithEnabled(timeout), polls, failing)));
  }

  /**
   * _cluster_maintenance after its Client() probe: disable stonith, then
   * standby every node. A timeout of the first step and any failure of the
   * second become MaintenanceFailed; nothing is rolled back.
   */
  function MaintenanceSteps(before: Cluster, failing: set<Call>, timeout: int, stonithPolls: Polls, standbyPolls: Polls): Trace {
    var d := DisableStonithRun(before, failing, timeout, stonithPolls);
    if d.outcome.Raised? && d.outcome.error.TimeoutError? then Trace(Raised(MaintenanceFailed), d.events, d.after)
    else if d.outcome.Raised? then d
    else
      var s := StandbyAllRun(d.after, failing, timeout, standbyPolls);
      Trace(if s.outcome.Raised? then Raised(MaintenanceFailed) else Ok, d.events + s.events, s.after)
  }

  function MaintenanceRun(before: Cluster, failing: set<Call>, timeout: int, stonithPolls: Polls, standbyPolls: Polls): Trace {
    OpenRun(before, failing, MaintenanceSteps(before, failing, timeout, stonithPolls, standbyPolls))
  }

  /** _cluster_unmaintenance after its Client() probe: unstandby every node, then enable stonith. */
  function UnmaintenanceSteps(before: Cluster, failing: set<Call>, timeout: int, standbyPolls: Polls, stonithPolls: Polls): Trace {
    var u := UnstandbyAllRun(before, failing, timeout, standbyPolls);
    if u.outcome.Raised? then u
    else Prepend(u.events, EnableStonithRun(u.after, failing, timeout, stonithPolls))
  }

  function UnmaintenanceRun(before: Cluster, failing: set<Call>, timeout: int, standbyPolls: Polls, stonithPolls: Polls): Trace {
    OpenRun(before, failing, UnmaintenanceSteps(before, failing, timeout, standbyPolls, stonithPolls))
  }

  // ---- the client ----

  class Client {
    const connector: Connector

    /** Stores the connector; Open adds the probe that __init__ runs. */
    constructor (connector: Connector)
      ensures this.connector == connector
    {
      this.connector := connector;
    }

    /** _ensure_sane: one get_nodes whose only effect is that it may raise. */
    method EnsureSane() returns (r: Outcome)
      modifies connector
      ensures connector.log == old(connector.log) + [Called(GetNodes)] && connector.cluster == old(connector.cluster)
      ensures r == if GetNodes in connector.failing then Raised(ConnectorError(GetNodes)) else Ok
    {
      var nodes := connector.GetNodes();
      r := if nodes.Failure? then Raised(nodes.error) else Ok;
    }

    method GetAllNodes() returns (r: Result<seq<Node>>)
      modifies connector
      ensures connector.log == old(connector.log) + [Called(GetNodes)] && connector.cluster == old(connector.cluster)
      ensures r == if GetNodes in connector.failing then Failure(ConnectorError(GetNodes)) else Success(connector.cluster.nodes)
    {
      r := connector.GetNodes();
    }

    method GetOnlineNodes() returns (r: Result<seq<Node>>)
      modifies connector
      ensures connector.log == old(connector.log) + [Called(GetNodes)] && connector.cluster == old(connector.cluster)
      ensures r == if GetNodes in connector.failing then Failure(ConnectorError(GetNodes))
                   else Success(OnlineNodes(connector.cluster.nodes))
    {
      var nodes := connector.GetNodes();
      r := if nodes.Failure? then nodes else Success(OnlineNodes(nodes.value));
    }

    method UnstandbyNode(name: string) returns (r: Outcome)
      modifies connector
      ensures connector.log == old(connector.log) + [Called(Call.UnstandbyNode(name))] && connector.cluster == old(connector.cluster)
      ensures r == if Call.UnstandbyNode(name) in connector.failing then Raised(ConnectorError(Call.UnstandbyNode(name))) else Ok
    {
      r := connector.Request(Call.UnstandbyNode(name));
    }

    method StandbyNode(name: string) returns (r: Outcome)
      modifies connector
      ensures connector.log == old(connector.log) + [Called(Call.StandbyNode(name))] && connector.cluster == old(connector.cluster)
      ensures r == if Call.StandbyNode(name) in connector.failing then Raised(ConnectorError(Call.StandbyNode(name))) else Ok
    {
      r := connector.Request(Call.StandbyNode(name));
    }

    method GetClusterName() returns (r: Result<string>)
      modifies connector
      ensures connector.log == old(connector.log) + [Called(Call.GetClusterName)] && connector.cluster == old(connector.cluster)
      ensures r == if Call.GetClusterName in connector.failing then Failure(ConnectorError(Call.GetClusterName))
                   else Success(connector.cluster.name)
    {
      r := connector.GetClusterName();
    }

    method ShutdownNode(name: string) returns (r: Outcome)
      modifies connector
      ensures connector.log == old(connector.log) + [Called(Call.ShutdownNode(name))] && connector.cluster == old(connector.cluster)
      ensures r == if Call.ShutdownNode(name) in connector.failing then Raised(ConnectorError(Call.ShutdownNode(name))) else Ok
    {
      r := connector.Request(Call.ShutdownNode(name));
    }

    method StandbyAll(timeout: int, polls: Polls) returns (r: Outcome)
      modifies connector
      ensures var t := StandbyAllRun(old(connector.cluster), connector.failing, timeout, polls);
        connector.log == old(connector.log) + t.events && connector.cluster == t.after && r == t.outcome
    {
      var sent := connector.Request(Call.StandbyAll);
      if sent.Raised? {
        return sent;
      }
      r := Wait(connector, NoRunningResources(timeout), polls);
    }

    method UnstandbyAll(timeout: int, polls: Polls) returns (r: Outcome)
      modifies connector
      ensures var t := UnstandbyAllRun(old(connector.cluster), connector.failing, timeout, polls);
        connector.log == old(connector.log) + t.events && connector.cluster == t.after && r == t.outcome
    {
      var sent := connector.Request(Call.UnstandbyAll);
      if sent.Raised? {
        return sent;
      }
      r := Wait(connector, NoStandbyNodes(timeout), polls);
    }

    /**
     * The loop shared by disable_stonith and enable_stonith: the requests are
     * sent one by one, and the first one the tool rejects raises out of it.
     */
    method SendEach(calls: seq<Call>, ghost rest: Trace) returns (r: Outcome, ghost sent: seq<Event>)
      modifies connector
      ensures connector.log == old(connector.log) + sent && connector.cluster == old(connector.cluster)
      ensures r == Ok ==> Issue(calls, connector.failing, old(connector.cluster), rest) == Prepend(sent, rest)
      ensures r.Raised? ==> Issue(calls, connector.failing, old(connector.cluster), rest) == Trace(r, sent, old(connector.cluster))
    {
      ghost var start := connector.log;
      for i := 0 to |calls|
        invariant connector.log == start + Calls(calls[..i]) && connector.cluster == old(connector.cluster)
        invariant forall j | 0 <= j < i :: calls[j] !in connector.failing
      {
        var done := connector.Request(calls[i]);
        CallsSnoc(calls, i);
        if done.Raised? {
          IssueStopsAt(calls, i, connector.failing, old(connector.cluster), rest);
          return done, Calls(calls[..i + 1]);
        }
      }
      assert calls[..|calls|] == calls;
      IssueAccepted(calls, connector.failing, old(connector.cluster), rest);
      r, sent := Ok, Calls(calls);
    }

    /** The requests of a stonith switch, one by one, and then its wait. */
    method SendThenWait(calls: seq<Call>, spec: WaitSpec, polls: Polls) returns (r: Outcome)
      modifies connector
      ensures var t := Issue(calls, connector.failing, old(connector.cluster), WaitRun(spec, polls, connector.failing));
        connector.log == old(connector.log) + t.events && connector.cluster == t.after && r == t.outcome
    {
      ghost var rest := WaitRun(spec, polls, connector.failing);
      ghost var sent: seq<Event>;
      r, sent := SendEach(calls, rest);
      if r.Raised? {
        return;
      }
      r := Wait(connector, spec, polls);
      assert connector.log == old(connector.log) + (sent + rest.events);
    }

    method DisableStonith(timeout: int, polls: Polls) returns (r: Outcome)
      modifies connector
      ensures var t := DisableStonithRun(old(connector.cluster), connector.failing, timeout, polls);
        connector.log == old(connector.log) + t.events && connector.cluster == t.after && r == t.outcome
    {
      var listed := connector.GetStonithResources();
      if listed.Failure? {
        return Raised(listed.error);
      }
      DisableStonithRunListed(connector.cluster, connector.failing, timeout, polls);
      r := SendThenWait(Disables(listed.value), StonithDisabled(timeout), polls);
    }

    method EnableStonith(timeout: int, polls: Polls) returns (r: Outcome)
      modifies connector
      ensures var t := EnableStonithRun(old(connector.cluster), connector.failing, timeout, polls);
        connector.log == old(connector.log) + t.events && connector.cluster == t.after && r == t.outcome
    {
      var listed := connector.GetStonithResources();
      if listed.Failure? {
        return Raised(listed.error);
      }
      EnableStonithRunListed(connector.cluster, connector.failing, timeout, polls);
      r := SendThenWait(Enables(listed.value), StonithEnabled(timeout), polls);
    }

    /**
     * The body of _cluster_maintenance after Client(): disable stonith, then
     * standby every node, mapping the exceptions as the source does.
     */
    method Maintain(timeout: int, stonithPolls: Polls, standbyPolls: Polls) returns (r: Outcome)
      modifies connector
      ensures var t := MaintenanceSteps(old(connector.cluster), connector.failing, timeout, stonithPolls, standbyPolls);
        connector.log == old(connector.log) + t.events && connector.cluster == t.after && r == t.outcome
    {
      var disabled := DisableStonith(timeout, stonithPolls);
      if disabled.Raised? && disabled.error.TimeoutError? {
        return Raised(MaintenanceFailed);
      }
      if disabled.Raised? {
        return disabled;
      }
      var standby := StandbyAll(timeout, standbyPolls);
      if standby.Raised? {
        return Raised(MaintenanceFailed);
      }
      r := Ok;
    }

    /** The body of _cluster_unmaintenance after Client(): unstandby every node, then enable stonith. */
    method Unmaintain(timeout: int, standbyPolls: Polls, stonithPolls: Polls) returns (r: Outcome)
      modifies connector
      ensures var t := UnmaintenanceSteps(old(connector.cluster), connector.failing, timeout, standbyPolls, stonithPolls);
        connector.log == old(connector.log) + t.events && connector.cluster == t.after && r == t.outcome
    {
      ghost var u := UnstandbyAllRun(connector.cluster, connector.failing, timeout, standbyPolls);
      var unstandby := UnstandbyAll(timeout, standbyPolls);
      if unstandby.Raised? {
        return unstandby;
      }
      ghost var en := EnableStonithRun(u.after, connector.failing, timeout, stonithPolls);
      r := EnableStonith(timeout, stonithPolls);
      assert connector.log == old(connector.log) + (u.events + en.events);
    }
  }

  /** Client(connector): __init__ stores the connector and runs _ensure_sane. */
  method Open(conn: Connector) returns (client: Client, r: Outcome)
    modifies conn
    ensures fresh(client) && client.connector == conn
    ensures conn.log == old(conn.log) + [Called(GetNodes)] && conn.cluster == old(conn.cluster)
    ensures r == if GetNodes in conn.failing then Raised(ConnectorError(GetNodes)) else Ok
  {
    client := new Client(conn);
    r := client.EnsureSane();
  }

  /** _cluster_maintenance(timeout) */
  method ClusterMaintenance(conn: Connector, timeout: int, stonithPolls: Polls, standbyPolls: Polls) returns (r: Outcome)
    modifies conn
    ensures var t := MaintenanceRun(old(conn.cluster), conn.failing, timeout, stonithPolls, standbyPolls);
      conn.log == old(conn.log) + t.events && conn.cluster == t.after && r == t.outcome
  {
    ghost var steps := MaintenanceSteps(conn.cluster, conn.failing, timeout, stonithPolls, standbyPolls);
    IssueOne(GetNodes, conn.failing, conn.cluster, steps);
    var client, sane := Open(conn);
    if sane.Raised? {
      return sane;
    }
    ghost var probed := conn.log;
    r := client.Maintain(timeout, stonithPolls, standbyPolls);
    assert conn.log == probed + steps.events;
  }

  /** _cluster_unmaintenance(timeout) */
  method ClusterUnmaintenance(conn: Connector, timeout: int, standbyPolls: Polls, stonithPolls: Polls) returns (r: Outcome)
    modifies conn
    ensures var t := UnmaintenanceRun(old(conn.cluster), conn.failing, timeout, standbyPolls, stonithPolls);
      conn.log == old(conn.log) + t.events && conn.cluster == t.after && r == t.outcome
  {
    ghost var steps := UnmaintenanceSteps(conn.cluster, conn.failing, timeout, standbyPolls, stonithPolls);
    IssueOne(GetNodes, conn.failing, conn.cluster, steps);
    var client, sane := Open(conn);
    if sane.Raised? {
      return sane;
    }
    ghost var probed := conn.log;
    r := client.Unmaintain(timeout, standbyPolls, stonithPolls);
    assert conn.log == probed + steps.events;
  }
}
