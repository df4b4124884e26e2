/**
 * The PcsConnector a Client talks to, as abstract state: the snapshot the
 * cluster manager reports, the requests it has received (with the waits
 * polling it), and the requests its command-line tool rejects.
 */
module PcsConnector {
  import opened PcsTypes

  class Connector {
    /** What every query would report at this moment. */
    var cluster: Cluster
    /** Everything the cluster side has seen, in order. */
    var log: seq<Event>
    /** The requests the underlying tool fails on (each raises a connector error). */
    const failing: set<Call>

    constructor (cluster: Cluster, failing: set<Call>)
      ensures this.cluster == cluster && this.failing == failing && log == []
    {
      this.cluster := cluster;
      this.failing := failing;
      log := [];
    }

    /** Receives one request; it raises exactly when the tool rejects it. */
    method Request(c: Call) returns (r: Outcome)
      modifies this
      ensures log == old(log) + [Called(c)] && cluster == old(cluster)
      ensures r == if c in failing then Raised(ConnectorError(c)) else Ok
    {
      log := log + [Called(c)];
      r := if c in failing then Raised(ConnectorError(c)) else Ok;
    }

    method GetNodes() returns (r: Result<seq<Node>>)
      modifies this
      ensures log == old(log) + [Called(Call.GetNodes)] && cluster == old(cluster)
      ensures r == if Call.GetNodes in failing then Failure(ConnectorError(Call.GetNodes)) else Success(cluster.nodes)
    {
      var sent := Request(Call.GetNodes);
      r := if sent.Raised? then Failure(sent.error) else Success(cluster.nodes);
    }

    /**
     * get_resources. No Client operation lists the resources directly: the
     * 'no running resources' wait of standby_all polls them through
     * `Request(GetResources)`. This completes the connector's queries.
     */
    method GetResources() returns (r: Result<seq<Resource>>)
      modifies this
      ensures log == old(log) + [Called(Call.GetResources)] && cluster == old(cluster)
      ensures r == if Call.GetResources in failing then Failure(ConnectorError(Call.GetResources)) else Success(cluster.resources)
    {
      var sent := Request(Call.GetResources);
      r := if sent.Raised? then Failure(sent.error) else Success(cluster.resources);
    }

    method GetStonithResources() returns (r: Result<seq<Resource>>)
      modifies this
      ensures log == old(log) + [Called(Call.GetStonithResources)] && cluster == old(cluster)
      ensures r == if Call.GetStonithResources in failing then Failure(ConnectorError(Call.GetStonithResources))
                   else Success(cluster.stonith)
    {
      var sent := Request(Call.GetStonithResources);
      r := if sent.Raised? then Failure(sent.error) else Success(cluster.stonith);
    }

    method GetClusterName() returns (r: Result<string>)
      modifies this
      ensures log == old(log) + [Called(Call.GetClusterName)] && cluster == old(cluster)
      ensures r == if Call.GetClusterName in failing then Failure(ConnectorError(Call.GetClusterName)) else Success(cluster.name)
    {
      var sent := Request(Call.GetClusterName);
      r := if sent.Raised? then Failure(sent.error) else Success(cluster.name);
    }

    /**
     * The cluster manager moves on by itself (resources stop, nodes leave
     * standby); only this changes the snapshot.
     */
    method Advance(next: Cluster)
      modifies this
      ensures cluster == next && log == old(log)
    {
      cluster := next;
    }

    /** A waiter announces that it starts polling this connector. */
    method BeginWait(title: string, timeout: int)
      modifies this
      ensures log == old(log) + [Waited(title, timeout)] && cluster == old(cluster)
    {
      log := log + [Waited(title, timeout)];
    }
  }
}
