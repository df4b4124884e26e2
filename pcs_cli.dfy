/**
 * The command line of pcswrap/pcswrap/client.py: which subcommand leaves
 * which attributes on the parsed arguments, the first-match dispatch of
 * `_run` on those attributes, and the exit status `main` maps the outcome to.
 */
module PcsCli {
  import opened PcsTypes
  import opened PcsConnector
  import opened PcsClient
  import opened PcsProperties

  /**
   * The parsed arguments as `_run` sees them: the attribute names present
   * (hasattr) and the values of those it reads.
   */
  datatype Args = Args(
    attrs: set<string>,
    standbyNode: string,
    stopNode: string,
    shutdownNode: seq<string>,
    timeoutSec: int)

  /** The subcommands parse_opts defines; NoSubcommand when none was given. */
  datatype Subcommand = Status | Unstandby | Standby | Shutdown | Maintenance | Unmaintenance | NoSubcommand

  /** What `_run` does. */
  datatype Action =
    | StandbyEveryNode | StandbyOneNode
    | UnstandbyEveryNode | UnstandbyOneNode
    | ShowStatus | PowerOff
    | EnterMaintenance | LeaveMaintenance
    | NoAction

  /**
   * The attributes argparse leaves for a subcommand: `verbose` always; each
   * subparser's positional and option dests, since a store_true option, an
   * optional positional (nargs='?') and an option with a default are set
   * even when absent from the command line.
   */
  function ParsedAttrs(sub: Subcommand): (attrs: set<string>)
    ensures "verbose" in attrs
  {
    {"verbose"} +
    match sub
      case Status => {"show_status"}
      case Unstandby => {"unstandby_node", "unstandby_node_all"}
      case Standby => {"standby_node", "standby_node_all"}
      case Shutdown => {"shutdown_node"}
      case Maintenance => {"maintenance_all", "timeout_sec"}
      case Unmaintenance => {"unmaintenance_all", "timeout_sec"}
      case NoSubcommand => {}
  }

  /** The attributes `_run` tests, in the order it tests them. */
  const Branches: seq<string> :=
    ["standby_node", "unstandby_node", "show_status", "shutdown_node", "maintenance_all", "unmaintenance_all"]

  /** The `_run` dispatch: the first attribute of Branches present decides; the `_all` flags pick the inner branch. */
  function Dispatch(attrs: set<string>): Action {
    if "standby_node" in attrs then
      if "standby_node_all" in attrs then StandbyEveryNode else StandbyOneNode
    else if "unstandby_node" in attrs then
      if "unstandby_node_all" in attrs then UnstandbyEveryNode else UnstandbyOneNode
    else if "show_status" in attrs then ShowStatus
    else if "shutdown_node" in attrs then PowerOff
    else if "maintenance_all" in attrs then EnterMaintenance
    else if "unmaintenance_all" in attrs then LeaveMaintenance
    else NoAction
  }

  /** Which entry of Branches an action belongs to (|Branches| for none). */
  function Branch(a: Action): (i: nat)
    ensures i <= |Branches|
  {
    match a
      case StandbyEveryNode => 0
      case StandbyOneNode => 0
      case UnstandbyEveryNode => 1
      case UnstandbyOneNode => 1
      case ShowStatus => 2
      case PowerOff => 3
      case EnterMaintenance => 4
      case LeaveMaintenance => 5
      case NoAction => 6
  }

  /** The position of the first entry of `bs` that is present, or |bs|. */
  function FirstPresent(bs: seq<string>, attrs: set<string>): (i: nat)
    ensures i <= |bs|
    ensures i < |bs| ==> bs[i] in attrs
    ensures forall j | 0 <= j < i :: bs[j] !in attrs
  {
    if bs == [] then 0
    else if bs[0] in attrs then 0
    else 1 + FirstPresent(bs[1..], attrs)
  }

  /**
   * `_run` is a first-match dispatch: the action taken is the one of the first
   * attribute of Branches present, and nothing runs when none is present.
   */
  lemma DispatchFirstMatch(attrs: set<string>)
    ensures Branch(Dispatch(attrs)) == FirstPresent(Branches, attrs)
    ensures Dispatch(attrs) == NoAction <==> forall i | 0 <= i < |Branches| :: Branches[i] !in attrs
  {
    var i := FirstPresent(Branches, attrs);
    assert Branches[0] == "standby_node" && Branches[1] == "unstandby_node" && Branches[2] == "show_status";
    assert Branches[3] == "shutdown_node" && Branches[4] == "maintenance_all" && Branches[5] == "unmaintenance_all";
  }

  /**
   * The branch of `_run` each subcommand reaches as parse_opts is written:
   * `standby` and `unstandby` reach the every-node branches even with a
   * node name, although their help text speaks of one node.
   */
  function Reached(sub: Subcommand): Action {
    match sub
      case Status => ShowStatus
      case Unstandby => UnstandbyEveryNode
      case Standby => StandbyEveryNode
      case Shutdown => PowerOff
      case Maintenance => EnterMaintenance
      case Unmaintenance => LeaveMaintenance
      case NoSubcommand => NoAction
  }

  /**
   * Because the `--all` flags are store_true options, their dests are always
   * present, so `standby` and `unstandby` always act on every node, named or
   * not: the single-node branches of `_run` cannot be reached from the
   * command line.
   */
  lemma ParsedDispatch(sub: Subcommand)
    ensures Dispatch(ParsedAttrs(sub)) == Reached(sub)
    ensures Dispatch(ParsedAttrs(sub)) !in {StandbyOneNode, UnstandbyOneNode}
  {
  }

  /** `args.shutdown_node[0]`: the first element, IndexError for an empty list. */
  function FirstNode(names: seq<string>): (r: Result<string>)
    ensures r.Success? <==> |names| > 0
    ensures r.Success? ==> r.value == names[0]
    ensures r.Failure? ==> r.error == IndexError
  {
    if |names| == 0 then Failure(IndexError) else Success(names[0])
  }

  /**
   * The Trace of `_run(args)`. Attribute reads raise AttributeError when
   * the attribute is missing, in Python's evaluation order: `args.verbose`
   * before anything, `args.stop_node` after the Client() probe,
   * `args.shutdown_node[0]` and `args.timeout_sec` before it. `first` and
   * `second` are the polls of the first and second wait started.
   */
  function RunTrace(args: Args, before: Cluster, failing: set<Call>, first: Polls, second: Polls): Trace {
    if "verbose" !in args.attrs then Trace(Raised(AttributeError("verbose")), [], before)
    else match Dispatch(args.attrs)
      case EnterMaintenance =>
        if "timeout_sec" !in args.attrs then Trace(Raised(AttributeError("timeout_sec")), [], before)
        else MaintenanceRun(before, failing, args.timeoutSec, first, second)
      case LeaveMaintenance =>
        if "timeout_sec" !in args.attrs then Trace(Raised(AttributeError("timeout_sec")), [], before)
        else UnmaintenanceRun(before, failing, args.timeoutSec, first, second)
      case NoAction => Done(before)
      case PowerOff =>
        (match FirstNode(args.shutdownNode)
          case Failure(e) => Trace(Raised(e), [], before)
          case Success(node) => OpenRun(before, failing, ClientStep(PowerOff, args, node, before, failing, first)))
      case _ => OpenRun(before, failing, ClientStep(Dispatch(args.attrs), args, "", before, failing, first))
  }

  /**
   * What the branches that call one Client method do after `_get_client()`
   * has probed the connector; `node` is the node name already read for
   * shutdown.
   */
  function ClientStep(a: Action, args: Args, node: string, before: Cluster, failing: set<Call>, polls: Polls): Trace
    requires a !in {EnterMaintenance, LeaveMaintenance, NoAction}
  {
    match a
      case StandbyEveryNode => StandbyAllRun(before, failing, DefaultTimeout, polls)
      case StandbyOneNode => Issue([StandbyNode(args.standbyNode)], failing, before, Done(before))
      case UnstandbyEveryNode => UnstandbyAllRun(before, failing, DefaultTimeout, polls)
      case UnstandbyOneNode =>
        if "stop_node" in args.attrs then Issue([UnstandbyNode(args.stopNode)], failing, before, Done(before))
        else Trace(Raised(AttributeError("stop_node")), [], before)
      case ShowStatus => Issue([GetNodes], failing, before, Done(before))
      case PowerOff => Issue([ShutdownNode(node)], failing, before, Done(before))
  }

  /**
   * _run(args): exactly one branch runs, against a fresh Client. `shown` is
   * the node list the status branch prints, and None on every other path.
   */
  method Run(conn: Connector, args: Args, first: Polls, second: Polls) returns (r: Outcome, shown: Option<seq<Node>>)
    modifies conn
    ensures var t := RunTrace(args, old(conn.cluster), conn.failing, first, second);
      conn.log == old(conn.log) + t.events && conn.cluster == t.after && r == t.outcome
    ensures shown.Some? <==> Dispatch(args.attrs) == ShowStatus && "verbose" in args.attrs && r == Ok
    ensures shown.Some? ==> shown.value == old(conn.cluster).nodes
  {
    shown := None;
    if "verbose" !in args.attrs {
      return Raised(AttributeError("verbose")), None;
    }
    var action := Dispatch(args.attrs);
    if action == EnterMaintenance || action == LeaveMaintenance {
      if "timeout_sec" !in args.attrs {
        return Raised(AttributeError("timeout_sec")), None;
      }
      if action == EnterMaintenance {
        r := ClusterMaintenance(conn, args.timeoutSec, first, second);
      } else {
        r := ClusterUnmaintenance(conn, args.timeoutSec, first, second);
      }
      return;
    }
    if action == NoAction {
      return Ok, None;
    }
    var node := "";
    if action == PowerOff {
      var listed := FirstNode(args.shutdownNode);
      if listed.Failure? {
        return Raised(listed.error), None;
      }
      node := listed.value;
    }
    ghost var before := conn.cluster;
    ghost var step := ClientStep(action, args, node, before, conn.failing, first);
    IssueOne(GetNodes, conn.failing, before, step);
    var client, sane := Open(conn);
    if sane.Raised? {
      return sane, None;
    }
    r, shown := RunStep(client, action, args, node, first);
  }

  /**
   * The one Client call a non-maintenance branch of `_run` makes once the
   * client is open; `shown` is the node list the status branch prints.
   */
  method RunStep(client: Client, action: Action, args: Args, node: string, first: Polls) returns (r: Outcome, shown: Option<seq<Node>>)
    requires action !in {EnterMaintenance, LeaveMaintenance, NoAction}
    modifies client.connector
    ensures var t := ClientStep(action, args, node, old(client.connector.cluster), client.connector.failing, first);
      client.connector.log == old(client.connector.log) + t.events && client.connector.cluster == t.after && r == t.outcome
    ensures shown.Some? <==> action == ShowStatus && r == Ok
    ensures shown.Some? ==> shown.value == old(client.connector.cluster).nodes
  {
    shown := None;
    ghost var before := client.connector.cluster;
    ghost var failing := client.connector.failing;
    match action {
      case StandbyEveryNode =>
        r := client.StandbyAll(DefaultTimeout, first);
      case StandbyOneNode =>
        IssueOne(StandbyNode(args.standbyNode), failing, before, Done(before));
        r := client.StandbyNode(args.standbyNode);
      case UnstandbyEveryNode =>
        r := client.UnstandbyAll(DefaultTimeout, first);
      case UnstandbyOneNode =>
        if "stop_node" in args.attrs {
          IssueOne(UnstandbyNode(args.stopNode), failing, before, Done(before));
          r := client.UnstandbyNode(args.stopNode);
        } else {
          r := Raised(AttributeError("stop_node"));
        }
      case ShowStatus =>
        IssueOne(GetNodes, failing, before, Done(before));
        var nodes := client.GetAllNodes();
        match nodes {
          case Failure(e) => r := Raised(e);
          case Success(ns) => r, shown := Ok, Some(ns);
        }
      case PowerOff =>
        IssueOne(ShutdownNode(node), failing, before, Done(before));
        r := client.ShutdownNode(node);
    }
  }

  /** What `main` reports on stderr before exiting. */
  datatype Report =
    | Quiet                          // normal return
    | MaintenanceAdvice(prog: string) // the three messages ending in "`<prog> unmaintenance --all`"
    | ErrorReport(error: Error)       // "Exiting with FAILURE" or "Unexpected error happened"

  /**
   * The program name the advice names: PCSCLI_PROG_NAME when set and
   * non-empty, else "pcswrap". The advice never names an empty program.
   */
  function AdviceName(env: Option<string>): (name: string)
    ensures env.Some? && env.value != "" ==> name == env.value
    ensures env.None? || env.value == "" ==> name == "pcswrap"
    ensures name != ""
  {
    if env.Some? && env.value != "" then env.value else "pcswrap"
  }

  /** The exit `main` takes after `_run`: its status and its report. */
  datatype Exit = Exit(status: int, report: Report)

  /**
   * main's exit mapping: status 0 exactly on a normal return, 1 for every
   * exception that reaches it; the advice to run unmaintenance exactly for
   * MaintenanceFailed.
   */
  function MainExit(r: Outcome, env: Option<string>): (e: Exit)
    ensures e.status == 0 <==> r == Ok
    ensures r.Raised? ==> e.status == 1
    ensures e.report.MaintenanceAdvice? <==> r == Raised(MaintenanceFailed)
    ensures e.report.MaintenanceAdvice? ==> e.report.prog == AdviceName(env)
    ensures e.report.ErrorReport? <==> r.Raised? && r.error != MaintenanceFailed
  {
    match r
      case Ok => Exit(0, Quiet)
      case Raised(MaintenanceFailed) => Exit(1, MaintenanceAdvice(AdviceName(env)))
      case Raised(err) => Exit(1, ErrorReport(err))
  }

  /**
   * `maintenance --all` exits 1 with the unmaintenance advice exactly when
   * maintenance raised MaintenanceFailed: a disable_stonith timeout, or a
   * failure of standby_all after stonith was disabled.
   */
  lemma MaintenanceExit(timeoutSec: int, before: Cluster, failing: set<Call>, first: Polls, second: Polls, env: Option<string>)
    requires GetNodes !in failing
    ensures var args := Args(ParsedAttrs(Maintenance), "", "", [], timeoutSec);
      var e := MainExit(RunTrace(args, before, failing, first, second).outcome, env);
      var d := DisableStonithRun(before, failing, timeoutSec, first);
      e.report.MaintenanceAdvice? <==>
        || (d.outcome.Raised? && d.outcome.error.TimeoutError?)
        || (d.outcome == Ok && StandbyAllRun(d.after, failing, timeoutSec, second).outcome.Raised?)
  {
    var args := Args(ParsedAttrs(Maintenance), "", "", [], timeoutSec);
    var steps := MaintenanceSteps(before, failing, timeoutSec, first, second);
    ParsedDispatch(Maintenance);
    assert "verbose" in args.attrs && "timeout_sec" in args.attrs;
    assert RunTrace(args, before, failing, first, second) == MaintenanceRun(before, failing, timeoutSec, first, second);
    MaintenanceProbed(before, failing, timeoutSec, first, second);
    assert RunTrace(args, before, failing, first, second).outcome == steps.outcome;
    MaintenanceErrorMapping(before, failing, timeoutSec, first, second);
  }

  /** `standby` with or without a node name: the probe, standby_all with the default timeout, its wait. */
  lemma StandbyCommand(args: Args, before: Cluster, failing: set<Call>, first: Polls, second: Polls)
    requires args.attrs == ParsedAttrs(Standby)
    requires GetNodes !in failing
    ensures var t := RunTrace(args, before, failing, first, second);
      && |t.events| > 1 && t.events[0] == Called(GetNodes) && t.events[1] == Called(StandbyAll)
      && (StandbyAll !in failing ==> t.events[2] == Waited("no running resources", DefaultTimeout))
  {
    ParsedDispatch(Standby);
    var s := StandbyAllRun(before, failing, DefaultTimeout, first);
    IssueOne(GetNodes, failing, before, s);
    StandbyAllMeaning(before, failing, DefaultTimeout, first);
  }
}
