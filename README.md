# pcswrap cluster maintenance and the hax broadcast decision, in Dafny

This project models two small pieces of the CORTX HA software and proves what they promise.

**pcswrap** (`pcswrap/pcswrap/client.py`) drives a Pacemaker cluster through a `PcsConnector`.

- The connector is a `Connector` class (`pcs_connector.dfy`). It holds:
  - the snapshot of the cluster that every query reports (nodes, resources, stonith resources, cluster name);
  - the log of every request it received, and of every convergence wait that started polling it;
  - the fixed set of requests the cluster tool rejects. A request in that set raises a connector error.
- Requests never change the snapshot. Only polling sees the cluster move on.
- The `Waiter` polls a query until a predicate holds or its deadline passes (`pcs_waiter.dfy`). Its clock is replaced by the list of snapshots its polls see before the deadline.
- The `Client` class (`pcs_client.dfy`) has one method per method of the Python `Client`. It also has four helpers with no Python counterpart:
  - `SendEach`, the request loop of the two stonith switches;
  - `SendThenWait`, that loop followed by the wait;
  - `Maintain` and `Unmaintain`, the bodies of the module-level `_cluster_maintenance` and `_cluster_unmaintenance` after their `Client()`.
- `ClusterMaintenance` and `ClusterUnmaintenance` are `_cluster_maintenance` and `_cluster_unmaintenance`.
- Every operation that talks to the cluster has a specification function (`StandbyAllRun`, `DisableStonithRun`, `MaintenanceRun`, …). It gives the operation's `Trace`: how the operation ended, the events the cluster saw, and the snapshot it left.
- Each method is proved to produce exactly its trace. `pcs_properties.dfy` proves the source's promises about those traces:
  - request order;
  - what success guarantees;
  - how exceptions are mapped;
  - no rollback.
- `pcs_cli.dfy` models the command line:
  - the attributes each subcommand leaves on the parsed arguments;
  - the first-match dispatch of `_run`. As parse_opts is written, `standby <name>` and `unstandby <name>` act on every node. Their help text says one node, but the `--all` dests are store_true and so are always present (`ParsedDispatch`, `Reached`);
  - the exit status and report of `main`.

**hax** (`hax/hax/queue/__init__.py`): `BQProcessor` turns one notification envelope into one of three outcomes:

- drop it;
- raise;
- put one `BroadcastHAStates` holding one `HAState`, then wait on the delivery herald for the ids it was answered with.

`hax_queue.dfy` models JSON values, Python's `obj[key]` with its `KeyError`/`TypeError`, the decision as the pure function `Decide`, and the processor as a class over the outgoing queue and the herald.

## Model

| member | source | states |
|---|---|---|
| PcsTypes.Issue | pcswrap/pcswrap/client.py:70-71 | the request loops of disable_stonith (70-71) and enable_stonith (81-82): the requests go out in order; the first one the tool rejects raises its connector error with the snapshot unchanged and nothing after it sent; when all are accepted, what follows runs |
| PcsWaiter.FirstConverged | pcswrap/pcswrap/client.py:51-55 | the first snapshot a wait polls on which its predicate holds, with none before it; none exactly when no snapshot satisfies it |
| PcsWaiter.WaitRun | pcswrap/pcswrap/client.py:51-55 | `Waiter(...).wait()`: the wait is announced with its title and timeout, then the provider is polled once per snapshot until the predicate holds (return) or the snapshots run out (TimeoutError with the title); a rejected poll raises its connector error at once |
| PcsClient.AllStopped | pcswrap/pcswrap/client.py:16-18 | true exactly when no resource of the list is active (so true of the empty list) |
| PcsClient.NonStandbyNodes | pcswrap/pcswrap/client.py:21-23 | true exactly when no node of the list is in standby |
| PcsClient.AllStarted | pcswrap/pcswrap/client.py:84-87 | true exactly when every resource of the list is active |
| PcsClient.OnlineNodes | pcswrap/pcswrap/client.py:37-38 | a node is kept exactly when it is in the list and online; never longer than the list |
| PcsClient.NoRunningResources | pcswrap/pcswrap/client.py:51-54 | standby_all's waiter: title 'no running resources', the given timeout, get_resources polled, all_stopped as predicate |
| PcsClient.NoStandbyNodes | pcswrap/pcswrap/client.py:59-62 | unstandby_all's waiter: title 'no standby nodes in cluster', the given timeout, get_nodes polled, non_standby_nodes as predicate |
| PcsClient.StonithDisabled | pcswrap/pcswrap/client.py:73-76 | disable_stonith's waiter: title 'stonith resources are disabled', the given timeout, get_stonith_resources polled, all_stopped as predicate |
| PcsClient.StonithEnabled | pcswrap/pcswrap/client.py:89-92 | enable_stonith's waiter: title 'stonith resources are enabled', the given timeout, get_stonith_resources polled, all_started as predicate |
| PcsProperties.OnlineNodesAppend | pcswrap/pcswrap/client.py:37-38 | the filter preserves connector order: filtering a concatenation concatenates the filtered parts |
| PcsProperties.OnlineNodesAllOnline | pcswrap/pcswrap/client.py:37-38 | the filter returns the list unchanged exactly when every node is online, so only offline nodes are dropped |
| PcsClient.Disables | pcswrap/pcswrap/client.py:70-71 | one disable_resource request per resource, the i-th for the i-th resource |
| PcsClient.Enables | pcswrap/pcswrap/client.py:81-82 | one enable_resource request per resource, the i-th for the i-th resource |
| PcsClient.OpenRun | pcswrap/pcswrap/client.py:27-32 | `Client()`: one get_nodes probe, whose rejection raises before the operation starts |
| PcsClient.StandbyAllRun | pcswrap/pcswrap/client.py:49-55 | standby_all: the standby_all request, and only when it is accepted the 'no running resources' wait |
| PcsClient.UnstandbyAllRun | pcswrap/pcswrap/client.py:57-63 | unstandby_all: the unstandby_all request, and only when it is accepted the 'no standby nodes in cluster' wait |
| PcsClient.DisableStonithRun | pcswrap/pcswrap/client.py:68-77 | disable_stonith: the stonith listing, then one disable_resource per listed resource in order, then the 'stonith resources are disabled' wait; the first rejected request ends it |
| PcsClient.EnableStonithRun | pcswrap/pcswrap/client.py:79-93 | enable_stonith: the stonith listing, then one enable_resource per listed resource in order, then the 'stonith resources are enabled' wait; the first rejected request ends it |
| PcsClient.MaintenanceSteps | pcswrap/pcswrap/client.py:193-205 | after the probe: disable_stonith, whose TimeoutException becomes MaintenanceFailed and whose other errors escape; then standby_all, any of whose errors becomes MaintenanceFailed |
| PcsClient.MaintenanceRun | pcswrap/pcswrap/client.py:191-205 | _cluster_maintenance: the Client() probe outside both try blocks, then MaintenanceSteps |
| PcsClient.UnmaintenanceSteps | pcswrap/pcswrap/client.py:209-213 | after the probe: unstandby_all, whose error escapes; then enable_stonith with the same timeout |
| PcsClient.UnmaintenanceRun | pcswrap/pcswrap/client.py:208-213 | _cluster_unmaintenance: the Client() probe, then UnmaintenanceSteps |
| PcsClient.DisableStonithRunListed | pcswrap/pcswrap/client.py:69-77 | once the listing is accepted, disable_stonith is that listing followed by the disables of the listed resources and then the wait |
| PcsClient.EnableStonithRunListed | pcswrap/pcswrap/client.py:80-93 | once the listing is accepted, enable_stonith is that listing followed by the enables of the listed resources and then the wait |
| PcsClient.Client.constructor | pcswrap/pcswrap/client.py:27-28 | the client keeps the connector it is given |
| PcsClient.Client.EnsureSane | pcswrap/pcswrap/client.py:31-32 | exactly one get_nodes request; raises its connector error when the tool rejects it, otherwise returns with the snapshot unchanged |
| PcsClient.Client.GetAllNodes | pcswrap/pcswrap/client.py:34-35 | one get_nodes request; returns the connector's node list or raises its connector error |
| PcsClient.Client.GetOnlineNodes | pcswrap/pcswrap/client.py:37-38 | one get_nodes request; returns the online nodes of the connector's list in its order, or raises |
| PcsClient.Client.UnstandbyNode | pcswrap/pcswrap/client.py:40-41 | exactly one unstandby_node request for the given name; raises exactly when the tool rejects it |
| PcsClient.Client.StandbyNode | pcswrap/pcswrap/client.py:43-44 | exactly one standby_node request for the given name; raises exactly when the tool rejects it |
| PcsClient.Client.GetClusterName | pcswrap/pcswrap/client.py:46-47 | one get_cluster_name request; returns the cluster's name or raises |
| PcsClient.Client.ShutdownNode | pcswrap/pcswrap/client.py:65-66 | exactly one shutdown_node request for the given name; raises exactly when the tool rejects it |
| PcsClient.Client.StandbyAll | pcswrap/pcswrap/client.py:49-55 | the log grows by exactly the events of StandbyAllRun, the snapshot and the outcome are its own |
| PcsClient.Client.UnstandbyAll | pcswrap/pcswrap/client.py:57-63 | the log grows by exactly the events of UnstandbyAllRun, the snapshot and the outcome are its own |
| PcsClient.Client.SendEach | pcswrap/pcswrap/client.py:70-71 | the loop sends the requests in order and stops at the first rejected one, whose connector error it raises — exactly as Issue describes |
| PcsClient.Client.SendThenWait | pcswrap/pcswrap/client.py:70-77 | the requests and then the wait: the log grows by exactly the events Issue gives for the requests followed by the wait, and the outcome is its own |
| PcsClient.Client.DisableStonith | pcswrap/pcswrap/client.py:68-77 | the log grows by exactly the events of DisableStonithRun, the snapshot and the outcome are its own |
| PcsClient.Client.EnableStonith | pcswrap/pcswrap/client.py:79-93 | the log grows by exactly the events of EnableStonithRun, the snapshot and the outcome are its own |
| PcsClient.Client.Maintain | pcswrap/pcswrap/client.py:193-205 | after the probe: the log grows by exactly the events of disable_stonith and then standby_all as MaintenanceSteps maps their errors, and the outcome is MaintenanceSteps' own |
| PcsClient.Client.Unmaintain | pcswrap/pcswrap/client.py:209-213 | after the probe: the log grows by exactly the events of unstandby_all and then enable_stonith, with unstandby_all's error escaping before any stonith request |
| PcsClient.Open | pcswrap/pcswrap/client.py:27-32 | Client() is a fresh client over the connector after one get_nodes probe, which raises when rejected |
| PcsClient.ClusterMaintenance | pcswrap/pcswrap/client.py:191-205 | the log grows by exactly the events of MaintenanceRun, the snapshot and the outcome are its own |
| PcsClient.ClusterUnmaintenance | pcswrap/pcswrap/client.py:208-213 | the log grows by exactly the events of UnmaintenanceRun, the snapshot and the outcome are its own |
| PcsTypes.IssueAccepted | pcswrap/pcswrap/client.py:70-71 | when every request is accepted, all are sent in order before what follows |
| PcsTypes.IssueRejected | pcswrap/pcswrap/client.py:70-71 | when some request is rejected, a connector error of a rejected request escapes, the snapshot is untouched, the requests sent are a prefix of the list and the last one sent is the rejected one |
| PcsTypes.FirstRejected | pcswrap/pcswrap/client.py:70-71 | the position of a rejected request with no rejected request before it: the one the loop stops at |
| PcsTypes.IssueStopsAt | pcswrap/pcswrap/client.py:70-71 | the first rejected request, at index i, ends the sequence: requests 0..i were sent and its error escapes |
| PcsTypes.IssueSends | pcswrap/pcswrap/client.py:70-71 | nothing is sent but the requests and what follows them |
| PcsWaiter.WaitRunMeaning | pcswrap/pcswrap/client.py:51-55 | a wait returns only with its predicate true of the last snapshot polled, and does return when the polls are accepted and one of them satisfies it; it times out only when no poll satisfies it; it announces itself and then sends only its polls |
| PcsWaiter.Wait | pcswrap/pcswrap/client.py:51-55 | the polling loop logs exactly WaitRun's events and leaves WaitRun's snapshot and outcome |
| PcsProperties.OpenRejected | pcswrap/pcswrap/client.py:27-32 | a rejected probe raises its connector error and nothing else is sent |
| PcsProperties.OpenAccepted | pcswrap/pcswrap/client.py:27-32 | an accepted probe is one get_nodes followed by the operation |
| PcsProperties.OpenSends | pcswrap/pcswrap/client.py:27-32 | the probe adds nothing but its get_nodes request to what the operation sends |
| PcsProperties.StandbyAllMeaning | pcswrap/pcswrap/client.py:49-55 | standby_all sends standby_all first and only then waits; success means no resource runs in the last snapshot; its only errors are the mutation's, the poll's and the timeout |
| PcsProperties.UnstandbyAllMeaning | pcswrap/pcswrap/client.py:57-63 | unstandby_all sends unstandby_all first and only then waits; success means no node is in standby; its only errors are the mutation's, the poll's and the timeout |
| PcsProperties.SwitchAccepted | pcswrap/pcswrap/client.py:68-93 | for both switches: with every request accepted, the stonith listing, every request in order, then the wait |
| PcsProperties.SwitchOrder | pcswrap/pcswrap/client.py:68-93 | for both switches, position by position: the listing, request i at position i + 1, the wait with the given title and timeout, then only polls of the provider |
| PcsProperties.SwitchRejected | pcswrap/pcswrap/client.py:68-93 | for both switches: the first rejected request raises its error, no wait starts, and the snapshot is unchanged |
| PcsProperties.SwitchOutcome | pcswrap/pcswrap/client.py:68-93 | for both switches: success means every request was accepted and the predicate holds of the last snapshot; errors are the timeout or the connector error of a request sent |
| PcsProperties.SwitchSends | pcswrap/pcswrap/client.py:68-93 | for both switches: nothing is sent but the listing, the requests, the wait and its polls |
| PcsProperties.DisableStonithIsSwitch | pcswrap/pcswrap/client.py:68-77 | disable_stonith is the switch over the listed resources' disables with the "stonith resources are disabled" wait |
| PcsProperties.DisableStonithOrder | pcswrap/pcswrap/client.py:68-77 | with every request accepted: get_stonith_resources, then disable_resource exactly once per resource in list order, then the wait with the given timeout, then only polls |
| PcsProperties.DisableStonithRejected | pcswrap/pcswrap/client.py:68-77 | a rejected disable_resource raises its connector error after the earlier disables and before any wait |
| PcsProperties.DisableStonithOutcome | pcswrap/pcswrap/client.py:68-77 | success means every listed resource's disable was accepted and no stonith resource runs in the last snapshot; errors are the timeout or connector errors of the listing or a disable |
| PcsProperties.DisableStonithSends | pcswrap/pcswrap/client.py:68-77 | disable_stonith sends only stonith listings, disable requests and its wait |
| PcsProperties.EnableStonithIsSwitch | pcswrap/pcswrap/client.py:79-93 | enable_stonith is the switch over the listed resources' enables with the "stonith resources are enabled" wait |
| PcsProperties.EnableStonithOrder | pcswrap/pcswrap/client.py:79-93 | with every request accepted: get_stonith_resources, then enable_resource exactly once per resource in list order, then the wait |
| PcsProperties.EnableStonithRejected | pcswrap/pcswrap/client.py:79-93 | a rejected enable_resource raises its connector error after the earlier enables and before any wait |
| PcsProperties.EnableStonithOutcome | pcswrap/pcswrap/client.py:79-93 | success means every enable was accepted and every stonith resource runs in the last snapshot; errors are the timeout or connector errors |
| PcsProperties.EnableStonithSends | pcswrap/pcswrap/client.py:79-93 | enable_stonith sends only stonith listings, enable requests and its wait |
| PcsProperties.MaintenanceErrorMapping | pcswrap/pcswrap/client.py:195-203 | a disable_stonith timeout becomes MaintenanceFailed and standby_all is never requested; any other disable_stonith error escapes unchanged (not as MaintenanceFailed); after a successful disable_stonith, every standby_all failure becomes MaintenanceFailed |
| PcsProperties.MaintenanceProbed | pcswrap/pcswrap/client.py:191-192 | with the probe accepted, maintenance is get_nodes followed by its two steps |
| PcsProperties.MaintenanceErrors | pcswrap/pcswrap/client.py:191-205 | maintenance raises only MaintenanceFailed, or the connector error of the probe, the stonith listing or a disable |
| PcsProperties.StandbyAllSends | pcswrap/pcswrap/client.py:49-55 | standby_all sends only its mutation, its wait and get_resources polls |
| PcsProperties.UnstandbyAllSends | pcswrap/pcswrap/client.py:57-63 | unstandby_all sends only its mutation, its wait and get_nodes polls |
| PcsProperties.MaintenanceStepsSend | pcswrap/pcswrap/client.py:193-205 | after the probe, maintenance sends only listings, disables, standby_all, resource polls and its two waits |
| PcsProperties.MaintenanceNoRollback | pcswrap/pcswrap/client.py:195-203 | no path of maintenance sends enable_resource, unstandby_all or unstandby_node: nothing is rolled back |
| PcsProperties.MaintenanceSuccess | pcswrap/pcswrap/client.py:191-205 | a successful maintenance followed a disable_stonith that succeeded with every stonith resource seen stopped, and leaves no resource running (stonith included when listed among the resources) |
| PcsProperties.MaintenanceSucceeds | pcswrap/pcswrap/client.py:191-205 | with every request accepted, maintenance succeeds once each wait sees its condition |
| PcsProperties.UnmaintenanceOrder | pcswrap/pcswrap/client.py:208-213 | unstandby_all comes right after the probe, every wait uses the one timeout given, and a failing unstandby_all escapes as it is with stonith neither listed nor enabled |
| PcsProperties.UnmaintenanceStepsOrder | pcswrap/pcswrap/client.py:209-213 | after the probe, unstandby_all is the first request, every wait uses the one timeout, and a failing unstandby_all is the whole run |
| PcsProperties.UnmaintenanceOutcome | pcswrap/pcswrap/client.py:208-213 | success leaves every stonith resource running; errors escape unmapped (connector errors or timeouts) |
| PcsProperties.UnmaintenanceFromNormal | pcswrap/pcswrap/client.py:208-213 | a cluster already back to normal is unmaintained at the first poll of each wait |
| PcsCli.ParsedAttrs | pcswrap/pcswrap/client.py:101-175 | every parse leaves `verbose` |
| PcsCli.FirstPresent | pcswrap/pcswrap/client.py:220-240 | the first position whose attribute is present, with none present before it |
| PcsCli.Dispatch | pcswrap/pcswrap/client.py:220-240 | the `hasattr` chain of `_run`: the first of standby_node, unstandby_node, show_status, shutdown_node, maintenance_all, unmaintenance_all present decides, and the `_all` dests choose the every-node branch |
| PcsCli.DispatchFirstMatch | pcswrap/pcswrap/client.py:216-240 | `_run` takes the branch of the first present attribute in the order standby, unstandby, status, shutdown, maintenance, unmaintenance, and runs nothing exactly when none is present |
| PcsCli.Reached | pcswrap/pcswrap/client.py:118-136 | the branch of `_run` each subcommand reaches as parse_opts is written (lines 220-240), not as its help text intends: status shows, standby and unstandby act on every node even when given a node name, shutdown powers off, maintenance and unmaintenance enter and leave maintenance, no subcommand does nothing; `ParsedDispatch` compares `Dispatch` against this as-written table |
| PcsCli.ParsedDispatch | pcswrap/pcswrap/client.py:118-136 | each subcommand reaches its own branch; since store_true dests are always set, `standby` and `unstandby` always act on all nodes and the single-node branches are unreachable |
| PcsCli.FirstNode | pcswrap/pcswrap/client.py:235 | `shutdown_node[0]` is the first name, or IndexError for an empty list |
| PcsCli.RunTrace | pcswrap/pcswrap/client.py:216-240 | `_run(args)`: `args.verbose` read first, then the branch Dispatch chooses, with `timeout_sec` and `shutdown_node[0]` read before the Client() probe and `stop_node` after it; when no branch applies, nothing runs |
| PcsCli.ClientStep | pcswrap/pcswrap/client.py:220-236 | the one Client call of each non-maintenance branch after `_get_client()`: standby_all/unstandby_all with the default timeout, standby_node, unstandby_node (AttributeError without stop_node), get_all_nodes, shutdown_node |
| PcsCli.Run | pcswrap/pcswrap/client.py:216-240 | `_run` logs exactly RunTrace's events; only the status branch yields a node list, the connector's |
| PcsCli.RunStep | pcswrap/pcswrap/client.py:220-236 | the one Client call of a non-maintenance branch logs exactly ClientStep's events; only the status branch yields a node list, the connector's |
| PcsCli.AdviceName | pcswrap/pcswrap/client.py:253 | the program name is PCSCLI_PROG_NAME when set and non-empty, "pcswrap" otherwise, so the advice never names an empty program |
| PcsCli.MainExit | pcswrap/pcswrap/client.py:243-265 | exit status 0 exactly on a normal return and 1 for every exception; the unmaintenance advice exactly for MaintenanceFailed |
| PcsCli.MaintenanceExit | pcswrap/pcswrap/client.py:237-257 | once the Client() probe is accepted, `maintenance --all` gives the advice exactly when disable_stonith timed out or standby_all failed after it |
| PcsCli.StandbyCommand | pcswrap/pcswrap/client.py:220-222 | `standby`, with or without a name, probes, then sends standby_all and waits with the default timeout 120 |
| HaxQueue.BQProcessor.constructor | hax/hax/queue/__init__.py:18-21 | `__init__`: the processor keeps the shared queue and the herald it is given; `names` stands for the `ConfObjUtil()` it builds and `parse` for `json.loads` |
| HaxQueue.Subscript | hax/hax/queue/__init__.py:34 | `obj[key]` is the dict's value, KeyError for a missing key, TypeError for a non-dict |
| HaxQueue.ToHaState | hax/hax/queue/__init__.py:52-60 | None exactly for a dict with obj_type or obj_name missing or an unknown pair; only TypeError or KeyError("obj_state") escape |
| HaxQueue.ToHaStateKnown | hax/hax/queue/__init__.py:59-60 | a known object gives the HAState with the payload's obj_state as status and the drive fid of the looked-up id; without obj_state, KeyError("obj_state") escapes |
| HaxQueue.ToHaStateNotDict | hax/hax/queue/__init__.py:52-58 | a non-dict payload raises TypeError, which the KeyError handler does not catch |
| HaxQueue.Decide | hax/hax/queue/__init__.py:30-45 | payload_process's decision: a JSONDecodeError gives Drop; the KeyError or TypeError of `msg_load['payload']` gives Fail; to_ha_state's exception gives Fail, its None gives Drop and its state gives Submit of that state |
| HaxQueue.DecideInvalidJson | hax/hax/queue/__init__.py:32-37 | an envelope that is not JSON is dropped |
| HaxQueue.DecideNoPayload | hax/hax/queue/__init__.py:32-35 | valid JSON without 'payload' raises KeyError('payload') |
| HaxQueue.DecideCases | hax/hax/queue/__init__.py:30-45 | broadcast exactly when to_ha_state gives a state; dropped exactly on invalid JSON or None; otherwise it raises TypeError, KeyError('payload') or KeyError('obj_state') |
| HaxQueue.DecideSubmits | hax/hax/queue/__init__.py:40-42 | a broadcast state is built from the payload's own obj_type, obj_name and obj_state |
| HaxQueue.Outbox.Put | hax/hax/queue/__init__.py:48 | the message is appended to what was put on the queue |
| HaxQueue.DeliveryHerald.WaitForAny | hax/hax/queue/__init__.py:50 | the promise is appended to what the herald waited for |
| HaxQueue.BQProcessor.PayloadProcess | hax/hax/queue/__init__.py:30-50 | dropped and failing envelopes touch neither queue nor herald; a broadcast puts exactly one message with the one state and a fresh reply queue of size 1, and the herald waits once for exactly the ids answered |
| HaxQueue.BQProcessor.Process | hax/hax/queue/__init__.py:23-28 | the effect depends only on the message text: the same as payload_process, whatever the number |

## Left out

- The Waiter's clock and sleeping: the snapshots its polls see before the deadline are an input. The `Waiter` source is not part of this model; it is modelled as polling until the predicate holds or the deadline passes, and a rejected poll raises.
- `CliConnector` and its use of the `pcs` tool: a request's rejection is a fixed set of requests, so a request that fails once fails every time; transient failures are not modelled.
- The cluster's own convergence: requests do not change the snapshot, only the waiter's polls observe change.
- `parse_opts`: argparse is library behaviour. Only the attributes each subcommand leaves are modelled, plus the values `_run` reads. Usage errors (exit 2) and optional positionals left as None are not modelled.
- Logging, `_setup_logging`, `print` and `json.dumps` of the status branch: output only. `Run` returns the node list instead of printing it.
- `main`'s choice between "Exiting with FAILURE" and "Unexpected error happened": it depends on the exception class hierarchy of `pcswrap.exception`, which is not part of this model. Both are one `ErrorReport`.
- `sys.exit` and `os.environ`: `MainExit` returns the status, and the environment variable is an input.
- `json.loads`: an input function from text to a JSON value, None when it raises JSONDecodeError.
- `ConfObjUtil.obj_name_to_id`: a table from (type, name) to an id. `create_drive_fid` is a constructor over that id. A failing `int()` conversion is not modelled.
- `Queue` blocking and its capacity: the reply the broadcast's consumer sends is an input, `reply`. What `q.get()` returns is that input.
- The herald's blocking `wait_for_any`: it only records the promise.
- HaxQueue.BQProcessor.PayloadProcess: states what was put and what was waited for, not that the put precedes the wait, because the queue and the herald are separate objects. The ids waited for are the input `reply`; the contract does not state that they come from the reply queue of the message put.
- `Client()` builds its own `CliConnector()` when given none: the connector is a parameter of `Open`, `ClusterMaintenance`, `ClusterUnmaintenance` and `Run` instead. Which connector `_get_client()` builds is not modelled.
- A wait always makes at least one poll (`Polls` is a non-empty sequence), whatever its timeout. `--timeout-sec` accepts 0 and negative values, and how the Waiter treats them is not part of this model. `UnmaintenanceFromNormal` and the other waiter lemmas rely on that first poll.
- `process` takes `Tuple[int, Any]`, but the model's message text is a string. The TypeError `json.loads` raises for a message that is not text is not modelled.
- JSON numbers are integers (`JNumber`) or reals (`JFloat`). Float formatting, NaN and infinities are not modelled.
