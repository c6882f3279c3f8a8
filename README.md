# Cluster lifecycle reconciliation, modelled in Dafny

This project models the `cluster` subcommands of the Sawtooth command-line
client (`core/sawtooth/cli/cluster.py`): how `cluster start` reconciles a
desired node count with the persisted cluster-state document and with what
the node controller (docker or daemon) reports, how `cluster stop` and
`cluster status` resolve their target node names and fan out over them, and
how `cluster <command>` dispatches.

Each command is a step from (persisted document, controller observations,
arguments) to an `Outcome`: the controller it selected, the actions it issued
(`StartNode(name, httpPort, gossipPort, genesis)`, `StopNode(name)`,
`QueryStatus(name)`), the document it saved, whether it reached the settling
step (`update()`), and the error it ended with.

- `wrappers.dfy` (`Wrappers`): `Option`.
- `names.dfy` (`Names`): node names `validator-NNN`, their decimal reading
  `Ordinal`, and the round trip that makes names injective.
- `state.dfy` (`State`): the document (`ClusterState` with `State`, `Manage`,
  `Nodes`), controller observations (`Driver`, `Drivers`), arguments,
  actions, errors, outcomes.
- `cluster.dfy` (`Cluster`): the commands. `Start`, `StartNodes`, `Stop`,
  `Status` and `Run` are methods that perform the client's steps in its order
  (`StartNodes` is the ordinal loop of `start`, updating the node map and the
  action log step by step); each is proved equal to a specification function
  (`StartOutcome`, `StopOutcome`, `StatusOutcome`, `Dispatch`).
- `start_properties.dfy` (`StartProperties`) and
  `stop_status_properties.dfy` (`StopStatusProperties`): the properties of
  those functions.

Inputs the client gets from outside are parameters: the loaded document is
an `Option<ClusterState>` (`None`: no state file), and each controller is a
`Driver` giving the names it lists (`None`: `get_node_names` raised
`ManagementError`), the set of names `is_running` reports true for, and
whether `update()` succeeds. The `Manage` field is `Missing` (no key),
`Null` (a YAML null) or `Text(s)`, because `start` and `stop` treat those
three differently.

Behaviours of the code worth knowing:

- A node that is already known and running is skipped by `start` and is
  not written into `Nodes`: the `continue` at line 151 comes before the
  record at line 163.
- `stop` does not write the document and does not change `State`.
- Neither `stop` nor `status` isolates failures per name. Any failure
  propagates and ends the command.
- `status` takes its controller from `--manage` (docker when absent), not
  from the document.
- No command ever records `State: Stopped` (`OnlyStartWrites`). So the
  fresh-epoch reset of `start` happens only when there is no state file, or
  when the file says `Stopped` for some other reason.

Two behaviours follow from the code and are proved:

- The backend lock applies only while the document says Running. A restart
  of a stopped cluster with `--manage` naming another controller keeps the
  recorded one and is saved. Repeating the same command then fails with the
  conflict (`StartRepeatAfterSwitchConflicts`).
- The model accepts any integer `count`. A negative count starts nothing, as
  `xrange(0, count)` is empty.

## Model

| member | source | states |
|---|---|---|
| `Names.DecimalShape` | core/sawtooth/cli/cluster.py:147 | the ordinal's decimal digits: at least one, all digits, no leading zero for a positive ordinal, at most three below 1000 |
| `Names.PadOrdinalShape` | core/sawtooth/cli/cluster.py:147 | `{:0>3}`: width exactly 3 for shorter strings, longer ones kept whole; the string ends the result and only '0's precede it |
| `Names.NodeNameShape` | core/sawtooth/cli/cluster.py:147 | every name starts with `validator-` and has at least three ordinal characters, exactly three below 1000 |
| `Names.OrdinalOfNodeName` | core/sawtooth/cli/cluster.py:147 | reading the digits after `validator-` gives back the ordinal the name was made from |
| `Names.NodeNameInjective` | core/sawtooth/cli/cluster.py:147 | two ordinals give the same name exactly when they are equal |
| `Cluster.StartBackend` | core/sawtooth/cli/cluster.py:126-133 | `start` selects the controller whose name the recorded `Manage` is; any other value, null included, is the invalid-management-type error |
| `Cluster.StopBackend` | core/sawtooth/cli/cluster.py:187-193 | `stop` treats a null `Manage` as docker, fails on a missing key, and otherwise selects exactly as `start` does |
| `Cluster.StatusBackend` | core/sawtooth/cli/cluster.py:215-220 | `status` uses docker without `--manage` and otherwise selects exactly as `start` does |
| `Cluster.Targets` | core/sawtooth/cli/cluster.py:201-204 | the targets are the explicit names verbatim when there are any, otherwise the controller's live listing; a failed listing is an unwrapped management error |
| `Cluster.Prepare` | core/sawtooth/cli/cluster.py:106-124 | fails exactly on the backend conflict; otherwise the cluster is Running, `Manage` is set only when absent (to the request or docker), and the node records are emptied exactly when the cluster was stopped or had no document |
| `Cluster.SkipStep` | core/sawtooth/cli/cluster.py:149-151 | a node the controller lists and reports running adds no ordinal to those started |
| `Cluster.StartStep` | core/sawtooth/cli/cluster.py:149-163 | any other node's ordinal is appended to those started |
| `Cluster.StartActionsSnoc` | core/sawtooth/cli/cluster.py:153-161 | starting one more ordinal appends exactly its start action to the log |
| `Cluster.RecordedSnoc` | core/sawtooth/cli/cluster.py:163 | starting one more ordinal writes exactly its record, Running with its ordinal, over the records so far |
| `Cluster.Start` | core/sawtooth/cli/cluster.py:99-172 | the step-by-step command produces exactly `StartOutcome`: load, reset, backend check, controller selection, listing, loop, save, settle |
| `Cluster.StartNodes` | core/sawtooth/cli/cluster.py:146-163 | the ordinal loop issues exactly the starts of the pending ordinals, in order, and records exactly those ordinals, leaving the rest of the document as it was |
| `Cluster.Stop` | core/sawtooth/cli/cluster.py:175-210 | the step-by-step command produces exactly `StopOutcome` |
| `Cluster.Status` | core/sawtooth/cli/cluster.py:213-234 | the step-by-step command produces exactly `StatusOutcome` |
| `Cluster.Run` | core/sawtooth/cli/cluster.py:87-96 | `start`, `status` and `stop` run their command; any other name fails with the invalid-command error |
| `StartProperties.PendingMembers` | core/sawtooth/cli/cluster.py:146-151 | an ordinal is started exactly when it is below the count and not both listed and running |
| `StartProperties.PendingIncreasing` | core/sawtooth/cli/cluster.py:146 | ordinals are started in strictly increasing order |
| `StartProperties.PendingNoneWhenSatisfied` | core/sawtooth/cli/cluster.py:149-151 | when every node below the count is listed and running, no ordinal is started |
| `StartProperties.StartActionsAt` | core/sawtooth/cli/cluster.py:153-161 | the k-th start is for the k-th started ordinal, with ports 8800 and 5500 and genesis exactly for ordinal 0 |
| `StartProperties.OrderedStartActions` | core/sawtooth/cli/cluster.py:146-161 | for increasing ordinals, the starts read back through the names are increasing, bounded, on fixed ports, with at most one genesis start |
| `StartProperties.RecordedKeys` | core/sawtooth/cli/cluster.py:163 | recording adds exactly the started names to the records' keys |
| `StartProperties.RecordedStarted` | core/sawtooth/cli/cluster.py:163 | each started name is recorded Running with its own ordinal, whatever came before it |
| `StartProperties.RecordedKept` | core/sawtooth/cli/cluster.py:163 | a record whose name is not among the started names is kept as it was |
| `StartProperties.StartBackendLock` | core/sawtooth/cli/cluster.py:117-122 | start fails with the conflict exactly when a running cluster's recorded `Manage` differs from a given `--manage`, and then nothing is started or written |
| `StartProperties.StartManageSticky` | core/sawtooth/cli/cluster.py:117-130 | the saved `Manage` is the recorded one when there is one, else the request or docker; the selected controller is the one it names |
| `StartProperties.StartSavesBeforeSettling` | core/sawtooth/cli/cluster.py:141-172 | nothing is issued or written until the listing succeeds; after it the document (Running) is saved before settling, and a settling failure is the only later error, wrapped |
| `StartProperties.StartIssuesExactlyUnsatisfied` | core/sawtooth/cli/cluster.py:146-161 | a start names node i exactly when i is below the count and the controller does not report it listed and running |
| `StartProperties.StartActionsShape` | core/sawtooth/cli/cluster.py:146-161 | every start is on ports 8800/5500, genesis exactly for `validator-000`, for an ordinal below the count; ordinals strictly increase; at most one genesis start |
| `StartProperties.StartRecordsStarted` | core/sawtooth/cli/cluster.py:113-163 | started nodes are saved Running with their ordinal; every epoch record whose key is no started name (skipped nodes, ordinals at or past the count, keys that are no node name) is kept; nothing else is added |
| `StartProperties.StartFreshEpoch` | core/sawtooth/cli/cluster.py:113-115 | after a start with no document or a stopped one, the saved node names are exactly the nodes started in this run |
| `StartProperties.StartIdempotent` | core/sawtooth/cli/cluster.py:146-151 | when all nodes below the count are listed and running, no start is issued and the epoch's node records are unchanged |
| `StartProperties.StartGrowth` | core/sawtooth/cli/cluster.py:146-151 | when nodes below n are listed and running, starts are issued only for ordinals from n to the count |
| `StartProperties.StartRerun` | core/sawtooth/cli/cluster.py:117-167 | re-running start on its own saved document, with a consistent request and all nodes now running, issues nothing and saves the same document |
| `StartProperties.StartRepeatAfterSwitchConflicts` | core/sawtooth/cli/cluster.py:113-130 | for any stopped cluster restarted with a request for another controller than the recorded one, the saved document keeps the recorded one (no error exactly when settling succeeds), and the same command on that document fails with the conflict |
| `StopStatusProperties.StopActionsAt` | core/sawtooth/cli/cluster.py:206-208 | one stop per target, in order, duplicates kept |
| `StopStatusProperties.StatusQueriesAt` | core/sawtooth/cli/cluster.py:233-234 | one status query per target, in order, duplicates kept |
| `StopStatusProperties.StopFanOut` | core/sawtooth/cli/cluster.py:175-210 | stop never writes; no document is an error; the controller is the document's; once targets resolve, one stop per target then settle, a settling failure unwrapped |
| `StopStatusProperties.StopExplicitNames` | core/sawtooth/cli/cluster.py:201-208 | with explicit names, stop stops exactly those names in order |
| `StopStatusProperties.StopAllListed` | core/sawtooth/cli/cluster.py:201-208 | without names, stop stops exactly the controller's live listing, or nothing when listing fails |
| `StopStatusProperties.StatusFanOut` | core/sawtooth/cli/cluster.py:213-234 | status writes nothing, never settles, uses the argument's controller, and queries each resolved target in order |
| `StopStatusProperties.OnlyStartWrites` | core/sawtooth/cli/cluster.py:165-167 | only `start` saves the document, and what it saves is always Running |
| `StopStatusProperties.RunningStaysRunning` | core/sawtooth/cli/cluster.py:113-124 | after any command on a running document, the document still says Running |

## Left out

- Argument parsing (`add_cluster_parser` and the three sub-parsers, lines 33-84): `Args` carries the parsed values. The argparse defaults (`--count 10`, `--manage daemon`) and choices are not modelled, so `Args.manage` may be any string or none.
- File paths, `open`, YAML load and dump: the loaded document is an input and the saved one is part of the outcome. A failed read is `None`.
- Malformed documents: a `State` other than Running or Stopped, a missing `State` or `Nodes` key, and a file that loads as null are not represented.
- `print` output (lines 150, 156, 207, 234). Only the status query is kept, as a `QueryStatus` action; the text it prints is not modelled.
- The controllers, `SimpleNodeCommandGenerator` and `ValidatorNetworkManager` are not part of this model. Their answers are inputs. Exceptions raised by `is_running`, by `start`, by `stop` or by `status` are not modelled.
- What `update()` does with the issued actions is not modelled, only whether it fails.
- Cluster.Start: a count too large for Python 2's `xrange` (beyond a C long) makes line 146 raise an uncaught `OverflowError` after the listing and before any start, save or `update()`. The model treats `count` as unbounded, so `StartOutcome` starts every pending ordinal below such a count and saves the document.
