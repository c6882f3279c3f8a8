/**
 * The `cluster` commands of the command-line client: `start` reconciles the
 * desired node count with the persisted document and with what the node
 * controller reports, `stop` and `status` fan out over a resolved list of
 * node names, and `Run` dispatches on the subcommand.
 *
 * Each command is a method that performs the steps in the order the client
 * does; each is proved equal to a function of its inputs (StartOutcome,
 * StopOutcome, StatusOutcome), and the properties of those functions are
 * proved in StartProperties and StopStatusProperties.
 */
module Cluster {
  import opened Wrappers
  import opened Names
  import opened State

  /** The ports every started node is given: nodes are isolated, so one pair serves all. */
  const HttpPort: int := 8800
  const GossipPort: int := 5500

  /** The `Manage` string that names a controller. */
  function ManageName(b: Backend): string {
    match b
    case Docker => "docker"
    case Daemon => "daemon"
  }

  // ---------------------------------------------------------------------------
  // Selecting a controller

  /** `start` selects the controller its document names; any other value is rejected. */
  function StartBackend(m: Setting): (r: Result<Backend>)
    ensures r.Ok? ==> m == Text(ManageName(r.value))
    ensures r.Err? ==> r.error == InvalidManage(m) && forall b :: m != Text(ManageName(b))
  {
    if m == Text("docker") then Ok(Docker)
    else if m == Text("daemon") then Ok(Daemon)
    else Err(InvalidManage(m))
  }

  /** `stop` reads its controller from the document, taking a null `Manage` as docker. */
  function StopBackend(m: Setting): (r: Result<Backend>)
    ensures m == Missing ==> r == Err(ManageKeyMissing)
    ensures m == Null ==> r == Ok(Docker)
    ensures m.Text? ==> r == StartBackend(m)
  {
    match m
    case Missing => Err(ManageKeyMissing)
    case Null => Ok(Docker)
    case Text(s) =>
      if s == "docker" then Ok(Docker)
      else if s == "daemon" then Ok(Daemon)
      else Err(InvalidManage(m))
  }

  /** `status` takes its controller from the argument, docker when none is given. */
  function StatusBackend(manage: Option<string>): (r: Result<Backend>)
    ensures manage == None ==> r == Ok(Docker)
    ensures manage.Some? ==> r == StartBackend(Text(manage.value))
  {
    match manage
    case None => Ok(Docker)
    case Some(s) =>
      if s == "docker" then Ok(Docker)
      else if s == "daemon" then Ok(Daemon)
      else Err(InvalidManage(Text(s)))
  }

  /**
   * The names `stop` and `status` act on: the names given on the command
   * line, verbatim, when there are any, otherwise every name the controller
   * knows (a failure to list them propagates unwrapped).
   */
  function Targets(explicit: seq<string>, listing: Option<seq<string>>): (r: Result<seq<string>>)
    ensures |explicit| > 0 ==> r == Ok(explicit)
    ensures explicit == [] && listing.Some? ==> r == Ok(listing.value)
    ensures explicit == [] && listing.None? ==> r == Err(ManagementFailure(false))
  {
    if |explicit| > 0 then Ok(explicit)
    else match listing
      case Some(names) => Ok(names)
      case None => Err(ManagementFailure(false))
  }

  // ---------------------------------------------------------------------------
  // cluster start

  /** The document `start` works on: the saved one, or a stopped cluster when there is none. */
  function Loaded(prior: Option<ClusterState>): ClusterState {
    prior.GetOr(ClusterState(Stopped, Missing, map[]))
  }

  /** `start` refuses to switch the controller of a running cluster. */
  predicate Conflict(prior: Option<ClusterState>, manage: Option<string>) {
    var st := Loaded(prior);
    st.lifecycle == Running && st.manage != Missing && manage.Some? && st.manage != Text(manage.value)
  }

  /**
   * The document after `start`'s preparation: a stopped cluster loses its
   * node records (a fresh epoch), an absent `Manage` is set to the request
   * (docker when there is none) and a recorded one is kept, and the cluster
   * is marked running; unless the request conflicts with a running cluster.
   */
  function Prepare(prior: Option<ClusterState>, manage: Option<string>): (r: Result<ClusterState>)
    ensures r.Err? <==> Conflict(prior, manage)
    ensures r.Err? ==> r.error == ManageConflict(Loaded(prior).manage)
    ensures r.Ok? ==> r.value.lifecycle == Running
    ensures r.Ok? && Loaded(prior).manage == Missing ==> r.value.manage == Text(manage.GetOr("docker"))
    ensures r.Ok? && Loaded(prior).manage != Missing ==> r.value.manage == Loaded(prior).manage
    ensures r.Ok? && Loaded(prior).lifecycle == Stopped ==> r.value.nodes == map[]
    ensures r.Ok? && Loaded(prior).lifecycle == Running ==> r.value.nodes == Loaded(prior).nodes
  {
    var loaded := Loaded(prior);
    var st := if loaded.lifecycle == Stopped then loaded.(nodes := map[]) else loaded;
    if st.manage == Missing then
      Ok(st.(manage := Text(manage.GetOr("docker")), lifecycle := Running))
    else if manage.Some? && st.manage != Text(manage.value) && st.lifecycle == Running then
      Err(ManageConflict(st.manage))
    else
      Ok(st.(lifecycle := Running))
  }

  /** The ordinal range a count asks for: a count below zero asks for none. */
  function Clamp(count: int): nat {
    if count < 0 then 0 else count
  }

  /** Node i needs no start: the controller knows its name and reports it running. */
  predicate Satisfied(drv: Driver, i: nat) {
    drv.names.Some? && NodeName(i) in drv.names.value && NodeName(i) in drv.running
  }

  /** The ordinals below n that `start` starts, in the order it starts them. */
  function Pending(n: nat, drv: Driver): seq<nat> {
    if n == 0 then []
    else Pending(n - 1, drv) + (if Satisfied(drv, n - 1) then [] else [n - 1])
  }

  /** The start actions for the given ordinals, one each, in order. */
  function StartActions(ords: seq<nat>): seq<Action> {
    if ords == [] then []
    else
      var i := ords[|ords| - 1];
      StartActions(ords[..|ords| - 1]) + [StartNode(NodeName(i), HttpPort, GossipPort, i == 0)]
  }

  /** The node records after recording each of the given ordinals as running. */
  function Recorded(nodes: map<string, NodeRecord>, ords: seq<nat>): map<string, NodeRecord> {
    if ords == [] then nodes
    else
      var i := ords[|ords| - 1];
      Recorded(nodes, ords[..|ords| - 1])[NodeName(i) := NodeRecord(Running, i)]
  }

  /** Appending an ordinal appends its start action. */
  lemma StartActionsSnoc(front: seq<nat>, i: nat)
    ensures StartActions(front + [i]) == StartActions(front) + [StartNode(NodeName(i), HttpPort, GossipPort, i == 0)]
  {
    assert (front + [i])[..|front|] == front;
  }

  /** Appending an ordinal writes its record over the records so far. */
  lemma RecordedSnoc(nodes: map<string, NodeRecord>, front: seq<nat>, i: nat)
    ensures Recorded(nodes, front + [i]) == Recorded(nodes, front)[NodeName(i) := NodeRecord(Running, i)]
  {
    assert (front + [i])[..|front|] == front;
  }

  /** A listed, running node adds nothing to the ordinals to start. */
  lemma SkipStep(drv: Driver, i: nat)
    requires Satisfied(drv, i)
    ensures Pending(i + 1, drv) == Pending(i, drv)
  {
    assert Pending(i, drv) + [] == Pending(i, drv);
  }

  /** Any other node is appended to the ordinals to start. */
  lemma StartStep(drv: Driver, i: nat)
    requires !Satisfied(drv, i)
    ensures Pending(i + 1, drv) == Pending(i, drv) + [i]
  {
  }

  /** The effect of `cluster start --count count --manage manage`. */
  function StartOutcome(prior: Option<ClusterState>, manage: Option<string>, count: int, drivers: Drivers): Outcome {
    match Prepare(prior, manage)
    case Err(e) => Failed(None, e)
    case Ok(st) =>
      match StartBackend(st.manage)
      case Err(e) => Failed(None, e)
      case Ok(b) =>
        var drv := drivers.For(b);
        if drv.names.None? then Failed(Some(b), ManagementFailure(true))
        else
          var ords := Pending(Clamp(count), drv);
          Outcome(Some(b), StartActions(ords), Some(st.(nodes := Recorded(st.nodes, ords))), true,
                  if drv.updateOk then None else Some(ManagementFailure(true)))
  }

  /**
   * `cluster start`: loads or creates the document, checks the controller,
   * then walks ordinals 0..count-1, starting each node the controller does
   * not report as known and running and recording it in the document; saves
   * the document and settles.
   */
  method Start(prior: Option<ClusterState>, manage: Option<string>, count: int, drivers: Drivers)
    returns (o: Outcome)
    ensures o == StartOutcome(prior, manage, count, drivers)
  {
    var state: ClusterState;
    if prior.None? {
      state := ClusterState(Stopped, Missing, map[]);
    } else {
      state := prior.value;
    }
    if state.lifecycle == Stopped {
      state := state.(nodes := map[]);
    }
    if state.manage == Missing {
      state := state.(manage := Text(if manage.Some? then manage.value else "docker"));
    } else if manage.Some? && state.manage != Text(manage.value) && state.lifecycle == Running {
      return Failed(None, ManageConflict(state.manage));
    }
    state := state.(lifecycle := Running);

    var backend: Backend;
    if state.manage == Text("docker") {
      backend := Docker;
    } else if state.manage == Text("daemon") {
      backend := Daemon;
    } else {
      return Failed(None, InvalidManage(state.manage));
    }
    var drv := drivers.For(backend);
    if drv.names.None? {
      return Failed(Some(backend), ManagementFailure(true));
    }
    var existing := drv.names.value;

    assert state == Prepare(prior, manage).value;
    var actions: seq<Action>;
    actions, state := StartNodes(state, existing, count, drv);
    o := Outcome(Some(backend), actions, Some(state), true,
                 if drv.updateOk then None else Some(ManagementFailure(true)));
  }

  /**
   * The loop of `cluster start` over ordinals 0..count-1: a node the
   * controller lists in `existing` and reports running is skipped; any other
   * is started, as the genesis node exactly when its ordinal is 0, and
   * recorded as running with its ordinal in the document's node records.
   */
  method StartNodes(state: ClusterState, existing: seq<string>, count: int, drv: Driver)
    returns (actions: seq<Action>, state': ClusterState)
    requires drv.names == Some(existing)
    ensures actions == StartActions(Pending(Clamp(count), drv))
    ensures state' == state.(nodes := Recorded(state.nodes, Pending(Clamp(count), drv)))
  {
    actions := [];
    var nodes := state.nodes;
    var i: nat := 0;
    while i < count
      invariant i <= Clamp(count)
      invariant actions == StartActions(Pending(i, drv))
      invariant nodes == Recorded(state.nodes, Pending(i, drv))
    {
      var name := NodeName(i);
      if name in existing && name in drv.running {
        SkipStep(drv, i);
      } else {
        StartStep(drv, i);
        StartActionsSnoc(Pending(i, drv), i);
        RecordedSnoc(state.nodes, Pending(i, drv), i);
        var genesis := i == 0;
        actions := actions + [StartNode(name, HttpPort, GossipPort, genesis)];
        nodes := nodes[name := NodeRecord(Running, i)];
      }
      i := i + 1;
    }
    assert i == Clamp(count);
    state' := state.(nodes := nodes);
  }

  // ---------------------------------------------------------------------------
  // cluster stop and cluster status

  /** One stop action per name, in order. */
  function StopActions(names: seq<string>): seq<Action> {
    if names == [] then []
    else StopActions(names[..|names| - 1]) + [StopNode(names[|names| - 1])]
  }

  /** One status query per name, in order. */
  function StatusQueries(names: seq<string>): seq<Action> {
    if names == [] then []
    else StatusQueries(names[..|names| - 1]) + [QueryStatus(names[|names| - 1])]
  }

  /** The effect of `cluster stop [names]`: it never writes the document. */
  function StopOutcome(prior: Option<ClusterState>, names: seq<string>, drivers: Drivers): Outcome {
    if prior.None? then Failed(None, NoStateFile)
    else
      match StopBackend(prior.value.manage)
      case Err(e) => Failed(None, e)
      case Ok(b) =>
        var drv := drivers.For(b);
        match Targets(names, drv.names)
        case Err(e) => Failed(Some(b), e)
        case Ok(targets) =>
          Outcome(Some(b), StopActions(targets), None, true,
                  if drv.updateOk then None else Some(ManagementFailure(false)))
  }

  /** `cluster stop`: resolves the controller and the targets, stops each target, settles. */
  method Stop(prior: Option<ClusterState>, names: seq<string>, drivers: Drivers) returns (o: Outcome)
    ensures o == StopOutcome(prior, names, drivers)
  {
    if prior.None? {
      return Failed(None, NoStateFile);
    }
    var backend: Backend;
    match StopBackend(prior.value.manage) {
      case Err(e) => return Failed(None, e);
      case Ok(b) => backend := b;
    }
    var drv := drivers.For(backend);
    var targets: seq<string>;
    if |names| > 0 {
      targets := names;
    } else if drv.names.Some? {
      targets := drv.names.value;
    } else {
      return Failed(Some(backend), ManagementFailure(false));
    }
    var actions: seq<Action> := [];
    for k := 0 to |targets|
      invariant actions == StopActions(targets[..k])
    {
      actions := actions + [StopNode(targets[k])];
      assert targets[..k + 1][..k] == targets[..k];
    }
    assert targets[..|targets|] == targets;
    o := Outcome(Some(backend), actions, None, true,
                 if drv.updateOk then None else Some(ManagementFailure(false)));
  }

  /** The effect of `cluster status [names] --manage manage`: a read-only query. */
  function StatusOutcome(manage: Option<string>, names: seq<string>, drivers: Drivers): Outcome {
    match StatusBackend(manage)
    case Err(e) => Failed(None, e)
    case Ok(b) =>
      var drv := drivers.For(b);
      match Targets(names, drv.names)
      case Err(e) => Failed(Some(b), e)
      case Ok(targets) => Outcome(Some(b), StatusQueries(targets), None, false, None)
  }

  /** `cluster status`: resolves the controller and the targets and queries each target. */
  method Status(manage: Option<string>, names: seq<string>, drivers: Drivers) returns (o: Outcome)
    ensures o == StatusOutcome(manage, names, drivers)
  {
    var backend: Backend;
    match StatusBackend(manage) {
      case Err(e) => return Failed(None, e);
      case Ok(b) => backend := b;
    }
    var drv := drivers.For(backend);
    var targets: seq<string>;
    if |names| > 0 {
      targets := names;
    } else if drv.names.Some? {
      targets := drv.names.value;
    } else {
      return Failed(Some(backend), ManagementFailure(false));
    }
    var queries: seq<Action> := [];
    for k := 0 to |targets|
      invariant queries == StatusQueries(targets[..k])
    {
      queries := queries + [QueryStatus(targets[k])];
      assert targets[..k + 1][..k] == targets[..k];
    }
    assert targets[..|targets|] == targets;
    o := Outcome(Some(backend), queries, None, false, None);
  }

  // ---------------------------------------------------------------------------
  // cluster <command>

  /** The effect of `cluster <command>`; `status` does not read the document. */
  function Dispatch(args: Args, prior: Option<ClusterState>, drivers: Drivers): Outcome {
    if args.command == "start" then StartOutcome(prior, args.manage, args.count, drivers)
    else if args.command == "status" then StatusOutcome(args.manage, args.nodeNames, drivers)
    else if args.command == "stop" then StopOutcome(prior, args.nodeNames, drivers)
    else Failed(None, InvalidCommand(args.command))
  }

  /** `cluster <command>`: runs the named subcommand, rejecting any other name. */
  method Run(args: Args, prior: Option<ClusterState>, drivers: Drivers) returns (o: Outcome)
    ensures o == Dispatch(args, prior, drivers)
    ensures args.command !in {"start", "status", "stop"} ==> o.error == Some(InvalidCommand(args.command))
  {
    if args.command == "start" {
      o := Start(prior, args.manage, args.count, drivers);
    } else if args.command == "status" {
      o := Status(args.manage, args.nodeNames, drivers);
    } else if args.command == "stop" {
      o := Stop(prior, args.nodeNames, drivers);
    } else {
      o := Failed(None, InvalidCommand(args.command));
    }
  }
}
