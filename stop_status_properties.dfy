/**
 * What `cluster stop`, `cluster status` and the dispatcher guarantee,
 * proved about StopOutcome, StatusOutcome and Dispatch.
 */
module StopStatusProperties {
  import opened Wrappers
  import opened State
  import opened Cluster

  /** StopActions holds one stop per name, in the names' order, duplicates kept. */
  lemma {:induction false} StopActionsAt(names: seq<string>)
    ensures |StopActions(names)| == |names|
    ensures forall k :: 0 <= k < |names| ==> StopActions(names)[k] == StopNode(names[k])
  {
    if names != [] {
      var front := names[..|names| - 1];
      StopActionsAt(front);
      assert forall k :: 0 <= k < |front| ==> names[k] == front[k];
    }
  }

  /** StatusQueries holds one query per name, in the names' order, duplicates kept. */
  lemma {:induction false} StatusQueriesAt(names: seq<string>)
    ensures |StatusQueries(names)| == |names|
    ensures forall k :: 0 <= k < |names| ==> StatusQueries(names)[k] == QueryStatus(names[k])
  {
    if names != [] {
      var front := names[..|names| - 1];
      StatusQueriesAt(front);
      assert forall k :: 0 <= k < |front| ==> names[k] == front[k];
    }
  }

  /**
   * `cluster stop` never writes the document; without one it fails before
   * selecting a controller; the controller is the one the document names;
   * and once its targets are resolved it issues one stop per target, in
   * order, then settles, a settling failure surfacing unwrapped.
   */
  lemma StopFanOut(prior: Option<ClusterState>, names: seq<string>, drivers: Drivers)
    ensures var o := StopOutcome(prior, names, drivers);
      o.saved == None
      && (prior.None? ==> o == Failed(None, NoStateFile))
      && (o.backend.Some? ==> prior.Some? && StopBackend(prior.value.manage) == Ok(o.backend.value))
      && (o.backend.Some? && Targets(names, drivers.For(o.backend.value).names).Ok? ==>
            var targets := Targets(names, drivers.For(o.backend.value).names).value;
            |o.actions| == |targets| && (forall k :: 0 <= k < |targets| ==> o.actions[k] == StopNode(targets[k]))
            && o.updated
            && (o.error.Some? <==> !drivers.For(o.backend.value).updateOk)
            && (o.error.Some? ==> o.error == Some(ManagementFailure(false))))
      && (!o.updated ==> o.actions == [] && o.error.Some?)
  {
    var o := StopOutcome(prior, names, drivers);
    if o.backend.Some? && Targets(names, drivers.For(o.backend.value).names).Ok? {
      StopActionsAt(Targets(names, drivers.For(o.backend.value).names).value);
    }
  }

  /** Stop with explicit names stops exactly those names, in order, whatever the controller lists. */
  lemma StopExplicitNames(prior: Option<ClusterState>, names: seq<string>, drivers: Drivers)
    requires |names| > 0
    requires prior.Some? && StopBackend(prior.value.manage).Ok?
    ensures var o := StopOutcome(prior, names, drivers);
      |o.actions| == |names| && forall k :: 0 <= k < |names| ==> o.actions[k] == StopNode(names[k])
  {
    StopActionsAt(names);
  }

  /**
   * Stop without names stops every name the controller lists now, not the
   * names in the document; when the listing fails, nothing is stopped.
   */
  lemma StopAllListed(prior: Option<ClusterState>, drivers: Drivers)
    requires prior.Some? && StopBackend(prior.value.manage).Ok?
    ensures var b := StopBackend(prior.value.manage).value;
      var o := StopOutcome(prior, [], drivers);
      match drivers.For(b).names
      case Some(listed) =>
        |o.actions| == |listed| && forall k :: 0 <= k < |listed| ==> o.actions[k] == StopNode(listed[k])
      case None => o == Failed(Some(b), ManagementFailure(false))
  {
    var b := StopBackend(prior.value.manage).value;
    if drivers.For(b).names.Some? {
      StopActionsAt(drivers.For(b).names.value);
    }
  }

  /**
   * `cluster status` reads no document, writes none and never settles; it
   * queries one target after another, the targets resolved as for stop with
   * the controller named by the argument.
   */
  lemma StatusFanOut(manage: Option<string>, names: seq<string>, drivers: Drivers)
    ensures var o := StatusOutcome(manage, names, drivers);
      o.saved == None && !o.updated
      && (o.backend.Some? ==> StatusBackend(manage) == Ok(o.backend.value))
      && (o.error.Some? ==> o.actions == [])
      && (o.backend.Some? && Targets(names, drivers.For(o.backend.value).names).Ok? ==>
            var targets := Targets(names, drivers.For(o.backend.value).names).value;
            o.error == None && |o.actions| == |targets|
            && forall k :: 0 <= k < |targets| ==> o.actions[k] == QueryStatus(targets[k]))
  {
    var o := StatusOutcome(manage, names, drivers);
    if o.backend.Some? && Targets(names, drivers.For(o.backend.value).names).Ok? {
      StatusQueriesAt(Targets(names, drivers.For(o.backend.value).names).value);
    }
  }

  /**
   * Only `start` writes the document, and what it writes is always a
   * running cluster: no command records a cluster as stopped, so the fresh
   * epoch of `start` is reached only through a document that says so from
   * elsewhere, or through no document at all.
   */
  lemma OnlyStartWrites(args: Args, prior: Option<ClusterState>, drivers: Drivers)
    ensures var o := Dispatch(args, prior, drivers);
      o.saved.Some? ==> args.command == "start" && o.saved.value.lifecycle == Running
  {
  }

  /**
   * A running cluster stays running: after any command on a document that
   * says Running, the document on disk still says Running, so a later
   * `start` keeps the node records it finds instead of opening a fresh epoch.
   */
  lemma RunningStaysRunning(args: Args, prior: Option<ClusterState>, drivers: Drivers)
    requires prior.Some? && prior.value.lifecycle == Running
    ensures var o := Dispatch(args, prior, drivers);
      var after := if o.saved.Some? then o.saved else prior;
      after.Some? && after.value.lifecycle == Running
  {
  }
}
