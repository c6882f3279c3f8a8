/**
 * What `cluster start` guarantees, proved about StartOutcome (and so, by
 * Cluster.Start's postcondition, about the method): the fresh epoch, the
 * sticky controller choice, the backend lock, which nodes are started and
 * how, what the saved document records, and idempotence.
 */
module StartProperties {
  import opened Wrappers
  import opened Names
  import opened State
  import opened Cluster

  // ---------------------------------------------------------------------------
  // The ordinals `start` starts

  /** Pending(n) holds exactly the ordinals below n that are not already satisfied. */
  lemma {:induction false} PendingMembers(n: nat, drv: Driver)
    ensures forall i: nat :: i in Pending(n, drv) <==> i < n && !Satisfied(drv, i)
  {
    if n > 0 {
      PendingMembers(n - 1, drv);
    }
  }

  /** Pending(n) lists its ordinals in strictly increasing order. */
  lemma {:induction false} PendingIncreasing(n: nat, drv: Driver)
    ensures forall a, b :: 0 <= a < b < |Pending(n, drv)| ==> Pending(n, drv)[a] < Pending(n, drv)[b]
  {
    if n > 0 {
      var earlier := Pending(n - 1, drv);
      PendingIncreasing(n - 1, drv);
      PendingMembers(n - 1, drv);
      assert forall a :: 0 <= a < |earlier| ==> earlier[a] in earlier;
    }
  }

  /** When every node below n is already satisfied, nothing is pending. */
  lemma {:induction false} PendingNoneWhenSatisfied(n: nat, drv: Driver)
    requires forall i: nat :: i < n ==> Satisfied(drv, i)
    ensures Pending(n, drv) == []
  {
    if n > 0 {
      PendingNoneWhenSatisfied(n - 1, drv);
      SkipStep(drv, n - 1);
    }
  }

  /** The k-th start action belongs to the k-th ordinal: fixed ports, genesis only for ordinal 0. */
  lemma {:induction false} StartActionsAt(ords: seq<nat>)
    ensures |StartActions(ords)| == |ords|
    ensures forall k :: 0 <= k < |ords| ==>
      StartActions(ords)[k] == StartNode(NodeName(ords[k]), HttpPort, GossipPort, ords[k] == 0)
  {
    if ords != [] {
      var front, i := ords[..|ords| - 1], ords[|ords| - 1];
      assert ords == front + [i];
      StartActionsAt(front);
      StartActionsSnoc(front, i);
    }
  }

  /** The names of the given ordinals. */
  function NamesOf(ords: seq<nat>): set<string> {
    set i | i in ords :: NodeName(i)
  }

  /** Recording a list of ordinals adds exactly their names to the records. */
  lemma {:induction false} RecordedKeys(nodes: map<string, NodeRecord>, ords: seq<nat>)
    ensures Recorded(nodes, ords).Keys == nodes.Keys + NamesOf(ords)
  {
    if ords != [] {
      var front, last := ords[..|ords| - 1], ords[|ords| - 1];
      assert ords == front + [last];
      RecordedKeys(nodes, front);
      RecordedSnoc(nodes, front, last);
      assert NamesOf(ords) == NamesOf(front) + {NodeName(last)};
    }
  }

  /** Each recorded ordinal's name is recorded as running with that ordinal. */
  lemma {:induction false} RecordedStarted(nodes: map<string, NodeRecord>, ords: seq<nat>)
    ensures forall i :: i in ords ==>
      NodeName(i) in Recorded(nodes, ords) && Recorded(nodes, ords)[NodeName(i)] == NodeRecord(Running, i)
  {
    if ords != [] {
      var front, last := ords[..|ords| - 1], ords[|ords| - 1];
      assert ords == front + [last];
      RecordedStarted(nodes, front);
      RecordedSnoc(nodes, front, last);
      forall i | i in ords
        ensures NodeName(i) in Recorded(nodes, ords) && Recorded(nodes, ords)[NodeName(i)] == NodeRecord(Running, i)
      {
        NodeNameInjective(i, last);
        if i != last {
          assert i in front;
        }
      }
    }
  }

  /** A record whose name belongs to none of the recorded ordinals is kept as it was. */
  lemma {:induction false} RecordedKept(nodes: map<string, NodeRecord>, ords: seq<nat>, key: string)
    requires key in nodes && key !in NamesOf(ords)
    ensures key in Recorded(nodes, ords) && Recorded(nodes, ords)[key] == nodes[key]
  {
    if ords != [] {
      var front, last := ords[..|ords| - 1], ords[|ords| - 1];
      assert ords == front + [last];
      assert NamesOf(front) <= NamesOf(ords);
      RecordedKept(nodes, front, key);
      RecordedSnoc(nodes, front, last);
    }
  }

  // ---------------------------------------------------------------------------
  // The outcome of `cluster start`

  /** The node records `start` builds on: none in a fresh epoch, the saved ones otherwise. */
  function EpochNodes(prior: Option<ClusterState>): map<string, NodeRecord> {
    if Loaded(prior).lifecycle == Stopped then map[] else Loaded(prior).nodes
  }

  /** The controller observation `start` acted on, once it has reached its loop. */
  function Observed(o: Outcome, drivers: Drivers): Driver
    requires o.backend.Some?
  {
    drivers.For(o.backend.value)
  }

  /**
   * Backend lock: a request for another controller than the one recorded for
   * a running cluster fails, and then nothing is started, nothing is written
   * and the controller is not even consulted.
   */
  lemma StartBackendLock(prior: Option<ClusterState>, manage: Option<string>, count: int, drivers: Drivers)
    ensures var o := StartOutcome(prior, manage, count, drivers);
      (o.error.Some? && o.error.value.ManageConflict?) <==> Conflict(prior, manage)
    ensures Conflict(prior, manage) ==>
      StartOutcome(prior, manage, count, drivers) == Failed(None, ManageConflict(Loaded(prior).manage))
  {
  }

  /**
   * Sticky controller: `Manage` is written only when the document has none
   * (the request, or docker without one); a recorded value is kept, even
   * when a stopped cluster is restarted with another request. The selected
   * controller is the one the saved document names.
   */
  lemma StartManageSticky(prior: Option<ClusterState>, manage: Option<string>, count: int, drivers: Drivers)
    ensures var o := StartOutcome(prior, manage, count, drivers);
      o.saved.Some? ==>
        o.saved.value.manage == (if Loaded(prior).manage == Missing then Text(manage.GetOr("docker"))
                                 else Loaded(prior).manage)
        && o.backend.Some? && o.saved.value.manage == Text(ManageName(o.backend.value))
  {
  }

  /**
   * Until the controller has listed its nodes, `start` neither issues nor
   * writes anything; once it has, the document is saved before the settling
   * step, and the only error left is that step's failure, wrapped.
   */
  lemma StartSavesBeforeSettling(prior: Option<ClusterState>, manage: Option<string>, count: int, drivers: Drivers)
    ensures var o := StartOutcome(prior, manage, count, drivers);
      (o.saved.None? ==> o.actions == [] && !o.updated && o.error.Some?)
      && (o.saved.Some? <==> o.updated)
      && (o.saved.Some? ==> o.saved.value.lifecycle == Running)
      && (o.saved.Some? ==>
            (o.error.Some? <==> !Observed(o, drivers).updateOk)
            && (o.error.Some? ==> o.error == Some(ManagementFailure(true))))
      && (o.backend.Some? && Observed(o, drivers).names.None? ==>
            o == Failed(o.backend, ManagementFailure(true)))
  {
  }

  /**
   * A start is issued for node i exactly when i is below the count and the
   * controller does not report node i as both known and running.
   */
  lemma StartIssuesExactlyUnsatisfied(prior: Option<ClusterState>, manage: Option<string>, count: int,
                                      drivers: Drivers, i: nat)
    requires StartOutcome(prior, manage, count, drivers).saved.Some?
    ensures var o := StartOutcome(prior, manage, count, drivers);
      (exists k :: 0 <= k < |o.actions| && o.actions[k].name == NodeName(i))
        <==> i < count && !Satisfied(Observed(o, drivers), i)
  {
    var o := StartOutcome(prior, manage, count, drivers);
    var drv := Observed(o, drivers);
    var ords := Pending(Clamp(count), drv);
    assert o.actions == StartActions(ords);
    StartActionsAt(ords);
    PendingMembers(Clamp(count), drv);
    if i < count && !Satisfied(drv, i) {
      var k :| 0 <= k < |ords| && ords[k] == i;
      assert o.actions[k].name == NodeName(i);
    }
    if k :| 0 <= k < |o.actions| && o.actions[k].name == NodeName(i) {
      NodeNameInjective(ords[k], i);
      assert ords[k] in ords;
    }
  }

  /**
   * The shape of a log of start actions for ordinals below n: every start
   * uses ports 8800 and 5500, is a genesis start exactly when it is for
   * node 0, and names a node whose ordinal is below n; the ordinals strictly
   * increase along the log, so at most one start is a genesis start.
   */
  predicate OrderedStarts(acts: seq<Action>, n: nat) {
    (forall k :: 0 <= k < |acts| ==>
       acts[k].StartNode? && acts[k].httpPort == 8800 && acts[k].gossipPort == 5500
       && (acts[k].genesis <==> acts[k].name == NodeName(0))
       && Ordinal(acts[k].name).Some? && Ordinal(acts[k].name).value < n)
    && (forall a, b :: 0 <= a < b < |acts| ==> Ordinal(acts[a].name).value < Ordinal(acts[b].name).value)
    && (forall a, b :: (0 <= a < |acts| && 0 <= b < |acts| && acts[a].genesis && acts[b].genesis) ==> a == b)
  }

  /** The starts `start` issues are ordered starts for ordinals below the count. */
  lemma StartActionsShape(prior: Option<ClusterState>, manage: Option<string>, count: int, drivers: Drivers)
    ensures OrderedStarts(StartOutcome(prior, manage, count, drivers).actions, Clamp(count))
  {
    var o := StartOutcome(prior, manage, count, drivers);
    if o.saved.Some? {
      var drv := Observed(o, drivers);
      var ords := Pending(Clamp(count), drv);
      assert o.actions == StartActions(ords);
      PendingMembers(Clamp(count), drv);
      PendingIncreasing(Clamp(count), drv);
      assert forall k :: 0 <= k < |ords| ==> ords[k] in ords;
      OrderedStartActions(ords, Clamp(count));
    } else {
      assert o.actions == [];
    }
  }

  /** The start actions for increasing ordinals below n are ordered starts. */
  lemma OrderedStartActions(ords: seq<nat>, n: nat)
    requires forall a, b :: 0 <= a < b < |ords| ==> ords[a] < ords[b]
    requires forall k :: 0 <= k < |ords| ==> ords[k] < n
    ensures OrderedStarts(StartActions(ords), n)
  {
    var acts := StartActions(ords);
    StartActionsAt(ords);
    forall k | 0 <= k < |ords|
      ensures Ordinal(acts[k].name) == Some(ords[k])
      ensures acts[k].genesis <==> acts[k].name == NodeName(0)
    {
      OrdinalOfNodeName(ords[k]);
      NodeNameInjective(ords[k], 0);
    }
  }

  /**
   * The saved node records: every started node is recorded as running with
   * its ordinal; every other record of the epoch, those of skipped nodes and
   * of ordinals at or beyond the count included, is kept as it was; nothing
   * else is added.
   */
  lemma StartRecordsStarted(prior: Option<ClusterState>, manage: Option<string>, count: int, drivers: Drivers)
    requires StartOutcome(prior, manage, count, drivers).saved.Some?
    ensures var o := StartOutcome(prior, manage, count, drivers);
      var drv := Observed(o, drivers);
      var nodes := o.saved.value.nodes;
      (forall i: nat :: i < count && !Satisfied(drv, i) ==>
         NodeName(i) in nodes && nodes[NodeName(i)] == NodeRecord(Running, i))
      && (forall key :: key in nodes <==>
            key in EpochNodes(prior) || exists i: nat :: i < count && !Satisfied(drv, i) && key == NodeName(i))
      && (forall j: nat :: (j >= count || Satisfied(drv, j)) && NodeName(j) in EpochNodes(prior) ==>
            NodeName(j) in nodes && nodes[NodeName(j)] == EpochNodes(prior)[NodeName(j)])
      && (forall key ::
            (key in EpochNodes(prior) && !(exists i: nat :: i < count && !Satisfied(drv, i) && key == NodeName(i)))
            ==> key in nodes && nodes[key] == EpochNodes(prior)[key])
  {
    var o := StartOutcome(prior, manage, count, drivers);
    var drv := Observed(o, drivers);
    var ords := Pending(Clamp(count), drv);
    var base := EpochNodes(prior);
    assert o.saved.value.nodes == Recorded(base, ords);
    RecordedKeys(base, ords);
    RecordedStarted(base, ords);
    PendingMembers(Clamp(count), drv);
    forall key ensures key in NamesOf(ords) <==> exists i: nat :: i < count && !Satisfied(drv, i) && key == NodeName(i) {
    }
    forall j: nat | (j >= count || Satisfied(drv, j)) && NodeName(j) in base
      ensures NodeName(j) in o.saved.value.nodes && o.saved.value.nodes[NodeName(j)] == base[NodeName(j)]
    {
      forall i | i in ords ensures NodeName(j) != NodeName(i) {
        NodeNameInjective(i, j);
      }
      RecordedKept(base, ords, NodeName(j));
    }
    forall key | key in base && key !in NamesOf(ords)
      ensures key in o.saved.value.nodes && o.saved.value.nodes[key] == base[key]
    {
      RecordedKept(base, ords, key);
    }
  }

  /**
   * Fresh epoch: when there was no document or the cluster was stopped, the
   * saved node records are exactly the nodes started by this run.
   */
  lemma StartFreshEpoch(prior: Option<ClusterState>, manage: Option<string>, count: int, drivers: Drivers)
    requires prior.None? || prior.value.lifecycle == Stopped
    requires StartOutcome(prior, manage, count, drivers).saved.Some?
    ensures var o := StartOutcome(prior, manage, count, drivers);
      var drv := Observed(o, drivers);
      var nodes := o.saved.value.nodes;
      forall key :: key in nodes <==> exists i: nat :: i < count && !Satisfied(drv, i) && key == NodeName(i)
  {
    StartRecordsStarted(prior, manage, count, drivers);
  }

  /**
   * Idempotence: when the controller reports every node below the count as
   * known and running, `start` issues no start and keeps the epoch's records.
   */
  lemma StartIdempotent(prior: Option<ClusterState>, manage: Option<string>, count: int, drivers: Drivers)
    requires StartOutcome(prior, manage, count, drivers).saved.Some?
    requires var o := StartOutcome(prior, manage, count, drivers);
      forall i: nat :: i < count ==> Satisfied(Observed(o, drivers), i)
    ensures var o := StartOutcome(prior, manage, count, drivers);
      o.actions == [] && o.saved.value.nodes == EpochNodes(prior)
  {
    var o := StartOutcome(prior, manage, count, drivers);
    var drv := Observed(o, drivers);
    var ords := Pending(Clamp(count), drv);
    assert o.actions == StartActions(ords);
    assert o.saved.value.nodes == Recorded(EpochNodes(prior), ords);
    PendingNoneWhenSatisfied(Clamp(count), drv);
  }

  /**
   * Growth: when the nodes below n are already known and running, `start`
   * issues starts only for ordinals from n up to the count.
   */
  lemma StartGrowth(prior: Option<ClusterState>, manage: Option<string>, count: int, drivers: Drivers, n: nat)
    requires StartOutcome(prior, manage, count, drivers).saved.Some?
    requires var o := StartOutcome(prior, manage, count, drivers);
      forall i: nat :: i < n ==> Satisfied(Observed(o, drivers), i)
    ensures var o := StartOutcome(prior, manage, count, drivers);
      forall k :: 0 <= k < |o.actions| ==> exists i: nat :: n <= i < count && o.actions[k].name == NodeName(i)
  {
    var o := StartOutcome(prior, manage, count, drivers);
    var drv := Observed(o, drivers);
    var ords := Pending(Clamp(count), drv);
    StartActionsAt(ords);
    PendingMembers(Clamp(count), drv);
    forall k | 0 <= k < |o.actions|
      ensures exists i: nat :: n <= i < count && o.actions[k].name == NodeName(i)
    {
      assert ords[k] in ords;
    }
  }

  /**
   * Re-running `start` on the document it saved, with a request that does
   * not contradict the recorded controller and with every node below the
   * count now reported known and running, issues nothing and saves the same
   * document again.
   */
  lemma StartRerun(prior: Option<ClusterState>, manage: Option<string>, count: int, drivers: Drivers,
                   manage2: Option<string>, drivers2: Drivers)
    requires StartOutcome(prior, manage, count, drivers).saved.Some?
    requires var saved := StartOutcome(prior, manage, count, drivers).saved.value;
      manage2.None? || saved.manage == Text(manage2.value)
    requires var o := StartOutcome(prior, manage, count, drivers);
      drivers2.For(o.backend.value).names.Some?
      && forall i: nat :: i < count ==> Satisfied(drivers2.For(o.backend.value), i)
    ensures var o := StartOutcome(prior, manage, count, drivers);
      var o2 := StartOutcome(o.saved, manage2, count, drivers2);
      o2.actions == [] && o2.saved == o.saved && o2.backend == o.backend
  {
    var o := StartOutcome(prior, manage, count, drivers);
    StartManageSticky(prior, manage, count, drivers);
    StartSavesBeforeSettling(prior, manage, count, drivers);
    var saved := o.saved.value;
    assert Prepare(o.saved, manage2) == Ok(saved);
    StartIdempotent(o.saved, manage2, count, drivers2);
  }

  /**
   * The controller choice is sticky but the lock only applies while running:
   * restarting a stopped cluster with a request for another controller than
   * the recorded one keeps the recorded one and saves the document (and
   * ends without error exactly when settling succeeds); repeating that very
   * command on the saved document then fails with the conflict.
   */
  lemma StartRepeatAfterSwitchConflicts(prior: Option<ClusterState>, request: string, count: int, drivers: Drivers)
    requires prior.Some? && prior.value.lifecycle == Stopped && prior.value.manage.Text?
    requires prior.value.manage != Text(request)
    requires StartOutcome(prior, Some(request), count, drivers).saved.Some?
    ensures var o := StartOutcome(prior, Some(request), count, drivers);
      o.saved.value.manage == prior.value.manage
      && (o.error == None <==> Observed(o, drivers).updateOk)
      && StartOutcome(o.saved, Some(request), count, drivers) == Failed(None, ManageConflict(prior.value.manage))
  {
  }
}
