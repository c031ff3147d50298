/** Over every run of the scheduler, a packet is only offered once its dependencies are done. */
module DependencySafety {
  import opened Prelude
  import opened Packets
  import opened Scheduler

  /** Some packet called `d` is completed or skipped. */
  ghost predicate Satisfied(ps: seq<Packet>, d: string) {
    exists j :: 0 <= j < |ps| && ps[j].id == d && ps[j].status.Done()
  }

  ghost predicate DependenciesDone(p: Packet, ps: seq<Packet>) {
    forall d :: d in p.dependencies ==> Satisfied(ps, d)
  }

  lemma DepsReadyMeansDone(p: Packet, ps: seq<Packet>)
    requires DistinctIds(ps)
    ensures DepsReady(p, ps) <==> DependenciesDone(p, ps)
  {
    forall j | 0 <= j < |ps| ensures ps[j].id in ById(ps) && ById(ps)[ps[j].id] == ps[j] {
      ByIdFindsEach(ps, j);
    }
    forall d | d in ById(ps) ensures Satisfied(ps, d) <==> ById(ps)[d].status.Done() {
      var k :| 0 <= k < |ps| && ps[k] == ById(ps)[d];
    }
  }

  /** The plan and the packet the last execution worked on. */
  datatype State = State(plan: Plan, active: Option<string>)

  /** What can happen to a plan: the selected packet is executed, ready or not, the packet just
      executed is put back for an agent retry, or it is repaired. */
  datatype Event = Execute(status: PacketStatus) | Retry | Repair(status: PacketStatus)

  function Updated(s: State, id: string, status: PacketStatus): State {
    State(s.plan.(packets := WithStatus(s.plan.packets, id, status)), Some(id))
  }

  ghost predicate Step(s: State, strategy: Option<Strategy>, e: Event, s': State) {
    match e
    case Execute(status) =>
      var id := Select(s.plan, strategy).selected;
      id.Some? && Settled(status) && s' == Updated(s, id.value, status)
    case Retry =>
      s.active.Some? && s' == Updated(s, s.active.value, Pending)
    case Repair(status) =>
      s.active.Some? && Settled(status) && s' == Updated(s, s.active.value, status)
  }

  ghost predicate Initial(s: State) {
    && DistinctIds(s.plan.packets)
    && s.active == None
    && forall i :: 0 <= i < |s.plan.packets| ==> s.plan.packets[i].status.Pending?
  }

  /** The active strategy may differ from step to step. */
  ghost predicate Run(states: seq<State>, strategies: seq<Option<Strategy>>, events: seq<Event>) {
    && |states| == |events| + 1 && |strategies| == |events|
    && Initial(states[0])
    && forall i :: 0 <= i < |events| ==> Step(states[i], strategies[i], events[i], states[i + 1])
  }

  /** Everything that waits for `id` is still untouched, and what `id` waits for is done. */
  ghost predicate Exposed(ps: seq<Packet>, id: string) {
    && (forall i :: 0 <= i < |ps| && id in ps[i].dependencies ==> ps[i].status.Pending?)
    && (forall i :: 0 <= i < |ps| && ps[i].id == id ==> DependenciesDone(ps[i], ps))
  }

  ghost predicate Invariant(s: State) {
    var ps := s.plan.packets;
    && DistinctIds(ps)
    && (forall i :: 0 <= i < |ps| && !ps[i].status.Pending? ==> DependenciesDone(ps[i], ps))
    && (s.active.Some? ==> Exposed(ps, s.active.value))
  }

  /** An exposed packet is not waiting for itself, and no touched packet is waiting for it. */
  lemma NobodyWaits(ps: seq<Packet>, id: string, i: nat)
    requires DistinctIds(ps) && Exposed(ps, id) && i < |ps| && (ps[i].id == id || !ps[i].status.Pending?)
    ensures id !in ps[i].dependencies
  {
    assert ps[i].id == id && id in ps[i].dependencies ==> Satisfied(ps, id);
    assert forall j :: 0 <= j < |ps| && ps[j].id == ps[i].id ==> j == i;
  }

  lemma OthersStaySatisfied(ps: seq<Packet>, id: string, status: PacketStatus, d: string)
    requires Satisfied(ps, d) && d != id
    ensures Satisfied(WithStatus(ps, id, status), d)
  {
    var ps' := WithStatus(ps, id, status);
    var j :| 0 <= j < |ps| && ps[j].id == d && ps[j].status.Done();
    assert ps'[j].id == d && ps'[j].status.Done();
  }

  /** An exposed packet may take any status without stranding another one. */
  lemma UpdateKeepsInvariant(s: State, id: string, status: PacketStatus)
    requires Invariant(s) && Exposed(s.plan.packets, id)
    ensures Invariant(Updated(s, id, status))
  {
    hide Satisfied;
    var ps, ps' := s.plan.packets, WithStatus(s.plan.packets, id, status);
    forall i | 0 <= i < |ps'| && (ps'[i].id == id || !ps'[i].status.Pending?)
      ensures DependenciesDone(ps'[i], ps')
    {
      assert DependenciesDone(ps[i], ps);
      NobodyWaits(ps, id, i);
      forall d | d in ps'[i].dependencies ensures Satisfied(ps', d) {
        OthersStaySatisfied(ps, id, status, d);
      }
    }
    assert forall i :: 0 <= i < |ps'| ==> ps'[i].id == ps[i].id && ps'[i].dependencies == ps[i].dependencies;
    forall i | 0 <= i < |ps'| && id in ps'[i].dependencies ensures ps'[i].status.Pending? {
      assert ps[i].status.Pending?;
      NobodyWaitsPending(ps, id, i);
    }
  }

  lemma NobodyWaitsPending(ps: seq<Packet>, id: string, i: nat)
    requires DistinctIds(ps) && Exposed(ps, id) && i < |ps| && id in ps[i].dependencies
    ensures ps[i].id != id
  {
    assert ps[i].id == id ==> Satisfied(ps, id);
    assert forall j :: 0 <= j < |ps| && ps[j].id == ps[i].id ==> j == i;
  }

  /** Whatever the selector offers is exposed. */
  lemma OfferedIsExposed(s: State, strategy: Option<Strategy>)
    requires Invariant(s) && Select(s.plan, strategy).ready
    ensures Select(s.plan, strategy).selected.Some?
    ensures Exposed(s.plan.packets, Select(s.plan, strategy).selected.value)
    ensures exists k :: 0 <= k < |s.plan.packets|
                        && s.plan.packets[k].id == Select(s.plan, strategy).selected.value
  {
    var ps := s.plan.packets;
    var repair, failed, pending :=
      FirstIndex(ps, IsPendingRepair), FirstIndex(ps, IsFailed), FirstIndex(ps, IsPending);
    var k := if Effective(strategy, s.plan).RepairOnly? && repair < |ps| then repair
             else if Effective(strategy, s.plan).RepairOnly? && failed < |ps| then failed else pending;
    assert Select(s.plan, strategy).selected == Some(ps[k].id);
    DepsReadyMeansDone(ps[k], ps);
    assert DependenciesDone(ps[k], ps);
    assert !ps[k].status.Done();
    hide Select, FirstIndex, DepsReady, Effective;
    UndoneIsNotSatisfied(ps, k);
    hide Satisfied;
    assert Exposed(ps, ps[k].id) by {
      assert forall i :: 0 <= i < |ps| && ps[i].id == ps[k].id ==> i == k;
    }
  }

  lemma UndoneIsNotSatisfied(ps: seq<Packet>, k: nat)
    requires DistinctIds(ps) && k < |ps| && !ps[k].status.Done()
    ensures !Satisfied(ps, ps[k].id)
  {
  }

  /** The packet that an execution would work on has all its dependencies done. */
  ghost predicate SelectedIsDone(s: State, strategy: Option<Strategy>) {
    var ps, id := s.plan.packets, Select(s.plan, strategy).selected;
    id.Some? ==> forall k :: 0 <= k < |ps| && ps[k].id == id.value ==> DependenciesDone(ps[k], ps)
  }

  /** While the invariant holds, the selector's `ready` says exactly that. */
  lemma ReadyIffDone(s: State, strategy: Option<Strategy>)
    requires Invariant(s) && Select(s.plan, strategy).selected.Some?
    ensures Select(s.plan, strategy).ready <==> SelectedIsDone(s, strategy)
  {
    var ps := s.plan.packets;
    if Select(s.plan, strategy).ready {
      OfferedIsExposed(s, strategy);
    } else {
      var repair, pending := FirstIndex(ps, IsPendingRepair), FirstIndex(ps, IsPending);
      var k := if Effective(strategy, s.plan).RepairOnly? && repair < |ps| then repair else pending;
      DepsReadyMeansDone(ps[k], ps);
      assert Select(s.plan, strategy).selected == Some(ps[k].id) && !DependenciesDone(ps[k], ps);
    }
  }

  lemma StepKeepsInvariant(s: State, strategy: Option<Strategy>, e: Event, s': State)
    requires Invariant(s) && Step(s, strategy, e, s')
    requires e.Execute? ==> Select(s.plan, strategy).ready
    ensures Invariant(s')
  {
    match e
    case Execute(status) =>
      OfferedIsExposed(s, strategy);
      UpdateKeepsInvariant(s, Select(s.plan, strategy).selected.value, status);
    case Retry => UpdateKeepsInvariant(s, s.active.value, Pending);
    case Repair(status) => UpdateKeepsInvariant(s, s.active.value, status);
  }

  /** The first `n` events execute ready packets only. */
  ghost predicate ReadyUpTo(states: seq<State>, strategies: seq<Option<Strategy>>, events: seq<Event>, n: nat)
    requires |states| == |events| + 1 && |strategies| == |events| && n <= |events|
  {
    forall i :: 0 <= i < n && events[i].Execute? ==> Select(states[i].plan, strategies[i]).ready
  }

  ghost predicate DoneUpTo(states: seq<State>, strategies: seq<Option<Strategy>>, events: seq<Event>, n: nat)
    requires |states| == |events| + 1 && |strategies| == |events| && n <= |events|
  {
    forall i :: 0 <= i < n && events[i].Execute? ==> SelectedIsDone(states[i], strategies[i])
  }

  lemma {:induction false} ReadyRunKeepsInvariant(
      states: seq<State>, strategies: seq<Option<Strategy>>, events: seq<Event>, n: nat)
    requires Run(states, strategies, events) && n <= |events| && ReadyUpTo(states, strategies, events, n)
    ensures Invariant(states[n])
  {
    hide Step, Select;
    if n > 0 {
      ReadyRunKeepsInvariant(states, strategies, events, n - 1);
      assert Step(states[n - 1], strategies[n - 1], events[n - 1], states[n - 1 + 1]);
      StepKeepsInvariant(states[n - 1], strategies[n - 1], events[n - 1], states[n]);
    }
  }

  lemma StepSelects(s: State, strategy: Option<Strategy>, e: Event, s': State)
    requires Step(s, strategy, e, s') && e.Execute?
    ensures Select(s.plan, strategy).selected.Some?
  {
  }

  /** Every run, under any strategies: all executions find the dependencies of their packet done if
      and only if all of them work on a packet that was selected as ready. */
  lemma {:induction false} ExecutionsAreSafeIffReady(
      states: seq<State>, strategies: seq<Option<Strategy>>, events: seq<Event>, n: nat)
    requires Run(states, strategies, events) && n <= |events|
    ensures DoneUpTo(states, strategies, events, n) <==> ReadyUpTo(states, strategies, events, n)
  {
    hide Step, Select, SelectedIsDone, Invariant;
    if n > 0 {
      var i := n - 1;
      ExecutionsAreSafeIffReady(states, strategies, events, i);
      if events[i].Execute? && ReadyUpTo(states, strategies, events, i) {
        assert Step(states[i], strategies[i], events[i], states[i + 1]);
        StepSelects(states[i], strategies[i], events[i], states[i + 1]);
        ReadyRunKeepsInvariant(states, strategies, events, i);
        ReadyIffDone(states[i], strategies[i]);
      }
    }
  }

  /** Under every strategy, as long as the executions so far worked on ready packets, the packet
      offered as ready has all its dependencies completed or skipped; for repair_only this covers the
      failed packet that is offered again without looking at its dependencies. */
  lemma OfferedPacketsHaveDoneDependencies(
      states: seq<State>, strategies: seq<Option<Strategy>>, events: seq<Event>, n: nat, strategy: Option<Strategy>)
    requires Run(states, strategies, events) && n <= |events| && ReadyUpTo(states, strategies, events, n)
    requires Select(states[n].plan, strategy).ready
    ensures var ps := states[n].plan.packets;
            exists k :: 0 <= k < |ps| && Select(states[n].plan, strategy).selected == Some(ps[k].id)
                        && DependenciesDone(ps[k], ps)
  {
    ReadyRunKeepsInvariant(states, strategies, events, n);
    OfferedIsExposed(states[n], strategy);
  }
}
