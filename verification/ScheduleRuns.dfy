/** Whole runs of the execute/review cycle over one decomposition plan. */
module ScheduleRuns {
  import opened Prelude
  import opened Packets
  import opened Scheduler
  import opened DependencySafety

  /** Each settled result goes to the packet progression selects, until progression leaves the
      execute stage or the results run out; also returns how many executions that took. */
  function Drive(plan: Plan, active: Option<Strategy>, results: seq<PacketStatus>): (Plan, nat)
    decreases |results|
  {
    var p := Progression(plan, active);
    if !p.nextStage.ToExecute? || p.nextPacket.None? || results == [] then (plan, 0) else
      var (last, used) := Drive(Executed(plan, p.nextPacket.value, results[0]), active, results[1..]);
      (last, used + 1)
  }

  function Executed(plan: Plan, id: string, status: PacketStatus): Plan {
    plan.(packets := WithStatus(plan.packets, id, status))
  }

  ghost predicate AllSettled(results: seq<PacketStatus>) {
    forall i :: 0 <= i < |results| ==> Settled(results[i])
  }

  /** Executions only ever settle a packet. */
  lemma ExecutionsSettle(r: Evidence.ExecutionResult, kind: PacketType, runtimeSensitive: bool)
    ensures Settled(TypedStatus(r, kind, runtimeSensitive))
    ensures StatusFromExecution(r) == Completed <==>
            r.ok && r.status in {Evidence.Succeeded, Evidence.Partial} && r.evidence.blockers == []
    ensures StatusFromExecution(r) != Completed && Evidence.BlocksEnvironment(r.evidence)
            ==> StatusFromExecution(r) == Blocked
  {
  }

  // ----- plans whose packets are listed after what they depend on -----

  ghost predicate Earlier(ps: seq<Packet>, i: int, d: string) {
    exists j :: 0 <= j < i && j < |ps| && ps[j].id == d
  }

  ghost predicate Ordered(ps: seq<Packet>) {
    forall i, d :: 0 <= i < |ps| && d in ps[i].dependencies ==> Earlier(ps, i, d)
  }

  /** The first `k` packets are settled and the others have not been touched. */
  ghost predicate Front(ps: seq<Packet>, k: nat) {
    && k <= |ps|
    && (forall i :: 0 <= i < k ==> Settled(ps[i].status))
    && (forall i :: k <= i < |ps| ==> ps[i].status.Pending?)
  }

  lemma FrontSelects(plan: Plan, active: Option<Strategy>, k: nat)
    requires DistinctIds(plan.packets) && Front(plan.packets, k) && !Effective(active, plan).RepairOnly?
    ensures k == |plan.packets| ==> Select(plan, active) == Selection(None, false, [])
    ensures k < |plan.packets| ==> Select(plan, active) == Offer(plan.packets[k], plan.packets)
  {
    var ps := plan.packets;
    var pending := FirstIndex(ps, IsPending);
    assert k < |ps| ==> IsPending(ps[k]);
    assert pending < |ps| ==> IsPending(ps[pending]);
  }

  /** The three ways a plan in progress goes on: execute the next packet, stop complete, or stop
      because of what is left. */
  lemma FrontProgression(plan: Plan, active: Option<Strategy>, k: nat)
    requires plan.packets != [] && DistinctIds(plan.packets) && Front(plan.packets, k)
    requires !Effective(active, plan).RepairOnly?
    ensures var p, ps := Progression(plan, active), plan.packets;
            if k < |ps| && DependenciesDone(ps[k], ps) then p.nextStage.ToExecute? && p.nextPacket == Some(ps[k].id)
            else !p.nextStage.ToExecute? && p.outcome == StopOutcome(ps)
  {
    hide Select, DepsReady, PendingDeps, RepairPacketSelected, DependenciesDone, Packets.DistinctIds, FirstIndex, StopOutcome;
    FrontSelects(plan, active, k);
    if k < |plan.packets| {
      assert !plan.packets[k].status.Done();
      DepsReadyMeansDone(plan.packets[k], plan.packets);
    }
    if !Select(plan, active).ready { StopsForItsReason(plan, active); }
  }

  lemma StopsForItsReason(plan: Plan, active: Option<Strategy>)
    requires plan.packets != [] && !Select(plan, active).ready
    ensures !Progression(plan, active).nextStage.ToExecute? && Progression(plan, active).outcome == StopOutcome(plan.packets)
  {
    hide Select, RepairPacketSelected;
    var ps := plan.packets;
    var failed, blocked, pending := FirstIndex(ps, IsFailed), FirstIndex(ps, IsBlocked), FirstIndex(ps, IsPending);
    assert failed < |ps| ==> IsFailed(ps[failed]);
    assert blocked < |ps| ==> IsBlocked(ps[blocked]);
    assert pending < |ps| ==> IsPending(ps[pending]);
  }

  /** Why a plan that runs no further packet stops. */
  function StopOutcome(ps: seq<Packet>): Outcome {
    if forall i :: 0 <= i < |ps| ==> ps[i].status.Done() then DecompositionCompleted
    else if exists i :: 0 <= i < |ps| && ps[i].status.Failed? then FailedTerminal
    else if exists i :: 0 <= i < |ps| && IsBlockedImplementation(ps[i]) then RuntimeProofBlocked
    else if exists i :: 0 <= i < |ps| && ps[i].status.Blocked? then NeedsEnvironment
    else if exists i :: 0 <= i < |ps| && ps[i].status.Pending? then ManualInterventionRequired
    else BlockedTerminal
  }

  /** One more execution, in the terms of `Drive`. */
  lemma DriveOnce(plan: Plan, active: Option<Strategy>, results: seq<PacketStatus>, id: string)
    requires Progression(plan, active).nextStage.ToExecute? && Progression(plan, active).nextPacket == Some(id)
    requires results != []
    ensures var (last, used) := Drive(Executed(plan, id, results[0]), active, results[1..]);
            Drive(plan, active, results) == (last, used + 1)
  {
  }

  lemma DriveStops(plan: Plan, active: Option<Strategy>, results: seq<PacketStatus>)
    requires !Progression(plan, active).nextStage.ToExecute?
    ensures Drive(plan, active, results) == (plan, 0)
  {
  }

  lemma ExecutingAdvancesFront(ps: seq<Packet>, k: nat, status: PacketStatus)
    requires DistinctIds(ps) && Front(ps, k) && k < |ps| && Settled(status)
    ensures var ps' := WithStatus(ps, ps[k].id, status);
            && Front(ps', k + 1) && ps'[k].status == status && DistinctIds(ps')
            && (forall i :: 0 <= i < |ps| && i != k ==> ps'[i] == ps[i])
            && (Ordered(ps) ==> Ordered(ps')) && (Chain(ps) ==> Chain(ps'))
  {
    var ps' := WithStatus(ps, ps[k].id, status);
    assert forall i :: 0 <= i < |ps| && i != k ==> ps[i].id != ps[k].id;
    if Ordered(ps) {
      forall i, d | 0 <= i < |ps'| && d in ps'[i].dependencies ensures Earlier(ps', i, d) {
        assert Earlier(ps, i, d);
        var j :| 0 <= j < i && ps[j].id == d;
        assert ps'[j].id == d;
      }
    }
  }

  predicate Expected(o: Outcome) {
    o.DecompositionCompleted? || o.FailedTerminal? || o.RuntimeProofBlocked? || o.NeedsEnvironment?
  }

  /** An ordered plan never stops for any other reason. */
  lemma OrderedPlansStopAsExpected(ps: seq<Packet>, k: nat)
    requires DistinctIds(ps) && Ordered(ps) && Front(ps, k)
    requires k < |ps| ==> !DependenciesDone(ps[k], ps)
    ensures Expected(StopOutcome(ps))
  {
    if k < |ps| {
      var d :| d in ps[k].dependencies && !Satisfied(ps, d);
      assert Earlier(ps, k, d);
      var j :| 0 <= j < k && ps[j].id == d;
      assert Settled(ps[j].status) && !ps[j].status.Done();
    }
  }

  /** Whatever the executions report, an ordered plan of n packets takes at most n executions and
      then stops in one of the four expected outcomes. */
  lemma {:induction false} OrderedRun(plan: Plan, active: Option<Strategy>, results: seq<PacketStatus>, k: nat)
    requires plan.packets != [] && DistinctIds(plan.packets) && Ordered(plan.packets) && Front(plan.packets, k)
    requires !Effective(active, plan).RepairOnly? && AllSettled(results)
    ensures var (last, used) := Drive(plan, active, results);
            && k + used <= |plan.packets|
            && Front(last.packets, k + used)
            && (|results| >= |plan.packets| - k ==>
                  !Progression(last, active).nextStage.ToExecute? && Expected(Progression(last, active).outcome))
    decreases |results|
  {
    var ps := plan.packets;
    FrontProgression(plan, active, k);
    if k == |ps| || !DependenciesDone(ps[k], ps) {
      OrderedPlansStopAsExpected(ps, k);
      DriveStops(plan, active, results);
    } else if results != [] {
      ExecutingAdvancesFront(ps, k, results[0]);
      OrderedRun(Executed(plan, ps[k].id, results[0]), active, results[1..], k + 1);
      DriveOnce(plan, active, results, ps[k].id);
    }
  }

  // ----- chains: the exact outcome -----

  /** A plan no packet of which has been touched. */
  ghost predicate Fresh(plan: Plan) {
    && plan.packets != [] && DistinctIds(plan.packets)
    && forall i :: 0 <= i < |plan.packets| ==> plan.packets[i].status.Pending?
  }

  /** What the planner builds: each packet depends on its predecessor and on nothing else. */
  ghost predicate Chain(ps: seq<Packet>) {
    && DistinctIds(ps)
    && (ps != [] ==> ps[0].dependencies == [])
    && forall i, j :: 0 <= i < |ps| && j == i + 1 < |ps| ==> ps[j].dependencies == [ps[i].id]
  }

  ghost predicate CompletedUpTo(ps: seq<Packet>, k: nat) {
    Front(ps, k) && forall i :: 0 <= i < k ==> ps[i].status.Completed?
  }

  lemma ChainIsDistinct(ps: seq<Packet>)
    requires Chain(ps)
    ensures DistinctIds(ps)
  {
  }

  /** Number of leading completed results, at most `n`. */
  function CompletedPrefix(results: seq<PacketStatus>, n: nat): (c: nat)
    ensures c <= n && c <= |results|
    ensures c < n && c < |results| ==> !results[c].Completed?
    ensures forall i :: 0 <= i < c ==> results[i].Completed?
  {
    if n == 0 || results == [] || !results[0].Completed? then 0 else 1 + CompletedPrefix(results[1..], n - 1)
  }

  /** How a chain ends when packet `k` is the first one not completed. */
  function ChainOutcome(ps: seq<Packet>, k: nat, status: PacketStatus): Outcome
    requires k <= |ps|
  {
    if k == |ps| then DecompositionCompleted
    else if status.Failed? then FailedTerminal
    else if ps[k].kind.Implementation? then RuntimeProofBlocked
    else NeedsEnvironment
  }

  lemma ChainNextIsReady(ps: seq<Packet>, k: nat)
    requires Chain(ps) && CompletedUpTo(ps, k) && k < |ps|
    ensures DependenciesDone(ps[k], ps)
  {
    if k > 0 {
      assert ps[k].dependencies == [ps[k - 1].id];
      assert ps[k - 1].status.Completed?;
    }
  }

  /** The first `m` packets completed, packet `m` (if any) did not, the rest never ran. */
  ghost predicate ChainEnded(ps: seq<Packet>, m: nat, status: PacketStatus) {
    && Chain(ps) && m <= |ps|
    && (forall i :: 0 <= i < m ==> ps[i].status.Completed?)
    && (m < |ps| ==> Front(ps, m + 1) && ps[m].status == status && !status.Completed?)
  }

  /** After the first packet that did not complete, nothing else runs. */
  lemma EndedChainStops(plan: Plan, active: Option<Strategy>, m: nat, status: PacketStatus)
    requires plan.packets != [] && ChainEnded(plan.packets, m, status) && !Effective(active, plan).RepairOnly?
    ensures !Progression(plan, active).nextStage.ToExecute?
    ensures Progression(plan, active).outcome == ChainOutcome(plan.packets, m, status)
  {
    hide Progression;
    var ps := plan.packets;
    if m < |ps| {
      assert Settled(ps[m].status);
      if m + 1 < |ps| {
        assert ps[m].id in ps[m + 1].dependencies;
      }
      FrontProgression(plan, active, m + 1);
    } else {
      FrontProgression(plan, active, m);
    }
  }

  /** The results are used up to the first one that is not completed. */
  lemma {:induction false} ChainConsumes(plan: Plan, active: Option<Strategy>, results: seq<PacketStatus>, k: nat)
    requires plan.packets != [] && Chain(plan.packets) && CompletedUpTo(plan.packets, k)
    requires !Effective(active, plan).RepairOnly? && AllSettled(results)
    requires |results| >= |plan.packets| - k
    ensures var n := |plan.packets|;
            var (last, used) := Drive(plan, active, results);
            var c := CompletedPrefix(results, n - k);
            && |last.packets| == n && last.strategy == plan.strategy
            && used == (if c == n - k then c else c + 1)
            && ChainEnded(last.packets, k + c, if c == n - k then Completed else results[c])
            && (forall i :: 0 <= i < n ==> last.packets[i].kind == plan.packets[i].kind)
    decreases |results|
  {
    hide Progression, Drive, Chain;
    var ps := plan.packets;
    ChainIsDistinct(ps);
    FrontProgression(plan, active, k);
    if k == |ps| {
      DriveStops(plan, active, results);
    } else {
      ChainNextIsReady(ps, k);
      ExecutingAdvancesFront(ps, k, results[0]);
      var next := Executed(plan, ps[k].id, results[0]);
      DriveOnce(plan, active, results, ps[k].id);
      if results[0].Completed? {
        ChainConsumes(next, active, results[1..], k + 1);
      } else {
        assert ChainEnded(next.packets, k, results[0]);
        EndedChainStops(next, active, k, results[0]);
        DriveStops(next, active, results[1..]);
      }
    }
  }

  /** A fresh chain of n packets: how many executions run, which packets end up completed, and
      the outcome, all decided by the first result that is not completed. */
  lemma ChainRun(plan: Plan, active: Option<Strategy>, results: seq<PacketStatus>)
    requires Fresh(plan) && Chain(plan.packets)
    requires !Effective(active, plan).RepairOnly? && AllSettled(results) && |results| >= |plan.packets|
    ensures var n := |plan.packets|;
            var (last, used) := Drive(plan, active, results);
            var c := CompletedPrefix(results, n);
            && used == (if c == n then n else c + 1)
            && |last.packets| == n
            && (forall i :: 0 <= i < c ==> last.packets[i].status.Completed?)
            && (forall i :: used <= i < n ==> last.packets[i].status.Pending?)
            && !Progression(last, active).nextStage.ToExecute?
            && Progression(last, active).outcome
               == ChainOutcome(plan.packets, c, if c == n then Completed else results[c])
  {
    hide Progression, Drive;
    var n := |plan.packets|;
    var (last, used) := Drive(plan, active, results);
    var c := CompletedPrefix(results, n);
    ChainConsumes(plan, active, results, 0);
    EndedChainStops(last, active, c, if c == n then Completed else results[c]);
  }

  // ----- badly ordered plans stall -----

  /** Position of the first packet listed before something it depends on. */
  ghost predicate FirstUnordered(ps: seq<Packet>, k: nat, d: string) {
    && k < |ps| && d in ps[k].dependencies && !Earlier(ps, k, d)
    && forall i, e :: 0 <= i < k && e in ps[i].dependencies ==> Earlier(ps, i, e)
  }

  lemma {:induction false} FirstUnorderedExists(ps: seq<Packet>, n: nat) returns (k: nat, d: string)
    requires n < |ps| && exists e :: e in ps[n].dependencies && !Earlier(ps, n, e)
    ensures FirstUnordered(ps, k, d)
    decreases n
  {
    if m, e :| 0 <= m < n && e in ps[m].dependencies && !Earlier(ps, m, e) {
      k, d := FirstUnorderedExists(ps, m);
    } else {
      k := n;
      d :| d in ps[n].dependencies && !Earlier(ps, n, d);
    }
  }

  function Successes(n: nat): (r: seq<PacketStatus>)
    ensures |r| == n && forall i :: 0 <= i < n ==> r[i].Completed?
  {
    seq(n, i => Completed)
  }

  /** Packets before the first unordered one find their dependencies completed; it does not. */
  lemma ReadyUntilUnordered(ps: seq<Packet>, k: nat, bad: nat, d: string)
    requires DistinctIds(ps) && CompletedUpTo(ps, k) && FirstUnordered(ps, bad, d) && k <= bad
    ensures DependenciesDone(ps[k], ps) <==> k < bad
  {
    if k < bad {
      forall e | e in ps[k].dependencies ensures Satisfied(ps, e) {
        assert Earlier(ps, k, e);
        var j :| 0 <= j < k && ps[j].id == e;
        assert ps[j].status.Completed?;
      }
    } else {
      assert forall j :: 0 <= j < |ps| && ps[j].id == d ==> ps[j].status.Pending?;
    }
  }

  /** Being unordered is a matter of ids and dependencies, not of statuses. */
  lemma UnorderedWhateverTheStatus(ps: seq<Packet>, id: string, status: PacketStatus, bad: nat, d: string)
    requires FirstUnordered(ps, bad, d)
    ensures FirstUnordered(WithStatus(ps, id, status), bad, d)
  {
    var ps' := WithStatus(ps, id, status);
    forall i, e | 0 <= i <= bad && e in ps[i].dependencies ensures Earlier(ps, i, e) <==> Earlier(ps', i, e) {
      if Earlier(ps, i, e) {
        var j :| 0 <= j < i && ps[j].id == e;
        assert ps'[j].id == e;
      }
      if Earlier(ps', i, e) {
        var j :| 0 <= j < i && ps'[j].id == e;
        assert ps[j].id == e;
      }
    }
  }

  /** With every execution succeeding, the run reaches the first unordered packet. */
  lemma {:induction false} UnorderedPlanReaches(plan: Plan, active: Option<Strategy>, n: nat, k: nat, bad: nat, d: string)
    requires DistinctIds(plan.packets) && CompletedUpTo(plan.packets, k)
    requires FirstUnordered(plan.packets, bad, d) && k <= bad && n >= bad - k
    requires !Effective(active, plan).RepairOnly?
    ensures var (last, used) := Drive(plan, active, Successes(n));
            && used == bad - k && last.strategy == plan.strategy && DistinctIds(last.packets)
            && CompletedUpTo(last.packets, bad) && FirstUnordered(last.packets, bad, d)
    decreases bad - k
  {
    hide Progression, FirstUnordered, DependenciesDone, Drive;
    var ps := plan.packets;
    assert bad < |ps| by { UnorderedIsThere(ps, bad, d); }
    FrontProgression(plan, active, k);
    ReadyUntilUnordered(ps, k, bad, d);
    if k == bad {
      DriveStops(plan, active, Successes(n));
    } else {
      ExecutingAdvancesFront(ps, k, Completed);
      UnorderedWhateverTheStatus(ps, ps[k].id, Completed, bad, d);
      DriveOnce(plan, active, Successes(n), ps[k].id);
      assert Successes(n)[1..] == Successes(n - 1);
      UnorderedPlanReaches(Executed(plan, ps[k].id, Completed), active, n - 1, k + 1, bad, d);
    }
  }

  /** ... and stops there for manual intervention. */
  lemma UnorderedPlanStalls(plan: Plan, active: Option<Strategy>, bad: nat, d: string)
    requires DistinctIds(plan.packets) && CompletedUpTo(plan.packets, bad) && FirstUnordered(plan.packets, bad, d)
    requires !Effective(active, plan).RepairOnly?
    ensures Progression(plan, active).outcome == ManualInterventionRequired
  {
    hide Progression, FirstUnordered, Effective;
    assert bad < |plan.packets| by { UnorderedIsThere(plan.packets, bad, d); }
    FrontProgression(plan, active, bad);
    ReadyUntilUnordered(plan.packets, bad, bad, d);
    assert plan.packets[bad].status.Pending?;
  }

  lemma UnorderedIsThere(ps: seq<Packet>, bad: nat, d: string)
    requires FirstUnordered(ps, bad, d)
    ensures bad < |ps|
  {
  }

  /** Some sequence of execution results leads to manual intervention. */
  ghost predicate CanStall(plan: Plan, active: Option<Strategy>) {
    exists results :: AllSettled(results) && |results| >= |plan.packets|
                      && Progression(Drive(plan, active, results).0, active).outcome == ManualInterventionRequired
  }

  /** Manual intervention is out of reach exactly for plans listed in dependency order. */
  lemma NeverStallsIffOrdered(plan: Plan, active: Option<Strategy>)
    requires Fresh(plan) && !Effective(active, plan).RepairOnly?
    ensures !CanStall(plan, active) <==> Ordered(plan.packets)
  {
    var ps := plan.packets;
    if Ordered(ps) {
      forall results | AllSettled(results) && |results| >= |ps|
        ensures Progression(Drive(plan, active, results).0, active).outcome != ManualInterventionRequired
      {
        OrderedRun(plan, active, results, 0);
      }
    } else {
      var n, e :| 0 <= n < |ps| && e in ps[n].dependencies && !Earlier(ps, n, e);
      var bad, d := FirstUnorderedExists(ps, n);
      UnorderedPlanReaches(plan, active, |ps|, 0, bad, d);
      UnorderedPlanStalls(Drive(plan, active, Successes(|ps|)).0, active, bad, d);
      assert AllSettled(Successes(|ps|));
    }
  }

  // ----- repair_only -----

  /** Only the first packet of a plan may be a repair packet; in the planner's plans it is then the
      only one. */
  ghost predicate RepairsFirst(ps: seq<Packet>) {
    forall i :: 0 < i < |ps| ==> !ps[i].kind.Repair?
  }

  /** The packets before `c` are completed and those after it untouched. */
  ghost predicate UpTo(ps: seq<Packet>, c: nat) {
    && c <= |ps|
    && (forall i :: 0 <= i < c ==> ps[i].status.Completed?)
    && (forall i :: c < i < |ps| ==> ps[i].status.Pending?)
  }

  /** Under repair_only a chain goes on with packet `c` while it is pending or failed. */
  lemma RepairOnlyGoesOnIff(plan: Plan, active: Option<Strategy>, c: nat)
    requires Chain(plan.packets) && RepairsFirst(plan.packets) && UpTo(plan.packets, c)
    requires Effective(active, plan).RepairOnly? && plan.packets != []
    requires c < |plan.packets| ==> plan.packets[c].status.Pending? || Settled(plan.packets[c].status)
    requires c < |plan.packets| ==> !plan.packets[c].status.Completed?
    ensures var p, ps := Progression(plan, active), plan.packets;
            if c < |ps| && !ps[c].status.Blocked? then p.nextStage.ToExecute? && p.nextPacket == Some(ps[c].id)
            else !p.nextStage.ToExecute?
  {
    var ps := plan.packets;
    if c < |ps| {
      RepairOnlySelects(plan, active, c);
      assert !ps[c].status.Done();
    } else {
      assert PlanCompleted(plan);
    }
    hide Select, RepairPacketSelected;
  }

  lemma RepairOnlySelects(plan: Plan, active: Option<Strategy>, c: nat)
    requires Chain(plan.packets) && RepairsFirst(plan.packets) && UpTo(plan.packets, c) && c < |plan.packets|
    requires Effective(active, plan).RepairOnly? && !plan.packets[c].status.Completed?
    requires plan.packets[c].status.Pending? || Settled(plan.packets[c].status)
    ensures var sel, ps := Select(plan, active), plan.packets;
            if ps[c].status.Blocked? then !sel.ready else sel.ready && sel.selected == Some(ps[c].id)
  {
    var ps := plan.packets;
    var repair, failed, pending :=
      FirstIndex(ps, IsPendingRepair), FirstIndex(ps, IsFailed), FirstIndex(ps, IsPending);
    assert repair < |ps| ==> repair == 0 && c == 0;
    assert IsPending(ps[c]) || IsFailed(ps[c]) || IsBlocked(ps[c]);
    assert failed < |ps| ==> failed == c;
    assert c + 1 < |ps| ==> IsPending(ps[c + 1]);
    assert pending < |ps| ==> pending == if IsPending(ps[c]) then c else c + 1;
    if ps[c].status.Blocked? {
      if c + 1 < |ps| {
        assert ps[c + 1].dependencies == [ps[c].id];
        assert ps[c].id in ps[c + 1].dependencies;
        assert !DependenciesDone(ps[c + 1], ps);
        DepsReadyMeansDone(ps[c + 1], ps);
      }
    } else if IsPending(ps[c]) {
      UpToIsReady(ps, c);
      DepsReadyMeansDone(ps[c], ps);
    }
  }

  lemma UpToIsReady(ps: seq<Packet>, c: nat)
    requires Chain(ps) && UpTo(ps, c) && c < |ps|
    ensures DependenciesDone(ps[c], ps)
  {
    if c > 0 {
      assert ps[c].dependencies == [ps[c - 1].id];
      assert ps[c - 1].status.Completed?;
    }
  }

  lemma ExecutingKeepsChain(ps: seq<Packet>, c: nat, status: PacketStatus)
    requires Chain(ps) && RepairsFirst(ps) && UpTo(ps, c) && c < |ps|
    ensures var ps' := WithStatus(ps, ps[c].id, status);
            && Chain(ps') && RepairsFirst(ps') && |ps'| == |ps| && ps'[c].status == status
            && UpTo(ps', c) && (status.Completed? ==> UpTo(ps', c + 1))
            && (forall i :: 0 <= i < |ps| && i != c ==> ps'[i] == ps[i])
  {
    assert forall i :: 0 <= i < |ps| && i != c ==> ps[i].id != ps[c].id;
  }

  function CompletedCount(results: seq<PacketStatus>): (n: nat)
    ensures n <= |results|
  {
    if results == [] then 0 else One(results[0].Completed?) + CompletedCount(results[1..])
  }

  function One(b: bool): nat { if b then 1 else 0 }

  /** A chain under repair_only, its packet `c` pending or failed: a failed packet is offered again
      every time, so the run goes on exactly as long as no result is blocked and not every packet has
      been completed. It has no bound of its own. */
  lemma {:induction false} RepairOnlyRun(plan: Plan, active: Option<Strategy>, results: seq<PacketStatus>, c: nat)
    requires plan.packets != [] && Chain(plan.packets) && RepairsFirst(plan.packets) && UpTo(plan.packets, c)
    requires c < |plan.packets| ==> plan.packets[c].status.Pending? || plan.packets[c].status.Failed?
    requires Effective(active, plan).RepairOnly? && AllSettled(results)
    ensures var (last, used) := Drive(plan, active, results);
            var left := |plan.packets| - c;
            && used <= |results| && CompletedCount(results[..used]) <= left
            && (Progression(last, active).nextStage.ToExecute? <==>
                (forall i :: 0 <= i < |results| ==> !results[i].Blocked?) && CompletedCount(results) < left)
            && (forall i :: 0 <= i < used - 1 ==> !results[i].Blocked?)
            && (used < |results| ==>
                  CompletedCount(results[..used]) == left || (used > 0 && results[used - 1].Blocked?))
    decreases |results|
  {
    hide Progression, Drive, Chain, RepairsFirst, UpTo, WithStatus, CompletedCount;
    var ps := plan.packets;
    assert c <= |ps| by { UpToIsThere(ps, c); }
    RepairOnlyGoesOnIff(plan, active, c);
    CountStarts(results);
    if c == |ps| || results == [] {
      if c == |ps| { DriveStops(plan, active, results); } else { DriveEmpty(plan, active); }
      assert results[..0] == [];
    } else {
      var id, status := ps[c].id, results[0];
      var next := Executed(plan, id, status);
      ExecutingKeepsChain(ps, c, status);
      DriveOnce(plan, active, results, id);
      var used := Drive(plan, active, results).1;
      var used' := Drive(next, active, results[1..]).1;
      if status.Blocked? {
        RepairOnlyGoesOnIff(next, active, c);
        DriveStops(next, active, results[1..]);
      } else {
        RepairOnlyRun(next, active, results[1..], if status.Completed? then c + 1 else c);
      }
      assert used == used' + 1;
      CountStarts(results[..used]);
      assert results[..used][1..] == results[1..][..used'];
      assert forall i, j :: 0 <= i && j == i + 1 < |results| ==> results[j] == results[1..][i];
    }
  }

  lemma UpToIsThere(ps: seq<Packet>, c: nat)
    requires UpTo(ps, c)
    ensures c <= |ps|
  {
  }

  lemma CountStarts(results: seq<PacketStatus>)
    ensures CompletedCount([]) == 0
    ensures results != [] ==> CompletedCount(results) == One(results[0].Completed?) + CompletedCount(results[1..])
  {
  }

  lemma DriveEmpty(plan: Plan, active: Option<Strategy>)
    ensures Drive(plan, active, []) == (plan, 0)
  {
  }
}
