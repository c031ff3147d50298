/** Packet selection, progression and status updates (decomposition/selector.py, runtime.py). */
module Scheduler {
  import opened Prelude
  import opened Packets
  import opened Evidence

  // ----- statuses drawn from execution results -----

  /** `status_from_execution_result` */
  function StatusFromExecution(r: ExecutionResult): PacketStatus {
    if r.ok && (r.status.Succeeded? || r.status.Partial?) && r.evidence.blockers == [] then Completed
    else if r.status.BlockedStatus? || BlocksEnvironment(r.evidence) then Blocked
    else Failed
  }

  predicate ExplicitFailure(r: ExecutionResult) {
    || (exists k :: 0 <= k < |r.evidence.commands|
                    && r.evidence.commands[k].exitCode.Some? && r.evidence.commands[k].exitCode.value != 0)
    || (exists k :: 0 <= k < |r.evidence.tests|
                    && (r.evidence.tests[k].status.FailedWord? || r.evidence.tests[k].status.ErrorWord?))
  }

  predicate MaterialBlocker(bs: seq<Blocker>) {
    exists k :: 0 <= k < |bs| && !bs[k].kind.MissingEvidence?
  }

  /** The refinement of it that the execute stage applies (stages/execution.py). */
  function TypedStatus(r: ExecutionResult, kind: PacketType, runtimeSensitive: bool): PacketStatus {
    var status := StatusFromExecution(r);
    if kind.Implementation? && !ExplicitFailure(r) && MutationEvidence(r) && !MaterialBlocker(r.evidence.blockers) then
      Completed
    else if !status.Failed? || !runtimeSensitive || ExplicitFailure(r) then status
    else if (r.status.Partial? || r.status.BlockedStatus?) && r.evidence.blockers != [] then Blocked
    else status
  }

  /** An execution settles its packet one way or the other. */
  predicate Settled(s: PacketStatus) {
    s.Completed? || s.Failed? || s.Blocked?
  }

  // ----- selection -----

  datatype Selection = Selection(selected: Option<string>, ready: bool, pendingDependencies: seq<string>)

  function Effective(active: Option<Strategy>, plan: Plan): Strategy {
    match (active, plan.strategy)
    case (Some(s), _) => s
    case (None, Some(s)) => s
    case (None, None) => Default
  }

  /** `_deps_ready`: the status table has every dependency as completed or skipped. */
  predicate DepsReady(p: Packet, ps: seq<Packet>) {
    forall d :: d in p.dependencies ==> d in ById(ps) && ById(ps)[d].status.Done()
  }

  /** `_pending_deps` */
  function PendingDeps(deps: seq<string>, byId: map<string, Packet>): seq<string> {
    if deps == [] then [] else
      (if deps[0] in byId && byId[deps[0]].status.Done() then [] else [deps[0]]) + PendingDeps(deps[1..], byId)
  }

  /** Position of the first packet satisfying `f`, or `|ps|`. */
  function FirstIndex(ps: seq<Packet>, f: Packet -> bool): (k: nat)
    ensures k <= |ps| && (k < |ps| ==> f(ps[k]))
    ensures forall j :: 0 <= j < k ==> !f(ps[j])
  {
    if ps == [] || f(ps[0]) then 0 else 1 + FirstIndex(ps[1..], f)
  }

  predicate IsPending(p: Packet) { p.status.Pending? }

  predicate IsPendingRepair(p: Packet) { p.kind.Repair? && p.status.Pending? }

  predicate IsFailed(p: Packet) { p.status.Failed? }

  predicate IsBlocked(p: Packet) { p.status.Blocked? }

  predicate IsBlockedImplementation(p: Packet) { p.status.Blocked? && p.kind.Implementation? }

  function Offer(p: Packet, ps: seq<Packet>): Selection {
    if DepsReady(p, ps) then Selection(Some(p.id), true, [])
    else Selection(Some(p.id), false, PendingDeps(p.dependencies, ById(ps)))
  }

  /** `PacketSelector.select`: only the first pending packet is ever considered. */
  function Select(plan: Plan, active: Option<Strategy>): Selection {
    var ps := plan.packets;
    var repair, failed, pending :=
      FirstIndex(ps, IsPendingRepair), FirstIndex(ps, IsFailed), FirstIndex(ps, IsPending);
    if Effective(active, plan).RepairOnly? && repair < |ps| then Offer(ps[repair], ps)
    else if Effective(active, plan).RepairOnly? && failed < |ps| then Selection(Some(ps[failed].id), true, [])
    else if pending < |ps| then Offer(ps[pending], ps)
    else Selection(None, false, [])
  }

  // ----- progression -----

  datatype Outcome =
    | RunnablePacket | DecompositionCompleted | RuntimeProofBlocked | NeedsEnvironment
    | BlockedTerminal | FailedTerminal | RepairRequired | ManualInterventionRequired

  datatype NextStage = ToQaPlan | ToExecute | ToVerify | ToFinalize

  datatype StatusHint = HintFailed | HintBlocked | HintNeedsEnvironment

  datatype Progress = Progress(
    outcome: Outcome,
    nextPacket: Option<string>,
    nextStage: NextStage,
    terminal: bool,
    blocked: bool,
    hint: Option<StatusHint>)

  predicate PlanCompleted(plan: Plan) {
    plan.packets != [] && forall i :: 0 <= i < |plan.packets| ==> plan.packets[i].status.Done()
  }

  /** Type of the first packet with this id. */
  predicate RepairPacketSelected(ps: seq<Packet>, id: string) {
    var k := FirstIndex(ps, (p: Packet) => p.id == id);
    k < |ps| && ps[k].kind.Repair?
  }

  /** `progression_decision` */
  function Progression(plan: Plan, active: Option<Strategy>): Progress {
    var ps, sel := plan.packets, Select(plan, active);
    if PlanCompleted(plan) then
      Progress(DecompositionCompleted, None, ToQaPlan, false, false, None)
    else if sel.ready && sel.selected.Some? then
      var outcome := if Effective(active, plan).RepairOnly? || RepairPacketSelected(ps, sel.selected.value)
                     then RepairRequired else RunnablePacket;
      Progress(outcome, sel.selected, ToExecute, false, false, None)
    else if FirstIndex(ps, IsFailed) < |ps| then
      Progress(FailedTerminal, None, ToFinalize, true, false, Some(HintFailed))
    else if FirstIndex(ps, IsBlocked) < |ps| then
      if FirstIndex(ps, IsBlockedImplementation) < |ps| then
        Progress(RuntimeProofBlocked, None, ToVerify, false, true, Some(HintNeedsEnvironment))
      else
        Progress(NeedsEnvironment, None, ToFinalize, true, true, Some(HintNeedsEnvironment))
    else if FirstIndex(ps, IsPending) < |ps| then
      Progress(ManualInterventionRequired, None, ToFinalize, true, true, Some(HintBlocked))
    else
      Progress(BlockedTerminal, None, ToFinalize, true, true, Some(HintBlocked))
  }

  // ----- status updates -----

  function WithStatus(ps: seq<Packet>, id: string, status: PacketStatus): (r: seq<Packet>)
    ensures |r| == |ps|
    ensures forall i :: 0 <= i < |ps| ==> r[i] == if ps[i].id == id then ps[i].(status := status) else ps[i]
  {
    seq(|ps|, i requires 0 <= i < |ps| => if ps[i].id == id then ps[i].(status := status) else ps[i])
  }

  /** Status of the last packet with this id, `None` when there is none. */
  function LastStatus(ps: seq<Packet>, id: string): (r: Option<PacketStatus>)
    ensures r.None? <==> forall i :: 0 <= i < |ps| ==> ps[i].id != id
  {
    if ps == [] then None
    else if ps[|ps| - 1].id == id then Some(ps[|ps| - 1].status)
    else LastStatus(ps[..|ps| - 1], id)
  }

  /** `update_packet_status`: `None` is the KeyError for an id no packet has. */
  method UpdatePacketStatus(plan: Plan, id: string, status: PacketStatus)
    returns (updated: Option<Plan>, previous: Option<PacketStatus>)
    ensures previous == LastStatus(plan.packets, id)
    ensures updated == if previous.None? then None
                       else Some(plan.(packets := WithStatus(plan.packets, id, status)))
  {
    var ps := plan.packets;
    ghost var all := WithStatus(ps, id, status);
    hide WithStatus;
    var packets: seq<Packet> := [];
    previous := None;
    for i := 0 to |ps|
      invariant packets == all[..i]
      invariant previous == LastStatus(ps[..i], id)
    {
      assert ps[..i + 1][..i] == ps[..i];
      if ps[i].id == id {
        previous := Some(ps[i].status);
        packets := packets + [ps[i].(status := status)];
      } else {
        packets := packets + [ps[i]];
      }
    }
    assert ps[..|ps|] == ps && all[..|ps|] == all;
    if previous.None? { return None, None; }
    return Some(plan.(packets := packets)), previous;
  }
}
