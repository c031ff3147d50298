/** The rule-based decomposition planner (decomposition/planner.py). */
module Planner {
  import opened Prelude
  import opened Text
  import opened Packets
  import opened PacketIds
  import opened Validator
  import ScheduleRuns
  import DependencyCycles

  /** The planner's `append_packet` calls, one name each. */
  datatype Work =
    | RepairFailure | PrepareSetup
    | CaptureBehavior | ImplementBehavior
    | SpikeDiscovery | HardenSpike
    | Characterize | ApplyRefactor
    | FirstSlice
    | Integrate | VerifyTests | UpdateDocs | UpdateCi
    | Checkpoint | ConfirmCheckpoint
  {
    function Kind(): PacketType {
      match this
      case RepairFailure => Repair
      case PrepareSetup => Setup
      case CaptureBehavior | VerifyTests => Tests
      case ImplementBehavior | HardenSpike | FirstSlice => Implementation
      case SpikeDiscovery => Spike
      case Characterize | ApplyRefactor => Refactor
      case Integrate => Integration
      case UpdateDocs => Docs
      case UpdateCi => PublishPreparation
      case Checkpoint | ConfirmCheckpoint => Verification
    }
  }

  datatype Flags = Flags(
    setup: bool, tests: bool, docs: bool, ci: bool, integration: bool,
    completed: set<PacketType>)
  {
    predicate ImplementationCompleted() { Implementation in completed }
  }

  /** The fixed wording of each packet. */
  datatype Wording = Wording(title: string, scope: string, criteria: seq<string>, evidence: seq<string>)

  ghost predicate Complete(wording: Work -> Wording) {
    forall w: Work :: !Blank(wording(w).title) && !Blank(wording(w).scope)
                      && wording(w).criteria != [] && wording(w).evidence != []
  }

  function BaseForbidden(): seq<string> {
    ["do not choose the next workflow step",
     "do not expand scope without controller approval"]
  }

  // ----- which packets are planned -----

  function Maybe(s: seq<Work>, c: bool, w: Work): seq<Work> {
    if c then s + [w] else s
  }

  predicate AtMostMedium(c: Complexity) { c.Tiny? || c.Small? || c.Medium? }

  /** Setup first, then the strategy's own pair of packets. */
  function CoreWork(strategy: Strategy, f: Flags): seq<Work> {
    var setup := Maybe([], f.setup && Setup !in f.completed, PrepareSetup);
    var implement := !f.ImplementationCompleted();
    match strategy
    case BddIncremental =>
      Maybe(Maybe(setup, Tests !in f.completed, CaptureBehavior), implement, ImplementBehavior)
    case SpikeThenHarden =>
      Maybe(Maybe(setup, Spike !in f.completed, SpikeDiscovery), implement, HardenSpike)
    case SafeRefactor =>
      Maybe(Maybe(setup, Refactor !in f.completed, Characterize), implement, ApplyRefactor)
    case _ => Maybe(setup, implement, FirstSlice)
  }

  lemma CoreWorkSize(strategy: Strategy, f: Flags)
    ensures |CoreWork(strategy, f)| <= 3
  {
  }

  /** Line 208: a small direct task is just its implementation. */
  predicate Direct(strategy: Strategy, complexity: Complexity, f: Flags) {
    && (strategy.Default? || strategy.MvpFirst?) && CoreWork(strategy, f) != []
    && !f.ImplementationCompleted() && AtMostMedium(complexity)
    && !f.setup && !f.integration && !f.docs && !f.ci
  }

  function SurfaceWork(strategy: Strategy, f: Flags): seq<Work> {
    var s0 := CoreWork(strategy, f);
    var s1 := Maybe(s0, f.integration && Integration !in f.completed, Integrate);
    var s2 := Maybe(s1, f.tests && Tests !in f.completed && !strategy.BddIncremental?, VerifyTests);
    var s3 := Maybe(s2, f.docs && Docs !in f.completed, UpdateDocs);
    Maybe(s3, f.ci && PublishPreparation !in f.completed, UpdateCi)
  }

  predicate WantsCheckpoint(complexity: Complexity, f: Flags) {
    !complexity.Tiny? && Verification !in f.completed
  }

  function AllWork(strategy: Strategy, complexity: Complexity, f: Flags): seq<Work> {
    if strategy.RepairOnly? then [RepairFailure]
    else if Direct(strategy, complexity, f) then CoreWork(strategy, f)
    else
      var s := Maybe(SurfaceWork(strategy, f), WantsCheckpoint(complexity, f), Checkpoint);
      if s == [] then [ConfirmCheckpoint] else s
  }

  function PlannedWork(strategy: Strategy, complexity: Complexity, f: Flags): seq<Work> {
    FirstFive(AllWork(strategy, complexity, f))
  }

  // ----- the packets they become -----

  datatype Brief = Brief(planId: string, goal: string, strategy: Strategy, wording: Work -> Wording)
  {
    function Id(index: nat, w: Work): string {
      PacketId(planId, index, wording(w).title)
    }

    /** The packet for `w` at position `index`, counted from one, waiting for `deps`. */
    function Make(index: nat, w: Work, deps: seq<string>): Packet {
      Packet(Id(index, w), wording(w).title, goal, wording(w).scope, w.Kind(), Some(strategy), Pending, deps,
             if strategy.RepairOnly? then BaseForbidden() + [NO_EXPANSION] else BaseForbidden(),
             wording(w).criteria, wording(w).evidence)
    }

    /** What the packet at position `i` waits for: its predecessor. */
    function Waits(work: seq<Work>, i: nat): seq<string>
      requires i < |work|
    {
      if i == 0 then [] else [Id(i, work[i - 1])]
    }

    /** One packet per item of work, each waiting for the one before it. */
    function Chained(work: seq<Work>): (r: seq<Packet>)
      ensures |r| == |work|
      ensures forall i {:trigger r[i]} :: 0 <= i < |work| ==> r[i] == Make(i + 1, work[i], Waits(work, i))
    {
      seq(|work|, i requires 0 <= i < |work| => Make(i + 1, work[i], Waits(work, i)))
    }
  }

  // ----- the imperative planner -----

  /** The `packets` and `next_index` that the nested `append_packet` updates. */
  class Builder {
    const brief: Brief
    var packets: seq<Packet>
    var nextIndex: nat
    ghost var work: seq<Work>

    ghost predicate Valid()
      reads this
    {
      packets == brief.Chained(work) && nextIndex == |work| + 1
    }

    constructor (b: Brief)
      ensures Valid() && brief == b && work == []
    {
      brief := b;
      packets, nextIndex, work := [], 1, [];
    }

    /** The id the next packet has to wait for. */
    ghost function Lead(): Option<string>
      reads this
    {
      if packets == [] then None else Some(packets[|packets| - 1].id)
    }

    method AppendPacket(w: Work, lead: Option<string>) returns (id: string)
      requires Valid() && lead == Lead()
      modifies this
      ensures Valid() && work == old(work) + [w] && Lead() == Some(id)
      ensures old(packets) <= packets && |packets| == |old(packets)| + 1
    {
      hide PacketId, BaseForbidden;
      var deps := if lead.Some? then [lead.value] else [];
      var packet := brief.Make(nextIndex, w, deps);
      nextIndex := nextIndex + 1;
      packets := packets + [packet];
      work := work + [w];
      forall i | 0 <= i < |work| ensures packets[i] == brief.Make(i + 1, work[i], brief.Waits(work, i)) {
      }
      return packet.id;
    }

    /** `if condition: lead_id = append_packet(...).packet_id` */
    method AppendWhen(condition: bool, w: Work, lead: Option<string>) returns (lead': Option<string>)
      requires Valid() && lead == Lead()
      modifies this
      ensures Valid() && work == Maybe(old(work), condition, w) && lead' == Lead()
    {
      lead' := lead;
      if condition {
        var id := AppendPacket(w, lead);
        lead' := Some(id);
      }
    }

    /** Lines 122-206. */
    method AppendCore(f: Flags) returns (lead: Option<string>)
      requires Valid() && work == []
      modifies this
      ensures Valid() && work == CoreWork(brief.strategy, f) && lead == Lead()
    {
      lead := AppendWhen(f.setup && Setup !in f.completed, PrepareSetup, None);
      var implement := !f.ImplementationCompleted();
      match brief.strategy
      case BddIncremental =>
        lead := AppendWhen(Tests !in f.completed, CaptureBehavior, lead);
        lead := AppendWhen(implement, ImplementBehavior, lead);
      case SpikeThenHarden =>
        lead := AppendWhen(Spike !in f.completed, SpikeDiscovery, lead);
        lead := AppendWhen(implement, HardenSpike, lead);
      case SafeRefactor =>
        lead := AppendWhen(Refactor !in f.completed, Characterize, lead);
        lead := AppendWhen(implement, ApplyRefactor, lead);
      case _ =>
        lead := AppendWhen(implement, FirstSlice, lead);
    }

    /** Lines 211-250. */
    method AppendSurface(f: Flags, start: Option<string>) returns (lead: Option<string>)
      requires Valid() && work == CoreWork(brief.strategy, f) && start == Lead()
      modifies this
      ensures Valid() && work == SurfaceWork(brief.strategy, f) && lead == Lead()
    {
      lead := AppendWhen(f.integration && Integration !in f.completed, Integrate, start);
      lead := AppendWhen(f.tests && Tests !in f.completed && !brief.strategy.BddIncremental?, VerifyTests, lead);
      lead := AppendWhen(f.docs && Docs !in f.completed, UpdateDocs, lead);
      lead := AppendWhen(f.ci && PublishPreparation !in f.completed, UpdateCi, lead);
    }

    /** Lines 211-269: everything after the strategy's own packets. */
    method AppendRest(complexity: Complexity, f: Flags, start: Option<string>)
      requires Valid() && work == CoreWork(brief.strategy, f) && start == Lead()
      requires !brief.strategy.RepairOnly? && !Direct(brief.strategy, complexity, f)
      modifies this
      ensures Valid() && work == AllWork(brief.strategy, complexity, f)
    {
      hide CoreWork, SurfaceWork;
      var lead := AppendSurface(f, start);
      lead := AppendWhen(WantsCheckpoint(complexity, f), Checkpoint, lead);
      if packets == [] {
        var _ := AppendPacket(ConfirmCheckpoint, None);
      }
    }
  }

  /** `packets[:5]` */
  function FirstFive<T>(s: seq<T>): seq<T> {
    if |s| > 5 then s[..5] else s
  }

  lemma ChainedKeepsPrefixes(brief: Brief, work: seq<Work>)
    ensures brief.Chained(FirstFive(work)) == FirstFive(brief.Chained(work))
  {
    hide PacketId, BaseForbidden;
    var a, b := brief.Chained(FirstFive(work)), FirstFive(brief.Chained(work));
    forall i | 0 <= i < |a| ensures a[i] == b[i] {
    }
  }

  /** `_packets_for_strategy`; the early returns of lines 271-274 hand out a single packet, which
      line 275 would leave alone too. */
  method PacketsForStrategy(brief: Brief, complexity: Complexity, f: Flags) returns (packets: seq<Packet>)
    ensures packets == brief.Chained(PlannedWork(brief.strategy, complexity, f))
  {
    hide CoreWork, SurfaceWork, PacketId, BaseForbidden, Brief.Make, Brief.Waits;
    var strategy := brief.strategy;
    if strategy.RepairOnly? {
      packets := [brief.Make(1, RepairFailure, brief.Waits([RepairFailure], 0))];
      return;
    }
    var b := new Builder(brief);
    var lead := b.AppendCore(f);
    CoreWorkSize(strategy, f);
    if (strategy.Default? || strategy.MvpFirst?) && b.packets != [] && !f.ImplementationCompleted()
       && AtMostMedium(complexity) && !f.setup && !f.integration && !f.docs && !f.ci {
      return b.packets;
    }
    b.AppendRest(complexity, f, lead);
    ChainedKeepsPrefixes(brief, b.work);
    return FirstFive(b.packets);
  }

  // ----- what the plan is good for -----

  /** Between one and five packets, whatever the strategy, complexity and flags. */
  lemma PlannedWorkSize(strategy: Strategy, complexity: Complexity, f: Flags)
    ensures 1 <= |PlannedWork(strategy, complexity, f)| <= 5
  {
  }

  /** Truncating a chain leaves a chain: ids are distinct and each packet waits for its predecessor. */
  lemma ChainedIsChain(brief: Brief, work: seq<Work>)
    ensures ScheduleRuns.Chain(brief.Chained(work))
  {
    hide PacketId, BaseForbidden;
    var ps := brief.Chained(work);
    forall i, j | 0 <= i < j < |ps| ensures ps[i].id != ps[j].id {
      ChainedIdsDiffer(brief, work, i, j);
    }
  }

  lemma ChainedIdsDiffer(brief: Brief, work: seq<Work>, i: nat, j: nat)
    requires i < j < |work|
    ensures brief.Chained(work)[i].id != brief.Chained(work)[j].id
  {
    hide PacketId, BaseForbidden;
    var a, b := brief.Id(i + 1, work[i]), brief.Id(j + 1, work[j]);
    assert brief.Chained(work)[i].id == a && brief.Chained(work)[j].id == b;
    if a == b {
      PacketIdDeterminesIndex(brief.planId, i + 1, brief.wording(work[i]).title, j + 1, brief.wording(work[j]).title);
    }
  }

  lemma ChainsAreAcyclic(ps: seq<Packet>)
    requires ScheduleRuns.Chain(ps)
    ensures AcyclicPackets(ps)
  {
    var g, ids := GraphOf(ps), Ids(ps);
    forall i, d | 0 <= i < |ids| && d in DependencyCycles.Successors(g, ids[i]) ensures d in ids[..i] {
      ByIdFindsEach(ps, i);
      assert i > 0 && d == ids[i - 1];
      assert ids[..i][i - 1] == d;
    }
    DependencyCycles.TopologicalMeansAcyclic(g, ids);
  }

  lemma ChainedIsSound(brief: Brief, work: seq<Work>)
    requires Complete(brief.wording) && !Blank(brief.goal)
    requires brief.strategy.RepairOnly? || RepairFailure !in work
    ensures SoundPackets(brief.Chained(work))
  {
    hide PacketId, Strip, SoundPacket, BaseForbidden;
    var ps := brief.Chained(work);
    ChainedIsChain(brief, work);
    forall i | 0 <= i < |ps| ensures SoundPacket(ps[i]) {
      assert i > 0 ==> ps[i].dependencies == [ps[i - 1].id] && ps[i - 1].id != ps[i].id;
      MadeIsSound(brief, i + 1, work[i], ps[i].dependencies);
    }
  }

  lemma MadeIsSound(brief: Brief, index: nat, w: Work, deps: seq<string>)
    requires Complete(brief.wording) && !Blank(brief.goal) && (brief.strategy.RepairOnly? || !w.RepairFailure?)
    requires brief.Make(index, w, deps).id !in deps && Distinct(deps)
    ensures SoundPacket(brief.Make(index, w, deps))
  {
    hide PacketId, Strip;
    var p := brief.Make(index, w, deps);
    if p.kind.Repair? {
      NoExpansionIsNormal();
      assert p.forbidden[2] == NO_EXPANSION;
    }
  }

  lemma CoreNeverRepairs(strategy: Strategy, f: Flags)
    ensures RepairFailure !in CoreWork(strategy, f)
  {
  }

  lemma SurfaceNeverRepairs(strategy: Strategy, f: Flags)
    ensures RepairFailure !in SurfaceWork(strategy, f)
  {
    hide CoreWork;
    CoreNeverRepairs(strategy, f);
  }

  lemma OnlyRepairPlansRepair(strategy: Strategy, complexity: Complexity, f: Flags)
    ensures var work := PlannedWork(strategy, complexity, f);
            if strategy.RepairOnly? then work == [RepairFailure]
            else RepairFailure !in work
  {
    hide CoreWork, SurfaceWork, Direct, WantsCheckpoint;
    CoreNeverRepairs(strategy, f);
    SurfaceNeverRepairs(strategy, f);
    assert !strategy.RepairOnly? ==> RepairFailure !in AllWork(strategy, complexity, f);
  }

  /** Every plan the planner proposes is well formed. */
  lemma PlannedIsWellFormed(brief: Brief, complexity: Complexity, f: Flags)
    requires Complete(brief.wording) && !Blank(brief.goal)
    ensures var ps := brief.Chained(PlannedWork(brief.strategy, complexity, f));
            WellFormed(Plan(Some(brief.strategy), complexity, ps))
  {
    hide PlannedWork, PacketId, BaseForbidden, Strip, AcyclicPackets, SoundPackets;
    var work := PlannedWork(brief.strategy, complexity, f);
    var ps := brief.Chained(work);
    OnlyRepairPlansRepair(brief.strategy, complexity, f);
    ChainedIsChain(brief, work);
    ChainsAreAcyclic(ps);
    ChainedIsSound(brief, work);
    forall i, d | 0 <= i < |ps| && d in ps[i].dependencies ensures KnownPacket(ps, d) {
      assert i > 0 && ps[i - 1].id == d;
    }
  }

  lemma WellFormedNeverMisses(plan: Plan)
    requires WellFormed(plan)
    ensures !MissesLookup(plan)
  {
  }

  /** What the scheduler and the validator may rely on. */
  lemma PlannedIsReadyToRun(brief: Brief, complexity: Complexity, f: Flags)
    requires Complete(brief.wording) && !Blank(brief.goal)
    ensures var plan := Plan(Some(brief.strategy), complexity,
                             brief.Chained(PlannedWork(brief.strategy, complexity, f)));
            && WellFormed(plan) && !MissesLookup(plan)
            && ScheduleRuns.Chain(plan.packets) && ScheduleRuns.Fresh(plan) && 1 <= |plan.packets| <= 5
  {
    hide PlannedWork, WellFormed, MissesLookup, PacketId, BaseForbidden, Strip;
    var work := PlannedWork(brief.strategy, complexity, f);
    var plan := Plan(Some(brief.strategy), complexity, brief.Chained(work));
    PlannedIsWellFormed(brief, complexity, f);
    WellFormedNeverMisses(plan);
    PlannedWorkSize(brief.strategy, complexity, f);
    ChainedIsChain(brief, work);
  }

  /** `build_plan`; `None` is the ValidationError of a blank task description, which no packet
      accepts as its goal. The validator's fallback is never taken. */
  method BuildPlan(planId: string, description: string, strategy: Option<Strategy>, wording: Work -> Wording,
                   complexity: Complexity, f: Flags, fallbackToSinglePacket: bool)
    returns (plan: Option<Plan>)
    requires Complete(wording)
    ensures plan.None? <==> Blank(description)
    ensures plan.Some? ==>
              var chosen := if strategy.Some? then strategy.value else Default;
              var brief := Brief(planId, Strip(description), chosen, wording);
              && plan.value == Plan(Some(chosen), complexity, brief.Chained(PlannedWork(chosen, complexity, f)))
              && WellFormed(plan.value)
              && ScheduleRuns.Chain(plan.value.packets) && ScheduleRuns.Fresh(plan.value)
              && 1 <= |plan.value.packets| <= 5
  {
    if Blank(description) { return None; }
    plan := BuildFor(planId, description, if strategy.Some? then strategy.value else Default, wording,
                     complexity, f, fallbackToSinglePacket);
  }

  method BuildFor(planId: string, description: string, chosen: Strategy, wording: Work -> Wording,
                  complexity: Complexity, f: Flags, fallbackToSinglePacket: bool)
    returns (plan: Option<Plan>)
    requires Complete(wording) && !Blank(description)
    ensures var brief := Brief(planId, Strip(description), chosen, wording);
            && plan == Some(Plan(Some(chosen), complexity, brief.Chained(PlannedWork(chosen, complexity, f))))
            && WellFormed(plan.value)
            && ScheduleRuns.Chain(plan.value.packets) && ScheduleRuns.Fresh(plan.value)
            && 1 <= |plan.value.packets| <= 5
  {
    assert !Blank(Strip(description)) by { StripTwice(description); }
    hide *;
    var brief := Brief(planId, Strip(description), chosen, wording);
    var packets := PacketsForStrategy(brief, complexity, f);
    PlannedIsReadyToRun(brief, complexity, f);
    var validation := Validate(Plan(Some(chosen), complexity, packets), fallbackToSinglePacket);
    return Some(validation.normalized.value);
  }

  // ----- what truncation costs -----

  function Count(c: bool): nat { if c then 1 else 0 }

  /** How many packets setup and the strategy itself ask for. */
  function CoreCount(strategy: Strategy, f: Flags): nat {
    Count(f.setup && Setup !in f.completed)
    + Count(strategy.BddIncremental? && Tests !in f.completed)
    + Count(strategy.SpikeThenHarden? && Spike !in f.completed)
    + Count(strategy.SafeRefactor? && Refactor !in f.completed)
    + Count(!f.ImplementationCompleted())
  }

  /** How many packets precede the verification checkpoint. */
  function BeforeCheckpoint(strategy: Strategy, f: Flags): nat {
    CoreCount(strategy, f)
    + Count(f.integration && Integration !in f.completed)
    + Count(f.tests && Tests !in f.completed && !strategy.BddIncremental?)
    + Count(f.docs && Docs !in f.completed)
    + Count(f.ci && PublishPreparation !in f.completed)
  }

  lemma MaybeSize(s: seq<Work>, c: bool, w: Work)
    ensures |Maybe(s, c, w)| == |s| + Count(c)
    ensures w != Checkpoint && Checkpoint !in s ==> Checkpoint !in Maybe(s, c, w)
  {
  }

  lemma CoreWorkCount(strategy: Strategy, f: Flags)
    requires !strategy.RepairOnly?
    ensures |CoreWork(strategy, f)| == CoreCount(strategy, f)
    ensures Checkpoint !in CoreWork(strategy, f)
  {
  }

  lemma SurfaceWorkSize(strategy: Strategy, f: Flags)
    requires !strategy.RepairOnly?
    ensures |SurfaceWork(strategy, f)| == BeforeCheckpoint(strategy, f)
    ensures Checkpoint !in SurfaceWork(strategy, f)
  {
    CoreWorkCount(strategy, f);
    hide CoreWork, CoreCount, Maybe, Count;
    var s0 := CoreWork(strategy, f);
    var s1 := Maybe(s0, f.integration && Integration !in f.completed, Integrate);
    var s2 := Maybe(s1, f.tests && Tests !in f.completed && !strategy.BddIncremental?, VerifyTests);
    var s3 := Maybe(s2, f.docs && Docs !in f.completed, UpdateDocs);
    MaybeSize(s0, f.integration && Integration !in f.completed, Integrate);
    MaybeSize(s1, f.tests && Tests !in f.completed && !strategy.BddIncremental?, VerifyTests);
    MaybeSize(s2, f.docs && Docs !in f.completed, UpdateDocs);
    MaybeSize(s3, f.ci && PublishPreparation !in f.completed, UpdateCi);
  }

  /** A plan that wants a verification checkpoint keeps it exactly when at most four packets come
      before it; with five or more, cutting the plan to five packets drops the checkpoint. */
  lemma CheckpointSurvivesIff(strategy: Strategy, complexity: Complexity, f: Flags)
    requires !strategy.RepairOnly? && !Direct(strategy, complexity, f) && WantsCheckpoint(complexity, f)
    ensures Checkpoint in PlannedWork(strategy, complexity, f) <==> BeforeCheckpoint(strategy, f) <= 4
  {
    hide SurfaceWork, BeforeCheckpoint;
    SurfaceWorkSize(strategy, f);
    var s := SurfaceWork(strategy, f);
    assert AllWork(strategy, complexity, f) == s + [Checkpoint];
    assert |s| >= 5 ==> (s + [Checkpoint])[..5] == s[..5];
    assert |s| <= 4 ==> (s + [Checkpoint])[|s|] == Checkpoint;
  }
}
