/** Which packets a plan holds and in which order, by their kinds alone: what is asked for, where each
    kind belongs, and what the cut to five packets may drop. */
module PlannerLaws {
  import opened Prelude
  import opened Packets
  import opened Planner

  // ----- what is asked for -----

  /** Where packets of a kind belong. Under bdd_incremental tests lead the way to the implementation;
      elsewhere they come after the integration. */
  function Place(kind: PacketType, strategy: Strategy): nat {
    match kind
    case Setup | Repair => 0
    case Spike | Refactor => 1
    case Tests => if strategy == BddIncremental then 1 else 4
    case Implementation => 2
    case Integration => 3
    case Docs => 5
    case PublishPreparation => 6
    case Verification => 7
  }

  function One(b: bool): nat { if b then 1 else 0 }

  /** A small task with nothing but its implementation, tested along the way. */
  predicate Simple(strategy: Strategy, complexity: Complexity, f: Flags) {
    && strategy in {Default, MvpFirst} && complexity in {Tiny, Small, Medium}
    && Implementation !in f.completed && !f.setup && !f.integration && !f.docs && !f.ci
  }

  predicate OtherWorkAsked(strategy: Strategy, f: Flags) {
    || Implementation !in f.completed
    || (f.setup && Setup !in f.completed)
    || (strategy == SpikeThenHarden && Spike !in f.completed)
    || (strategy == SafeRefactor && Refactor !in f.completed)
    || ((f.tests || strategy == BddIncremental) && Tests !in f.completed)
    || (f.integration && Integration !in f.completed)
    || (f.docs && Docs !in f.completed)
    || (f.ci && PublishPreparation !in f.completed)
  }

  /** How many packets of a kind the flags ask for. A refactor is characterised, then applied; when
      nothing else is asked for, one packet confirms what was done before. */
  function Asked(kind: PacketType, strategy: Strategy, complexity: Complexity, f: Flags): nat {
    if strategy == RepairOnly then One(kind == Repair)
    else match kind
      case Repair => 0
      case Setup => One(f.setup && Setup !in f.completed)
      case Spike => One(strategy == SpikeThenHarden && Spike !in f.completed)
      case Refactor =>
        if strategy == SafeRefactor then One(Refactor !in f.completed) + One(Implementation !in f.completed) else 0
      case Implementation => One(strategy != SafeRefactor && Implementation !in f.completed)
      case Integration => One(f.integration && Integration !in f.completed)
      case Tests =>
        One(Tests !in f.completed && (strategy == BddIncremental || (f.tests && !Simple(strategy, complexity, f))))
      case Docs => One(f.docs && Docs !in f.completed)
      case PublishPreparation => One(f.ci && PublishPreparation !in f.completed)
      case Verification =>
        One(!Simple(strategy, complexity, f)
            && ((complexity != Tiny && Verification !in f.completed) || !OtherWorkAsked(strategy, f)))
  }

  function CountKind(ps: seq<Packet>, kind: PacketType): nat {
    if ps == [] then 0 else CountKind(ps[..|ps| - 1], kind) + One(ps[|ps| - 1].kind == kind)
  }

  /** Every packet in its place. */
  ghost predicate InPlace(ps: seq<Packet>, strategy: Strategy) {
    forall i, j :: 0 <= i < j < |ps| ==> Place(ps[i].kind, strategy) <= Place(ps[j].kind, strategy)
  }

  /** Nothing that was not asked for, and everything that was, except what a cut to five packets drops
      from the end. */
  ghost predicate AsAsked(ps: seq<Packet>, strategy: Strategy, complexity: Complexity, f: Flags) {
    && InPlace(ps, strategy)
    && (forall kind :: CountKind(ps, kind) <= Asked(kind, strategy, complexity, f))
    && (forall kind :: CountKind(ps, kind) < Asked(kind, strategy, complexity, f) ==>
          |ps| == 5 && forall i :: 0 <= i < |ps| ==> Place(ps[i].kind, strategy) <= Place(kind, strategy))
  }

  // ----- the same for the work behind the packets -----

  function CountWork(s: seq<Work>, kind: PacketType): nat {
    if s == [] then 0 else CountWork(s[..|s| - 1], kind) + One(s[|s| - 1].Kind() == kind)
  }

  /** In place, and nothing belongs after `last`. */
  ghost predicate WorkInPlace(s: seq<Work>, strategy: Strategy, last: nat) {
    && (forall i :: 0 <= i < |s| ==> Place(s[i].Kind(), strategy) <= last)
    && (forall i, j :: 0 <= i < j < |s| ==> Place(s[i].Kind(), strategy) <= Place(s[j].Kind(), strategy))
  }

  lemma AddWork(s: seq<Work>, c: bool, w: Work, strategy: Strategy, last: nat, later: nat, kind: PacketType)
    requires WorkInPlace(s, strategy, last) && (c ==> last <= Place(w.Kind(), strategy) <= later) && last <= later
    ensures WorkInPlace(Maybe(s, c, w), strategy, later)
    ensures CountWork(Maybe(s, c, w), kind) == CountWork(s, kind) + One(c && w.Kind() == kind)
    ensures Maybe(s, c, w) == [] <==> s == [] && !c
  {
    if c { assert (s + [w])[..|s|] == s; }
  }

  /** Up to four packets in a row, after what is there already. */
  lemma AddFour(s: seq<Work>, last: nat, a: bool, u: Work, b: bool, v: Work, c: bool, w: Work, d: bool, x: Work,
                strategy: Strategy, p: nat, q: nat, later: nat, kind: PacketType)
    requires WorkInPlace(s, strategy, last) && last <= p <= q <= later
    requires a ==> last <= Place(u.Kind(), strategy) <= p
    requires b ==> p <= Place(v.Kind(), strategy) <= q
    requires c ==> q <= Place(w.Kind(), strategy) <= later
    requires d ==> Place(x.Kind(), strategy) == later
    ensures var t := Maybe(Maybe(Maybe(Maybe(s, a, u), b, v), c, w), d, x);
            && WorkInPlace(t, strategy, later)
            && CountWork(t, kind) == CountWork(s, kind) + One(a && u.Kind() == kind) + One(b && v.Kind() == kind)
                                     + One(c && w.Kind() == kind) + One(d && x.Kind() == kind)
            && (t == [] <==> s == [] && !a && !b && !c && !d)
  {
    hide WorkInPlace, Maybe, Place, CountWork;
    AddWork(s, a, u, strategy, last, p, kind);
    AddWork(Maybe(s, a, u), b, v, strategy, p, q, kind);
    AddWork(Maybe(Maybe(s, a, u), b, v), c, w, strategy, q, later, kind);
    AddWork(Maybe(Maybe(Maybe(s, a, u), b, v), c, w), d, x, strategy, later, later, kind);
  }

  predicate Leads(kind: PacketType, strategy: Strategy) {
    kind in {Setup, Spike, Refactor, Implementation} || (kind == Tests && strategy == BddIncremental)
  }

  /** The strategy's own two packets: what leads, whether it is wanted, and what follows it. */
  datatype Pair = Pair(lead: Work, wanted: bool, follow: Work)

  function PairOf(strategy: Strategy, f: Flags): Pair {
    match strategy
    case BddIncremental => Pair(CaptureBehavior, Tests !in f.completed, ImplementBehavior)
    case SpikeThenHarden => Pair(SpikeDiscovery, Spike !in f.completed, HardenSpike)
    case SafeRefactor => Pair(Characterize, Refactor !in f.completed, ApplyRefactor)
    case _ => Pair(FirstSlice, false, FirstSlice)
  }

  lemma CoreIsPair(strategy: Strategy, f: Flags)
    ensures var p := PairOf(strategy, f);
            CoreWork(strategy, f) == Maybe(Maybe(Maybe([], f.setup && Setup !in f.completed, PrepareSetup), p.wanted, p.lead),
                                           Implementation !in f.completed, p.follow)
  {
  }

  lemma PairInPlace(strategy: Strategy, f: Flags)
    ensures var p := PairOf(strategy, f);
            && Place(Setup, strategy) == 0 && (p.wanted ==> Place(p.lead.Kind(), strategy) == 1)
            && 1 <= Place(p.follow.Kind(), strategy) <= 2
  {
  }

  lemma PairIsAsked(strategy: Strategy, complexity: Complexity, f: Flags, kind: PacketType)
    requires strategy != RepairOnly
    ensures var p := PairOf(strategy, f);
            One(f.setup && Setup !in f.completed && Setup == kind) + One(p.wanted && p.lead.Kind() == kind)
            + One(Implementation !in f.completed && p.follow.Kind() == kind)
            == if Leads(kind, strategy) then Asked(kind, strategy, complexity, f) else 0
  {
    hide Simple, OtherWorkAsked;
  }

  lemma CoreIsAsked(strategy: Strategy, complexity: Complexity, f: Flags, kind: PacketType)
    requires strategy != RepairOnly
    ensures WorkInPlace(CoreWork(strategy, f), strategy, 2)
    ensures CountWork(CoreWork(strategy, f), kind) == if Leads(kind, strategy) then Asked(kind, strategy, complexity, f) else 0
    ensures CoreWork(strategy, f) == [] <==>
            Implementation in f.completed && !(f.setup && Setup !in f.completed) && !PairOf(strategy, f).wanted
  {
    hide WorkInPlace, Maybe, CoreWork, Asked, PairOf, Place;
    var p := PairOf(strategy, f);
    CoreIsPair(strategy, f);
    PairInPlace(strategy, f);
    PairIsAsked(strategy, complexity, f, kind);
    assert WorkInPlace([], strategy, 0) by { NothingInPlace(strategy); }
    AddFour([], 0, f.setup && Setup !in f.completed, PrepareSetup, p.wanted, p.lead,
            Implementation !in f.completed, p.follow, false, p.follow, strategy, 0, 1, 2, kind);
    MaybeNot(CoreWork(strategy, f), p.follow);
  }

  lemma NothingInPlace(strategy: Strategy)
    ensures WorkInPlace([], strategy, 0)
  {
  }

  lemma MaybeNot(s: seq<Work>, w: Work)
    ensures Maybe(s, false, w) == s
  {
  }

  /** Integration, tests, docs and CI, in this order, counted. */
  function Surface(strategy: Strategy, f: Flags, kind: PacketType): nat {
    One(f.integration && Integration !in f.completed && kind == Integration)
    + One(f.tests && Tests !in f.completed && strategy != BddIncremental && kind == Tests)
    + One(f.docs && Docs !in f.completed && kind == Docs)
    + One(f.ci && PublishPreparation !in f.completed && kind == PublishPreparation)
  }

  lemma SurfaceAdds(strategy: Strategy, f: Flags, kind: PacketType)
    requires WorkInPlace(CoreWork(strategy, f), strategy, 2)
    ensures WorkInPlace(SurfaceWork(strategy, f), strategy, 6)
    ensures CountWork(SurfaceWork(strategy, f), kind) == CountWork(CoreWork(strategy, f), kind) + Surface(strategy, f, kind)
    ensures SurfaceWork(strategy, f) == [] <==>
            CoreWork(strategy, f) == [] && !(f.integration && Integration !in f.completed)
            && !(f.tests && Tests !in f.completed && strategy != BddIncremental)
            && !(f.docs && Docs !in f.completed) && !(f.ci && PublishPreparation !in f.completed)
  {
    hide WorkInPlace, CountWork, Maybe, CoreWork, SurfaceWork, Place;
    var a, b := f.integration && Integration !in f.completed, f.tests && Tests !in f.completed && strategy != BddIncremental;
    var c, d := f.docs && Docs !in f.completed, f.ci && PublishPreparation !in f.completed;
    SurfaceIsFour(strategy, f);
    SurfaceInPlace(strategy);
    AddFour(CoreWork(strategy, f), 2, a, Integrate, b, VerifyTests, c, UpdateDocs, d, UpdateCi, strategy, 3, 4, 6, kind);
  }

  lemma SurfaceIsFour(strategy: Strategy, f: Flags)
    ensures var a, b := f.integration && Integration !in f.completed,
                        f.tests && Tests !in f.completed && strategy != BddIncremental;
            var c, d := f.docs && Docs !in f.completed, f.ci && PublishPreparation !in f.completed;
            SurfaceWork(strategy, f)
            == Maybe(Maybe(Maybe(Maybe(CoreWork(strategy, f), a, Integrate), b, VerifyTests), c, UpdateDocs), d, UpdateCi)
  {
    hide CoreWork, Maybe;
  }

  lemma SurfaceInPlace(strategy: Strategy)
    ensures Place(Integration, strategy) == 3 && Place(Docs, strategy) == 5 && Place(PublishPreparation, strategy) == 6
    ensures strategy != BddIncremental ==> Place(Tests, strategy) == 4
  {
  }

  lemma SurfaceIsAsked(strategy: Strategy, complexity: Complexity, f: Flags, kind: PacketType)
    requires strategy != RepairOnly && !Simple(strategy, complexity, f) && kind != Verification
    ensures (if Leads(kind, strategy) then Asked(kind, strategy, complexity, f) else 0) + Surface(strategy, f, kind)
            == Asked(kind, strategy, complexity, f)
  {
    hide Simple, OtherWorkAsked;
  }

  lemma RestIsAppended(strategy: Strategy, complexity: Complexity, f: Flags)
    requires strategy != RepairOnly && !Simple(strategy, complexity, f)
    ensures AllWork(strategy, complexity, f)
            == if SurfaceWork(strategy, f) == [] && !WantsCheckpoint(complexity, f) then [ConfirmCheckpoint]
               else Maybe(SurfaceWork(strategy, f), WantsCheckpoint(complexity, f), Checkpoint)
  {
    SimpleIsDirect(strategy, complexity, f);
    hide CoreWork, SurfaceWork, Direct, Simple, WantsCheckpoint;
  }

  lemma AppendCheckpoint(s: seq<Work>, wanted: bool, strategy: Strategy, kind: PacketType)
    requires WorkInPlace(s, strategy, 6)
    ensures var t := if s == [] && !wanted then [ConfirmCheckpoint] else Maybe(s, wanted, Checkpoint);
            && WorkInPlace(t, strategy, 7)
            && CountWork(t, kind) == CountWork(s, kind) + One(kind == Verification && (wanted || s == []))
  {
    OneOnly(ConfirmCheckpoint, strategy, kind);
    hide WorkInPlace, Maybe;
    AddWork(s, wanted, Checkpoint, strategy, 6, 7, kind);
  }

  lemma SurfaceIsEmptyIff(strategy: Strategy, complexity: Complexity, f: Flags, kind: PacketType)
    requires strategy != RepairOnly && !Simple(strategy, complexity, f)
    ensures SurfaceWork(strategy, f) == [] <==> !OtherWorkAsked(strategy, f)
    ensures WorkInPlace(SurfaceWork(strategy, f), strategy, 6)
    ensures CountWork(SurfaceWork(strategy, f), kind)
            == (if Leads(kind, strategy) then Asked(kind, strategy, complexity, f) else 0) + Surface(strategy, f, kind)
  {
    CoreIsAsked(strategy, complexity, f, kind);
    hide WorkInPlace, CountWork, CoreWork, SurfaceWork, Asked, Leads, PairOf, OtherWorkAsked, Surface;
    SurfaceAdds(strategy, f, kind);
    RestIsAsked(strategy, complexity, f, kind);
  }

  lemma RestIsThere(strategy: Strategy, complexity: Complexity, f: Flags, kind: PacketType)
    requires strategy != RepairOnly && !Simple(strategy, complexity, f)
    ensures WorkInPlace(AllWork(strategy, complexity, f), strategy, 7)
    ensures CountWork(AllWork(strategy, complexity, f), kind) == Asked(kind, strategy, complexity, f)
  {
    hide *;
    RestIsAppended(strategy, complexity, f);
    SurfaceIsEmptyIff(strategy, complexity, f, kind);
    RestIsAsked(strategy, complexity, f, kind);
    AppendCheckpoint(SurfaceWork(strategy, f), WantsCheckpoint(complexity, f), strategy, kind);
  }

  lemma SimpleIsThere(strategy: Strategy, complexity: Complexity, f: Flags, kind: PacketType)
    requires Simple(strategy, complexity, f)
    ensures WorkInPlace(AllWork(strategy, complexity, f), strategy, 7)
    ensures CountWork(AllWork(strategy, complexity, f), kind) == Asked(kind, strategy, complexity, f)
  {
    SimpleIsDirect(strategy, complexity, f);
    hide CoreWork, WorkInPlace, CountWork;
    assert AllWork(strategy, complexity, f) == CoreWork(strategy, f);
    CoreIsAsked(strategy, complexity, f, kind);
    SimpleIsCore(strategy, complexity, f, kind);
    Weaker(CoreWork(strategy, f), strategy, 2);
  }

  /** Before the cut: everything that was asked for, in its place. */
  lemma AllIsAsked(strategy: Strategy, complexity: Complexity, f: Flags, kind: PacketType)
    ensures WorkInPlace(AllWork(strategy, complexity, f), strategy, 7)
    ensures CountWork(AllWork(strategy, complexity, f), kind) == Asked(kind, strategy, complexity, f)
  {
    if strategy == RepairOnly {
      OneOnly(RepairFailure, strategy, kind);
    } else {
      hide AllWork, Asked, WorkInPlace, CountWork;
      if Simple(strategy, complexity, f) {
        SimpleIsThere(strategy, complexity, f, kind);
      } else {
        RestIsThere(strategy, complexity, f, kind);
      }
    }
  }

  lemma OneOnly(w: Work, strategy: Strategy, kind: PacketType)
    ensures WorkInPlace([w], strategy, 7) && CountWork([w], kind) == One(w.Kind() == kind)
  {
    assert [w][..0] == [];
  }

  lemma Weaker(s: seq<Work>, strategy: Strategy, last: nat)
    requires WorkInPlace(s, strategy, last) && last <= 7
    ensures WorkInPlace(s, strategy, 7)
  {
  }

  lemma SimpleIsDirect(strategy: Strategy, complexity: Complexity, f: Flags)
    requires strategy != RepairOnly
    ensures Simple(strategy, complexity, f) <==> Direct(strategy, complexity, f)
  {
    if Simple(strategy, complexity, f) {
      CoreIsAsked(strategy, complexity, f, Implementation);
      hide CoreWork;
    }
  }

  lemma SimpleIsCore(strategy: Strategy, complexity: Complexity, f: Flags, kind: PacketType)
    requires Simple(strategy, complexity, f)
    ensures Asked(kind, strategy, complexity, f) == if Leads(kind, strategy) then Asked(kind, strategy, complexity, f) else 0
  {
  }

  lemma RestIsAsked(strategy: Strategy, complexity: Complexity, f: Flags, kind: PacketType)
    requires strategy != RepairOnly && !Simple(strategy, complexity, f)
    ensures (if Leads(kind, strategy) then Asked(kind, strategy, complexity, f) else 0) + Surface(strategy, f, kind)
            + One(kind == Verification && (WantsCheckpoint(complexity, f) || !OtherWorkAsked(strategy, f)))
            == Asked(kind, strategy, complexity, f)
    ensures OtherWorkAsked(strategy, f) <==>
            !(Implementation in f.completed && !(f.setup && Setup !in f.completed) && !PairOf(strategy, f).wanted
              && !(f.integration && Integration !in f.completed)
              && !(f.tests && Tests !in f.completed && strategy != BddIncremental)
              && !(f.docs && Docs !in f.completed) && !(f.ci && PublishPreparation !in f.completed))
  {
    if kind != Verification { SurfaceIsAsked(strategy, complexity, f, kind); }
    hide Simple;
  }

  // ----- the packets -----

  lemma {:induction false} KindsOfWork(brief: Brief, work: seq<Work>, kind: PacketType)
    ensures CountKind(brief.Chained(work), kind) == CountWork(work, kind)
  {
    hide Brief.Id;
    if work != [] {
      var front := work[..|work| - 1];
      KindsOfWork(brief, front, kind);
      assert brief.Chained(work)[..|work| - 1] == brief.Chained(front);
    }
  }

  lemma {:induction false} CutCounts(work: seq<Work>, m: nat, kind: PacketType)
    requires m <= |work|
    ensures CountWork(work[..m], kind) <= CountWork(work, kind)
    ensures CountWork(work[..m], kind) < CountWork(work, kind) ==> exists i :: m <= i < |work| && work[i].Kind() == kind
  {
    if m == |work| {
      assert work[..m] == work;
    } else {
      var front := work[..|work| - 1];
      CutCounts(front, m, kind);
      assert front[..m] == work[..m];
    }
  }

  /** Cutting work that is all in place keeps the counts, except for what comes last. */
  lemma CutAsAsked(brief: Brief, all: seq<Work>, kind: PacketType)
    requires WorkInPlace(all, brief.strategy, 7)
    ensures var ps := brief.Chained(FirstFive(all));
            && InPlace(ps, brief.strategy) && CountKind(ps, kind) <= CountWork(all, kind)
            && (CountKind(ps, kind) < CountWork(all, kind) ==>
                  |ps| == 5 && forall i :: 0 <= i < |ps| ==> Place(ps[i].kind, brief.strategy) <= Place(kind, brief.strategy))
  {
    hide Brief.Id, Place, BaseForbidden;
    var work := FirstFive(all);
    var ps := brief.Chained(work);
    forall i | 0 <= i < |ps| ensures ps[i].kind == all[i].Kind() {
      assert ps[i] == brief.Make(i + 1, work[i], brief.Waits(work, i));
    }
    KindsOfWork(brief, work, kind);
    CutCounts(all, |work|, kind);
    assert all[..|work|] == work;
  }

  /** The packets of every plan are those asked for, in their places; when more than five are asked for,
      the cut drops only what comes last. */
  lemma PlannedAsAsked(brief: Brief, complexity: Complexity, f: Flags)
    ensures AsAsked(brief.Chained(PlannedWork(brief.strategy, complexity, f)), brief.strategy, complexity, f)
  {
    var all := AllWork(brief.strategy, complexity, f);
    hide AllWork, Asked, Brief.Chained, Place, CountKind, CountWork, FirstFive, WorkInPlace, InPlace;
    AllIsAsked(brief.strategy, complexity, f, Setup);
    CutAsAsked(brief, all, Setup);
    var ps := brief.Chained(FirstFive(all));
    forall kind
      ensures CountKind(ps, kind) <= Asked(kind, brief.strategy, complexity, f)
      ensures CountKind(ps, kind) < Asked(kind, brief.strategy, complexity, f) ==>
                |ps| == 5
                && forall i :: 0 <= i < |ps| ==> Place(ps[i].kind, brief.strategy) <= Place(kind, brief.strategy)
    {
      AllIsAsked(brief.strategy, complexity, f, kind);
      CutAsAsked(brief, all, kind);
    }
  }

  /** So setup comes first and verification last, and what leads the way under a strategy stands before
      the implementation: tests under bdd_incremental, a spike under spike_then_harden. */
  lemma LeadsComeFirst(ps: seq<Packet>, strategy: Strategy, complexity: Complexity, f: Flags, i: nat, j: nat)
    requires AsAsked(ps, strategy, complexity, f) && i < |ps| && j < |ps|
    ensures strategy == BddIncremental && ps[i].kind == Tests && ps[j].kind == Implementation ==> i < j
    ensures strategy == SpikeThenHarden && ps[i].kind == Spike && ps[j].kind == Implementation ==> i < j
    ensures ps[i].kind == Setup && ps[j].kind != Setup && ps[j].kind != Repair ==> i < j
    ensures ps[i].kind != Verification && ps[j].kind == Verification ==> i < j
    ensures strategy != BddIncremental && ps[i].kind == Integration && ps[j].kind == Tests ==> i < j
    ensures ps[i].kind == Tests && ps[j].kind == Docs ==> i < j
    ensures ps[i].kind == Docs && ps[j].kind == PublishPreparation ==> i < j
  {
    hide CountKind, Asked;
    if j < i { assert Place(ps[j].kind, strategy) <= Place(ps[i].kind, strategy); }
  }

  // ----- what each packet is about -----

  /** The packet carries the wording of this piece of work. */
  predicate About(p: Packet, brief: Brief, w: Work) {
    var wording := brief.wording(w);
    && p.title == wording.title && p.scope == wording.scope && p.criteria == wording.criteria
    && p.evidence == wording.evidence && p.goal == brief.goal && p.strategy == Some(brief.strategy)
    && p.forbidden == ["do not choose the next workflow step", "do not expand scope without controller approval"]
                      + (if brief.strategy == RepairOnly then ["do not expand scope"] else [])
  }

  /** Implementation and tests mean something else under each strategy. */
  function Meant(kind: PacketType, strategy: Strategy): Option<Work> {
    match kind
    case Implementation =>
      Some(if strategy == BddIncremental then ImplementBehavior
           else if strategy == SpikeThenHarden then HardenSpike else FirstSlice)
    case Tests => Some(if strategy == BddIncremental then CaptureBehavior else VerifyTests)
    case Setup => Some(PrepareSetup)
    case Spike => Some(SpikeDiscovery)
    case Integration => Some(Integrate)
    case Docs => Some(UpdateDocs)
    case PublishPreparation => Some(UpdateCi)
    case Repair => Some(RepairFailure)
    case Refactor | Verification => None
  }

  predicate Fits(w: Work, strategy: Strategy) {
    Meant(w.Kind(), strategy).Some? ==> w == Meant(w.Kind(), strategy).value
  }

  ghost predicate AllFit(s: seq<Work>, strategy: Strategy) {
    forall i :: 0 <= i < |s| ==> Fits(s[i], strategy)
  }

  lemma MaybeFits(s: seq<Work>, c: bool, w: Work, strategy: Strategy)
    requires AllFit(s, strategy) && (c ==> Fits(w, strategy))
    ensures AllFit(Maybe(s, c, w), strategy)
    ensures s <= Maybe(s, c, w)
  {
  }

  lemma CoreFits(strategy: Strategy, f: Flags)
    requires strategy != RepairOnly
    ensures AllFit(CoreWork(strategy, f), strategy)
  {
  }

  lemma SurfaceFits(strategy: Strategy, f: Flags)
    requires strategy != RepairOnly
    ensures AllFit(SurfaceWork(strategy, f), strategy) && CoreWork(strategy, f) <= SurfaceWork(strategy, f)
  {
    CoreFits(strategy, f);
    SurfaceIsFour(strategy, f);
    assert Fits(Integrate, strategy) && Fits(UpdateDocs, strategy) && Fits(UpdateCi, strategy);
    assert strategy != BddIncremental ==> Fits(VerifyTests, strategy);
    hide CoreWork, SurfaceWork, Maybe, AllFit, Fits;
    var a, b := f.integration && Integration !in f.completed, f.tests && Tests !in f.completed && strategy != BddIncremental;
    var c, d := f.docs && Docs !in f.completed, f.ci && PublishPreparation !in f.completed;
    var s0 := CoreWork(strategy, f);
    MaybeFits(s0, a, Integrate, strategy);
    MaybeFits(Maybe(s0, a, Integrate), b, VerifyTests, strategy);
    MaybeFits(Maybe(Maybe(s0, a, Integrate), b, VerifyTests), c, UpdateDocs, strategy);
    MaybeFits(Maybe(Maybe(Maybe(s0, a, Integrate), b, VerifyTests), c, UpdateDocs), d, UpdateCi, strategy);
  }

  lemma AllWorkFits(strategy: Strategy, complexity: Complexity, f: Flags)
    ensures AllFit(AllWork(strategy, complexity, f), strategy)
    ensures strategy != RepairOnly ==> CoreWork(strategy, f) <= AllWork(strategy, complexity, f)
  {
    if strategy != RepairOnly {
      CoreFits(strategy, f);
      SurfaceFits(strategy, f);
      hide CoreWork, SurfaceWork, Direct, WantsCheckpoint;
    }
  }

  /** Every packet is about what its kind means under the strategy; under safe_refactor the behaviour is
      characterised first, unless that is done, and the refactor applied next. */
  lemma PlannedMeans(brief: Brief, complexity: Complexity, f: Flags)
    ensures var ps := brief.Chained(PlannedWork(brief.strategy, complexity, f));
            && (forall i {:trigger ps[i]} :: 0 <= i < |ps| && Meant(ps[i].kind, brief.strategy).Some? ==>
                  About(ps[i], brief, Meant(ps[i].kind, brief.strategy).value))
            && (brief.strategy == SafeRefactor ==>
                  var first := One(f.setup && Setup !in f.completed);
                  var second := first + One(Refactor !in f.completed);
                  && (Refactor !in f.completed ==>
                        first < |ps| && ps[first].kind == Refactor && About(ps[first], brief, Characterize))
                  && (Implementation !in f.completed ==>
                        second < |ps| && ps[second].kind == Refactor && About(ps[second], brief, ApplyRefactor)))
  {
    var strategy := brief.strategy;
    var all, ps := AllWork(strategy, complexity, f), brief.Chained(PlannedWork(strategy, complexity, f));
    AllWorkFits(strategy, complexity, f);
    hide AllWork, Brief.Id;
    assert forall i :: 0 <= i < |ps| ==> ps[i].kind == all[i].Kind() && About(ps[i], brief, all[i]);
    if strategy == SafeRefactor {
      var core := CoreWork(strategy, f);
      RefactorIsCore(f);
      assert |core| <= 3 && core <= all;
    }
  }

  lemma RefactorIsCore(f: Flags)
    ensures var core := CoreWork(SafeRefactor, f);
            var first := One(f.setup && Setup !in f.completed);
            var second := first + One(Refactor !in f.completed);
            && |core| <= 3
            && (Refactor !in f.completed ==> first < |core| && core[first] == Characterize)
            && (Implementation !in f.completed ==> second < |core| && core[second] == ApplyRefactor)
  {
  }
}
