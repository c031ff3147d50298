/** Which issues the validator reports about a plan, one by one. */
module ValidatorLaws {
  import opened Prelude
  import opened Text
  import opened Packets
  import opened Validator

  /** Some packet with this id ... */
  ghost predicate OfPacket(ps: seq<Packet>, id: string, wrong: Packet -> bool) {
    exists k :: 0 <= k < |ps| && ps[k].id == id && wrong(ps[k])
  }

  /** A dependency with this status, as the table has it. */
  predicate DependsOn(p: Packet, byId: map<string, Packet>, status: PacketStatus) {
    exists d :: d in p.dependencies && d in byId && byId[d].status == status
  }

  predicate Unready(p: Packet, byId: map<string, Packet>, unresolved: seq<string>) {
    p.status in {Completed, Skipped} && unresolved != [] && unresolved == Unresolved(p.dependencies, byId)
  }

  /** What each issue is reported for; one of them is never reported. */
  ghost predicate Deserved(plan: Plan, x: Issue) {
    var ps, byId := plan.packets, ById(plan.packets);
    match x
    case DuplicatePacketId => !DistinctIds(ps)
    case MissingTitle(id) => OfPacket(ps, id, (p: Packet) => Blank(p.title))
    case MissingGoal(id) => OfPacket(ps, id, (p: Packet) => Blank(p.goal))
    case MissingScope(id) => OfPacket(ps, id, (p: Packet) => Blank(p.scope))
    case MissingCriteria(id) => OfPacket(ps, id, (p: Packet) => p.criteria == [])
    case MissingEvidence(id) => OfPacket(ps, id, (p: Packet) => p.evidence == [])
    case DuplicateDependencies(id) => exists k :: 0 <= k < |ps| && ps[k].id == id && !Distinct(ps[k].dependencies)
    case SelfDependency(id) => OfPacket(ps, id, (p: Packet) => p.id in p.dependencies)
    case UnknownDependency(id, d) => OfPacket(ps, id, (p: Packet) => d in p.dependencies && d !in byId)
    case ScopeExpansionNotForbidden(id) =>
      OfPacket(ps, id, (p: Packet) =>
              p.kind == Repair && forall j :: 0 <= j < |p.forbidden| ==> Normal(p.forbidden[j]) != "do not expand scope")
    case DependencyCycle => !AcyclicPackets(ps)
    case DoneBeforeDependencies(id, unresolved) => OfPacket(ps, id, (p: Packet) => Unready(p, byId, unresolved))
    case PendingBehindFailed(id) => OfPacket(ps, id, (p: Packet) => p.status == Pending && DependsOn(p, byId, Failed))
    case PendingBehindBlocked(id) => OfPacket(ps, id, (p: Packet) => p.status == Pending && DependsOn(p, byId, Blocked))
    case NoUnfinishedButBlocked => false
    case UnrelatedExpansionPackets =>
      plan.strategy == Some(RepairOnly) && exists k :: 0 <= k < |ps| && ps[k].kind !in {Repair, Verification}
  }

  lemma WhenIn(c: bool, x: Issue, y: Issue)
    ensures y in When(c, x) <==> c && y == x
  {
  }

  lemma {:induction false} UnknownIn(id: string, deps: seq<string>, known: set<string>, y: Issue)
    ensures y in UnknownDependencies(id, deps, known) <==>
            y.UnknownDependency? && y.id == id && y.dependency in deps && y.dependency !in known
  {
    if deps != [] {
      UnknownIn(id, deps[..|deps| - 1], known, y);
      WhenIn(deps[|deps| - 1] !in known, UnknownDependency(id, deps[|deps| - 1]), y);
      assert deps == deps[..|deps| - 1] + [deps[|deps| - 1]];
    }
  }

  lemma TextIn(p: Packet, y: Issue)
    ensures y in TextIssues(p) <==>
            || (y == MissingTitle(p.id) && Blank(p.title))
            || (y == MissingGoal(p.id) && Blank(p.goal))
            || (y == MissingScope(p.id) && Blank(p.scope))
            || (y == MissingCriteria(p.id) && p.criteria == [])
            || (y == MissingEvidence(p.id) && p.evidence == [])
  {
    WhenIn(Blank(p.title), MissingTitle(p.id), y);
    WhenIn(Blank(p.goal), MissingGoal(p.id), y);
    WhenIn(Blank(p.scope), MissingScope(p.id), y);
    WhenIn(p.criteria == [], MissingCriteria(p.id), y);
    WhenIn(p.evidence == [], MissingEvidence(p.id), y);
    hide When, Blank;
  }

  lemma PacketIn(p: Packet, known: set<string>, y: Issue)
    ensures y in PacketIssues(p, known) <==>
            || y in TextIssues(p)
            || (y == DuplicateDependencies(p.id) && !Distinct(p.dependencies))
            || (y == SelfDependency(p.id) && p.id in p.dependencies)
            || (y.UnknownDependency? && y.id == p.id && y.dependency in p.dependencies && y.dependency !in known)
            || (y == ScopeExpansionNotForbidden(p.id) && p.kind == Repair
                && forall j :: 0 <= j < |p.forbidden| ==> Normal(p.forbidden[j]) != "do not expand scope")
  {
    DuplicatesMeanNotDistinct(p.dependencies);
    UnknownIn(p.id, p.dependencies, known, y);
    WhenIn(HasDuplicates(p.dependencies), DuplicateDependencies(p.id), y);
    WhenIn(p.id in p.dependencies, SelfDependency(p.id), y);
    WhenIn(p.kind.Repair? && !ForbidsExpansion(p), ScopeExpansionNotForbidden(p.id), y);
    hide When, TextIssues, UnknownDependencies, HasDuplicates, Normal, Distinct;
  }

  lemma {:induction false} AllPacketIn(ps: seq<Packet>, known: set<string>, y: Issue)
    ensures y in AllPacketIssues(ps, known) <==> exists k :: 0 <= k < |ps| && y in PacketIssues(ps[k], known)
  {
    hide PacketIssues;
    if ps != [] {
      AllPacketIn(ps[..|ps| - 1], known, y);
      assert forall k :: 0 <= k < |ps| ==> ps[k] == if k < |ps| - 1 then ps[..|ps| - 1][k] else ps[|ps| - 1];
    }
  }

  lemma StatusIn(p: Packet, byId: map<string, Packet>, y: Issue)
    ensures y in StatusIssues(p, byId) <==>
            || (y.DoneBeforeDependencies? && y.id == p.id && Unready(p, byId, y.unresolved))
            || (y == PendingBehindFailed(p.id) && p.status == Pending && DependsOn(p, byId, Failed))
            || (y == PendingBehindBlocked(p.id) && p.status == Pending && DependsOn(p, byId, Blocked))
  {
    var unresolved := Unresolved(p.dependencies, byId);
    WhenIn(p.status.Done() && unresolved != [], DoneBeforeDependencies(p.id, unresolved), y);
    WhenIn(p.status.Pending? && DependsOnStatus(p.dependencies, byId, Failed), PendingBehindFailed(p.id), y);
    WhenIn(p.status.Pending? && DependsOnStatus(p.dependencies, byId, Blocked), PendingBehindBlocked(p.id), y);
    hide When, Unresolved;
  }

  lemma {:induction false} AllStatusIn(ps: seq<Packet>, byId: map<string, Packet>, y: Issue)
    ensures y in AllStatusIssues(ps, byId) <==> exists k :: 0 <= k < |ps| && y in StatusIssues(ps[k], byId)
  {
    hide StatusIssues;
    if ps != [] {
      AllStatusIn(ps[..|ps| - 1], byId, y);
      assert forall k :: 0 <= k < |ps| ==> ps[k] == if k < |ps| - 1 then ps[..|ps| - 1][k] else ps[|ps| - 1];
    }
  }

  lemma IssuesIn(plan: Plan, y: Issue)
    ensures var ps, byId := plan.packets, ById(plan.packets);
            y in Issues(plan) <==>
            || (y == DuplicatePacketId && !DistinctIds(ps))
            || (exists k :: 0 <= k < |ps| && y in PacketIssues(ps[k], ToSet(Ids(ps))))
            || (y == DependencyCycle && !AcyclicPackets(ps))
            || (exists k :: 0 <= k < |ps| && y in StatusIssues(ps[k], byId))
            || (y == UnrelatedExpansionPackets && !OnlyRepairs(plan))
  {
    var ps := plan.packets;
    DuplicatesMeanNotDistinct(Ids(ps));
    assert Distinct(Ids(ps)) <==> DistinctIds(ps);
    AllPacketIn(ps, ToSet(Ids(ps)), y);
    AllStatusIn(ps, ById(ps), y);
    WhenIn(HasDuplicates(Ids(ps)), DuplicatePacketId, y);
    WhenIn(!AcyclicPackets(ps), DependencyCycle, y);
    WhenIn(!OnlyRepairs(plan), UnrelatedExpansionPackets, y);
    hide When, AllPacketIssues, AllStatusIssues, HasDuplicates, AcyclicPackets, OnlyRepairs, PacketIssues, StatusIssues;
  }

  /** The same from the side of one packet. */
  ghost predicate DeservedBy(p: Packet, byId: map<string, Packet>, x: Issue) {
    || (x == MissingTitle(p.id) && Blank(p.title))
    || (x == MissingGoal(p.id) && Blank(p.goal))
    || (x == MissingScope(p.id) && Blank(p.scope))
    || (x == MissingCriteria(p.id) && p.criteria == [])
    || (x == MissingEvidence(p.id) && p.evidence == [])
    || (x == DuplicateDependencies(p.id) && !Distinct(p.dependencies))
    || (x == SelfDependency(p.id) && p.id in p.dependencies)
    || (x.UnknownDependency? && x.id == p.id && x.dependency in p.dependencies && x.dependency !in byId)
    || (x == ScopeExpansionNotForbidden(p.id) && p.kind == Repair
        && forall j :: 0 <= j < |p.forbidden| ==> Normal(p.forbidden[j]) != "do not expand scope")
    || (x.DoneBeforeDependencies? && x.id == p.id && Unready(p, byId, x.unresolved))
    || (x == PendingBehindFailed(p.id) && p.status == Pending && DependsOn(p, byId, Failed))
    || (x == PendingBehindBlocked(p.id) && p.status == Pending && DependsOn(p, byId, Blocked))
  }

  lemma ReportedForPacket(p: Packet, known: set<string>, byId: map<string, Packet>, x: Issue)
    requires known == byId.Keys
    ensures x in PacketIssues(p, known) || x in StatusIssues(p, byId) <==> DeservedBy(p, byId, x)
  {
    PacketIn(p, known, x);
    TextIn(p, x);
    StatusIn(p, byId, x);
    hide PacketIssues, StatusIssues, TextIssues, Distinct, Normal, Blank, Unready, DependsOn;
  }

  lemma DeservedByPackets(plan: Plan, x: Issue)
    requires !x.DuplicatePacketId? && !x.DependencyCycle? && !x.UnrelatedExpansionPackets?
    ensures Deserved(plan, x) <==>
            exists k :: 0 <= k < |plan.packets| && DeservedBy(plan.packets[k], ById(plan.packets), x)
  {
    hide AcyclicPackets, Distinct, Normal, Blank, Unready, DependsOn, Packets.DistinctIds;
    var ps, byId := plan.packets, ById(plan.packets);
    if Deserved(plan, x) {
      var k :| 0 <= k < |ps| && DeservedBy(ps[k], byId, x);
    }
  }

  lemma AnyPacketReports(plan: Plan, x: Issue)
    ensures var ps, byId := plan.packets, ById(plan.packets);
            (exists k :: 0 <= k < |ps| && x in PacketIssues(ps[k], ToSet(Ids(ps))))
            || (exists k :: 0 <= k < |ps| && x in StatusIssues(ps[k], byId))
            <==> exists k :: 0 <= k < |ps| && DeservedBy(ps[k], byId, x)
  {
    var ps, byId := plan.packets, ById(plan.packets);
    hide PacketIssues, StatusIssues, DeservedBy;
    forall k | 0 <= k < |ps|
      ensures x in PacketIssues(ps[k], ToSet(Ids(ps))) || x in StatusIssues(ps[k], byId) <==> DeservedBy(ps[k], byId, x)
    {
      ReportedForPacket(ps[k], ToSet(Ids(ps)), byId, x);
    }
  }

  lemma PlanIssuesMean(plan: Plan, x: Issue)
    requires x.DuplicatePacketId? || x.DependencyCycle? || x.UnrelatedExpansionPackets?
    ensures forall k :: 0 <= k < |plan.packets| ==> !DeservedBy(plan.packets[k], ById(plan.packets), x)
    ensures Deserved(plan, x) <==>
            || (x == DuplicatePacketId && !DistinctIds(plan.packets))
            || (x == DependencyCycle && !AcyclicPackets(plan.packets))
            || (x == UnrelatedExpansionPackets && !OnlyRepairs(plan))
  {
    hide AcyclicPackets, Packets.DistinctIds;
  }

  /** The validator reports exactly the issues a plan deserves. */
  lemma IssueReportedIff(plan: Plan, x: Issue)
    ensures x in Issues(plan) <==> Deserved(plan, x)
  {
    hide *;
    IssuesIn(plan, x);
    AnyPacketReports(plan, x);
    if x.DuplicatePacketId? || x.DependencyCycle? || x.UnrelatedExpansionPackets? {
      PlanIssuesMean(plan, x);
    } else {
      DeservedByPackets(plan, x);
    }
  }

  /** The unresolved dependencies, in order, are those that are not completed or skipped. */
  lemma {:induction false} UnresolvedMeans(deps: seq<string>, byId: map<string, Packet>, d: string)
    ensures d in Unresolved(deps, byId) <==>
            d in deps && !(d in byId && byId[d].status in {Completed, Skipped})
  {
    if deps != [] {
      UnresolvedMeans(deps[..|deps| - 1], byId, d);
      assert deps == deps[..|deps| - 1] + [deps[|deps| - 1]];
    }
  }

  // ----- the fallback -----

  lemma {:induction false} NormalizedIn(items: seq<string>, x: string)
    ensures x in NormalizedActions(items) <==> x != "" && exists raw :: raw in items && Normal(raw) == x
  {
    if items != [] {
      NormalizedIn(items[..|items| - 1], x);
      assert items == items[..|items| - 1] + [items[|items| - 1]];
    }
  }

  /** The fallback packet forbids what its packet forbade, normalised and without blanks or repetition, and
      to expand the scope. */
  lemma FallbackForbids(plan: Plan, x: string)
    requires plan.packets != []
    ensures var forbidden := FallbackPlan(plan).packets[0].forbidden;
            && Distinct(forbidden)
            && (x in forbidden <==>
                x != "" && (x == Normal("do not expand scope")
                            || exists raw :: raw in plan.packets[0].forbidden && Normal(raw) == x))
  {
    var raw := plan.packets[0].forbidden + [NO_EXPANSION];
    NormalizedIn(raw, x);
    MergeNewIsUnion([], NormalizedActions(raw));
    hide Normal, NormalizedActions, MergeNew;
  }
}
