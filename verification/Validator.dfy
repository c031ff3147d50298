/** The decomposition validator (decomposition/validator.py). */
module Validator {
  import opened Prelude
  import opened Text
  import opened Packets
  import DependencyCycles

  const NO_EXPANSION := "do not expand scope"

  datatype Issue =
    | DuplicatePacketId
    | MissingTitle(id: string)
    | MissingGoal(id: string)
    | MissingScope(id: string)
    | MissingCriteria(id: string)
    | MissingEvidence(id: string)
    | DuplicateDependencies(id: string)
    | SelfDependency(id: string)
    | UnknownDependency(id: string, dependency: string)
    | ScopeExpansionNotForbidden(id: string)
    | DependencyCycle
    | DoneBeforeDependencies(id: string, unresolved: seq<string>)
    | PendingBehindFailed(id: string)
    | PendingBehindBlocked(id: string)
    | NoUnfinishedButBlocked
    | UnrelatedExpansionPackets

  /** `validate` either returns a result or lets a KeyError escape. */
  datatype Validation =
    | Raised
    | Validated(valid: bool, issues: seq<Issue>, fallbackUsed: bool, normalized: Option<Plan>)

  // ----- what a valid plan is -----

  ghost function GraphOf(ps: seq<Packet>): DependencyCycles.Graph {
    var m := ById(ps);
    map id | id in m :: m[id].dependencies
  }

  predicate ForbidsExpansion(p: Packet) {
    exists k :: 0 <= k < |p.forbidden| && Normal(p.forbidden[k]) == NO_EXPANSION
  }

  predicate RepairPlanPacket(p: Packet) {
    p.kind.Repair? || p.kind.Verification?
  }

  /** One packet taken alone. */
  ghost predicate SoundPacket(p: Packet) {
    && !Blank(p.title) && !Blank(p.goal) && !Blank(p.scope)
    && p.criteria != [] && p.evidence != []
    && Distinct(p.dependencies) && p.id !in p.dependencies
    && (p.kind.Repair? ==> ForbidsExpansion(p))
  }

  /** A packet `p` depending on a packet `q`: their statuses may occur together. */
  predicate CompatibleStatuses(p: Packet, q: Packet) {
    && (p.status.Done() ==> q.status.Done())
    && (p.status.Pending? ==> !q.status.Failed? && !q.status.Blocked?)
  }

  ghost predicate KnownPacket(ps: seq<Packet>, id: string) {
    exists k :: 0 <= k < |ps| && ps[k].id == id
  }

  ghost predicate NamesKnown(ps: seq<Packet>) {
    forall i, d :: 0 <= i < |ps| && d in ps[i].dependencies ==> KnownPacket(ps, d)
  }

  ghost predicate SoundPackets(ps: seq<Packet>) {
    forall i :: 0 <= i < |ps| ==> SoundPacket(ps[i])
  }

  ghost predicate ConsistentStatuses(ps: seq<Packet>) {
    forall i, j :: 0 <= i < |ps| && 0 <= j < |ps| && ps[j].id in ps[i].dependencies
                   ==> CompatibleStatuses(ps[i], ps[j])
  }

  ghost predicate AcyclicPackets(ps: seq<Packet>) {
    !DependencyCycles.Cyclic(GraphOf(ps))
  }

  /** Under repair_only every packet repairs or verifies. */
  predicate OnlyRepairs(plan: Plan) {
    plan.strategy == Some(RepairOnly) ==> forall i :: 0 <= i < |plan.packets| ==> RepairPlanPacket(plan.packets[i])
  }

  ghost predicate WellFormed(plan: Plan) {
    var ps := plan.packets;
    && DistinctIds(ps)
    && SoundPackets(ps)
    && NamesKnown(ps)
    && AcyclicPackets(ps)
    && ConsistentStatuses(ps)
    && OnlyRepairs(plan)
  }

  /** A finished packet names a dependency that is no packet: line 95 indexes the table with it. */
  ghost predicate MissesLookup(plan: Plan) {
    exists i :: 0 <= i < |plan.packets| && FinishedOnUnknown(plan.packets[i], plan.packets)
  }

  ghost predicate FinishedOnUnknown(p: Packet, ps: seq<Packet>) {
    p.status.Done() && exists d :: d in p.dependencies && !KnownPacket(ps, d)
  }

  // ----- the issues in the order they are appended -----

  function When(c: bool, x: Issue): seq<Issue> {
    if c then [x] else []
  }

  function UnknownDependencies(id: string, deps: seq<string>, known: set<string>): seq<Issue> {
    if deps == [] then [] else
      UnknownDependencies(id, deps[..|deps| - 1], known)
      + When(deps[|deps| - 1] !in known, UnknownDependency(id, deps[|deps| - 1]))
  }

  function TextIssues(p: Packet): seq<Issue> {
    When(Blank(p.title), MissingTitle(p.id))
    + When(Blank(p.goal), MissingGoal(p.id))
    + When(Blank(p.scope), MissingScope(p.id))
    + When(p.criteria == [], MissingCriteria(p.id))
    + When(p.evidence == [], MissingEvidence(p.id))
  }

  function PacketIssues(p: Packet, known: set<string>): seq<Issue> {
    TextIssues(p)
    + When(HasDuplicates(p.dependencies), DuplicateDependencies(p.id))
    + When(p.id in p.dependencies, SelfDependency(p.id))
    + UnknownDependencies(p.id, p.dependencies, known)
    + When(p.kind.Repair? && !ForbidsExpansion(p), ScopeExpansionNotForbidden(p.id))
  }

  function AllPacketIssues(ps: seq<Packet>, known: set<string>): seq<Issue> {
    if ps == [] then [] else
      AllPacketIssues(ps[..|ps| - 1], known) + PacketIssues(ps[|ps| - 1], known)
  }

  function Unresolved(deps: seq<string>, byId: map<string, Packet>): seq<string> {
    if deps == [] then [] else
      var d := deps[|deps| - 1];
      Unresolved(deps[..|deps| - 1], byId) + if d in byId && byId[d].status.Done() then [] else [d]
  }

  predicate DependsOnStatus(deps: seq<string>, byId: map<string, Packet>, status: PacketStatus) {
    exists k :: 0 <= k < |deps| && deps[k] in byId && byId[deps[k]].status == status
  }

  function StatusIssues(p: Packet, byId: map<string, Packet>): seq<Issue> {
    var unresolved := Unresolved(p.dependencies, byId);
    When(p.status.Done() && unresolved != [], DoneBeforeDependencies(p.id, unresolved))
    + When(p.status.Pending? && DependsOnStatus(p.dependencies, byId, Failed), PendingBehindFailed(p.id))
    + When(p.status.Pending? && DependsOnStatus(p.dependencies, byId, Blocked), PendingBehindBlocked(p.id))
  }

  function AllStatusIssues(ps: seq<Packet>, byId: map<string, Packet>): seq<Issue> {
    if ps == [] then [] else
      AllStatusIssues(ps[..|ps| - 1], byId) + StatusIssues(ps[|ps| - 1], byId)
  }

  ghost function Issues(plan: Plan): seq<Issue> {
    var ps := plan.packets;
    When(HasDuplicates(Ids(ps)), DuplicatePacketId)
    + AllPacketIssues(ps, ToSet(Ids(ps)))
    + When(!AcyclicPackets(ps), DependencyCycle)
    + AllStatusIssues(ps, ById(ps))
    + When(!OnlyRepairs(plan), UnrelatedExpansionPackets)
  }

  // ----- no issue exactly when the plan is well formed -----

  lemma {:induction false} UnknownDependenciesEmpty(id: string, deps: seq<string>, known: set<string>)
    ensures UnknownDependencies(id, deps, known) == [] <==> forall d :: d in deps ==> d in known
  {
    if deps != [] {
      UnknownDependenciesEmpty(id, deps[..|deps| - 1], known);
      assert deps == deps[..|deps| - 1] + [deps[|deps| - 1]];
    }
  }

  lemma {:induction false} UnresolvedEmpty(deps: seq<string>, byId: map<string, Packet>)
    ensures Unresolved(deps, byId) == [] <==> forall d :: d in deps ==> d in byId && byId[d].status.Done()
  {
    if deps != [] {
      UnresolvedEmpty(deps[..|deps| - 1], byId);
      assert deps == deps[..|deps| - 1] + [deps[|deps| - 1]];
    }
  }

  lemma PacketIssuesEmpty(p: Packet, known: set<string>)
    ensures PacketIssues(p, known) == [] <==> SoundPacket(p) && forall d :: d in p.dependencies ==> d in known
  {
    UnknownDependenciesEmpty(p.id, p.dependencies, known);
    DuplicatesMeanNotDistinct(p.dependencies);
  }

  lemma {:induction false} AllPacketIssuesEmpty(ps: seq<Packet>, known: set<string>)
    ensures AllPacketIssues(ps, known) == [] <==> forall i :: 0 <= i < |ps| ==> PacketIssues(ps[i], known) == []
  {
    if ps != [] {
      AllPacketIssuesEmpty(ps[..|ps| - 1], known);
      assert forall i :: 0 <= i < |ps| ==> ps[i] == if i < |ps| - 1 then ps[..|ps| - 1][i] else ps[|ps| - 1];
    }
  }

  lemma {:induction false} AllStatusIssuesEmpty(ps: seq<Packet>, byId: map<string, Packet>)
    ensures AllStatusIssues(ps, byId) == [] <==> forall i :: 0 <= i < |ps| ==> StatusIssues(ps[i], byId) == []
  {
    if ps != [] {
      AllStatusIssuesEmpty(ps[..|ps| - 1], byId);
      assert forall i :: 0 <= i < |ps| ==> ps[i] == if i < |ps| - 1 then ps[..|ps| - 1][i] else ps[|ps| - 1];
    }
  }

  lemma KnownIsInTable(ps: seq<Packet>, id: string)
    ensures KnownPacket(ps, id) <==> id in ById(ps)
  {
    if id in ById(ps) {
      var k :| 0 <= k < |ps| && ps[k] == ById(ps)[id];
    }
    if KnownPacket(ps, id) {
      var k :| 0 <= k < |ps| && ps[k].id == id;
      assert Ids(ps)[k] == id;
    }
  }

  /** The statuses `p` requires of its dependencies, read through the table. */
  predicate TableCompatible(p: Packet, byId: map<string, Packet>) {
    forall d :: d in p.dependencies ==> d in byId && CompatibleStatuses(p, byId[d])
  }

  lemma StatusIssuesEmpty(p: Packet, byId: map<string, Packet>)
    requires forall d :: d in p.dependencies ==> d in byId
    ensures StatusIssues(p, byId) == [] <==> TableCompatible(p, byId)
  {
    UnresolvedEmpty(p.dependencies, byId);
    if p.status.Pending? && !TableCompatible(p, byId) {
      var d :| d in p.dependencies && !CompatibleStatuses(p, byId[d]);
      var k :| 0 <= k < |p.dependencies| && p.dependencies[k] == d;
      assert DependsOnStatus(p.dependencies, byId, byId[d].status);
    }
  }

  /** With distinct ids the table view is the pairwise condition. */
  lemma TableCompatibleIsPairwise(ps: seq<Packet>, p: Packet)
    requires DistinctIds(ps)
    requires forall d :: d in p.dependencies ==> KnownPacket(ps, d)
    ensures TableCompatible(p, ById(ps)) <==>
            forall j :: 0 <= j < |ps| && ps[j].id in p.dependencies ==> CompatibleStatuses(p, ps[j])
  {
    forall j | 0 <= j < |ps| ensures ps[j].id in ById(ps) && ById(ps)[ps[j].id] == ps[j] {
      ByIdFindsEach(ps, j);
    }
  }

  lemma PacketChecksPass(ps: seq<Packet>)
    ensures AllPacketIssues(ps, ToSet(Ids(ps))) == [] <==>
            NamesKnown(ps) && SoundPackets(ps)
  {
    var known := ToSet(Ids(ps));
    AllPacketIssuesEmpty(ps, known);
    forall d ensures KnownPacket(ps, d) <==> d in known { KnownIsInTable(ps, d); }
    forall i | 0 <= i < |ps|
      ensures PacketIssues(ps[i], known) == [] <==>
              SoundPacket(ps[i]) && forall d :: d in ps[i].dependencies ==> d in known
    {
      PacketIssuesEmpty(ps[i], known);
    }
  }

  lemma StatusChecksPass(ps: seq<Packet>)
    requires DistinctIds(ps) && NamesKnown(ps)
    ensures AllStatusIssues(ps, ById(ps)) == [] <==> ConsistentStatuses(ps)
  {
    AllStatusIssuesEmpty(ps, ById(ps));
    forall d ensures KnownPacket(ps, d) <==> d in ById(ps) { KnownIsInTable(ps, d); }
    forall i | 0 <= i < |ps|
      ensures StatusIssues(ps[i], ById(ps)) == [] <==>
              forall j :: 0 <= j < |ps| && ps[j].id in ps[i].dependencies ==> CompatibleStatuses(ps[i], ps[j])
    {
      StatusIssuesEmpty(ps[i], ById(ps));
      TableCompatibleIsPairwise(ps, ps[i]);
    }
  }

  lemma AllEmpty(a: seq<Issue>, b: seq<Issue>, c: seq<Issue>, d: seq<Issue>, e: seq<Issue>)
    ensures a + b + c + d + e == [] <==> a == [] && b == [] && c == [] && d == [] && e == []
  {
    if a + b + c + d + e == [] {
      assert |a + b + c + d + e| == |a| + |b| + |c| + |d| + |e|;
    }
  }

  /** The validator stays silent exactly on well-formed plans. */
  lemma NoIssuesIffWellFormed(plan: Plan)
    ensures Issues(plan) == [] <==> WellFormed(plan)
  {
    var ps := plan.packets;
    DuplicatesMeanNotDistinct(Ids(ps));
    assert Distinct(Ids(ps)) <==> DistinctIds(ps);
    AllEmpty(When(HasDuplicates(Ids(ps)), DuplicatePacketId),
             AllPacketIssues(ps, ToSet(Ids(ps))),
             When(!AcyclicPackets(ps), DependencyCycle),
             AllStatusIssues(ps, ById(ps)),
             When(!OnlyRepairs(plan), UnrelatedExpansionPackets));
    PacketChecksPass(ps);
    if DistinctIds(ps) && NamesKnown(ps) {
      StatusChecksPass(ps);
    }
  }

  // ----- the fallback plan -----

  function NormalizedActions(items: seq<string>): seq<string> {
    if items == [] then [] else
      var text := Normal(items[|items| - 1]);
      NormalizedActions(items[..|items| - 1]) + if text == "" then [] else [text]
  }

  /** `_single_packet_from` */
  function SinglePacketFrom(p: Packet, strategy: Option<Strategy>): Packet {
    p.(dependencies := [], strategy := strategy, status := Pending,
       forbidden := MergeNew([], NormalizedActions(p.forbidden + [NO_EXPANSION])))
  }

  function FallbackPlan(plan: Plan): Plan
    requires plan.packets != []
  {
    plan.(packets := [SinglePacketFrom(plan.packets[0], plan.strategy)])
  }

  lemma NoExpansionIsNormal()
    ensures Normal(NO_EXPANSION) == NO_EXPANSION
  {
    assert StripRight(StripLeft(NO_EXPANSION)) == NO_EXPANSION;
  }

  lemma FallbackForbidsExpansion(p: Packet, strategy: Option<Strategy>)
    ensures ForbidsExpansion(SinglePacketFrom(p, strategy))
  {
    NoExpansionIsNormal();
    var items := p.forbidden + [NO_EXPANSION];
    var texts := NormalizedActions(items);
    assert texts[|texts| - 1] == NO_EXPANSION;
    MergeNewIsUnion([], texts);
    var out := MergeNew([], texts);
    var k :| 0 <= k < |out| && out[k] == NO_EXPANSION;
    assert Normal(out[k]) == NO_EXPANSION;
  }

  lemma LonePacketIsAcyclic(q: Packet)
    requires q.dependencies == []
    ensures AcyclicPackets([q])
  {
    var g := GraphOf([q]);
    assert forall n :: n in g ==> g[n] == [];
    assert DependencyCycles.Topological(g, Ids([q]));
    DependencyCycles.TopologicalMeansAcyclic(g, Ids([q]));
  }

  /** The fallback repairs everything except what the first packet itself lacks. */
  lemma FallbackWellFormedIff(plan: Plan)
    requires plan.packets != []
    ensures WellFormed(FallbackPlan(plan)) <==>
            var p := plan.packets[0];
            && !Blank(p.title) && !Blank(p.goal) && !Blank(p.scope)
            && p.criteria != [] && p.evidence != []
            && (plan.strategy == Some(RepairOnly) ==> RepairPlanPacket(p))
  {
    var p := plan.packets[0];
    var q := SinglePacketFrom(p, plan.strategy);
    assert FallbackPlan(plan).packets == [q];
    FallbackForbidsExpansion(p, plan.strategy);
    LonePacketIsAcyclic(q);
    assert SoundPackets([q]) <==> SoundPacket(q) by {
      if SoundPackets([q]) { assert SoundPacket([q][0]); }
    }
    assert OnlyRepairs(FallbackPlan(plan)) <==> (plan.strategy == Some(RepairOnly) ==> RepairPlanPacket(p)) by {
      if OnlyRepairs(FallbackPlan(plan)) && plan.strategy == Some(RepairOnly) {
        assert RepairPlanPacket(FallbackPlan(plan).packets[0]);
      }
    }
  }

  // ----- the imperative validator -----

  /** `if condition: issues.append(issue)` */
  method Note(issues: seq<Issue>, condition: bool, issue: Issue) returns (r: seq<Issue>)
    ensures r == issues + When(condition, issue)
  {
    r := if condition then issues + [issue] else issues;
  }

  method CheckText(p: Packet) returns (issues: seq<Issue>)
    ensures issues == TextIssues(p)
  {
    issues := [];
    issues := Note(issues, Blank(p.title), MissingTitle(p.id));
    issues := Note(issues, Blank(p.goal), MissingGoal(p.id));
    issues := Note(issues, Blank(p.scope), MissingScope(p.id));
    issues := Note(issues, p.criteria == [], MissingCriteria(p.id));
    issues := Note(issues, p.evidence == [], MissingEvidence(p.id));
  }

  /** One round of the loop over `plan.packets` (lines 21-39). */
  method CheckPacket(p: Packet, known: set<string>) returns (issues: seq<Issue>)
    ensures issues == PacketIssues(p, known)
  {
    issues := CheckText(p);
    issues := Note(issues, HasDuplicates(p.dependencies), DuplicateDependencies(p.id));
    issues := Note(issues, p.id in p.dependencies, SelfDependency(p.id));
    var unknown := CheckDependencies(p, known);
    issues := issues + unknown;
    issues := Note(issues, p.kind.Repair? && !ForbidsExpansion(p), ScopeExpansionNotForbidden(p.id));
  }

  method CheckDependencies(p: Packet, known: set<string>) returns (issues: seq<Issue>)
    ensures issues == UnknownDependencies(p.id, p.dependencies, known)
  {
    issues := [];
    for k := 0 to |p.dependencies|
      invariant issues == UnknownDependencies(p.id, p.dependencies[..k], known)
    {
      assert p.dependencies[..k + 1][..k] == p.dependencies[..k];
      issues := Note(issues, p.dependencies[k] !in known, UnknownDependency(p.id, p.dependencies[k]));
    }
    assert p.dependencies[..|p.dependencies|] == p.dependencies;
  }

  method CheckPackets(ps: seq<Packet>, known: set<string>) returns (issues: seq<Issue>)
    ensures issues == AllPacketIssues(ps, known)
  {
    issues := [];
    for i := 0 to |ps|
      invariant issues == AllPacketIssues(ps[..i], known)
    {
      var own := CheckPacket(ps[i], known);
      issues := issues + own;
      assert ps[..i + 1][..i] == ps[..i];
    }
    assert ps[..|ps|] == ps;
  }

  /** Line 95: the unresolved dependencies of a finished packet; `None` stands for the KeyError. */
  method UnresolvedDependencies(deps: seq<string>, byId: map<string, Packet>)
    returns (unresolved: Option<seq<string>>)
    ensures unresolved == None <==> exists d :: d in deps && d !in byId
    ensures unresolved.Some? ==> unresolved.value == Unresolved(deps, byId)
  {
    var out: seq<string> := [];
    for k := 0 to |deps|
      invariant out == Unresolved(deps[..k], byId)
      invariant forall j :: 0 <= j < k ==> deps[j] in byId
    {
      assert deps[..k + 1][..k] == deps[..k];
      if deps[k] !in byId { return None; }
      if !byId[deps[k]].status.Done() { out := out + [deps[k]]; }
    }
    assert deps[..|deps|] == deps;
    return Some(out);
  }

  /** One round of the loop of `_status_graph_issues`. */
  method CheckStatus(p: Packet, byId: map<string, Packet>) returns (issues: Option<seq<Issue>>)
    ensures issues == None <==> p.status.Done() && exists d :: d in p.dependencies && d !in byId
    ensures issues.Some? ==> issues.value == StatusIssues(p, byId)
  {
    var out: seq<Issue> := [];
    if p.status.Done() {
      var unresolved := UnresolvedDependencies(p.dependencies, byId);
      if unresolved.None? { return None; }
      out := Note(out, unresolved.value != [], DoneBeforeDependencies(p.id, unresolved.value));
    }
    out := Note(out, p.status.Pending? && DependsOnStatus(p.dependencies, byId, Failed), PendingBehindFailed(p.id));
    out := Note(out, p.status.Pending? && DependsOnStatus(p.dependencies, byId, Blocked), PendingBehindBlocked(p.id));
    return Some(out);
  }

  predicate Unfinished(ps: seq<Packet>) {
    exists i :: 0 <= i < |ps| && !ps[i].status.Done()
  }

  predicate BlockedOrFailed(ps: seq<Packet>) {
    exists i :: 0 <= i < |ps| && (ps[i].status.Blocked? || ps[i].status.Failed?)
  }

  /** `_status_graph_issues` */
  method StatusGraphIssues(ps: seq<Packet>) returns (issues: Option<seq<Issue>>)
    ensures issues == None <==> exists i :: 0 <= i < |ps| && FinishedOnUnknown(ps[i], ps)
    ensures issues.Some? ==> issues.value == AllStatusIssues(ps, ById(ps))
  {
    hide KnownPacket, ById, StatusIssues;
    var byId := ById(ps);
    var out: seq<Issue> := [];
    for i := 0 to |ps|
      invariant out == AllStatusIssues(ps[..i], byId)
      invariant forall k :: 0 <= k < i ==> !FinishedOnUnknown(ps[k], ps)
    {
      forall d ensures KnownPacket(ps, d) <==> d in byId { KnownIsInTable(ps, d); }
      var own := CheckStatus(ps[i], byId);
      if own.None? { return None; }
      out := out + own.value;
      assert ps[..i + 1][..i] == ps[..i];
    }
    assert ps[..|ps|] == ps;
    if ps != [] && !Unfinished(ps) && BlockedOrFailed(ps) {
      // Never reached: a plan of finished packets holds no blocked or failed one.
      out := out + [NoUnfinishedButBlocked];
    }
    return Some(out);
  }

  /** `_has_cycle`: the search runs on the table of dependencies. */
  method HasCycle(ps: seq<Packet>) returns (cyclic: bool)
    ensures cyclic <==> !AcyclicPackets(ps)
  {
    var byId := ById(ps);
    cyclic := DependencyCycles.HasCycle(map id | id in byId :: byId[id].dependencies, Ids(ps));
  }

  /** Lines 15-50: everything appended to `issues`; `None` stands for the KeyError. */
  method CollectIssues(plan: Plan) returns (issues: Option<seq<Issue>>)
    ensures issues == None <==> MissesLookup(plan)
    ensures issues.Some? ==> issues.value == Issues(plan)
  {
    var ps := plan.packets;
    var out := Note([], HasDuplicates(Ids(ps)), DuplicatePacketId);
    assert out == When(HasDuplicates(Ids(ps)), DuplicatePacketId);
    var own := CheckPackets(ps, ToSet(Ids(ps)));
    out := out + own;
    var cyclic := HasCycle(ps);
    out := Note(out, cyclic, DependencyCycle);
    var status := StatusGraphIssues(ps);
    if status.None? { return None; }
    out := out + status.value;
    out := Note(out, !OnlyRepairs(plan), UnrelatedExpansionPackets);
    return Some(out);
  }

  method Validate(plan: Plan, fallbackToSinglePacket: bool) returns (r: Validation)
    ensures r.Raised? <==> MissesLookup(plan)
    ensures r.Validated? ==> r.issues == Issues(plan) && (r.valid <==> WellFormed(plan))
    ensures r.Validated? && r.valid ==> r.normalized == Some(plan) && !r.fallbackUsed
    ensures r.Validated? && !r.valid ==>
              r.fallbackUsed == (fallbackToSinglePacket && plan.packets != [])
              && r.normalized == if r.fallbackUsed then Some(FallbackPlan(plan)) else None
  {
    var collected := CollectIssues(plan);
    if collected.None? { return Raised; }
    NoIssuesIffWellFormed(plan);
    var issues := collected.value;
    if issues == [] {
      return Validated(true, [], false, Some(plan));
    }
    if fallbackToSinglePacket && plan.packets != [] {
      return Validated(false, issues, true, Some(FallbackPlan(plan)));
    }
    return Validated(false, issues, false, None);
  }
}
