/** Execution packets and decomposition plans (decomposition/models.py). */
module Packets {
  import opened Prelude

  datatype PacketStatus = Pending | InProgress | Completed | Failed | Blocked | Skipped
  {
    /** COMPLETED or SKIPPED: what a dependency must have reached. */
    predicate Done() { Completed? || Skipped? }
  }

  datatype PacketType =
    | Implementation | Tests | Docs | Verification | Spike | Repair | Refactor
    | PublishPreparation | Integration | Setup

  datatype Strategy = Default | MvpFirst | BddIncremental | SpikeThenHarden | RepairOnly | SafeRefactor

  datatype Complexity = Tiny | Small | Medium | Large | Unknown

  datatype Packet = Packet(
    id: string,
    title: string,
    goal: string,
    scope: string,
    kind: PacketType,
    strategy: Option<Strategy>,
    status: PacketStatus,
    dependencies: seq<string>,
    forbidden: seq<string>,
    criteria: seq<string>,
    evidence: seq<string>)

  datatype Plan = Plan(strategy: Option<Strategy>, complexity: Complexity, packets: seq<Packet>)

  function Ids(ps: seq<Packet>): (r: seq<string>)
    ensures |r| == |ps| && forall i :: 0 <= i < |ps| ==> r[i] == ps[i].id
  {
    seq(|ps|, i requires 0 <= i < |ps| => ps[i].id)
  }

  /** `{p.packet_id: p for p in packets}`: the last packet of an id wins. */
  function ById(ps: seq<Packet>): (m: map<string, Packet>)
    ensures m.Keys == ToSet(Ids(ps))
    ensures forall id :: id in m ==> m[id] in ps && m[id].id == id
  {
    if ps == [] then map[] else
      var front, last := ps[..|ps| - 1], ps[|ps| - 1];
      var m := ById(front)[last.id := last];
      assert ps == front + [last];
      assert Ids(ps) == Ids(front) + [last.id];
      m
  }

  /** With repeated ids the table holds the last packet of each. */
  lemma {:induction false} LastOfAnIdWins(ps: seq<Packet>, k: nat)
    requires k < |ps| && forall j :: k < j < |ps| ==> ps[j].id != ps[k].id
    ensures ps[k].id in ById(ps) && ById(ps)[ps[k].id] == ps[k]
  {
    if k < |ps| - 1 {
      var front := ps[..|ps| - 1];
      assert forall j :: k < j < |front| ==> front[j].id == ps[j].id;
      LastOfAnIdWins(front, k);
    }
  }

  ghost predicate DistinctIds(ps: seq<Packet>) {
    forall i, j :: 0 <= i < j < |ps| ==> ps[i].id != ps[j].id
  }

  /** With distinct ids the table finds every packet under its own id. */
  lemma {:induction false} ByIdFindsEach(ps: seq<Packet>, k: nat)
    requires DistinctIds(ps) && k < |ps|
    ensures ps[k].id in ById(ps) && ById(ps)[ps[k].id] == ps[k]
  {
    var m := ById(ps);
    assert Ids(ps)[k] == ps[k].id;
    var j :| 0 <= j < |ps| && ps[j] == m[ps[k].id];
  }
}
