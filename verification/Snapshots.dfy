/** Transition and artifact bookkeeping of the workflow state (models/state.py). The status names
    are a type parameter; `created` is the status of a fresh snapshot. */
module Snapshots {
  import opened Prelude

  datatype Transition<Status> = Transition(from: Status, to: Status, stage: string, added: seq<string>)

  datatype Snapshot<Status> = Snapshot(
    status: Status,
    transitions: seq<Transition<Status>>,
    artifactIds: seq<string>)

  /** One call of `with_transition`. */
  datatype Call<Status> = Call(stage: string, to: Status, added: seq<string>)

  function Fresh<Status>(created: Status): Snapshot<Status> {
    Snapshot(created, [], [])
  }

  function After<Status>(s: Snapshot<Status>, c: Call<Status>): Snapshot<Status> {
    Snapshot(c.to, s.transitions + [Transition(s.status, c.to, c.stage, c.added)], MergeNew(s.artifactIds, c.added))
  }

  method WithTransition<Status>(s: Snapshot<Status>, c: Call<Status>) returns (r: Snapshot<Status>)
    ensures r == After(s, c)
  {
    var transition := Transition(s.status, c.to, c.stage, c.added);
    var artifactIds := s.artifactIds;
    for i := 0 to |c.added|
      invariant artifactIds == MergeNew(s.artifactIds, c.added[..i])
    {
      assert c.added[..i + 1][..i] == c.added[..i];
      if c.added[i] !in artifactIds {
        artifactIds := artifactIds + [c.added[i]];
      }
    }
    assert c.added[..|c.added|] == c.added;
    return Snapshot(c.to, s.transitions + [transition], artifactIds);
  }

  function AfterAll<Status>(s: Snapshot<Status>, calls: seq<Call<Status>>): Snapshot<Status> {
    if calls == [] then s else After(AfterAll(s, calls[..|calls| - 1]), calls[|calls| - 1])
  }

  function AllAdded<Status>(calls: seq<Call<Status>>): seq<string> {
    if calls == [] then [] else AllAdded(calls[..|calls| - 1]) + calls[|calls| - 1].added
  }

  // ----- the invariant check -----

  datatype Error = StatusMismatch | MissingArtifact(stage: string, id: string) | NoHistory

  /** What the check wants of the bookkeeping. */
  ghost predicate Consistent<Status>(s: Snapshot<Status>, created: Status) {
    && (s.transitions != [] ==> s.transitions[|s.transitions| - 1].to == s.status)
    && (s.transitions == [] ==> s.status == created)
    && forall i, a :: 0 <= i < |s.transitions| && a in s.transitions[i].added ==> a in s.artifactIds
  }

  /** The bookkeeping part of `core_invariant_errors`. */
  method BookkeepingErrors<Status(==)>(s: Snapshot<Status>, created: Status) returns (errors: seq<Error>)
    ensures errors == [] <==> Consistent(s, created)
    ensures forall e :: e in errors && e.MissingArtifact? ==> e.id !in s.artifactIds
  {
    errors := [];
    if s.transitions != [] {
      if s.transitions[|s.transitions| - 1].to != s.status { errors := errors + [StatusMismatch]; }
      ghost var mismatch := errors;
      for i := 0 to |s.transitions|
        invariant errors == [] <==>
                  mismatch == [] && forall k, a :: 0 <= k < i && a in s.transitions[k].added ==> a in s.artifactIds
        invariant forall e :: e in errors && e.MissingArtifact? ==> e.id !in s.artifactIds
      {
        var missing := MissingOf(s.transitions[i], s.artifactIds);
        errors := errors + missing;
      }
    } else if s.status != created {
      errors := [NoHistory];
    }
  }

  method MissingOf<Status>(t: Transition<Status>, artifactIds: seq<string>) returns (missing: seq<Error>)
    ensures missing == [] <==> forall a :: a in t.added ==> a in artifactIds
    ensures forall e :: e in missing ==> e.MissingArtifact? && e.id in t.added && e.id !in artifactIds
  {
    missing := [];
    for j := 0 to |t.added|
      invariant missing == [] <==> forall k :: 0 <= k < j ==> t.added[k] in artifactIds
      invariant forall e :: e in missing ==> e.MissingArtifact? && e.id in t.added && e.id !in artifactIds
    {
      if t.added[j] !in artifactIds { missing := missing + [MissingArtifact(t.stage, t.added[j])]; }
    }
  }

  // ----- any sequence of calls -----

  /** The transitions form one chain from `created` to the current status. */
  ghost predicate Unbroken<Status>(s: Snapshot<Status>, created: Status) {
    && (s.transitions == [] ==> s.status == created)
    && (s.transitions != [] ==>
          s.transitions[0].from == created && s.transitions[|s.transitions| - 1].to == s.status)
    && forall i, j :: 0 <= i < |s.transitions| && j == i + 1 < |s.transitions| ==>
         s.transitions[i].to == s.transitions[j].from
  }

  /** After any calls on a fresh snapshot: one unbroken chain with a link per call, the artifact ids
      are the duplicate-free union of everything added in order of first addition, and the check
      finds nothing wrong. */
  lemma {:induction false} BookkeepingHolds<Status>(created: Status, calls: seq<Call<Status>>)
    ensures var s := AfterAll(Fresh(created), calls);
            && Unbroken(s, created)
            && |s.transitions| == |calls|
            && (forall i :: 0 <= i < |calls| ==>
                  s.transitions[i].to == calls[i].to && s.transitions[i].stage == calls[i].stage
                  && s.transitions[i].added == calls[i].added)
            && s.artifactIds == MergeNew([], AllAdded(calls))
            && Distinct(s.artifactIds)
            && Consistent(s, created)
  {
    if calls != [] {
      var front, last := calls[..|calls| - 1], calls[|calls| - 1];
      BookkeepingHolds(created, front);
      var before := AfterAll(Fresh(created), front);
      MergeNewSplits([], AllAdded(front), last.added);
      MergeNewIsUnion(before.artifactIds, last.added);
    }
  }

  /** Artifact ids are never lost or reordered. */
  lemma {:induction false} ArtifactIdsOnlyGrow<Status>(s: Snapshot<Status>, calls: seq<Call<Status>>)
    ensures s.artifactIds <= AfterAll(s, calls).artifactIds
  {
    if calls != [] {
      ArtifactIdsOnlyGrow(s, calls[..|calls| - 1]);
      MergeNewIsUnion(AfterAll(s, calls[..|calls| - 1]).artifactIds, calls[|calls| - 1].added);
    }
  }
}
