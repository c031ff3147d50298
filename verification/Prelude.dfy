/** Values shared by every module: an optional value and a few sequence facts. */
module Prelude {

  datatype Option<+T> = None | Some(value: T)

  /** No element occurs at two positions. */
  ghost predicate Distinct<T>(s: seq<T>) {
    forall i, j :: 0 <= i < j < |s| ==> s[i] != s[j]
  }

  /** `len(s) != len(set(s))`, the way the source asks for duplicates. */
  predicate HasDuplicates<T(==)>(s: seq<T>) {
    |s| != |ToSet(s)|
  }

  function ToSet<T>(s: seq<T>): (r: set<T>) {
    set x | x in s
  }

  /** A sequence has as many elements as its set exactly when nothing repeats. */
  lemma {:induction false} DuplicatesMeanNotDistinct<T>(s: seq<T>)
    ensures |ToSet(s)| <= |s|
    ensures HasDuplicates(s) <==> !Distinct(s)
  {
    if s == [] {
      assert ToSet(s) == {};
    } else {
      var front, last := s[..|s| - 1], s[|s| - 1];
      DuplicatesMeanNotDistinct(front);
      assert s == front + [last];
      if last in front {
        assert ToSet(s) == ToSet(front);
        var k :| 0 <= k < |front| && front[k] == last;
        assert s[k] == s[|s| - 1];
      } else {
        assert ToSet(s) == ToSet(front) + {last};
        assert Distinct(front) ==> Distinct(s);
        assert Distinct(s) ==> Distinct(front) by {
          if Distinct(s) {
            forall i, j | 0 <= i < j < |front| ensures front[i] != front[j] {
              assert s[i] != s[j];
            }
          }
        }
      }
    }
  }

  /** `if item not in out: out.append(item)`, for one item and for a list of them. */
  function AppendNew<T(==)>(out: seq<T>, item: T): seq<T> {
    if item in out then out else out + [item]
  }

  function MergeNew<T(==)>(out: seq<T>, items: seq<T>): seq<T> {
    if items == [] then out else AppendNew(MergeNew(out, items[..|items| - 1]), items[|items| - 1])
  }

  /** Merging keeps the old elements first, adds exactly the new ones, and repeats nothing. */
  lemma {:induction false} MergeNewIsUnion<T>(out: seq<T>, items: seq<T>)
    ensures out <= MergeNew(out, items)
    ensures forall x :: x in MergeNew(out, items) <==> x in out || x in items
    ensures Distinct(out) ==> Distinct(MergeNew(out, items))
  {
    if items != [] {
      var front := items[..|items| - 1];
      MergeNewIsUnion(out, front);
      assert items == front + [items[|items| - 1]];
    }
  }

  lemma {:induction false} MergeNewSplits<T>(out: seq<T>, a: seq<T>, b: seq<T>)
    ensures MergeNew(out, a + b) == MergeNew(MergeNew(out, a), b)
  {
    if b == [] {
      assert a + b == a;
    } else {
      MergeNewSplits(out, a, b[..|b| - 1]);
      assert (a + b)[..|a + b| - 1] == a + b[..|b| - 1];
    }
  }
}
