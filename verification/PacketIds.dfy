/** Deterministic packet ids: `{plan_id}_pkt_{index}_{slug}` (decomposition/planner.py). */
module PacketIds {
  import opened Text

  predicate AlphaNumeric(c: char) {
    'a' <= c <= 'z' || '0' <= c <= '9'
  }

  function DropOthers(s: string): (r: string)
    ensures |r| <= |s|
  {
    if s != "" && !AlphaNumeric(s[0]) then DropOthers(s[1..]) else s
  }

  /** `re.sub(r"[^a-z0-9]+", "_", s)` */
  function Squash(s: string): string
    decreases |s|
  {
    if s == "" then ""
    else if AlphaNumeric(s[0]) then [s[0]] + Squash(s[1..])
    else "_" + Squash(DropOthers(s[1..]))
  }

  function StripUnderscores(s: string): string
    decreases |s|
  {
    if s != "" && s[0] == '_' then StripUnderscores(s[1..])
    else if s != "" && s[|s| - 1] == '_' then StripUnderscores(s[..|s| - 1])
    else s
  }

  function Slug(title: string): string {
    var s := StripUnderscores(Squash(Lower(title)));
    var t := if |s| > 24 then s[..24] else s;
    if t == "" then "packet" else t
  }

  /** A slug is never empty and has at most 24 characters; a title that squashes to no more is kept
      whole. */
  lemma SlugMeans(title: string)
    ensures 1 <= |Slug(title)| <= 24
    ensures var s := StripUnderscores(Squash(Lower(title)));
            && (1 <= |s| <= 24 ==> Slug(title) == s)
            && (|s| > 24 ==> Slug(title) < s && |Slug(title)| == 24)
            && (s == "" ==> Slug(title) == "packet")
  {
    hide StripUnderscores, Squash, Lower;
  }

  function Digit(d: nat): char
    requires d < 10
  {
    ('0' as int + d) as char
  }

  function Decimal(n: nat): (r: string)
    ensures r != "" && forall i :: 0 <= i < |r| ==> '0' <= r[i] <= '9'
  {
    if n < 10 then [Digit(n)] else Decimal(n / 10) + [Digit(n % 10)]
  }

  function PacketId(planId: string, index: nat, title: string): string {
    planId + "_pkt_" + (Decimal(index) + ("_" + Slug(title)))
  }

  lemma {:induction false} DecimalIsInjective(m: nat, n: nat)
    requires Decimal(m) == Decimal(n)
    ensures m == n
  {
    var a, b := Decimal(m), Decimal(n);
    assert a[|a| - 1] == Digit(m % 10) && b[|b| - 1] == Digit(n % 10);
    assert (m >= 10 <==> |a| > 1) && (n >= 10 <==> |b| > 1);
    if m >= 10 {
      assert a[..|a| - 1] == Decimal(m / 10) && b[..|b| - 1] == Decimal(n / 10);
      DecimalIsInjective(m / 10, n / 10);
    }
  }

  /** Equal strings whose digit prefixes are both followed by an underscore have equal prefixes. */
  lemma DigitsEndAtUnderscore(a: string, b: string, s: string, t: string)
    requires forall i :: 0 <= i < |a| ==> a[i] != '_'
    requires forall i :: 0 <= i < |b| ==> b[i] != '_'
    requires a + ("_" + s) == b + ("_" + t)
    ensures a == b
  {
    var x, y := a + ("_" + s), b + ("_" + t);
    assert x[|a|] == '_' && y[|b|] == '_';
    assert forall i :: 0 <= i < |a| ==> x[i] == a[i];
    assert forall i :: 0 <= i < |b| ==> y[i] == b[i];
    assert |a| == |b|;
    assert a == x[..|a|] && b == y[..|b|];
  }

  /** Packets of one plan share an id only when they share an index, whatever their titles. */
  lemma PacketIdDeterminesIndex(planId: string, i: nat, t: string, j: nat, u: string)
    requires PacketId(planId, i, t) == PacketId(planId, j, u)
    ensures i == j
  {
    var prefix := planId + "_pkt_";
    var x, y := Decimal(i) + ("_" + Slug(t)), Decimal(j) + ("_" + Slug(u));
    assert x == (prefix + x)[|prefix|..] && y == (prefix + y)[|prefix|..];
    DigitsEndAtUnderscore(Decimal(i), Decimal(j), Slug(t), Slug(u));
    DecimalIsInjective(i, j);
  }
}
