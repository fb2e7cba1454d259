/**
 * String helpers used by the model: joining path segments (the `fmt.Sprintf`
 * resource-ID formats), splitting them back apart, and Go's
 * `strings.ReplaceAll` with an empty replacement.
 */
module Strings {

  /** The parts joined with `sep` between neighbours, as Go's `strings.Join`. */
  function Join(parts: seq<string>, sep: char): string
  {
    if |parts| == 0 then ""
    else if |parts| == 1 then parts[0]
    else parts[0] + [sep] + Join(parts[1..], sep)
  }

  /** Joining a non-empty tail after one more part puts one separator between them. */
  lemma JoinCons(p: string, rest: seq<string>, sep: char)
    requires |rest| >= 1
    ensures Join([p] + rest, sep) == p + [sep] + Join(rest, sep)
  {
    assert ([p] + rest)[1..] == rest;
  }

  /** The position of the first `c` in `s`. */
  function FirstIndex(s: string, c: char): (i: nat)
    requires c in s
    ensures i < |s| && s[i] == c && c !in s[..i]
  {
    if s[0] == c then 0 else 1 + FirstIndex(s[1..], c)
  }

  /** `s` cut at every `sep`, as Go's `strings.Split` with a one-character separator. */
  function Split(s: string, sep: char): (parts: seq<string>)
    ensures |parts| >= 1
    decreases |s|
  {
    if sep !in s then [s]
    else
      var i := FirstIndex(s, sep);
      [s[..i]] + Split(s[i + 1..], sep)
  }

  /** Splitting at a separator that the first segment does not contain peels that segment off. */
  lemma SplitPeel(p: string, sep: char, rest: string)
    requires sep !in p
    ensures Split(p + [sep] + rest, sep) == [p] + Split(rest, sep)
  {
    var s := p + [sep] + rest;
    assert s[|p|] == sep;
    var i := FirstIndex(s, sep);
    assert s[..i] == p;
    assert s[i + 1..] == rest;
  }

  /** Splitting undoes joining when no part contains the separator. */
  lemma {:induction false} SplitJoin(parts: seq<string>, sep: char)
    requires |parts| >= 1
    requires forall j :: 0 <= j < |parts| ==> sep !in parts[j]
    ensures Split(Join(parts, sep), sep) == parts
  {
    if |parts| > 1 {
      SplitPeel(parts[0], sep, Join(parts[1..], sep));
      SplitJoin(parts[1..], sep);
      assert [parts[0]] + parts[1..] == parts;
    }
  }

  /** Joining is injective on separator-free parts of a fixed count. */
  lemma JoinInjective(a: seq<string>, b: seq<string>, sep: char)
    requires |a| >= 1 && |b| >= 1
    requires forall j :: 0 <= j < |a| ==> sep !in a[j]
    requires forall j :: 0 <= j < |b| ==> sep !in b[j]
    requires Join(a, sep) == Join(b, sep)
    ensures a == b
  {
    SplitJoin(a, sep);
    SplitJoin(b, sep);
  }

  /** `pat` occurs in `s` at position `i`. */
  predicate OccursAt(s: string, pat: string, i: nat)
  {
    i + |pat| <= |s| && s[i..i + |pat|] == pat
  }

  /** `pat` occurs somewhere in `s`. */
  ghost predicate Occurs(s: string, pat: string)
  {
    exists i: nat :: OccursAt(s, pat, i)
  }

  /**
   * Go's `strings.ReplaceAll(s, pat, "")`: every non-overlapping occurrence of
   * the literal `pat`, found from left to right, is removed.
   */
  function ReplaceAll(s: string, pat: string): (r: string)
    requires |pat| > 0
    ensures |r| <= |s|
    decreases |s|
  {
    if |s| < |pat| then s
    else if s[..|pat|] == pat then ReplaceAll(s[|pat|..], pat)
    else [s[0]] + ReplaceAll(s[1..], pat)
  }

  /** With no occurrence of `pat`, ReplaceAll returns `s` unchanged. */
  lemma {:induction false} ReplaceAllWithoutOccurrence(s: string, pat: string)
    requires |pat| > 0
    requires !Occurs(s, pat)
    ensures ReplaceAll(s, pat) == s
    decreases |s|
  {
    if |s| >= |pat| {
      assert !OccursAt(s, pat, 0);
      assert s[..|pat|] != pat;
      forall i: nat ensures !OccursAt(s[1..], pat, i) {
        assert !OccursAt(s, pat, i + 1);
        if i + |pat| <= |s| - 1 {
          assert s[1..][i..i + |pat|] == s[i + 1..i + 1 + |pat|];
        }
      }
      ReplaceAllWithoutOccurrence(s[1..], pat);
      assert [s[0]] + s[1..] == s;
    }
  }

  /** No occurrence before position `n + 1` of `s` means none before `n` in `s[1..]`. */
  lemma NoOccurrenceInTail(s: string, pat: string, n: nat)
    requires |s| > 0
    requires forall i: nat :: i < n + 1 ==> !OccursAt(s, pat, i)
    ensures forall i: nat :: i < n ==> !OccursAt(s[1..], pat, i)
  {
    forall i: nat | i < n ensures !OccursAt(s[1..], pat, i) {
      assert !OccursAt(s, pat, i + 1);
      if i + |pat| <= |s| - 1 {
        assert s[1..][i..i + |pat|] == s[i + 1..i + 1 + |pat|];
      }
    }
  }

  /**
   * When the first occurrence of `pat` in `r + pat + t` is the one after
   * `r`, ReplaceAll keeps `r`, drops that occurrence and goes on with `t`.
   */
  lemma {:induction false} ReplaceAllSkipsFirst(r: string, pat: string, t: string)
    requires |pat| > 0
    requires forall i: nat :: i < |r| ==> !OccursAt(r + pat + t, pat, i)
    ensures ReplaceAll(r + pat + t, pat) == r + ReplaceAll(t, pat)
    decreases |r|
  {
    var s := r + pat + t;
    if |r| == 0 {
      assert s[..|pat|] == pat;
      assert s[|pat|..] == t;
    } else {
      assert !OccursAt(s, pat, 0);
      assert s[..|pat|] != pat;
      var r' := r[1..];
      assert s[1..] == r' + pat + t;
      NoOccurrenceInTail(s, pat, |r'|);
      ReplaceAllSkipsFirst(r', pat, t);
      assert ReplaceAll(s, pat) == [s[0]] + ReplaceAll(s[1..], pat);
      assert [s[0]] + r' == r;
    }
  }
}
