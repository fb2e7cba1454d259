/**
 * The Azure DNS provider's constants and its relative-name resolver
 * (`AzureRelativeRecordSetName`). The resolver compiles the regular
 * expression `"." + zoneName + ".*"` and replaces every match with "". Its
 * meaning is modelled directly, with RE2's rules: every `.` of the pattern,
 * the zone's own dots included, matches any character except a newline, and
 * the trailing `.*` extends a match greedily to the end of its line.
 */
module AzureDns {
  import opened Wrappers

  const ProviderName := "azure-dns"
  const PublicZoneType := "public"
  const PrivateZoneType := "private"

  /** A character of a DNS name; none is a regular-expression metacharacter except `.`. */
  predicate IsDnsNameChar(c: char)
  {
    ('a' <= c <= 'z') || ('A' <= c <= 'Z') || ('0' <= c <= '9') || c == '-' || c == '_' || c == '.'
  }

  /**
   * The zone names whose pattern the model gives a meaning to: no character
   * but `.` is a regular-expression metacharacter.
   */
  predicate IsDnsName(s: string)
  {
    forall i :: 0 <= i < |s| ==> IsDnsNameChar(s[i])
  }

  /** What an unescaped `.` matches. */
  predicate AnyChar(c: char)
  {
    c != '\n'
  }

  /** A character `p` of the zone, taken as a pattern character, matches `c`. */
  predicate PatternCharMatches(p: char, c: char)
  {
    if p == '.' then AnyChar(c) else c == p
  }

  /** The fixed-length head `"." + zone` of the pattern matches `s` at position `p`. */
  predicate MatchesAt(s: string, zone: string, p: nat)
  {
    p + 1 + |zone| <= |s| && AnyChar(s[p]) &&
    forall k :: 0 <= k < |zone| ==> PatternCharMatches(zone[k], s[p + 1 + k])
  }

  /** The leftmost position at or after `from` where a match starts. */
  function LeftmostMatch(s: string, zone: string, from: nat): (r: Option<nat>)
    requires from <= |s|
    ensures r.Some? ==> from <= r.value && MatchesAt(s, zone, r.value)
    ensures forall q: nat :: from <= q && (r.None? || q < r.value) ==> !MatchesAt(s, zone, q)
    decreases |s| - from
  {
    if from == |s| then None
    else if MatchesAt(s, zone, from) then Some(from)
    else LeftmostMatch(s, zone, from + 1)
  }

  /** Where the greedy `.*` that starts at `j` stops: the next newline, or the end. */
  function LineEnd(s: string, j: nat): (e: nat)
    requires j <= |s|
    ensures j <= e <= |s|
    ensures e < |s| ==> s[e] == '\n'
    ensures forall k :: j <= k < e ==> s[k] != '\n'
    decreases |s| - j
  {
    if j == |s| || s[j] == '\n' then j else LineEnd(s, j + 1)
  }

  /**
   * `Regexp.ReplaceAllString(s, "")` for the pattern `"." + zone + ".*"`: cut
   * out the leftmost match, then go on after it.
   */
  function ReplaceMatches(s: string, zone: string): (r: string)
    ensures |r| <= |s|
    ensures '\n' !in s ==> r <= s
    decreases |s|
  {
    match LeftmostMatch(s, zone, 0)
    case None => s
    case Some(p) =>
      var e := LineEnd(s, p + 1 + |zone|);
      assert '\n' !in s ==> s[e..] == [];
      s[..p] + ReplaceMatches(s[e..], zone)
  }

  /**
   * The record-set name relative to its zone. For a one-line name (DNS names
   * have no newline) it is the name cut at the leftmost match, or the whole
   * name when nothing matches.
   */
  function AzureRelativeRecordSetName(fqdn: string, zoneName: string): (r: string)
    requires IsDnsName(zoneName)
    ensures r <= fqdn || '\n' in fqdn
    ensures '\n' !in fqdn ==>
      match LeftmostMatch(fqdn, zoneName, 0)
      case None => r == fqdn
      case Some(p) => r == fqdn[..p]
  {
    ReplaceMatches(fqdn, zoneName)
  }

  /** A match inside a prefix of `s` is a match in `s`. */
  lemma MatchInPrefix(s: string, n: nat, zone: string, q: nat)
    requires n <= |s|
    requires MatchesAt(s[..n], zone, q)
    ensures MatchesAt(s, zone, q)
  {
    forall k | 0 <= k < |zone| ensures PatternCharMatches(zone[k], s[q + 1 + k]) {
      assert s[..n][q + 1 + k] == s[q + 1 + k];
    }
  }

  /** Resolving an already resolved one-line name changes nothing. */
  lemma RelativeNameIdempotent(fqdn: string, zoneName: string)
    requires IsDnsName(zoneName)
    requires '\n' !in fqdn
    ensures '\n' !in AzureRelativeRecordSetName(fqdn, zoneName)
    ensures AzureRelativeRecordSetName(AzureRelativeRecordSetName(fqdn, zoneName), zoneName)
         == AzureRelativeRecordSetName(fqdn, zoneName)
  {
    var r := AzureRelativeRecordSetName(fqdn, zoneName);
    match LeftmostMatch(fqdn, zoneName, 0)
    case None =>
    case Some(p) =>
      assert r == fqdn[..p];
      match LeftmostMatch(r, zoneName, 0)
      case None =>
      case Some(q) =>
        MatchInPrefix(fqdn, p, zoneName, q);
        assert false;
  }

  /** No match starts in `s` before position `n`. */
  predicate NoMatchBefore(s: string, zone: string, n: nat)
  {
    forall q: nat :: q < n ==> !MatchesAt(s, zone, q)
  }

  /**
   * A one-line name that ends in `"." + zone`, with no earlier match, loses
   * exactly that suffix.
   */
  lemma StripsZoneSuffix(r: string, zoneName: string)
    requires IsDnsName(zoneName)
    requires '\n' !in r
    requires NoMatchBefore(r + "." + zoneName, zoneName, |r|)
    ensures AzureRelativeRecordSetName(r + "." + zoneName, zoneName) == r
  {
    var s := r + "." + zoneName;
    forall k | 0 <= k < |zoneName| ensures PatternCharMatches(zoneName[k], s[|r| + 1 + k]) {
      assert s[|r| + 1 + k] == zoneName[k];
      assert IsDnsNameChar(zoneName[k]);
    }
    assert MatchesAt(s, zoneName, |r|);
    assert '\n' !in s by {
      forall i | 0 <= i < |s| ensures s[i] != '\n' {
        if i < |r| { assert s[i] == r[i]; }
        else if i > |r| { assert s[i] == zoneName[i - |r| - 1]; assert IsDnsNameChar(zoneName[i - |r| - 1]); }
      }
    }
    assert s[..|r|] == r;
    ResolvesAt(s, zoneName, |r|);
  }

  /** A match at `n` with none before it is the leftmost one, and the name is cut there. */
  lemma ResolvesAt(s: string, zoneName: string, n: nat)
    requires IsDnsName(zoneName)
    requires '\n' !in s
    requires MatchesAt(s, zoneName, n) && NoMatchBefore(s, zoneName, n)
    ensures LeftmostMatch(s, zoneName, 0) == Some(n)
    ensures AzureRelativeRecordSetName(s, zoneName) == s[..n]
  {
  }

  /** `("www.example.com", "example.com")` resolves to `"www"`. */
  lemma ExampleWww()
    ensures AzureRelativeRecordSetName("www.example.com", "example.com") == "www"
  {
    var s, z := "www.example.com", "example.com";
    forall q: nat | q < 3 ensures !MatchesAt(s, z, q) {
      assert !PatternCharMatches(z[0], s[q + 1]);
    }
    assert "www" + "." + z == s;
    StripsZoneSuffix("www", z);
  }

  /** The trailing `.*` swallows what follows the zone: `"a.example.com.extra"` gives `"a"`. */
  lemma ExampleTrailingText()
    ensures AzureRelativeRecordSetName("a.example.com.extra", "example.com") == "a"
  {
    var s, z := "a.example.com.extra", "example.com";
    assert !PatternCharMatches(z[0], s[1]);
    forall k | 0 <= k < |z| ensures PatternCharMatches(z[k], s[2 + k]) {
      assert s[2 + k] == z[k];
    }
    ResolvesAt(s, z, 1);
  }

  /** The unescaped leading `.` matches any character: `"wwwxexample.com"` gives `"www"`. */
  lemma ExampleWildcardDot()
    ensures AzureRelativeRecordSetName("wwwxexample.com", "example.com") == "www"
  {
    var s, z := "wwwxexample.com", "example.com";
    forall q: nat | q < 3 ensures !MatchesAt(s, z, q) {
      assert !PatternCharMatches(z[0], s[q + 1]);
    }
    forall k | 0 <= k < |z| ensures PatternCharMatches(z[k], s[4 + k]) {
      assert s[4 + k] == z[k];
    }
    ResolvesAt(s, z, 3);
  }
}
