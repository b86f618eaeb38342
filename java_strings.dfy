/**
 * The parts of `java.lang.String` the core relies on: `trim()`, `isEmpty()`
 * after `trim()`, `toLowerCase()` and `contains(...)`.
 */
module JavaStrings {

  /** `String.trim()` removes every leading and trailing char at or below U+0020. */
  predicate IsTrimmable(c: char) { c <= ' ' }

  /** Number of trimmable chars at the front of `s`. */
  function LeadingTrimmable(s: string): (n: nat)
    ensures n <= |s|
    ensures forall k :: 0 <= k < n ==> IsTrimmable(s[k])
    ensures n < |s| ==> !IsTrimmable(s[n])
  {
    if |s| == 0 || !IsTrimmable(s[0]) then 0 else 1 + LeadingTrimmable(s[1..])
  }

  /** Number of trimmable chars at the back of `s`. */
  function TrailingTrimmable(s: string): (n: nat)
    ensures n <= |s|
    ensures forall k :: |s| - n <= k < |s| ==> IsTrimmable(s[k])
    ensures n < |s| ==> !IsTrimmable(s[|s| - 1 - n])
  {
    if |s| == 0 || !IsTrimmable(s[|s| - 1]) then 0 else 1 + TrailingTrimmable(s[..|s| - 1])
  }

  /** `s.trim()`: the longest infix of `s` that starts and ends with a non-trimmable char. */
  function Trim(s: string): (r: string)
    ensures |r| <= |s|
    ensures r == [] || (!IsTrimmable(r[0]) && !IsTrimmable(r[|r| - 1]))
    ensures LeadingTrimmable(s) + |r| <= |s|
    ensures r == s[LeadingTrimmable(s)..LeadingTrimmable(s) + |r|]
    ensures forall k :: LeadingTrimmable(s) + |r| <= k < |s| ==> IsTrimmable(s[k])
  {
    var rest := s[LeadingTrimmable(s)..];
    rest[..|rest| - TrailingTrimmable(rest)]
  }

  /** `s.trim().isEmpty()`. */
  predicate IsBlank(s: string) { Trim(s) == [] }

  /** ASCII upper-case letters are folded; every other char is left alone. */
  function LowerChar(c: char): (d: char)
    ensures IsTrimmable(d) <==> IsTrimmable(c)
    ensures 'A' <= c <= 'Z' ==> d as int == c as int + 32
    ensures !('A' <= c <= 'Z') ==> d == c
  {
    if 'A' <= c <= 'Z' then (c as int + 32) as char else c
  }

  /** `s.toLowerCase()`, restricted to the ASCII fold of LowerChar. */
  function ToLower(s: string): (r: string)
    ensures |r| == |s|
    ensures forall k :: 0 <= k < |s| ==> r[k] == LowerChar(s[k])
  {
    seq(|s|, k requires 0 <= k < |s| => LowerChar(s[k]))
  }

  /** `s.trim().toLowerCase()`: the key under which user names are stored. */
  function Normalize(s: string): string { ToLower(Trim(s)) }

  /** `sub` occurs in `s` starting at index `i`. */
  predicate OccursAt(s: string, sub: string, i: int)
  {
    0 <= i <= |s| - |sub| && s[i..i + |sub|] == sub
  }

  /** `s.contains(sub)`. */
  predicate Contains(s: string, sub: string)
    decreases |s|
  {
    |sub| <= |s| && (s[..|sub|] == sub || (|s| > 0 && Contains(s[1..], sub)))
  }

  /** A string that starts and ends with non-trimmable chars is its own trim. */
  lemma TrimOfTrimmed(s: string)
    requires s == [] || (!IsTrimmable(s[0]) && !IsTrimmable(s[|s| - 1]))
    ensures Trim(s) == s
  {
    if s != [] {
      assert LeadingTrimmable(s) == 0;
      assert TrailingTrimmable(s) == 0;
    }
  }

  /** Trimming twice is trimming once. */
  lemma TrimIdempotent(s: string)
    ensures Trim(Trim(s)) == Trim(s)
  {
    TrimOfTrimmed(Trim(s));
  }

  /** A string is blank exactly when every char in it is trimmable. */
  lemma BlankIff(s: string)
    ensures IsBlank(s) <==> forall k :: 0 <= k < |s| ==> IsTrimmable(s[k])
  {
    if forall k :: 0 <= k < |s| ==> IsTrimmable(s[k]) {
      assert LeadingTrimmable(s) == |s|;
    } else {
      var k :| 0 <= k < |s| && !IsTrimmable(s[k]);
      assert LeadingTrimmable(s) <= k;
    }
  }

  /** Normalising a stored key again yields the same key, so stored names are found by lookups. */
  lemma NormalizeIdempotent(s: string)
    ensures Normalize(Normalize(s)) == Normalize(s)
  {
    var t := Trim(s);
    var l := ToLower(t);
    assert l == [] || (!IsTrimmable(l[0]) && !IsTrimmable(l[|l| - 1]));
    TrimOfTrimmed(l);
    assert Trim(l) == l;
    assert forall k :: 0 <= k < |l| ==> LowerChar(l[k]) == l[k];
    assert ToLower(l) == l;
  }

  /** `contains` holds exactly when `sub` occurs at some index of `s`. */
  lemma {:induction false} ContainsIff(s: string, sub: string)
    ensures Contains(s, sub) <==> exists i :: OccursAt(s, sub, i)
    decreases |s|
  {
    if |sub| <= |s| && s[..|sub|] == sub {
      assert OccursAt(s, sub, 0);
    } else if |sub| <= |s| && |s| > 0 {
      ContainsIff(s[1..], sub);
      assert s[0..0 + |sub|] == s[..|sub|];
      forall i | OccursAt(s, sub, i) && i > 0
        ensures OccursAt(s[1..], sub, i - 1)
      {
        assert s[1..][i - 1..i - 1 + |sub|] == s[i..i + |sub|];
      }
      forall i | OccursAt(s[1..], sub, i)
        ensures OccursAt(s, sub, i + 1)
      {
        assert s[1..][i..i + |sub|] == s[i + 1..i + 1 + |sub|];
      }
    }
  }

  /** An occurrence of a longer text carries an occurrence of each of its infixes. */
  lemma ContainsInfix(s: string, sub: string, lo: nat, hi: nat)
    requires lo <= hi <= |sub|
    requires Contains(s, sub)
    ensures Contains(s, sub[lo..hi])
  {
    ContainsIff(s, sub);
    var i :| OccursAt(s, sub, i);
    forall k | 0 <= k < hi - lo
      ensures sub[lo..hi][k] == s[i + lo..i + hi][k]
    {
      assert sub[lo + k] == s[i..i + |sub|][lo + k];
    }
    assert OccursAt(s, sub[lo..hi], i + lo);
    ContainsIff(s, sub[lo..hi]);
  }
}
