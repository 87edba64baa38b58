/** String primitives the source borrows from JavaScript: `toLowerCase`,
    `toUpperCase`, `includes`, `trim`, and the line terminators that the
    regular-expression `.` refuses to match. Strings are sequences of
    `char`; case mapping covers the ASCII letters only. */
module Text {

  // ---------------------------------------------------------------
  // Case mapping (ASCII letters)
  // ---------------------------------------------------------------

  predicate IsUpperAscii(c: char) { 'A' <= c <= 'Z' }

  predicate IsLowerAscii(c: char) { 'a' <= c <= 'z' }

  /** ASCII lower-casing: a capital becomes the small letter it is the capital
      of; every other character is left alone. */
  function LowerChar(c: char): (r: char)
    ensures !IsUpperAscii(r)
    ensures IsUpperAscii(c) ==> IsLowerAscii(r) && r as int - c as int == 'a' as int - 'A' as int
    ensures !IsUpperAscii(c) ==> r == c
  {
    if IsUpperAscii(c) then (c as int + 32) as char else c
  }

  /** ASCII upper-casing, the mirror image of `LowerChar`. */
  function UpperChar(c: char): (r: char)
    ensures !IsLowerAscii(r)
    ensures IsLowerAscii(c) ==> IsUpperAscii(r) && c as int - r as int == 'a' as int - 'A' as int
    ensures !IsLowerAscii(c) ==> r == c
  {
    if IsLowerAscii(c) then (c as int - 32) as char else c
  }

  /** Upper- and lower-casing undo each other on letters. */
  lemma CaseRoundTrip(c: char)
    ensures IsUpperAscii(c) ==> UpperChar(LowerChar(c)) == c
    ensures IsLowerAscii(c) ==> LowerChar(UpperChar(c)) == c
  {
  }

  /** `s.toLowerCase()`: every character lower-cased, length kept. */
  function Lower(s: string): (r: string)
    ensures |r| == |s|
    ensures forall i :: 0 <= i < |s| ==> r[i] == LowerChar(s[i])
  {
    seq(|s|, i requires 0 <= i < |s| => LowerChar(s[i]))
  }

  /** Lower-casing twice changes nothing more. */
  lemma LowerIdempotent(s: string)
    ensures Lower(Lower(s)) == Lower(s)
  {
  }

  /** Character-by-character check that `t` is `s` lower-cased from index `k` on;
      written by index so that the verifier can evaluate it on literals. */
  predicate LowersTo(s: string, t: string, k: nat)
    decreases |s| - k
  {
    k >= |s| || (k < |t| && LowerChar(s[k]) == t[k] && LowersTo(s, t, k + 1))
  }

  lemma {:induction false} LowersToSound(s: string, t: string)
    requires |s| == |t| && LowersTo(s, t, 0)
    ensures Lower(s) == t
  {
    LowersToFrom(s, t, 0);
  }

  lemma {:induction false} LowersToFrom(s: string, t: string, k: nat)
    requires |s| == |t| && k <= |s| && LowersTo(s, t, k)
    ensures forall i :: k <= i < |s| ==> LowerChar(s[i]) == t[i]
    decreases |s| - k
  {
    if k < |s| {
      LowersToFrom(s, t, k + 1);
    }
  }

  // ---------------------------------------------------------------
  // Substring search (`String.prototype.includes`)
  // ---------------------------------------------------------------

  /** `w` occurs in `s` starting at index `i`. */
  ghost predicate OccursAt(s: string, w: string, i: int)
  {
    0 <= i && i + |w| <= |s| && s[i..i + |w|] == w
  }

  /** `w[k..]` occurs in `s` at index `i + k`, compared one character at a time. */
  predicate MatchesAt(s: string, w: string, i: nat, k: nat)
    decreases |w| - k
  {
    if k >= |w| then i + |w| <= |s|
    else i + k < |s| && s[i + k] == w[k] && MatchesAt(s, w, i, k + 1)
  }

  /** `w` occurs in `s` at some index `i` or later. */
  predicate ContainsFrom(s: string, w: string, i: nat)
    decreases |s| - i
  {
    i + |w| <= |s| && (MatchesAt(s, w, i, 0) || ContainsFrom(s, w, i + 1))
  }

  /** `s.includes(w)`. */
  predicate Contains(s: string, w: string)
  {
    ContainsFrom(s, w, 0)
  }

  lemma {:induction false} MatchesAtIff(s: string, w: string, i: nat, k: nat)
    requires k <= |w|
    ensures MatchesAt(s, w, i, k) <==> i + |w| <= |s| && s[i + k..i + |w|] == w[k..]
    decreases |w| - k
  {
    if k < |w| {
      MatchesAtIff(s, w, i, k + 1);
      if i + |w| <= |s| {
        assert s[i + k..i + |w|] == [s[i + k]] + s[i + k + 1..i + |w|];
        assert w[k..] == [w[k]] + w[k + 1..];
      }
    }
  }

  /** The search finds an occurrence at `i` or later exactly when there is one. */
  lemma {:induction false} ContainsFromIff(s: string, w: string, i: nat)
    ensures ContainsFrom(s, w, i) <==> exists p :: i <= p && OccursAt(s, w, p)
    decreases |s| - i
  {
    MatchesAtIff(s, w, i, 0);
    assert w[0..] == w;
    if i + |w| <= |s| {
      ContainsFromIff(s, w, i + 1);
      if !ContainsFrom(s, w, i) {
        forall p | i <= p ensures !OccursAt(s, w, p) {
          if p != i {
            assert !(exists q :: i + 1 <= q && OccursAt(s, w, q));
          }
        }
      } else if MatchesAt(s, w, i, 0) {
        assert OccursAt(s, w, i);
      }
    } else {
      forall p | i <= p ensures !OccursAt(s, w, p) {
      }
    }
  }

  /** `includes` answers exactly whether `w` is a substring of `s`. */
  lemma ContainsIff(s: string, w: string)
    ensures Contains(s, w) <==> exists p :: OccursAt(s, w, p)
  {
    ContainsFromIff(s, w, 0);
  }

  /** A word placed between two strings is found by the search. */
  lemma ContainsInfix(a: string, w: string, b: string)
    ensures Contains(a + w + b, w)
  {
    assert OccursAt(a + w + b, w, |a|);
    ContainsIff(a + w + b, w);
  }

  // ---------------------------------------------------------------
  // Line terminators and `String.prototype.trim`
  // ---------------------------------------------------------------

  /** The characters that the regular-expression `.` does not match. */
  predicate IsLineTerminator(c: char)
  {
    c == '\n' || c == '\r' || c == '\U{2028}' || c == '\U{2029}'
  }

  /** The characters `trim` removes: ECMAScript WhiteSpace (tab, vertical tab,
      form feed, space, no-break space, byte-order mark and the other space
      separators) and the line terminators. */
  predicate IsTrimmable(c: char)
  {
    || c == '\t' || c == '\U{000B}' || c == '\U{000C}' || c == ' '
    || c == '\U{00A0}' || c == '\U{FEFF}' || c == '\U{1680}'
    || ('\U{2000}' <= c <= '\U{200A}')
    || c == '\U{202F}' || c == '\U{205F}' || c == '\U{3000}'
    || IsLineTerminator(c)
  }

  /** The index of the first character at or after `i` that `trim` keeps. */
  function SkipLeading(s: string, i: nat): (p: nat)
    requires i <= |s|
    ensures i <= p <= |s| && (p == |s| || !IsTrimmable(s[p]))
    ensures forall k :: i <= k < p ==> IsTrimmable(s[k])
    decreases |s| - i
  {
    if i < |s| && IsTrimmable(s[i]) then SkipLeading(s, i + 1) else i
  }

  /** The index just past the last character before `j`, and not before `lo`, that `trim` keeps. */
  function SkipTrailing(s: string, lo: nat, j: nat): (q: nat)
    requires lo <= j <= |s|
    ensures lo <= q <= j && (q == lo || !IsTrimmable(s[q - 1]))
    ensures forall k :: q <= k < j ==> IsTrimmable(s[k])
    decreases j
  {
    if lo < j && IsTrimmable(s[j - 1]) then SkipTrailing(s, lo, j - 1) else j
  }

  /** `s.trim()`: the slice of `s` between its first and last kept characters. */
  function Trim(s: string): (r: string)
    ensures r == [] || (!IsTrimmable(r[0]) && !IsTrimmable(r[|r| - 1]))
    ensures |r| <= |s|
  {
    var i := SkipLeading(s, 0);
    s[i..SkipTrailing(s, i, |s|)]
  }

  /** A string trims to nothing exactly when every character of it is trimmable. */
  lemma TrimEmptyIff(s: string)
    ensures Trim(s) == [] <==> forall k :: 0 <= k < |s| ==> IsTrimmable(s[k])
  {
  }

  /** `trim` only removes characters from the two ends, and only trimmable ones. */
  lemma TrimRemovesEnds(s: string)
    ensures exists i, j :: 0 <= i <= j <= |s| && Trim(s) == s[i..j]
              && (forall k :: 0 <= k < i ==> IsTrimmable(s[k]))
              && (forall k :: j <= k < |s| ==> IsTrimmable(s[k]))
  {
    var i := SkipLeading(s, 0);
    var j := SkipTrailing(s, i, |s|);
    assert Trim(s) == s[i..j];
  }

  /** A string that starts and ends with kept characters is its own trim. */
  lemma TrimKeeps(s: string)
    requires s != [] && !IsTrimmable(s[0]) && !IsTrimmable(s[|s| - 1])
    ensures Trim(s) == s
  {
    assert SkipLeading(s, 0) == 0;
    assert SkipTrailing(s, 0, |s|) == |s|;
  }
}
