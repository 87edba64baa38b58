/** The fallback gazetteer of backend/server.js: an ordered list of
    (pattern, coordinate) entries searched first match first. Each pattern
    is a case-insensitive regular expression made of alternatives that are
    either a plain word (`/salem/i`) or a word followed later on the same
    line by another (`/coimbatore.*airport/i`; `.` matches anything but a
    line terminator). */
module Gazetteer {
  import opened Wrappers
  import opened Text

  datatype Coord = Coord(lat: real, lon: real)

  /** One alternative of a pattern. */
  datatype Alternative =
    | Word(word: string)
    | Near(first: string, second: string)   // `first.*second`

  /** One gazetteer entry: the pattern's alternatives and its coordinate. */
  datatype Entry = Entry(pattern: seq<Alternative>, at: Coord)

  // ---------------------------------------------------------------
  // Matching
  // ---------------------------------------------------------------

  /** No line terminator in `s[from..to]`. */
  ghost predicate SameLine(s: string, from: int, to: int)
    requires 0 <= from <= to <= |s|
  {
    forall k :: from <= k < to ==> !IsLineTerminator(s[k])
  }

  /** The regular-expression meaning of `first.*second` on `q`. */
  ghost predicate NearSpec(q: string, first: string, second: string)
  {
    exists i, j :: OccursAt(q, first, i) && i + |first| <= j && OccursAt(q, second, j)
                   && SameLine(q, i + |first|, j)
  }

  /** `w` occurs at `j` or later, with no line terminator between `j` and the occurrence. */
  predicate OnLineFrom(q: string, w: string, j: nat)
    decreases |q| - j
  {
    j + |w| <= |q| && (MatchesAt(q, w, j, 0) || (!IsLineTerminator(q[j]) && OnLineFrom(q, w, j + 1)))
  }

  /** Backtracking search for `first.*second`, trying every start of `first` from `i` on. */
  predicate NearFrom(q: string, first: string, second: string, i: nat)
    decreases |q| - i
  {
    i + |first| <= |q|
    && ((MatchesAt(q, first, i, 0) && OnLineFrom(q, second, i + |first|))
        || NearFrom(q, first, second, i + 1))
  }

  predicate AlternativeMatches(q: string, alt: Alternative)
  {
    match alt
    case Word(w) => Contains(q, w)
    case Near(a, b) => NearFrom(q, a, b, 0)
  }

  /** `match.test(q)`: some alternative from index `k` on matches. */
  predicate PatternMatchesFrom(q: string, pattern: seq<Alternative>, k: nat)
    decreases |pattern| - k
  {
    k < |pattern| && (AlternativeMatches(q, pattern[k]) || PatternMatchesFrom(q, pattern, k + 1))
  }

  predicate PatternMatches(q: string, pattern: seq<Alternative>)
  {
    PatternMatchesFrom(q, pattern, 0)
  }

  lemma {:induction false} OnLineFromIff(q: string, w: string, j: nat)
    requires j <= |q|
    ensures OnLineFrom(q, w, j) <==> exists p :: j <= p && OccursAt(q, w, p) && SameLine(q, j, p)
    decreases |q| - j
  {
    MatchesAtIff(q, w, j, 0);
    assert w[0..] == w;
    if j + |w| <= |q| {
      if MatchesAt(q, w, j, 0) {
        assert OccursAt(q, w, j) && SameLine(q, j, j);
      } else if IsLineTerminator(q[j]) {
        forall p | j <= p && OccursAt(q, w, p) ensures !SameLine(q, j, p) {
          if p == j {
            assert false;
          }
        }
      } else {
        OnLineFromIff(q, w, j + 1);
        if OnLineFrom(q, w, j + 1) {
          var p :| j + 1 <= p && OccursAt(q, w, p) && SameLine(q, j + 1, p);
          assert SameLine(q, j, p);
        } else {
          forall p | j <= p && OccursAt(q, w, p) ensures !SameLine(q, j, p) {
            if p == j {
              assert false;
            } else {
              assert !SameLine(q, j + 1, p);
            }
          }
        }
      }
    }
  }

  lemma {:induction false} NearFromIff(q: string, a: string, b: string, i: nat)
    ensures NearFrom(q, a, b, i) <==>
      exists s, j :: i <= s && OccursAt(q, a, s) && s + |a| <= j && OccursAt(q, b, j) && SameLine(q, s + |a|, j)
    decreases |q| - i
  {
    MatchesAtIff(q, a, i, 0);
    assert a[0..] == a;
    if i + |a| <= |q| {
      OnLineFromIff(q, b, i + |a|);
      NearFromIff(q, a, b, i + 1);
      if MatchesAt(q, a, i, 0) && OnLineFrom(q, b, i + |a|) {
        var j :| i + |a| <= j && OccursAt(q, b, j) && SameLine(q, i + |a|, j);
        assert OccursAt(q, a, i);
      } else if NearFrom(q, a, b, i + 1) {
      } else {
        forall s, j | i <= s && OccursAt(q, a, s) && s + |a| <= j && OccursAt(q, b, j)
          ensures !SameLine(q, s + |a|, j)
        {
          if s == i {
            assert MatchesAt(q, a, i, 0);
          }
        }
      }
    }
  }

  /** The search for `first.*second` agrees with the regular expression. */
  lemma NearMatches(q: string, a: string, b: string)
    ensures NearFrom(q, a, b, 0) <==> NearSpec(q, a, b)
  {
    NearFromIff(q, a, b, 0);
  }

  /** A pattern matches exactly when one of its alternatives does. */
  lemma {:induction false} PatternMatchesIff(q: string, pattern: seq<Alternative>, k: nat)
    ensures PatternMatchesFrom(q, pattern, k) <==> exists m :: k <= m < |pattern| && AlternativeMatches(q, pattern[m])
    decreases |pattern| - k
  {
    if k < |pattern| {
      PatternMatchesIff(q, pattern, k + 1);
    }
  }

  // ---------------------------------------------------------------
  // The table and the lookup
  // ---------------------------------------------------------------

  const COIMBATORE_AIRPORT := Coord(11.0308, 77.0432)
  const CHENNAI_AIRPORT := Coord(12.9944, 80.1807)
  const BANGALORE_AIRPORT := Coord(13.1986, 77.7066)
  const COIMBATORE := Coord(11.0168, 76.9558)
  const CHENNAI := Coord(13.0827, 80.2707)
  const SALEM := Coord(11.6643, 78.146)
  const BANGALORE := Coord(12.9716, 77.5946)
  const MUMBAI := Coord(19.076, 72.8777)
  const DELHI := Coord(28.6139, 77.209)
  const HYDERABAD := Coord(17.385, 78.4867)

  /** `FALLBACK_COORDS`: airport and campus patterns come before the bare city names. */
  const FALLBACK_COORDS: seq<Entry> := [
    Entry([Near("coimbatore", "airport"), Near("airport", "coimbatore")], COIMBATORE_AIRPORT),
    Entry([Near("chennai", "airport"), Near("airport", "chennai"), Near("madras", "airport")], CHENNAI_AIRPORT),
    Entry([Near("bangalore", "airport"), Near("airport", "bangalore"), Near("bengaluru", "airport")], BANGALORE_AIRPORT),
    Entry([Near("psg", "institute"), Near("psg", "technology")], COIMBATORE),
    Entry([Word("coimbatore"), Word("kovai")], COIMBATORE),
    Entry([Word("chennai"), Word("madras")], CHENNAI),
    Entry([Word("salem")], SALEM),
    Entry([Word("bangalore"), Word("bengaluru")], BANGALORE),
    Entry([Word("mumbai"), Word("bombay")], MUMBAI),
    Entry([Word("delhi"), Word("new delhi")], DELHI),
    Entry([Word("hyderabad")], HYDERABAD)
  ]

  /** The coordinate of the first entry from index `k` on whose pattern matches `q`. */
  function FirstMatch(q: string, entries: seq<Entry>, k: nat): Option<Coord>
    decreases |entries| - k
  {
    if k >= |entries| then None
    else if PatternMatches(q, entries[k].pattern) then Some(entries[k].at)
    else FirstMatch(q, entries, k + 1)
  }

  /** `getFallbackCoords(query)` as a value: the coordinate of the first entry
      whose pattern matches the lower-cased query, and nothing when none does. */
  function Lookup(query: string): (r: Option<Coord>)
    ensures r.None? <==> forall m :: 0 <= m < |FALLBACK_COORDS| ==> !PatternMatches(Lower(query), FALLBACK_COORDS[m].pattern)
    ensures r.Some? ==>
              exists m :: 0 <= m < |FALLBACK_COORDS| && PatternMatches(Lower(query), FALLBACK_COORDS[m].pattern)
                          && r.value == FALLBACK_COORDS[m].at
                          && forall l :: 0 <= l < m ==> !PatternMatches(Lower(query), FALLBACK_COORDS[l].pattern)
  {
    FirstMatchIsFirst(Lower(query), FALLBACK_COORDS, 0);
    FirstMatch(Lower(query), FALLBACK_COORDS, 0)
  }

  /** The first-match rule: the result is the coordinate of the earliest
      matching entry, and there is none exactly when no entry matches. */
  lemma {:induction false} FirstMatchIsFirst(q: string, entries: seq<Entry>, k: nat)
    ensures FirstMatch(q, entries, k).None? <==>
              forall m :: k <= m < |entries| ==> !PatternMatches(q, entries[m].pattern)
    ensures FirstMatch(q, entries, k).Some? ==>
              exists m :: k <= m < |entries| && PatternMatches(q, entries[m].pattern)
                          && FirstMatch(q, entries, k).value == entries[m].at
                          && forall l :: k <= l < m ==> !PatternMatches(q, entries[l].pattern)
    decreases |entries| - k
  {
    if k < |entries| && !PatternMatches(q, entries[k].pattern) {
      FirstMatchIsFirst(q, entries, k + 1);
      if FirstMatch(q, entries, k).Some? {
        var m :| k + 1 <= m < |entries| && PatternMatches(q, entries[m].pattern)
                 && FirstMatch(q, entries, k).value == entries[m].at
                 && forall l :: k + 1 <= l < m ==> !PatternMatches(q, entries[l].pattern);
        assert forall l :: k <= l < m ==> !PatternMatches(q, entries[l].pattern);
      }
    }
  }

  /** `getFallbackCoords`: lower-cases the query and walks the list, returning
      at the first entry whose pattern matches. */
  method FallbackCoords(query: string) returns (r: Option<Coord>)
    ensures r == Lookup(query)
    ensures r.None? <==> forall m :: 0 <= m < |FALLBACK_COORDS| ==> !PatternMatches(Lower(query), FALLBACK_COORDS[m].pattern)
  {
    var q := Lower(query);
    var i := 0;
    while i < |FALLBACK_COORDS|
      invariant 0 <= i <= |FALLBACK_COORDS|
      invariant FirstMatch(q, FALLBACK_COORDS, 0) == FirstMatch(q, FALLBACK_COORDS, i)
    {
      if PatternMatches(q, FALLBACK_COORDS[i].pattern) {
        FirstMatchIsFirst(q, FALLBACK_COORDS, 0);
        return Some(FALLBACK_COORDS[i].at);
      }
      i := i + 1;
    }
    FirstMatchIsFirst(q, FALLBACK_COORDS, 0);
    r := None;
  }

  // ---------------------------------------------------------------
  // Priority examples
  // ---------------------------------------------------------------

  /** "Coimbatore Airport" resolves to the airport, although it also
      matches the city entry further down the list. */
  lemma CoimbatoreAirportExample()
    ensures Lookup("Coimbatore Airport") == Some(COIMBATORE_AIRPORT)
    ensures PatternMatches(Lower("Coimbatore Airport"), FALLBACK_COORDS[4].pattern)
    ensures FALLBACK_COORDS[4].at != COIMBATORE_AIRPORT
  {
    var q := "coimbatore airport";
    assert LowersTo("Coimbatore Airport", q, 9);
    assert LowersTo("Coimbatore Airport", q, 0);
    LowersToSound("Coimbatore Airport", q);
    assert MatchesAt(q, "coimbatore", 0, 0);
    assert MatchesAt(q, "airport", 11, 0);
    assert OnLineFrom(q, "airport", 10);
    assert NearFrom(q, "coimbatore", "airport", 0);
    assert PatternMatches(q, FALLBACK_COORDS[0].pattern);
    assert Contains(q, "coimbatore");
  }

  /** Bare city names fall through the airport and campus entries. */
  lemma CityExamples()
    ensures Lookup("Chennai") == Some(CHENNAI)
    ensures Lookup("Salem") == Some(SALEM)
  {
    var c := "chennai";
    LowersToSound("Chennai", c);
    assert Contains(c, "chennai") by { assert MatchesAt(c, "chennai", 0, 0); }
    assert FirstMatch(c, FALLBACK_COORDS, 5) == Some(CHENNAI);
    assert !PatternMatches(c, FALLBACK_COORDS[4].pattern);
    assert !PatternMatches(c, FALLBACK_COORDS[3].pattern);
    assert !PatternMatches(c, FALLBACK_COORDS[2].pattern);
    assert !PatternMatches(c, FALLBACK_COORDS[1].pattern);
    assert !PatternMatches(c, FALLBACK_COORDS[0].pattern);
    assert FirstMatch(c, FALLBACK_COORDS, 4) == FirstMatch(c, FALLBACK_COORDS, 5);
    assert FirstMatch(c, FALLBACK_COORDS, 3) == FirstMatch(c, FALLBACK_COORDS, 4);
    assert FirstMatch(c, FALLBACK_COORDS, 2) == FirstMatch(c, FALLBACK_COORDS, 3);
    assert FirstMatch(c, FALLBACK_COORDS, 1) == FirstMatch(c, FALLBACK_COORDS, 2);
    assert FirstMatch(c, FALLBACK_COORDS, 0) == FirstMatch(c, FALLBACK_COORDS, 1);

    var m := "salem";
    LowersToSound("Salem", m);
    assert Contains(m, "salem") by { assert MatchesAt(m, "salem", 0, 0); }
    assert FirstMatch(m, FALLBACK_COORDS, 6) == Some(SALEM);
    assert !PatternMatches(m, FALLBACK_COORDS[5].pattern);
    assert !PatternMatches(m, FALLBACK_COORDS[4].pattern);
    assert !PatternMatches(m, FALLBACK_COORDS[3].pattern);
    assert !PatternMatches(m, FALLBACK_COORDS[2].pattern);
    assert !PatternMatches(m, FALLBACK_COORDS[1].pattern);
    assert !PatternMatches(m, FALLBACK_COORDS[0].pattern);
    assert FirstMatch(m, FALLBACK_COORDS, 5) == FirstMatch(m, FALLBACK_COORDS, 6);
    assert FirstMatch(m, FALLBACK_COORDS, 4) == FirstMatch(m, FALLBACK_COORDS, 5);
    assert FirstMatch(m, FALLBACK_COORDS, 3) == FirstMatch(m, FALLBACK_COORDS, 4);
    assert FirstMatch(m, FALLBACK_COORDS, 2) == FirstMatch(m, FALLBACK_COORDS, 3);
    assert FirstMatch(m, FALLBACK_COORDS, 1) == FirstMatch(m, FALLBACK_COORDS, 2);
    assert FirstMatch(m, FALLBACK_COORDS, 0) == FirstMatch(m, FALLBACK_COORDS, 1);
  }
}
