/** The code points a font can draw, as ranges (scripts/build-clip-ink-fonts.py: coverage). */
module FontCoverage {

  type Name = string

  /** A composite glyph has components and a negative number of contours. */
  datatype Glyph = Glyph(contours: int, components: seq<Name>)

  type Glyphs = map<Name, Glyph>

  /** `blank` is a space or a format character. */
  datatype Entry = Entry(code: int, name: Name, blank: bool)

  // ---- what is drawn -----------------------------------------------------------------------

  /** Every component is a glyph of the font, of a lower rank: the component graph has no cycle. */
  ghost predicate Acyclic(glyf: Glyphs, rank: map<Name, nat>) {
    && glyf.Keys == rank.Keys
    && forall n | n in glyf :: forall k | 0 <= k < |glyf[n].components| ::
         glyf[n].components[k] in glyf && rank[glyf[n].components[k]] < rank[n]
  }

  /** Without a memo: the glyph has an outline, or one of its components has. */
  ghost predicate Drawn(glyf: Glyphs, rank: map<Name, nat>, name: Name)
    requires Acyclic(glyf, rank) && name in glyf
    decreases rank[name]
  {
    || glyf[name].contours > 0
    || (glyf[name].contours < 0
        && exists k | 0 <= k < |glyf[name].components| :: Drawn(glyf, rank, glyf[name].components[k]))
  }

  /** The answer does not depend on the ranks that show the graph acyclic. */
  lemma {:induction false} DrawnIgnoresRanks(glyf: Glyphs, a: map<Name, nat>, b: map<Name, nat>, name: Name)
    requires Acyclic(glyf, a) && Acyclic(glyf, b) && name in glyf
    ensures Drawn(glyf, a, name) == Drawn(glyf, b, name)
    decreases a[name]
  {
    forall k | 0 <= k < |glyf[name].components|
      ensures Drawn(glyf, a, glyf[name].components[k]) == Drawn(glyf, b, glyf[name].components[k])
    {
      DrawnIgnoresRanks(glyf, a, b, glyf[name].components[k]);
    }
  }

  /** The font being measured, and what it has already answered. */
  class Font {
    const glyf: Glyphs
    ghost const rank: map<Name, nat>
    var cache: map<Name, bool>

    ghost predicate Valid()
      reads this
    {
      Acyclic(glyf, rank) && forall n | n in cache :: n in glyf && cache[n] == Drawn(glyf, rank, n)
    }

    constructor (glyf: Glyphs, ghost rank: map<Name, nat>)
      requires Acyclic(glyf, rank)
      ensures Valid() && this.glyf == glyf && this.rank == rank && cache == map[]
    {
      this.glyf, this.rank, cache := glyf, rank, map[];
    }

    /** The memoised recursion; it ends because ranks fall. */
    method Draws(name: Name) returns (drawn: bool)
      requires Valid() && name in glyf
      modifies this`cache
      ensures Valid() && drawn == Drawn(glyf, rank, name)
      ensures name in cache && forall n | n in old(cache) :: n in cache
      decreases rank[name]
    {
      if name !in cache {
        var glyph := glyf[name];
        var any := glyph.contours > 0;
        if !any && glyph.contours < 0 { any := AnyDrawn(name); }
        cache := cache[name := any];
      }
      return cache[name];
    }

    /** Stops at the first component that is drawn. */
    method AnyDrawn(name: Name) returns (any: bool)
      requires Valid() && name in glyf
      modifies this`cache
      ensures Valid() && (any <==> exists k | 0 <= k < |glyf[name].components| :: Drawn(glyf, rank, glyf[name].components[k]))
      ensures forall n | n in old(cache) :: n in cache
      decreases rank[name], 0
    {
      var components := glyf[name].components;
      for k := 0 to |components|
        invariant Valid() && (forall n | n in old(cache) :: n in cache)
        invariant forall j | 0 <= j < k :: !Drawn(glyf, rank, components[j])
      {
        var drawn := Draws(components[k]);
        if drawn { return true; }
      }
      return false;
    }
  }

  // ---- the ranges --------------------------------------------------------------------------

  datatype Range = Range(lo: int, hi: int)

  predicate Within(r: Range, code: int) { r.lo <= code <= r.hi }

  ghost predicate Covers(ranges: seq<Range>, code: int) { exists k | 0 <= k < |ranges| :: Within(ranges[k], code) }

  /** Sorted, disjoint, and no two of them adjacent. */
  ghost predicate Canonical(ranges: seq<Range>) {
    && (forall k | 0 <= k < |ranges| :: ranges[k].lo <= ranges[k].hi)
    && (forall i, j | 0 <= i < j < |ranges| :: ranges[i].hi + 1 < ranges[j].lo)
  }

  ghost predicate Kept(glyf: Glyphs, rank: map<Name, nat>, e: Entry)
    requires Acyclic(glyf, rank) && e.name in glyf
  {
    e.name != ".notdef" && (e.blank || Drawn(glyf, rank, e.name))
  }

  ghost predicate Sorted(entries: seq<Entry>) { forall i, j | 0 <= i < j < |entries| :: entries[i].code < entries[j].code }

  ghost predicate KeptCode(glyf: Glyphs, rank: map<Name, nat>, entries: seq<Entry>, n: nat, code: int)
    requires Acyclic(glyf, rank) && n <= |entries| && forall k | 0 <= k < |entries| :: entries[k].name in glyf
  {
    exists k | 0 <= k < n :: entries[k].code == code && Kept(glyf, rank, entries[k])
  }

  /** One more code point, beyond every range: the last range grows or a new one starts. */
  function Extended(ranges: seq<Range>, code: int): seq<Range> {
    if ranges != [] && code == ranges[|ranges| - 1].hi + 1
    then ranges[|ranges| - 1 := ranges[|ranges| - 1].(hi := code)]
    else ranges + [Range(code, code)]
  }

  lemma ExtendingCovers(ranges: seq<Range>, code: int)
    requires Canonical(ranges) && forall k | 0 <= k < |ranges| :: ranges[k].hi < code
    ensures Canonical(Extended(ranges, code)) && forall k | 0 <= k < |Extended(ranges, code)| :: Extended(ranges, code)[k].hi <= code
    ensures forall c :: Covers(Extended(ranges, code), c) <==> Covers(ranges, c) || c == code
  {
    var out := Extended(ranges, code);
    forall c ensures Covers(out, c) <==> Covers(ranges, c) || c == code {
      if Covers(ranges, c) {
        var k :| 0 <= k < |ranges| && Within(ranges[k], c);
        assert Within(out[k], c);
      }
      if c == code { assert Within(out[|out| - 1], c); }
      if Covers(out, c) {
        var k :| 0 <= k < |out| && Within(out[k], c);
        if c != code { assert Within(ranges[k], c); }
      }
    }
  }

  /** coverage, over the character map in order of its codes. */
  method Coverage(font: Font, entries: seq<Entry>) returns (ranges: seq<Range>)
    requires font.Valid() && Sorted(entries) && forall k | 0 <= k < |entries| :: entries[k].name in font.glyf
    modifies font`cache
    ensures font.Valid() && Canonical(ranges)
    ensures forall code :: Covers(ranges, code) <==> KeptCode(font.glyf, font.rank, entries, |entries|, code)
  {
    ranges := [];
    for n := 0 to |entries|
      invariant font.Valid() && Canonical(ranges)
      invariant forall code :: Covers(ranges, code) <==> KeptCode(font.glyf, font.rank, entries, n, code)
      invariant forall k | 0 <= k < |ranges| && n < |entries| :: ranges[k].hi < entries[n].code
    {
      var e := entries[n];
      var kept := e.blank;
      if e.name != ".notdef" && !kept { kept := font.Draws(e.name); }
      OneMoreEntry(font.glyf, font.rank, entries, n);
      if e.name == ".notdef" || !kept { continue; }
      ExtendingCovers(ranges, e.code);
      if ranges != [] && e.code == ranges[|ranges| - 1].hi + 1 {
        ranges := ranges[|ranges| - 1 := ranges[|ranges| - 1].(hi := e.code)];
      } else {
        ranges := ranges + [Range(e.code, e.code)];
      }
    }
  }

  lemma OneMoreEntry(glyf: Glyphs, rank: map<Name, nat>, entries: seq<Entry>, n: nat)
    requires Acyclic(glyf, rank) && n < |entries| && forall k | 0 <= k < |entries| :: entries[k].name in glyf
    ensures forall code :: KeptCode(glyf, rank, entries, n + 1, code)
                           <==> KeptCode(glyf, rank, entries, n, code) || (code == entries[n].code && Kept(glyf, rank, entries[n]))
  {
    hide Kept;
    forall code ensures KeptCode(glyf, rank, entries, n + 1, code)
                        <==> KeptCode(glyf, rank, entries, n, code) || (code == entries[n].code && Kept(glyf, rank, entries[n]))
    {
      if KeptCode(glyf, rank, entries, n + 1, code) {
        var k :| 0 <= k < n + 1 && entries[k].code == code && Kept(glyf, rank, entries[k]);
        if k < n { assert KeptCode(glyf, rank, entries, n, code); }
      }
    }
  }

  // ---- one form only -----------------------------------------------------------------------

  /** Two canonical lists that cover the same code points are the same list: the file a font gives
      rise to is determined by what the font draws. */
  lemma {:induction false} CanonicalIsUnique(a: seq<Range>, b: seq<Range>)
    requires Canonical(a) && Canonical(b) && forall c :: Covers(a, c) <==> Covers(b, c)
    ensures a == b
    decreases |a|
  {
    if a == [] {
      SomethingIsCovered(b);
    } else {
      assert Within(a[0], a[0].lo) && Covers(a, a[0].lo);
      FirstRangesAgree(a, b);
      FirstRangesAgree(b, a);
      RestCovers(a);
      RestCovers(b);
      CanonicalIsUnique(a[1..], b[1..]);
      assert a == [a[0]] + a[1..] && b == [b[0]] + b[1..];
    }
  }

  lemma SomethingIsCovered(a: seq<Range>)
    requires Canonical(a)
    ensures a != [] ==> Covers(a, a[0].lo)
  {
    if a != [] { assert Within(a[0], a[0].lo); }
  }

  lemma FirstRangesAgree(a: seq<Range>, b: seq<Range>)
    requires Canonical(a) && Canonical(b) && a != [] && b != [] && forall c :: Covers(a, c) <==> Covers(b, c)
    ensures b[0].lo <= a[0].lo && (a[0].lo == b[0].lo ==> b[0].hi <= a[0].hi)
  {
    assert Within(a[0], a[0].lo) && Covers(a, a[0].lo);
    var j :| 0 <= j < |b| && Within(b[j], a[0].lo);
    AfterFirstIsOut(a);
    FirstCovers(b);
  }

  lemma FirstCovers(a: seq<Range>)
    requires a != []
    ensures forall c :: Within(a[0], c) ==> Covers(a, c)
  {}

  lemma AfterFirstIsOut(a: seq<Range>)
    requires Canonical(a) && a != []
    ensures !Covers(a, a[0].hi + 1)
  {}

  lemma RestCovers(a: seq<Range>)
    requires Canonical(a) && a != []
    ensures Canonical(a[1..]) && forall c :: Covers(a[1..], c) <==> Covers(a, c) && !Within(a[0], c)
  {
    forall c ensures Covers(a[1..], c) <==> Covers(a, c) && !Within(a[0], c) {
      if Covers(a[1..], c) {
        var k :| 0 <= k < |a[1..]| && Within(a[1..][k], c);
        assert Within(a[k + 1], c);
      }
      if Covers(a, c) && !Within(a[0], c) {
        var k :| 0 <= k < |a| && Within(a[k], c);
        assert Within(a[1..][k - 1], c);
      }
    }
  }
}
