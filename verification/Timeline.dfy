/** The edited output timeline: cut lengths at fixed playback rates, reading extensions, and the
    intervals the declared elements resolve to (backend/internal/clip: rate.go,
    composition_exposure.go, composition_render.go, portable_plan.go, caption_regions.go;
    composition/interval.go). */
module Timeline {
  import opened Basics

  // ---- cut lengths -------------------------------------------------------------------------

  /** A rate of 0 is a cut from before rates existed and reads as 1x. */
  datatype Cut = Cut(id: nat, source: nat, fingerprint: nat, startMS: int, endMS: int, transitionMS: int, ratePermille: int)

  const UNIT_RATE := 1000
  const RATES := [500, 750, 1000, 1250, 1500, 2000]

  function RateOf(c: Cut): int { if c.ratePermille == 0 then UNIT_RATE else c.ratePermille }

  /** rate.go: TransformedDuration, to the nearest millisecond; 0 is its refusal. */
  function Transformed(span: int, rate: int): (out: int)
    ensures out >= 0
  {
    if rate !in RATES || span <= 0 then 0 else (span * UNIT_RATE + rate / 2) / rate
  }

  function OutputMS(c: Cut): int { Transformed(c.endMS - c.startMS, RateOf(c)) }

  /** Nearest rounding: the length at a rate is within half a millisecond of the exact one, and at 1x it
      is the span. */
  lemma TransformedIsNearest(span: int, rate: int)
    requires rate in RATES && span > 0
    ensures var out := Transformed(span, rate);
            -rate <= 2 * (span * UNIT_RATE - out * rate) <= rate && (rate == UNIT_RATE ==> out == span)
  {}

  // ---- reading extensions ------------------------------------------------------------------

  datatype Span = Span(startMS: int, endMS: int)

  /** The exposure a text needs, and the exposures of its non-empty alternative wordings. */
  datatype Text = Text(cut: nat, caption: bool, rapid: bool, repairable: bool, exposureMS: int, alternatives: seq<int>)

  datatype Observation = Observation(source: nat, fingerprint: nat, durationMS: int, segments: seq<Span>)

  datatype Association = Association(source: nat, fingerprint: nat, startMS: int, endMS: int)

  datatype Reading = Reading(texts: seq<Text>, observations: seq<Observation>, associations: seq<Association>,
                             targetMS: int, insetMS: int)

  predicate Reads(t: Text, cut: nat) { t.cut == cut && t.caption && !t.rapid && t.repairable }

  function Least(first: int, rest: seq<int>): int {
    if rest == [] then first else Min(Least(first, rest[..|rest| - 1]), rest[|rest| - 1])
  }

  /** The first two texts a cut has to be read by, each at its shortest wording. */
  function NeedOf(texts: seq<Text>, cut: nat): (int, nat) {
    if texts == [] then (0, 0)
    else
      var last := texts[|texts| - 1];
      var (need, count) := NeedOf(texts[..|texts| - 1], cut);
      if Reads(last, cut) && count < 2 then (need + Least(last.exposureMS, last.alternatives), count + 1) else (need, count)
  }

  method ReadingNeed(texts: seq<Text>, cut: nat) returns (need: int)
    ensures need == NeedOf(texts, cut).0
  {
    var count := 0;
    need := 0;
    for k := 0 to |texts|
      invariant (need, count) == NeedOf(texts[..k], cut)
    {
      var text := texts[k];
      assert texts[..k + 1][..k] == texts[..k];
      if !Reads(text, cut) || count >= 2 { continue; }
      var n := text.exposureMS;
      for j := 0 to |text.alternatives|
        invariant n == Least(text.exposureMS, text.alternatives[..j])
      {
        assert text.alternatives[..j + 1][..j] == text.alternatives[..j];
        n := Min(n, text.alternatives[j]);
      }
      assert text.alternatives[..|text.alternatives|] == text.alternatives;
      need, count := need + n, count + 1;
    }
    assert texts[..|texts|] == texts;
  }

  predicate Contains(s: Span, c: Cut) { s.startMS <= c.startMS && c.endMS <= s.endMS }

  predicate Observes(o: Observation, c: Cut) { o.source == c.source && o.fingerprint == c.fingerprint }

  /** One scene, already observed, runs from before the cut to `end` or later. */
  ghost predicate OneScene(observations: seq<Observation>, c: Cut, end: int) {
    exists k, j | 0 <= k < |observations| && 0 <= j < |observations[k].segments| ::
      Observes(observations[k], c) && Contains(observations[k].segments[j], c) && end <= observations[k].segments[j].endMS
  }

  /** `end` takes nothing from a later range of the same source, and stays off what the owner
      associated with other items. */
  ghost predicate LeavesOthers(cuts: seq<Cut>, associations: seq<Association>, i: nat, end: int)
    requires i < |cuts|
  {
    var c := cuts[i];
    && (forall j | 0 <= j < |cuts| && j != i && cuts[j].source == c.source && c.endMS <= cuts[j].startMS :: end <= cuts[j].startMS)
    && (forall a | a in associations && a.source == c.source && a.fingerprint == c.fingerprint ::
          (a.startMS <= c.startMS && c.endMS <= a.endMS ==> end <= a.endMS)
          && (!(a.startMS <= c.startMS && c.endMS <= a.endMS) && c.endMS <= a.startMS ==> end <= a.startMS))
  }

  function FurthestIn(segments: seq<Span>, c: Cut, end: int): int {
    if segments == [] then end
    else
      var last := segments[|segments| - 1];
      var before := FurthestIn(segments[..|segments| - 1], c, end);
      if Contains(last, c) then Max(before, last.endMS) else before
  }

  /** How far the scenes around a cut run, each source's no further than the source. */
  function SceneEndOf(observations: seq<Observation>, c: Cut): int {
    if observations == [] then c.endMS
    else
      var last := observations[|observations| - 1];
      var before := SceneEndOf(observations[..|observations| - 1], c);
      if Observes(last, c) then Min(FurthestIn(last.segments, c, before), last.durationMS) else before
  }

  /** No further than where any other cut of the source begins after cut number `i`. */
  function BeforeCuts(cuts: seq<Cut>, i: nat, c: Cut, end: int): int {
    if cuts == [] then end
    else
      var j := |cuts| - 1;
      var before := BeforeCuts(cuts[..j], i, c, end);
      if j != i && cuts[j].source == c.source && cuts[j].startMS >= c.endMS then Min(before, cuts[j].startMS) else before
  }

  /** No further than the association the cut is in, nor into one that begins after it. */
  function BeforeAssociations(associations: seq<Association>, c: Cut, end: int): int {
    if associations == [] then end
    else
      var a := associations[|associations| - 1];
      var before := BeforeAssociations(associations[..|associations| - 1], c, end);
      if a.source != c.source || a.fingerprint != c.fingerprint then before
      else if a.startMS <= c.startMS && a.endMS >= c.endMS then Min(before, a.endMS)
      else if a.startMS >= c.endMS then Min(before, a.startMS)
      else before
  }

  function FurthestOf(r: Reading, cuts: seq<Cut>, i: nat): int
    requires i < |cuts|
  {
    BeforeAssociations(r.associations, cuts[i], BeforeCuts(cuts, i, cuts[i], SceneEndOf(r.observations, cuts[i])))
  }

  method SceneEnd(observations: seq<Observation>, c: Cut) returns (end: int)
    ensures end == SceneEndOf(observations, c) && (end > c.endMS ==> OneScene(observations, c, end))
  {
    end := c.endMS;
    for k := 0 to |observations|
      invariant end == SceneEndOf(observations[..k], c) && (end > c.endMS ==> OneScene(observations, c, end))
    {
      var o := observations[k];
      assert observations[..k + 1][..k] == observations[..k];
      if o.source != c.source || o.fingerprint != c.fingerprint { continue; }
      ghost var before := end;
      for j := 0 to |o.segments|
        invariant end == FurthestIn(o.segments[..j], c, before) && (end > c.endMS ==> OneScene(observations, c, end))
      {
        var s := o.segments[j];
        assert o.segments[..j + 1][..j] == o.segments[..j];
        if s.startMS <= c.startMS && s.endMS >= c.endMS { end := Max(end, s.endMS); }
      }
      assert o.segments[..|o.segments|] == o.segments;
      end := Min(end, o.durationMS);
    }
    assert observations[..|observations|] == observations;
  }

  method FurthestEnd(r: Reading, cuts: seq<Cut>, i: nat) returns (end: int)
    requires i < |cuts|
    ensures end == FurthestOf(r, cuts, i)
    ensures end > cuts[i].endMS ==> OneScene(r.observations, cuts[i], end)
    ensures LeavesOthers(cuts, r.associations, i, end)
  {
    var c := cuts[i];
    end := SceneEnd(r.observations, c);
    ghost var scene := end;
    for j := 0 to |cuts|
      invariant end == BeforeCuts(cuts[..j], i, c, scene)
    {
      assert cuts[..j + 1][..j] == cuts[..j];
      if j != i && cuts[j].source == c.source && cuts[j].startMS >= c.endMS { end := Min(end, cuts[j].startMS); }
    }
    assert cuts[..|cuts|] == cuts;
    ghost var free := end;
    for j := 0 to |r.associations|
      invariant end == BeforeAssociations(r.associations[..j], c, free)
    {
      assert r.associations[..j + 1][..j] == r.associations[..j];
      var a := r.associations[j];
      if a.source == c.source && a.fingerprint == c.fingerprint {
        if a.startMS <= c.startMS && a.endMS >= c.endMS {
          end := Min(end, a.endMS);
        } else if a.startMS >= c.endMS {
          end := Min(end, a.startMS);
        }
      }
    }
    assert r.associations[..|r.associations|] == r.associations;
    CutsAreLeft(cuts, i, c, scene);
    AssociationsAreLeft(r.associations, c, free);
  }

  lemma {:induction false} CutsAreLeft(cuts: seq<Cut>, i: nat, c: Cut, end: int)
    ensures var before := BeforeCuts(cuts, i, c, end);
            before <= end && forall j | 0 <= j < |cuts| && j != i && cuts[j].source == c.source && c.endMS <= cuts[j].startMS ::
                               before <= cuts[j].startMS
    decreases |cuts|
  {
    if cuts != [] {
      var front := cuts[..|cuts| - 1];
      CutsAreLeft(front, i, c, end);
      assert forall j | 0 <= j < |front| :: front[j] == cuts[j];
    }
  }

  lemma {:induction false} AssociationsAreLeft(associations: seq<Association>, c: Cut, end: int)
    ensures var before := BeforeAssociations(associations, c, end);
            && before <= end
            && forall a | a in associations && a.source == c.source && a.fingerprint == c.fingerprint ::
                 (a.startMS <= c.startMS && c.endMS <= a.endMS ==> before <= a.endMS)
                 && (!(a.startMS <= c.startMS && c.endMS <= a.endMS) && c.endMS <= a.startMS ==> before <= a.startMS)
    decreases |associations|
  {
    if associations != [] {
      var last := |associations| - 1;
      AssociationsAreLeft(associations[..last], c, end);
      assert associations == associations[..last] + [associations[last]];
    }
  }

  /** What an extension may make of a cut: nothing, or exactly the reading time it lacks, out of the
      same scene and no one else's footage. */
  ghost predicate Extended(r: Reading, cuts: seq<Cut>, i: nat, after: Cut)
    requires i < |cuts|
  {
    after == cuts[i]
    || (&& after == cuts[i].(endMS := after.endMS) && cuts[i].endMS < after.endMS
        && OneScene(r.observations, cuts[i], after.endMS) && LeavesOthers(cuts, r.associations, i, after.endMS)
        && NeedOf(r.texts, cuts[i].id).0 != 0
        && OutputMS(cuts[i]) + (after.endMS - cuts[i].endMS) == NeedOf(r.texts, cuts[i].id).0 + 2 * r.insetMS)
  }

  function Spent(before: seq<Cut>, after: seq<Cut>): int
    requires |before| == |after|
  {
    if before == [] then 0
    else Spent(before[..|before| - 1], after[..|after| - 1]) + after[|after| - 1].endMS - before[|before| - 1].endMS
  }

  lemma {:induction false} NothingSpent(cuts: seq<Cut>)
    ensures Spent(cuts, cuts) == 0
    decreases |cuts|
  {
    if cuts != [] { NothingSpent(cuts[..|cuts| - 1]); }
  }

  /** The reading time a cut lacks. */
  function ExtraOf(r: Reading, c: Cut): int { NeedOf(r.texts, c.id).0 + 2 * r.insetMS - OutputMS(c) }

  /** Why cut number `i` is left alone with `unused` of the target left: no text has to be read, none is
      short, or the time lacking is more than is unused or than there is around the cut. */
  predicate LeftAlone(r: Reading, cuts: seq<Cut>, i: nat, unused: int)
    requires i < |cuts|
  {
    var c := cuts[i];
    var extra := ExtraOf(r, c);
    NeedOf(r.texts, c.id).0 == 0 || extra <= 0 || extra > unused || extra > FurthestOf(r, cuts, i) - c.endMS
  }

  /** Cut number `j` had its turn: it is extended if and only if nothing spoke against it by then. */
  ghost predicate TurnTaken(r: Reading, cuts: seq<Cut>, after: seq<Cut>, j: nat, durationMS: int)
    requires j < |cuts| == |after|
  {
    && Extended(r, cuts, j, after[j])
    && (after[j] == cuts[j] <==> LeftAlone(r, cuts, j, r.targetMS - durationMS - Spent(cuts[..j], after[..j])))
  }

  /** The first `n` cuts have had their turn, one after another. */
  ghost predicate Greedy(r: Reading, cuts: seq<Cut>, after: seq<Cut>, n: nat, durationMS: int) {
    && |after| == |cuts| && n <= |cuts|
    && (forall j | 0 <= j < n :: TurnTaken(r, cuts, after, j, durationMS))
    && (forall j | n <= j < |cuts| :: after[j] == cuts[j])
  }

  /** composition_exposure.go: ExtendCompositionReadingWindows, up to the resolution it ends with. */
  method ExtendReadingWindows(r: Reading, cuts: seq<Cut>, durationMS: int) returns (extended: seq<Cut>, duration: int)
    ensures Greedy(r, cuts, extended, |cuts|, durationMS)
    ensures duration == durationMS + Spent(cuts, extended) && duration <= Max(durationMS, r.targetMS)
  {
    extended, duration := cuts, durationMS;
    if r.targetMS <= durationMS {
      NothingSpent(cuts);
      forall i | 0 <= i < |cuts| ensures Spent(cuts[..i], cuts[..i]) == 0 { NothingSpent(cuts[..i]); }
      return;
    }
    hide Extended, LeftAlone, TurnTaken, Spent;
    for i := 0 to |cuts|
      invariant Greedy(r, cuts, extended, i, durationMS) && duration == durationMS + Spent(cuts[..i], extended[..i]) <= r.targetMS
    {
      ghost var before := extended;
      OnlyEndsMove(r, cuts, before, i, durationMS);
      extended, duration := ExtendOne(r, cuts, extended, i, durationMS, duration);
      OneMoreTurn(r, cuts, before, extended, i, durationMS);
    }
    assert cuts[..|cuts|] == cuts && extended[..|cuts|] == extended;
  }

  lemma OnlyEndsMove(r: Reading, cuts: seq<Cut>, after: seq<Cut>, n: nat, durationMS: int)
    requires Greedy(r, cuts, after, n, durationMS)
    ensures forall j | 0 <= j < |cuts| :: after[j] == cuts[j].(endMS := after[j].endMS)
  {
    hide LeftAlone;
    forall j | 0 <= j < |cuts| ensures after[j] == cuts[j].(endMS := after[j].endMS) {
      if j < n { assert TurnTaken(r, cuts, after, j, durationMS); }
    }
  }

  lemma OneMoreTurn(r: Reading, cuts: seq<Cut>, before: seq<Cut>, after: seq<Cut>, i: nat, durationMS: int)
    requires Greedy(r, cuts, before, i, durationMS) && i < |cuts| && |after| == |cuts| && after == before[i := after[i]]
    requires Extended(r, cuts, i, after[i])
    requires after[i] == cuts[i] <==> LeftAlone(r, cuts, i, r.targetMS - durationMS - Spent(cuts[..i], before[..i]))
    ensures Greedy(r, cuts, after, i + 1, durationMS)
    ensures Spent(cuts[..i + 1], after[..i + 1]) == Spent(cuts[..i], before[..i]) + after[i].endMS - cuts[i].endMS
  {
    hide Extended, LeftAlone, TurnTaken, Spent;
    forall j | 0 <= j < i + 1 ensures TurnTaken(r, cuts, after, j, durationMS) {
      if j < i { assert TurnTaken(r, cuts, before, j, durationMS); }
      SameTurn(r, cuts, before, after, j, i, durationMS);
    }
    SpentOneMore(cuts, before, after, i);
  }

  /** A later turn leaves an earlier one as it was. */
  lemma SameTurn(r: Reading, cuts: seq<Cut>, before: seq<Cut>, after: seq<Cut>, j: nat, i: nat, durationMS: int)
    requires j <= i < |cuts| == |before| == |after| && after == before[i := after[i]]
    requires j < i ==> TurnTaken(r, cuts, before, j, durationMS)
    requires j == i ==> Extended(r, cuts, i, after[i])
    requires j == i ==> (after[i] == cuts[i] <==> LeftAlone(r, cuts, i, r.targetMS - durationMS - Spent(cuts[..i], before[..i])))
    ensures TurnTaken(r, cuts, after, j, durationMS)
  {
    hide Extended, LeftAlone, Spent;
    assert after[..j] == before[..j];
  }

  lemma SpentOneMore(cuts: seq<Cut>, before: seq<Cut>, after: seq<Cut>, i: nat)
    requires i < |cuts| == |before| == |after| && after == before[i := after[i]]
    ensures Spent(cuts[..i + 1], after[..i + 1]) == Spent(cuts[..i], before[..i]) + after[i].endMS - cuts[i].endMS
  {
    assert cuts[..i + 1][..i] == cuts[..i] && after[..i + 1][..i] == before[..i];
  }

  /** One turn of the loop, on cut number `i`. */
  method ExtendOne(r: Reading, ghost cuts: seq<Cut>, now: seq<Cut>, i: nat, ghost durationMS: int, duration: int)
    returns (extended: seq<Cut>, spent: int)
    requires |now| == |cuts| && i < |cuts| && duration == durationMS + Spent(cuts[..i], now[..i]) <= r.targetMS && now[i] == cuts[i]
    requires forall j | 0 <= j < |cuts| :: now[j] == cuts[j].(endMS := now[j].endMS)
    ensures |extended| == |now| && extended == now[i := extended[i]] && Extended(r, cuts, i, extended[i])
    ensures extended[i] == cuts[i] <==> LeftAlone(r, cuts, i, r.targetMS - durationMS - Spent(cuts[..i], now[..i]))
    ensures spent == duration + extended[i].endMS - cuts[i].endMS <= r.targetMS
  {
    extended, spent := now, duration;
    var c := now[i];
    var need := ReadingNeed(r.texts, c.id);
    var extra := need + 2 * r.insetMS - OutputMS(c);
    if need == 0 || extra <= 0 || extra > r.targetMS - duration { return; }
    var end := FurthestEnd(r, now, i);
    SameFurthest(r, cuts, now, i);
    if extra > end - c.endMS { return; }
    ShorterIsFine(r, now, i, end, c.endMS + extra);
    SameStarts(cuts, now, r.associations, i, c.endMS + extra);
    extended := now[i := c.(endMS := c.endMS + extra)];
    spent := duration + extra;
  }

  /** How far a cut may reach does not depend on how far others were extended. */
  lemma SameFurthest(r: Reading, cuts: seq<Cut>, now: seq<Cut>, i: nat)
    requires |cuts| == |now| && i < |cuts| && now[i] == cuts[i]
    requires forall j | 0 <= j < |cuts| :: now[j] == cuts[j].(endMS := now[j].endMS)
    ensures FurthestOf(r, now, i) == FurthestOf(r, cuts, i)
  {
    SameBeforeCuts(cuts, now, i, cuts[i], SceneEndOf(r.observations, cuts[i]));
  }

  lemma {:induction false} SameBeforeCuts(cuts: seq<Cut>, now: seq<Cut>, i: nat, c: Cut, end: int)
    requires |cuts| == |now| && forall j | 0 <= j < |cuts| :: now[j].startMS == cuts[j].startMS && now[j].source == cuts[j].source
    ensures BeforeCuts(now, i, c, end) == BeforeCuts(cuts, i, c, end)
    decreases |cuts|
  {
    if cuts != [] { SameBeforeCuts(cuts[..|cuts| - 1], now[..|now| - 1], i, c, end); }
  }

  lemma ShorterIsFine(r: Reading, cuts: seq<Cut>, i: nat, end: int, shorter: int)
    requires i < |cuts| && LeavesOthers(cuts, r.associations, i, end) && cuts[i].endMS < shorter <= end
    requires OneScene(r.observations, cuts[i], end)
    ensures LeavesOthers(cuts, r.associations, i, shorter) && OneScene(r.observations, cuts[i], shorter)
  {
    var k, j :| 0 <= k < |r.observations| && 0 <= j < |r.observations[k].segments|
      && Observes(r.observations[k], cuts[i]) && Contains(r.observations[k].segments[j], cuts[i]) && end <= r.observations[k].segments[j].endMS;
  }

  /** Only starts of other cuts are looked at, and extensions never move a start. */
  lemma SameStarts(cuts: seq<Cut>, now: seq<Cut>, associations: seq<Association>, i: nat, end: int)
    requires |cuts| == |now| && i < |cuts| && now[i] == cuts[i]
    requires forall j | 0 <= j < |cuts| :: now[j] == cuts[j].(endMS := now[j].endMS)
    requires LeavesOthers(now, associations, i, end)
    ensures LeavesOthers(cuts, associations, i, end)
  {
    forall j | 0 <= j < |cuts| && j != i && cuts[j].source == cuts[i].source && cuts[i].endMS <= cuts[j].startMS
      ensures end <= cuts[j].startMS
    {
      assert now[j].source == now[i].source && now[i].endMS <= now[j].startMS;
    }
  }

  ghost predicate Disjoint(cuts: seq<Cut>) {
    forall i, j | 0 <= i < |cuts| && 0 <= j < |cuts| && i != j && cuts[i].source == cuts[j].source ::
      cuts[i].endMS <= cuts[j].startMS || cuts[j].endMS <= cuts[i].startMS
  }

  /** Cuts of one source that shared no footage still share none. */
  lemma ExtensionKeepsDisjoint(r: Reading, cuts: seq<Cut>, after: seq<Cut>)
    requires |after| == |cuts| && Disjoint(cuts) && forall i | 0 <= i < |cuts| :: Extended(r, cuts, i, after[i])
    ensures Disjoint(after)
  {
    forall i, j | 0 <= i < |after| && 0 <= j < |after| && i != j && after[i].source == after[j].source
      ensures after[i].endMS <= after[j].startMS || after[j].endMS <= after[i].startMS
    {
      assert Extended(r, cuts, i, after[i]) && Extended(r, cuts, j, after[j]);
    }
  }

  /** A cut at 1x that was extended now shows for exactly the time its texts need. */
  lemma ExtendedCutReads(r: Reading, cuts: seq<Cut>, i: nat, after: Cut)
    requires i < |cuts| && Extended(r, cuts, i, after) && after != cuts[i]
    requires RateOf(cuts[i]) == UNIT_RATE && cuts[i].startMS < cuts[i].endMS
    ensures OutputMS(after) == NeedOf(r.texts, after.id).0 + 2 * r.insetMS
  {
    TransformedIsNearest(cuts[i].endMS - cuts[i].startMS, UNIT_RATE);
    TransformedIsNearest(after.endMS - after.startMS, UNIT_RATE);
  }

  // ---- the output timeline -----------------------------------------------------------------

  /** The sum of the lengths less the sum of the transitions. */
  function DurationOf(cuts: seq<Cut>): int {
    if cuts == [] then 0 else DurationOf(cuts[..|cuts| - 1]) - cuts[|cuts| - 1].transitionMS + OutputMS(cuts[|cuts| - 1])
  }

  /** At 1x the time spent is exactly what the output grows by. */
  lemma {:induction false} ExtensionKeepsDuration(r: Reading, cuts: seq<Cut>, after: seq<Cut>)
    requires |after| == |cuts| && forall i | 0 <= i < |cuts| :: after[i] == cuts[i].(endMS := after[i].endMS) && cuts[i].endMS <= after[i].endMS
    requires forall i | 0 <= i < |cuts| :: RateOf(cuts[i]) == UNIT_RATE && cuts[i].startMS < cuts[i].endMS
    ensures DurationOf(after) == DurationOf(cuts) + Spent(cuts, after)
    decreases |cuts|
  {
    if cuts != [] {
      var last := |cuts| - 1;
      ExtensionKeepsDuration(r, cuts[..last], after[..last]);
      TransformedIsNearest(cuts[last].endMS - cuts[last].startMS, UNIT_RATE);
      TransformedIsNearest(after[last].endMS - after[last].startMS, UNIT_RATE);
    }
  }

  datatype Basis = Whole | FromStart | FromEnd | InCut | Unknown

  datatype Role = CaptionRole | Hook | Ending | OtherRole

  /** A declared element. `cut` 0 is none; `narration` is its scope, `shaped` its narration shape. */
  datatype Element = Element(
    id: nat, basis: Basis, start: Option<int>, end: Option<int>, cut: nat, placement: Option<Span>,
    role: Role, ownerEdited: bool, narration: bool, shaped: bool,
    startMS: int, endMS: int, authoredTiming: bool)

  /** A cut as the composition bound it; `bound` is everything a resolution leaves alone. */
  datatype BoundCut = BoundCut(id: nat, source: nat, bound: nat, startMS: int, endMS: int, transitionMS: int, ratePermille: int)

  datatype Plan = Plan(cuts: seq<Cut>, durationMS: int, bound: seq<BoundCut>, elements: seq<Element>)

  datatype Limits = Limits(maxDurationMS: int, insetMS: int, cuts: int, cues: int)

  datatype Result<+T> = Ok(value: T) | Invalid | OutOfPlace(element: nat)

  predicate ValidTransition(ms: int) { ms == 0 || ms == 200 || ms == 300 }

  /** The span is the one the element declares: the whole output; the declared times as they are, or
      counted from the output's end; or in the cut, the declared times after its start, with neither
      declared everything but the insets. Nothing is clamped. */
  ghost predicate Declares(e: Element, outputMS: int, cutMS: int, offsetMS: int, insetMS: int, span: Span) {
    && 0 <= insetMS && 0 <= span.startMS < span.endMS <= outputMS
    && match e.basis
       case Whole => span.startMS == 0 && span.endMS == outputMS
       case FromStart => e.start == Some(span.startMS) && e.end == Some(span.endMS)
       case FromEnd => e.start == Some(span.startMS - outputMS) && e.end == Some(span.endMS - outputMS)
       case InCut =>
         && 0 <= offsetMS <= span.startMS && span.endMS <= offsetMS + cutMS <= outputMS
         && if e.start.None? && e.end.None?
            then span.startMS - offsetMS == insetMS == offsetMS + cutMS - span.endMS
            else e.start == Some(span.startMS - offsetMS) && e.end == Some(span.endMS - offsetMS)
       case Unknown => false
  }

  /** composition/interval.go: ResolveInterval. */
  function ResolveInterval(e: Element, outputMS: int, cutMS: int, offsetMS: int, insetMS: int): (r: Option<Span>)
    ensures r.Some? ==> 0 <= r.value.startMS < r.value.endMS <= outputMS && Declares(e, outputMS, cutMS, offsetMS, insetMS, r.value)
    ensures r.None? ==> forall span :: !Declares(e, outputMS, cutMS, offsetMS, insetMS, span)
  {
    if outputMS <= 0 || insetMS < 0 then None
    else
      var declared := if e.start.Some? && e.end.Some? then Some(Span(e.start.value, e.end.value)) else None;
      var span :=
        match e.basis
        case Whole => Some(Span(0, outputMS))
        case FromStart => declared
        case FromEnd =>
          if declared.Some? && -outputMS <= declared.value.startMS <= 0 && -outputMS <= declared.value.endMS <= 0
          then Some(Span(outputMS + declared.value.startMS, outputMS + declared.value.endMS)) else None
        case InCut =>
          var inner := if e.start.None? && e.end.None? then Some(Span(insetMS, cutMS - insetMS)) else declared;
          if cutMS > 0 && inner.Some? && 0 <= offsetMS <= outputMS && cutMS <= outputMS - offsetMS
             && 0 <= inner.value.startMS < inner.value.endMS <= cutMS
          then Some(Span(inner.value.startMS + offsetMS, inner.value.endMS + offsetMS)) else None
        case Unknown => None;
      if span.Some? && 0 <= span.value.startMS < span.value.endMS <= outputMS then span else None
  }

  /** Where each cut starts in the output, from the lengths and transitions before it. */
  function StartsOf(cuts: seq<Cut>): map<nat, int> {
    if cuts == [] then map[]
    else
      var last := cuts[|cuts| - 1];
      StartsOf(cuts[..|cuts| - 1])[last.id := DurationOf(cuts[..|cuts| - 1]) - last.transitionMS]
  }

  function LengthsOf(cuts: seq<Cut>): map<nat, int> {
    if cuts == [] then map[]
    else LengthsOf(cuts[..|cuts| - 1])[cuts[|cuts| - 1].id := OutputMS(cuts[|cuts| - 1])]
  }

  function Bindings(bound: seq<BoundCut>): map<nat, BoundCut> {
    if bound == [] then map[] else Bindings(bound[..|bound| - 1])[bound[|bound| - 1].id := bound[|bound| - 1]]
  }

  /** Cut number `k` fits after the cuts before it. */
  predicate Fits(cuts: seq<Cut>, bound: map<nat, BoundCut>, maxMS: int, k: nat)
    requires k < |cuts|
  {
    var c := cuts[k];
    var start := DurationOf(cuts[..k]) - c.transitionMS;
    && c.id in bound && bound[c.id].source == c.source && (forall j | 0 <= j < k :: cuts[j].id != c.id)
    && 0 <= c.startMS < c.endMS && OutputMS(c) <= maxMS && ValidTransition(c.transitionMS)
    && (k == 0 ==> c.transitionMS == 0) && c.transitionMS < OutputMS(c)
    && 0 <= start && OutputMS(c) <= maxMS - start
  }

  predicate Distinct(bound: seq<BoundCut>) { forall i, j | 0 <= i < j < |bound| :: bound[i].id != bound[j].id }

  function Bound(b: BoundCut, c: Cut): BoundCut {
    b.(startMS := c.startMS, endMS := c.endMS, transitionMS := c.transitionMS, ratePermille := RateOf(c))
  }

  function At(m: map<nat, int>, id: nat): int { if id in m then m[id] else 0 }

  /** One element on the new timeline: dropped with its cut, or placed, or out of place. */
  function ResolveElement(e: Element, duration: int, starts: map<nat, int>, lengths: map<nat, int>, insetMS: int): Option<Option<Element>> {
    if e.basis.InCut? && e.cut != 0 && e.cut !in starts then Some(None)
    else
      var span := ResolveInterval(e, duration, At(lengths, e.cut), At(starts, e.cut), insetMS);
      var authored := !e.basis.InCut? || e.start.Some?;
      if span.None? then None
      else if e.placement.None? || authored then
        Some(Some(e.(startMS := span.value.startMS, endMS := span.value.endMS, authoredTiming := authored)))
      else
        var placed := e.(start := Some(e.placement.value.startMS), end := Some(e.placement.value.endMS));
        var chosen := ResolveInterval(placed, duration, At(lengths, e.cut), At(starts, e.cut), insetMS);
        if chosen.None? then None
        else Some(Some(e.(startMS := chosen.value.startMS, endMS := chosen.value.endMS, authoredTiming := authored)))
  }

  function ResolveElements(elements: seq<Element>, duration: int, starts: map<nat, int>, lengths: map<nat, int>, insetMS: int): Result<seq<Element>> {
    if elements == [] then Ok([])
    else
      match ResolveElements(elements[..|elements| - 1], duration, starts, lengths, insetMS)
      case Ok(front) =>
        (var last := elements[|elements| - 1];
         match ResolveElement(last, duration, starts, lengths, insetMS)
         case None => OutOfPlace(last.id)
         case Some(None) => Ok(front)
         case Some(Some(e)) => Ok(front + [e]))
      case failed => failed
  }

  // ---- narration ---------------------------------------------------------------------------

  predicate Shaped(e: Element) { e.shaped && e.cut == 0 && e.basis.FromStart? && e.start.Some? && e.end.Some? }

  /** The declared narration windows lie inside the output, and no two of them overlap. */
  ghost predicate NarrationFits(elements: seq<Element>, duration: int) {
    && (forall k | 0 <= k < |elements| && elements[k].narration ::
          Shaped(elements[k]) && 0 <= elements[k].start.value < elements[k].end.value <= duration)
    && (forall j, k | 0 <= j < k < |elements| && elements[j].narration && elements[k].narration ::
          Apart(elements[j].start.value, elements[j].end.value, elements[k].start.value, elements[k].end.value))
  }

  predicate Apart(a: int, b: int, c: int, d: int) { b <= c || d <= a }

  /** The declared window of element number `index`. */
  datatype Window = Window(index: nat, id: nat, start: int, end: int)

  ghost predicate Sorted(windows: seq<Window>) {
    forall i, j | 0 <= i < j < |windows| :: windows[i].start <= windows[j].start && windows[i].index != windows[j].index
  }

  /** A stable insertion: after every window that starts no later. */
  function Insert(windows: seq<Window>, w: Window): (out: seq<Window>)
    requires Sorted(windows) && forall v | v in windows :: v.index != w.index
    ensures Sorted(out) && |out| == |windows| + 1 && forall v :: v in out <==> v == w || v in windows
  {
    if windows == [] then [w]
    else
      var last := windows[|windows| - 1];
      assert windows == windows[..|windows| - 1] + [last];
      if last.start <= w.start then windows + [w]
      else
        var inner := Insert(windows[..|windows| - 1], w);
        assert forall i | 0 <= i < |inner| :: inner[i] in inner;
        inner + [last]
  }

  ghost predicate AllApart(windows: seq<Window>) {
    forall i, j | 0 <= i < j < |windows| :: Apart(windows[i].start, windows[i].end, windows[j].start, windows[j].end)
  }

  ghost predicate InTurn(windows: seq<Window>) {
    forall i, j | 0 <= i < |windows| - 1 && j == i + 1 :: windows[i].end <= windows[j].start
  }

  /** On sorted windows that are not empty, looking at neighbours is enough. */
  lemma {:induction false} TurnsAreApart(windows: seq<Window>, i: nat, j: nat)
    requires Sorted(windows) && InTurn(windows) && i < j < |windows| && forall w | w in windows :: w.start < w.end
    ensures windows[i].end <= windows[j].start
    decreases j - i
  {
    if i + 1 < j {
      TurnsAreApart(windows, i, j - 1);
      assert windows[j - 1] in windows;
    }
  }

  lemma InTurnIsApart(windows: seq<Window>, i: nat, j: nat)
    requires Sorted(windows) && InTurn(windows) && i < j < |windows| && forall w | w in windows :: w.start < w.end
    ensures Apart(windows[i].start, windows[i].end, windows[j].start, windows[j].end)
  {
    TurnsAreApart(windows, i, j);
  }

  lemma OutOfTurnOverlaps(windows: seq<Window>, i: nat)
    requires Sorted(windows) && 1 <= i < |windows| && windows[i].start < windows[i - 1].end
    requires forall w | w in windows :: w.start < w.end
    ensures !Apart(windows[i - 1].start, windows[i - 1].end, windows[i].start, windows[i].end)
  {
    assert windows[i] in windows && windows[i - 1] in windows;
  }

  lemma NeighboursAreEnough(windows: seq<Window>)
    requires Sorted(windows) && forall w | w in windows :: w.start < w.end
    ensures AllApart(windows) <==> InTurn(windows)
  {
    if InTurn(windows) {
      hide Sorted, InTurn, Apart;
      forall i, j | 0 <= i < j < |windows| ensures Apart(windows[i].start, windows[i].end, windows[j].start, windows[j].end) {
        InTurnIsApart(windows, i, j);
      }
    } else {
      var i, j :| 0 <= i < |windows| - 1 && j == i + 1 && windows[j].start < windows[i].end;
      OutOfTurnOverlaps(windows, j);
      hide Sorted, InTurn, Apart;
    }
  }

  /** `windows` are exactly those of the narration among the first `n` elements. */
  ghost predicate WindowsOf(windows: seq<Window>, elements: seq<Element>, n: nat)
    requires n <= |elements|
  {
    && (forall k | 0 <= k < n && elements[k].narration :: elements[k].start.Some? && elements[k].end.Some?)
    && forall w :: w in windows <==>
         w.index < n && elements[w.index].narration
         && w == Window(w.index, elements[w.index].id, elements[w.index].start.value, elements[w.index].end.value)
  }

  lemma WindowsApart(windows: seq<Window>, elements: seq<Element>)
    requires Sorted(windows) && WindowsOf(windows, elements, |elements|)
    ensures AllApart(windows) <==>
              forall j, k | 0 <= j < k < |elements| && elements[j].narration && elements[k].narration ::
                Apart(elements[j].start.value, elements[j].end.value, elements[k].start.value, elements[k].end.value)
  {
    if AllApart(windows) {
      forall j, k | 0 <= j < k < |elements| && elements[j].narration && elements[k].narration
        ensures Apart(elements[j].start.value, elements[j].end.value, elements[k].start.value, elements[k].end.value)
      {
        var v, w := Window(j, elements[j].id, elements[j].start.value, elements[j].end.value),
                    Window(k, elements[k].id, elements[k].start.value, elements[k].end.value);
        assert v in windows && w in windows;
        var x, y :| 0 <= x < |windows| && 0 <= y < |windows| && windows[x] == v && windows[y] == w;
        assert if x < y then Apart(v.start, v.end, w.start, w.end) else Apart(w.start, w.end, v.start, v.end);
      }
    } else {
      var x, y :| 0 <= x < y < |windows| && !Apart(windows[x].start, windows[x].end, windows[y].start, windows[y].end);
      assert windows[x] in windows && windows[y] in windows;
    }
  }

  /** The first loop of ValidateNarrationIntervals, with the sort after it. */
  method NarrationWindows(elements: seq<Element>, duration: int) returns (r: Result<seq<Window>>)
    ensures r.Ok? <==> forall k | 0 <= k < |elements| && elements[k].narration ::
                         Shaped(elements[k]) && 0 <= elements[k].start.value < elements[k].end.value <= duration
    ensures r.Ok? ==> Sorted(r.value) && WindowsOf(r.value, elements, |elements|) && forall w | w in r.value :: w.start < w.end
  {
    hide Insert, Sorted;
    var windows: seq<Window> := [];
    assert Sorted(windows) by { NoneSorted(); }
    for k := 0 to |elements|
      invariant Sorted(windows) && WindowsOf(windows, elements, k) && forall w | w in windows :: w.start < w.end
      invariant forall j | 0 <= j < k && elements[j].narration ::
                  Shaped(elements[j]) && 0 <= elements[j].start.value < elements[j].end.value <= duration
    {
      var e := elements[k];
      if !e.narration { continue; }
      if !Shaped(e) { return Invalid; }
      if e.start.value < 0 || e.end.value <= e.start.value || e.end.value > duration { return OutOfPlace(e.id); }
      windows := Insert(windows, Window(k, e.id, e.start.value, e.end.value));
    }
    return Ok(windows);
  }

  lemma NoneSorted()
    ensures Sorted([])
  {}

  /** portable_plan.go: ValidateNarrationIntervals. */
  method ValidateNarrationIntervals(elements: seq<Element>, duration: int) returns (r: Result<()>)
    ensures r.Ok? <==> NarrationFits(elements, duration)
  {
    hide Sorted, WindowsOf, AllApart;
    var collected := NarrationWindows(elements, duration);
    if collected.Invalid? { return Invalid; }
    if collected.OutOfPlace? { return OutOfPlace(collected.element); }
    var windows := collected.value;
    NeighboursAreEnough(windows);
    WindowsApart(windows, elements);
    var i := 1;
    while i < |windows|
      invariant 1 <= i && forall j | 1 <= j < i && j < |windows| :: windows[j - 1].end <= windows[j].start
    {
      if windows[i].start < windows[i - 1].end { return OutOfPlace(windows[i].id); }
      i := i + 1;
    }
    return Ok(());
  }

  // ---- regions -----------------------------------------------------------------------------

  /** caption_regions.go: CaptionBodyWindow. */
  function BodyStart(elements: seq<Element>): int {
    if elements == [] then 0
    else
      var last := elements[|elements| - 1];
      if last.role.Hook? then Max(BodyStart(elements[..|elements| - 1]), last.endMS) else BodyStart(elements[..|elements| - 1])
  }

  function BodyEnd(elements: seq<Element>, duration: int): int {
    if elements == [] then duration
    else
      var last := elements[|elements| - 1];
      if last.role.Ending? then Min(BodyEnd(elements[..|elements| - 1], duration), last.startMS)
      else BodyEnd(elements[..|elements| - 1], duration)
  }

  /** ValidateOwnerCaptionRegions: no caption the owner set reaches into a region. */
  predicate OwnerCaptionsFit(elements: seq<Element>, duration: int) {
    forall k | 0 <= k < |elements| && elements[k].role.CaptionRole? && elements[k].ownerEdited ::
      BodyStart(elements) <= elements[k].startMS && elements[k].endMS <= BodyEnd(elements, duration)
  }

  // ---- ResolvePortableIntervals ------------------------------------------------------------

  ghost predicate CutsFit(cuts: seq<Cut>, bound: map<nat, BoundCut>, maxMS: int) {
    (forall k | 0 <= k < |cuts| :: cuts[k].id in bound) && forall k | 0 <= k < |cuts| :: Fits(cuts, bound, maxMS, k)
  }

  ghost predicate AllFit(plan: Plan, l: Limits) {
    Distinct(plan.bound) && CutsFit(plan.cuts, Bindings(plan.bound), l.maxDurationMS)
  }

  function BoundCuts(cuts: seq<Cut>, bound: map<nat, BoundCut>): (out: seq<BoundCut>)
    requires forall k | 0 <= k < |cuts| :: cuts[k].id in bound
    ensures |out| == |cuts| && forall k | 0 <= k < |cuts| :: out[k] == Bound(bound[cuts[k].id], cuts[k])
  {
    seq(|cuts|, k requires 0 <= k < |cuts| => Bound(bound[cuts[k].id], cuts[k]))
  }

  /** The plan on its edited timeline, or none. */
  ghost function Resolve(plan: Plan, l: Limits): Option<Plan> {
    var duration := DurationOf(plan.cuts);
    if !AllFit(plan, l) || duration <= 0 || |plan.cuts| > l.cuts || |plan.elements| > l.cues
       || !NarrationFits(plan.elements, duration) then None
    else
      match ResolveElements(plan.elements, duration, StartsOf(plan.cuts), LengthsOf(plan.cuts), l.insetMS)
      case Ok(elements) =>
        if OwnerCaptionsFit(elements, duration)
        then Some(Plan(plan.cuts, duration, BoundCuts(plan.cuts, Bindings(plan.bound)), elements)) else None
      case _ => None
  }

  lemma {:induction false} BindingsHold(bound: seq<BoundCut>)
    ensures forall id | id in Bindings(bound) :: Bindings(bound)[id].id == id && Bindings(bound)[id] in bound
    ensures forall b | b in bound :: b.id in Bindings(bound)
    ensures Distinct(bound) ==> forall b | b in bound :: Bindings(bound)[b.id] == b
    decreases |bound|
  {
    if bound != [] {
      var last := bound[|bound| - 1];
      BindingsHold(bound[..|bound| - 1]);
      assert bound == bound[..|bound| - 1] + [last];
    }
  }

  lemma RepeatedId(bound: seq<BoundCut>, k: nat, other: BoundCut)
    requires k < |bound| && other in bound[..k] && other.id == bound[k].id
    ensures !Distinct(bound)
  {
    var j :| 0 <= j < k && bound[..k][j] == other;
    assert bound[j].id == bound[k].id;
  }

  lemma NewId(front: seq<BoundCut>, b: BoundCut)
    requires Distinct(front) && b.id !in Bindings(front)
    ensures Distinct(front + [b]) && Bindings(front + [b]) == Bindings(front)[b.id := b]
  {
    BindingsHold(front);
    DistinctOneMore(front, b);
    hide Distinct;
    assert (front + [b])[..|front|] == front;
  }

  lemma DistinctOneMore(front: seq<BoundCut>, b: BoundCut)
    requires Distinct(front) && forall c | c in front :: c.id != b.id
    ensures Distinct(front + [b])
  {
    forall i | 0 <= i < |front| ensures front[i].id != b.id { assert front[i] in front; }
  }

  method CollectBindings(bound: seq<BoundCut>) returns (r: Option<map<nat, BoundCut>>)
    ensures r.Some? <==> Distinct(bound)
    ensures r.Some? ==> r.value == Bindings(bound)
  {
    var cuts := map[];
    for k := 0 to |bound|
      invariant cuts == Bindings(bound[..k]) && Distinct(bound[..k])
    {
      BindingsHold(bound[..k]);
      assert bound[..k + 1] == bound[..k] + [bound[k]];
      if bound[k].id in cuts {
        RepeatedId(bound, k, cuts[bound[k].id]);
        return None;
      }
      NewId(bound[..k], bound[k]);
      cuts := cuts[bound[k].id := bound[k]];
    }
    assert bound[..|bound|] == bound;
    return Some(cuts);
  }

  lemma NoCuts(cuts: seq<Cut>)
    ensures StartsOf(cuts[..0]) == map[] && LengthsOf(cuts[..0]) == map[] && DurationOf(cuts[..0]) == 0
  {}

  lemma OneMoreCut(cuts: seq<Cut>, k: nat)
    requires k < |cuts|
    ensures StartsOf(cuts[..k + 1]) == StartsOf(cuts[..k])[cuts[k].id := DurationOf(cuts[..k]) - cuts[k].transitionMS]
    ensures LengthsOf(cuts[..k + 1]) == LengthsOf(cuts[..k])[cuts[k].id := OutputMS(cuts[k])]
    ensures DurationOf(cuts[..k + 1]) == DurationOf(cuts[..k]) - cuts[k].transitionMS + OutputMS(cuts[k])
  {
    assert cuts[..k + 1][..k] == cuts[..k];
  }

  /** The cut loop: starts, lengths and the running duration. */
  method PlaceCuts(cuts: seq<Cut>, bound: map<nat, BoundCut>, maxMS: int)
    returns (ok: bool, starts: map<nat, int>, lengths: map<nat, int>, duration: int, placed: seq<BoundCut>)
    ensures ok <==> CutsFit(cuts, bound, maxMS)
    ensures ok ==> starts == StartsOf(cuts) && lengths == LengthsOf(cuts) && duration == DurationOf(cuts) && placed == BoundCuts(cuts, bound)
  {
    NoCuts(cuts);
    hide StartsOf, LengthsOf, DurationOf, OutputMS, Bound;
    starts, lengths, duration, placed := map[], map[], 0, [];
    var seen: set<nat> := {};
    for k := 0 to |cuts|
      invariant starts == StartsOf(cuts[..k]) && lengths == LengthsOf(cuts[..k]) && duration == DurationOf(cuts[..k])
      invariant seen == set j | 0 <= j < k :: cuts[j].id
      invariant forall j | 0 <= j < k :: cuts[j].id in bound
      invariant forall j | 0 <= j < k :: Fits(cuts, bound, maxMS, j)
      invariant |placed| == k && forall j | 0 <= j < k :: placed[j] == Bound(bound[cuts[j].id], cuts[j])
    {
      var cut := cuts[k];
      OneMoreCut(cuts, k);
      var length := OutputMS(cut);
      if cut.id !in bound || cut.id in seen || bound[cut.id].source != cut.source || cut.startMS < 0 || cut.endMS <= cut.startMS
         || length > maxMS || !ValidTransition(cut.transitionMS) || (k == 0 && cut.transitionMS != 0) || cut.transitionMS >= length {
        assert !Fits(cuts, bound, maxMS, k);
        return false, starts, lengths, duration, placed;
      }
      seen := seen + {cut.id};
      var start := duration - cut.transitionMS;
      if start < 0 || length > maxMS - start {
        assert !Fits(cuts, bound, maxMS, k);
        return false, starts, lengths, duration, placed;
      }
      starts, lengths, duration := starts[cut.id := start], lengths[cut.id := length], start + length;
      placed := placed + [Bound(bound[cut.id], cut)];
    }
    assert cuts[..|cuts|] == cuts;
    ok := true;
  }

  method PlaceElements(elements: seq<Element>, duration: int, starts: map<nat, int>, lengths: map<nat, int>, insetMS: int)
    returns (r: Result<seq<Element>>)
    ensures r == ResolveElements(elements, duration, starts, lengths, insetMS)
  {
    var out: seq<Element> := [];
    for k := 0 to |elements|
      invariant Ok(out) == ResolveElements(elements[..k], duration, starts, lengths, insetMS)
    {
      var text := elements[k];
      assert elements[..k + 1][..k] == elements[..k];
      var resolved := ResolveElement(text, duration, starts, lengths, insetMS);
      if resolved.None? {
        FailureStays(elements, k + 1, duration, starts, lengths, insetMS);
        return OutOfPlace(text.id);
      }
      if resolved.value.Some? { out := out + [resolved.value.value]; }
    }
    assert elements[..|elements|] == elements;
    return Ok(out);
  }

  lemma {:induction false} FailureStays(elements: seq<Element>, k: nat, duration: int, starts: map<nat, int>, lengths: map<nat, int>, insetMS: int)
    requires k <= |elements| && !ResolveElements(elements[..k], duration, starts, lengths, insetMS).Ok?
    ensures ResolveElements(elements, duration, starts, lengths, insetMS) == ResolveElements(elements[..k], duration, starts, lengths, insetMS)
    decreases |elements|
  {
    if k < |elements| {
      assert elements[..|elements| - 1][..k] == elements[..k];
      FailureStays(elements[..|elements| - 1], k, duration, starts, lengths, insetMS);
    } else {
      assert elements[..k] == elements;
    }
  }

  method ValidateOwnerCaptionRegions(elements: seq<Element>, duration: int) returns (ok: bool)
    ensures ok <==> OwnerCaptionsFit(elements, duration)
  {
    var start, end := 0, duration;
    for k := 0 to |elements|
      invariant start == BodyStart(elements[..k]) && end == BodyEnd(elements[..k], duration)
    {
      assert elements[..k + 1][..k] == elements[..k];
      if elements[k].role.Hook? { start := Max(start, elements[k].endMS); }
      if elements[k].role.Ending? { end := Min(end, elements[k].startMS); }
    }
    assert elements[..|elements|] == elements;
    for k := 0 to |elements|
      invariant forall j | 0 <= j < k && elements[j].role.CaptionRole? && elements[j].ownerEdited ::
                  start <= elements[j].startMS && elements[j].endMS <= end
    {
      var text := elements[k];
      if !text.role.CaptionRole? || !text.ownerEdited { continue; }
      if text.startMS < start || text.endMS > end { return false; }
    }
    return true;
  }

  /** composition_render.go: ResolvePortableIntervals. */
  method ResolvePortableIntervals(plan: Plan, l: Limits) returns (r: Option<Plan>)
    ensures r == Resolve(plan, l)
  {
    hide Fits, NarrationFits, OwnerCaptionsFit, ResolveElements, StartsOf, LengthsOf, DurationOf, Bindings, Distinct;
    var bound := CollectBindings(plan.bound);
    if bound.None? { return None; }
    var ok, starts, lengths, duration, placed := PlaceCuts(plan.cuts, bound.value, l.maxDurationMS);
    if !ok || duration <= 0 || |plan.cuts| > l.cuts || |plan.elements| > l.cues { return None; }
    var narration := ValidateNarrationIntervals(plan.elements, duration);
    if !narration.Ok? { return None; }
    var elements := PlaceElements(plan.elements, duration, starts, lengths, l.insetMS);
    if !elements.Ok? { return None; }
    var fits := ValidateOwnerCaptionRegions(elements.value, duration);
    if !fits { return None; }
    return Some(Plan(plan.cuts, duration, placed, elements.value));
  }

  // ---- resolving again ---------------------------------------------------------------------

  ghost predicate SameDeclaration(a: Element, b: Element) {
    a == b.(startMS := a.startMS, endMS := a.endMS, authoredTiming := a.authoredTiming)
  }

  ghost predicate DeclaredIn(e: Element, elements: seq<Element>) {
    exists i | 0 <= i < |elements| :: SameDeclaration(e, elements[i])
  }

  /** A resolved element resolves to itself. */
  lemma ElementStays(e: Element, duration: int, starts: map<nat, int>, lengths: map<nat, int>, insetMS: int)
    ensures var r := ResolveElement(e, duration, starts, lengths, insetMS);
            r.Some? && r.value.Some? ==>
              && SameDeclaration(r.value.value, e)
              && ResolveElement(r.value.value, duration, starts, lengths, insetMS) == r
  {
    hide ResolveInterval;
    var r := ResolveElement(e, duration, starts, lengths, insetMS);
    if r.Some? && r.value.Some? {
      var f := r.value.value;
      IntervalIgnoresTimes(e, f, duration, At(lengths, e.cut), At(starts, e.cut), insetMS);
      if e.placement.Some? {
        var start, end := Some(e.placement.value.startMS), Some(e.placement.value.endMS);
        IntervalIgnoresTimes(e.(start := start, end := end), f.(start := start, end := end), duration,
                             At(lengths, e.cut), At(starts, e.cut), insetMS);
      }
    }
  }

  lemma IntervalIgnoresTimes(e: Element, f: Element, outputMS: int, cutMS: int, offsetMS: int, insetMS: int)
    requires e.basis == f.basis && e.start == f.start && e.end == f.end
    ensures ResolveInterval(f, outputMS, cutMS, offsetMS, insetMS) == ResolveInterval(e, outputMS, cutMS, offsetMS, insetMS)
  {}

  lemma {:induction false} ElementsStay(elements: seq<Element>, duration: int, starts: map<nat, int>, lengths: map<nat, int>, insetMS: int)
    requires ResolveElements(elements, duration, starts, lengths, insetMS).Ok?
    ensures var out := ResolveElements(elements, duration, starts, lengths, insetMS).value;
            && ResolveElements(out, duration, starts, lengths, insetMS) == Ok(out) && |out| <= |elements|
            && forall j | 0 <= j < |out| :: DeclaredIn(out[j], elements)
    decreases |elements|
  {
    hide ResolveElement, SameDeclaration;
    if elements != [] {
      var last := |elements| - 1;
      ElementsStay(elements[..last], duration, starts, lengths, insetMS);
      ElementStays(elements[last], duration, starts, lengths, insetMS);
      var front := ResolveElements(elements[..last], duration, starts, lengths, insetMS).value;
      var out := ResolveElements(elements, duration, starts, lengths, insetMS).value;
      forall j | 0 <= j < |front| ensures DeclaredIn(front[j], elements) {
        assert DeclaredIn(front[j], elements[..last]);
        var i :| 0 <= i < last && SameDeclaration(front[j], elements[..last][i]);
        assert elements[i] == elements[..last][i];
      }
      if out != front { assert out[..|out| - 1] == front && SameDeclaration(out[|out| - 1], elements[last]); }
    }
  }

  lemma {:induction false} NarrationStays(elements: seq<Element>, duration: int, starts: map<nat, int>, lengths: map<nat, int>, insetMS: int)
    requires ResolveElements(elements, duration, starts, lengths, insetMS).Ok? && NarrationFits(elements, duration)
    ensures NarrationFits(ResolveElements(elements, duration, starts, lengths, insetMS).value, duration)
    decreases |elements|
  {
    hide ResolveElement;
    if elements != [] {
      var last := |elements| - 1;
      assert NarrationFits(elements[..last], duration) by { FrontFits(elements, duration); }
      NarrationStays(elements[..last], duration, starts, lengths, insetMS);
      ElementsStay(elements[..last], duration, starts, lengths, insetMS);
      ElementStays(elements[last], duration, starts, lengths, insetMS);
      var front := ResolveElements(elements[..last], duration, starts, lengths, insetMS).value;
      var out := ResolveElements(elements, duration, starts, lengths, insetMS).value;
      if out != front {
        OneMoreNarration(elements, front, out[|out| - 1], duration);
        assert out == front + [out[|out| - 1]];
      }
    }
  }

  lemma FrontFits(elements: seq<Element>, duration: int)
    requires NarrationFits(elements, duration) && elements != []
    ensures NarrationFits(elements[..|elements| - 1], duration)
  {}

  lemma OneMoreNarration(elements: seq<Element>, front: seq<Element>, e: Element, duration: int)
    requires elements != [] && NarrationFits(elements, duration) && NarrationFits(front, duration)
    requires SameDeclaration(e, elements[|elements| - 1])
    requires forall j | 0 <= j < |front| :: DeclaredIn(front[j], elements[..|elements| - 1])
    ensures NarrationFits(front + [e], duration)
  {
    var last := |elements| - 1;
    forall j | 0 <= j < |front| && front[j].narration && e.narration
      ensures Apart(front[j].start.value, front[j].end.value, e.start.value, e.end.value)
    {
      assert DeclaredIn(front[j], elements[..last]);
      var i :| 0 <= i < last && SameDeclaration(front[j], elements[..last][i]);
      assert elements[i].narration && elements[last].narration;
    }
  }

  lemma BoundCutsStay(cuts: seq<Cut>, bound: seq<BoundCut>, maxMS: int)
    requires Distinct(bound) && CutsFit(cuts, Bindings(bound), maxMS)
    ensures var again := BoundCuts(cuts, Bindings(bound));
            && Distinct(again) && CutsFit(cuts, Bindings(again), maxMS)
            && BoundCuts(cuts, Bindings(again)) == again
  {
    var again := BoundCuts(cuts, Bindings(bound));
    BindingsHold(bound);
    BindingsHold(again);
    hide DurationOf, OutputMS, Bindings;
    forall k | 0 <= k < |cuts| ensures again[k].id == cuts[k].id && Fits(cuts, Bindings(bound), maxMS, k) {}
    forall i, j | 0 <= i < j < |again| ensures again[i].id != again[j].id { assert Fits(cuts, Bindings(bound), maxMS, j); }
    forall k | 0 <= k < |cuts| ensures cuts[k].id in Bindings(again) && Bindings(again)[cuts[k].id] == again[k] { assert again[k] in again; }
    forall k | 0 <= k < |cuts| ensures Fits(cuts, Bindings(again), maxMS, k) { assert Fits(cuts, Bindings(bound), maxMS, k); }
  }

  /** Resolving a resolved plan changes nothing. */
  lemma ResolvedOnceIsResolved(plan: Plan, l: Limits)
    requires Resolve(plan, l).Some?
    ensures Resolve(Resolve(plan, l).value, l) == Resolve(plan, l)
  {
    hide Fits, NarrationFits, OwnerCaptionsFit, ResolveElements, StartsOf, LengthsOf, DurationOf, Bindings, Distinct, CutsFit;
    var duration := DurationOf(plan.cuts);
    BoundCutsStay(plan.cuts, plan.bound, l.maxDurationMS);
    ElementsStay(plan.elements, duration, StartsOf(plan.cuts), LengthsOf(plan.cuts), l.insetMS);
    NarrationStays(plan.elements, duration, StartsOf(plan.cuts), LengthsOf(plan.cuts), l.insetMS);
  }

  // ---- what a resolved timeline looks like -------------------------------------------------

  function Lengths(cuts: seq<Cut>): int { if cuts == [] then 0 else Lengths(cuts[..|cuts| - 1]) + OutputMS(cuts[|cuts| - 1]) }

  function Transitions(cuts: seq<Cut>): int { if cuts == [] then 0 else Transitions(cuts[..|cuts| - 1]) + cuts[|cuts| - 1].transitionMS }

  lemma {:induction false} DurationIsTheSum(cuts: seq<Cut>)
    ensures DurationOf(cuts) == Lengths(cuts) - Transitions(cuts)
    decreases |cuts|
  {
    if cuts != [] { DurationIsTheSum(cuts[..|cuts| - 1]); }
  }

  ghost predicate DistinctCuts(cuts: seq<Cut>) { forall i, j | 0 <= i < j < |cuts| :: cuts[i].id != cuts[j].id }

  lemma {:induction false} StartOfCut(cuts: seq<Cut>, n: nat, k: nat)
    requires k < n <= |cuts| && DistinctCuts(cuts)
    ensures cuts[k].id in StartsOf(cuts[..n]) && StartsOf(cuts[..n])[cuts[k].id] == DurationOf(cuts[..k]) - cuts[k].transitionMS
    decreases n
  {
    hide StartsOf, LengthsOf, DurationOf, OutputMS;
    OneMoreCut(cuts, n - 1);
    if k < n - 1 { StartOfCut(cuts, n - 1, k); }
  }

  lemma FittingCutsAreDistinct(cuts: seq<Cut>, bound: map<nat, BoundCut>, maxMS: int)
    requires CutsFit(cuts, bound, maxMS)
    ensures DistinctCuts(cuts)
  {
    forall i, j | 0 <= i < j < |cuts| ensures cuts[i].id != cuts[j].id { assert Fits(cuts, bound, maxMS, j); }
  }

  /** A resolved plan lasts the sum of its cuts less the sum of its transitions; each cut begins where
      the one before it ends, less its own transition, and every one ends inside the output. */
  lemma ResolvedTimeline(plan: Plan, l: Limits, k: nat)
    requires Resolve(plan, l).Some? && k < |plan.cuts|
    ensures var r, starts := Resolve(plan, l).value, StartsOf(plan.cuts);
            && r.durationMS == Lengths(plan.cuts) - Transitions(plan.cuts)
            && plan.cuts[k].id in starts
            && (k == 0 ==> starts[plan.cuts[k].id] == 0)
            && (k > 0 ==> plan.cuts[k - 1].id in starts
                          && starts[plan.cuts[k].id] == starts[plan.cuts[k - 1].id] + OutputMS(plan.cuts[k - 1]) - plan.cuts[k].transitionMS)
            && 0 <= starts[plan.cuts[k].id] && starts[plan.cuts[k].id] + OutputMS(plan.cuts[k]) <= l.maxDurationMS
  {
    hide StartsOf, LengthsOf, DurationOf, OutputMS, ResolveElements, NarrationFits, OwnerCaptionsFit, Distinct, Bindings, BoundCuts;
    var cuts := plan.cuts;
    DurationIsTheSum(cuts);
    FittingCutsAreDistinct(cuts, Bindings(plan.bound), l.maxDurationMS);
    assert Fits(cuts, Bindings(plan.bound), l.maxDurationMS, k) && cuts[..|cuts|] == cuts;
    StartOfCut(cuts, |cuts|, k);
    NoCuts(cuts);
    if k > 0 {
      StartOfCut(cuts, |cuts|, k - 1);
      OneMoreCut(cuts, k - 1);
    }
  }

  /** An extension of a resolved plan at 1x resolves to exactly the duration it was extended to. */
  lemma ExtendedPlanLasts(r: Reading, cuts: seq<Cut>, after: seq<Cut>, durationMS: int)
    requires |after| == |cuts| && durationMS == DurationOf(cuts) && forall i | 0 <= i < |cuts| :: Extended(r, cuts, i, after[i])
    requires forall i | 0 <= i < |cuts| :: RateOf(cuts[i]) == UNIT_RATE && cuts[i].startMS < cuts[i].endMS
    ensures DurationOf(after) == durationMS + Spent(cuts, after)
  {
    hide OneScene, LeavesOthers, NeedOf;
    forall i | 0 <= i < |cuts| ensures after[i] == cuts[i].(endMS := after[i].endMS) && cuts[i].endMS <= after[i].endMS {
      assert Extended(r, cuts, i, after[i]);
    }
    ExtensionKeepsDuration(r, cuts, after);
  }
}
