/** Observed footage: the chunk grid of a source, the segments that tile it, and what of it still has
    to be prepared (backend/internal/clip: analysis.go, analysis_preparation.go). */
module Observations {
  import opened Basics
  import CaptionSpace
  import CaptionWords

  datatype Certainty = Certain | Uncertain | Unknown | NoCertainty | OtherCertainty

  datatype Usability = Usable | Unusable | NoUsability | OtherUsability

  /** A text by its runes; `valid` is whether its bytes are well-formed UTF-8. */
  datatype Text = Text(runes: string, valid: bool)

  datatype Segment = Segment(
    startMS: int, endMS: int, certainty: Certainty, usability: Usability,
    focal: CaptionSpace.Point, subject: CaptionSpace.Region, captionSafe: seq<CaptionSpace.Region>,
    event: Text, speech: Text, quality: Text, action: Text, motion: Text, subjects: seq<Text>)

  datatype Source = Source(id: nat, fingerprint: nat, named: bool, durationMS: int, width: int, height: int)

  datatype Limits = Limits(chunkMS: int, maxSources: int, maxSourceDurationMS: int, maxSegments: int,
                           maxTextRunes: int, maxSubjects: int)

  /** The place of one chunk in the grid. */
  datatype Cell = Cell(source: nat, fingerprint: nat, index: int, offsetMS: int, durationMS: int)

  datatype Chunk = Chunk(cell: Cell, segments: seq<Segment>)

  datatype Analysis = Analysis(source: Source, segments: seq<Segment>)

  // ---- segments ----------------------------------------------------------------------------

  /** Each segment starts where the last ended, from `start` to `end`. */
  ghost predicate Tiles(segments: seq<Segment>, start: int, end: int) {
    if segments == [] then start == end
    else segments[0].startMS == start && start < segments[0].endMS && Tiles(segments[1..], segments[0].endMS, end)
  }

  ghost predicate Ordered(segments: seq<Segment>, start: int, end: int) {
    if segments == [] then start <= end
    else
      && start <= segments[0].startMS < segments[0].endMS <= end
      && Ordered(segments[1..], segments[0].endMS, end)
  }

  predicate Holds(s: Segment, t: int) { s.startMS <= t < s.endMS }

  lemma {:induction false} TilesAreOrdered(segments: seq<Segment>, start: int, end: int)
    requires Tiles(segments, start, end)
    ensures Ordered(segments, start, end) && start <= end
    decreases |segments|
  {
    if segments != [] { TilesAreOrdered(segments[1..], segments[0].endMS, end); }
  }

  lemma {:induction false} OrderedAreApart(segments: seq<Segment>, start: int, end: int, t: int)
    requires Ordered(segments, start, end)
    ensures forall j, k | 0 <= j < |segments| && 0 <= k < |segments| && Holds(segments[j], t) && Holds(segments[k], t) :: j == k
    ensures forall k | 0 <= k < |segments| && Holds(segments[k], t) :: start <= t < end
    decreases |segments|
  {
    if segments != [] {
      var rest := segments[1..];
      OrderedAreApart(rest, segments[0].endMS, end, t);
      forall k | 0 < k < |segments| && Holds(segments[k], t) ensures segments[0].endMS <= t < end { assert rest[k - 1] == segments[k]; }
      forall j, k | 0 < j < |segments| && 0 < k < |segments| && Holds(segments[j], t) && Holds(segments[k], t) ensures j == k {
        assert Holds(rest[j - 1], t) && Holds(rest[k - 1], t);
      }
      assert start <= end;
    }
  }

  lemma {:induction false} SomeTileHolds(segments: seq<Segment>, start: int, end: int, t: int)
    requires Tiles(segments, start, end) && start <= t < end
    ensures exists k :: 0 <= k < |segments| && Holds(segments[k], t)
    decreases |segments|
  {
    if t < segments[0].endMS {
      assert Holds(segments[0], t);
    } else {
      SomeTileHolds(segments[1..], segments[0].endMS, end, t);
      var k :| 0 <= k < |segments[1..]| && Holds(segments[1..][k], t);
      assert Holds(segments[k + 1], t);
    }
  }

  /** Every millisecond of the span is in exactly one segment. */
  lemma EveryMillisecondOnce(segments: seq<Segment>, start: int, end: int, t: int)
    requires Tiles(segments, start, end)
    ensures start <= t < end <==> exists k :: 0 <= k < |segments| && Holds(segments[k], t)
    ensures forall j, k | 0 <= j < |segments| && 0 <= k < |segments| && Holds(segments[j], t) && Holds(segments[k], t) :: j == k
  {
    TilesAreOrdered(segments, start, end);
    OrderedAreApart(segments, start, end, t);
    if start <= t < end { SomeTileHolds(segments, start, end, t); }
  }

  lemma {:induction false} TilesJoin(a: seq<Segment>, b: seq<Segment>, start: int, mid: int, end: int)
    requires Tiles(a, start, mid) && Tiles(b, mid, end)
    ensures Tiles(a + b, start, end)
    decreases |a|
  {
    if a == [] {
      assert a + b == b;
    } else {
      TilesJoin(a[1..], b, a[0].endMS, mid, end);
      assert (a + b)[1..] == a[1..] + b;
    }
  }

  // ---- one record --------------------------------------------------------------------------

  datatype Violation =
    | SegmentCount | SegmentTime | SegmentOverlap | CoverageStart | CoverageGap | CoverageEnd
    | Status | Focal | SubjectBounds | TextLength | Quality | SubjectCount | SubjectText | Description

  /** The place of a check of one record among them, and 0 for a check of a record's times. */
  function PlaceOf(rule: Violation): nat {
    match rule
    case Status => 1
    case Focal => 2
    case SubjectBounds => 3
    case TextLength => 4
    case Quality => 5
    case SubjectCount => 6
    case SubjectText => 7
    case Description => 8
    case _ => 0
  }

  /** service.go: BoundedText. */
  predicate Bounded(t: Text, least: int, most: int) { t.valid && least <= |t.runes| <= most }

  ghost predicate Blank(t: Text) { forall k | 0 <= k < |t.runes| :: CaptionWords.IsSpace(t.runes[k]) }

  predicate HasStatus(s: Segment) {
    && (s.certainty.Certain? || s.certainty.Uncertain? || s.certainty.Unknown?)
    && (s.usability.Usable? || s.usability.Unusable?)
  }

  /** Black, obscured or unreadable footage: there is nothing to say about it. */
  predicate Unknowable(s: Segment) { s.certainty.Unknown? || s.usability.Unusable? }

  predicate SafeBox(box: CaptionSpace.Region) { CaptionSpace.ValidRegion(box) && box.width > 0.0 && box.height > 0.0 }

  predicate Named(l: Limits, t: Text)
    ensures Named(l, t) <==> Bounded(t, 1, l.maxTextRunes) && !Blank(t)
  {
    TrimmedToNothing(t);
    Bounded(t, 1, l.maxTextRunes) && CaptionWords.TrimSpace(t.runes) != ""
  }

  ghost predicate Keeps(l: Limits, s: Segment, complete: bool, rule: Violation) {
    match rule
    case Status => (!complete && s.certainty.NoCertainty? && s.usability.NoUsability?) || HasStatus(s)
    case Focal => CaptionSpace.Normalized(s.focal.x) && CaptionSpace.Normalized(s.focal.y)
    case SubjectBounds =>
      CaptionSpace.ValidRegion(s.subject) && |s.captionSafe| <= 4 && forall k | 0 <= k < |s.captionSafe| :: SafeBox(s.captionSafe[k])
    case TextLength =>
      && Bounded(s.quality, 1, l.maxTextRunes) && Bounded(s.event, 0, l.maxTextRunes) && Bounded(s.speech, 0, l.maxTextRunes)
      && Bounded(s.action, 0, l.maxTextRunes) && Bounded(s.motion, 0, l.maxTextRunes)
    case Quality => !Blank(s.quality)
    case SubjectCount => |s.subjects| <= l.maxSubjects
    case SubjectText => forall k | 0 <= k < |s.subjects| :: Bounded(s.subjects[k], 1, l.maxTextRunes) && !Blank(s.subjects[k])
    case Description => Unknowable(s) || s.subjects != [] || !(Blank(s.event) && Blank(s.speech) && Blank(s.action) && Blank(s.motion))
    case _ => true
  }

  ghost predicate RecordOk(l: Limits, s: Segment, complete: bool) {
    forall rule :: Keeps(l, s, complete, rule)
  }

  /** `rule` is the first one the record breaks. */
  ghost predicate BreaksFirst(l: Limits, s: Segment, complete: bool, rule: Violation) {
    !Keeps(l, s, complete, rule) && forall other | PlaceOf(other) < PlaceOf(rule) :: Keeps(l, s, complete, other)
  }

  lemma {:induction false} NothingButSpace(text: string)
    ensures CaptionWords.NonSpace(text) == [] <==> forall k | 0 <= k < |text| :: CaptionWords.IsSpace(text[k])
    decreases |text|
  {
    if text != [] { NothingButSpace(text[..|text| - 1]); }
  }

  /** Trimming leaves nothing of exactly the blank texts. */
  lemma TrimmedToNothing(t: Text)
    ensures CaptionWords.TrimSpace(t.runes) == "" <==> Blank(t)
  {
    NothingButSpace(t.runes);
    NothingButSpace(CaptionWords.TrimSpace(t.runes));
  }

  predicate CheckStatus(l: Limits, s: Segment, complete: bool)
    ensures CheckStatus(l, s, complete) <==> Keeps(l, s, complete, Status)
  {
    if complete || !s.certainty.NoCertainty? || !s.usability.NoUsability? then HasStatus(s) else true
  }

  predicate CheckFocal(l: Limits, s: Segment, complete: bool)
    ensures CheckFocal(l, s, complete) <==> Keeps(l, s, complete, Focal)
  {
    CaptionSpace.Normalized(s.focal.x) && CaptionSpace.Normalized(s.focal.y)
  }

  method CheckBoxes(l: Limits, s: Segment, complete: bool) returns (ok: bool)
    ensures ok <==> Keeps(l, s, complete, SubjectBounds)
  {
    if !CaptionSpace.ValidRegion(s.subject) || |s.captionSafe| > 4 { return false; }
    for k := 0 to |s.captionSafe|
      invariant forall j | 0 <= j < k :: SafeBox(s.captionSafe[j])
    {
      if !SafeBox(s.captionSafe[k]) { return false; }
    }
    return true;
  }

  predicate CheckLengths(l: Limits, s: Segment, complete: bool)
    ensures CheckLengths(l, s, complete) <==> Keeps(l, s, complete, TextLength)
  {
    && Bounded(s.event, 0, l.maxTextRunes) && Bounded(s.speech, 0, l.maxTextRunes) && Bounded(s.quality, 1, l.maxTextRunes)
    && Bounded(s.action, 0, l.maxTextRunes) && Bounded(s.motion, 0, l.maxTextRunes)
  }

  predicate CheckQuality(l: Limits, s: Segment, complete: bool)
    ensures CheckQuality(l, s, complete) <==> Keeps(l, s, complete, Quality)
  {
    TrimmedToNothing(s.quality);
    CaptionWords.TrimSpace(s.quality.runes) != ""
  }

  predicate CheckSubjectCount(l: Limits, s: Segment, complete: bool)
    ensures CheckSubjectCount(l, s, complete) <==> Keeps(l, s, complete, SubjectCount)
  {
    |s.subjects| <= l.maxSubjects
  }

  method CheckSubjects(l: Limits, s: Segment, complete: bool) returns (ok: bool)
    ensures ok <==> Keeps(l, s, complete, SubjectText)
  {
    for k := 0 to |s.subjects|
      invariant forall j | 0 <= j < k :: Bounded(s.subjects[j], 1, l.maxTextRunes) && !Blank(s.subjects[j])
    {
      if !Named(l, s.subjects[k]) { return false; }
    }
    return true;
  }

  predicate CheckDescription(l: Limits, s: Segment, complete: bool)
    ensures CheckDescription(l, s, complete) <==> Keeps(l, s, complete, Description)
  {
    TrimmedToNothing(s.event);
    TrimmedToNothing(s.speech);
    TrimmedToNothing(s.action);
    TrimmedToNothing(s.motion);
    || CaptionWords.TrimSpace(s.event.runes) != "" || CaptionWords.TrimSpace(s.speech.runes) != ""
    || CaptionWords.TrimSpace(s.action.runes) != "" || CaptionWords.TrimSpace(s.motion.runes) != ""
    || s.subjects != [] || Unknowable(s)
  }

  /** The part of validateSegments about one record: it passes exactly a record that keeps every rule,
      and otherwise names the first rule broken. */
  method CheckRecord(l: Limits, s: Segment, complete: bool) returns (violation: Option<Violation>)
    ensures violation.None? <==> RecordOk(l, s, complete)
    ensures violation.Some? ==> PlaceOf(violation.value) > 0 && BreaksFirst(l, s, complete, violation.value)
  {
    TimesAreNoRules(l, s, complete);
    hide Keeps, CheckStatus, CheckFocal, CheckLengths, CheckQuality, CheckSubjectCount, CheckDescription;
    if !CheckStatus(l, s, complete) { return Some(Status); }
    if !CheckFocal(l, s, complete) { return Some(Focal); }
    var bounds := CheckBoxes(l, s, complete);
    if !bounds { return Some(SubjectBounds); }
    if !CheckLengths(l, s, complete) { return Some(TextLength); }
    if !CheckQuality(l, s, complete) { return Some(Quality); }
    if !CheckSubjectCount(l, s, complete) { return Some(SubjectCount); }
    var subjects := CheckSubjects(l, s, complete);
    if !subjects { return Some(SubjectText); }
    if !CheckDescription(l, s, complete) { return Some(Description); }
    return None;
  }

  lemma TimesAreNoRules(l: Limits, s: Segment, complete: bool)
    ensures forall rule | PlaceOf(rule) == 0 :: Keeps(l, s, complete, rule)
  {}

  // ---- a whole observation -----------------------------------------------------------------

  ghost predicate Sound(l: Limits, segments: seq<Segment>, complete: bool) {
    forall k | 0 <= k < |segments| :: RecordOk(l, segments[k], complete)
  }

  /** Segment `k` has its place after the one before it. */
  ghost predicate InPlace(segments: seq<Segment>, start: int, end: int, complete: bool, k: nat)
    requires k < |segments|
  {
    var previous := if k == 0 then start else segments[k - 1].endMS;
    && segments[k].startMS < segments[k].endMS <= end
    && if complete then segments[k].startMS == previous else previous <= segments[k].startMS
  }

  /** The first `n` segments are in place and keep the rules. */
  ghost predicate Conform(l: Limits, segments: seq<Segment>, start: int, end: int, complete: bool, n: nat)
    requires n <= |segments|
  {
    forall k | 0 <= k < n :: InPlace(segments, start, end, complete, k) && RecordOk(l, segments[k], complete)
  }

  /** Segments tile their span, or are in order inside it, exactly if each is in place after the one
      before, and when tiling the last ends where the span does. */
  lemma {:induction false} PlacesTile(segments: seq<Segment>, start: int, end: int, complete: bool)
    requires segments != []
    ensures (if complete then Tiles(segments, start, end) else Ordered(segments, start, end)) <==>
              && (complete ==> segments[|segments| - 1].endMS == end)
              && forall k | 0 <= k < |segments| :: InPlace(segments, start, end, complete, k)
    decreases |segments|
  {
    var rest, next := segments[1..], segments[0].endMS;
    var first := InPlace(segments, start, end, complete, 0);
    if rest != [] {
      PlacesTile(rest, next, end, complete);
      assert rest[|rest| - 1] == segments[|segments| - 1];
      if complete && Tiles(rest, next, end) { TilesAreOrdered(rest, next, end); }
      forall k | 0 <= k < |rest| ensures InPlace(rest, next, end, complete, k) <==> InPlace(segments, start, end, complete, k + 1) {}
      forall k | 0 < k < |segments| ensures InPlace(segments, start, end, complete, k) <==> InPlace(rest, next, end, complete, k - 1) {}
    }
  }

  /** The segment a violation is about, counted from one; no segment has the number 0. */
  datatype Fault = Fault(violation: Violation, segment: nat)

  /** The fault is about the first segment that is out of place or breaks a rule, and names the first
      rule broken. */
  ghost predicate FirstAtFault(l: Limits, segments: seq<Segment>, start: int, end: int, complete: bool, f: Fault) {
    if f.violation.SegmentCount? then f.segment == 0 && !(0 < |segments| <= l.maxSegments)
    else if f.violation.CoverageEnd? then complete && f.segment == |segments| > 0 && segments[|segments| - 1].endMS < end
    else
      && 0 < f.segment <= |segments| && Conform(l, segments, start, end, complete, f.segment - 1)
      && if PlaceOf(f.violation) > 0
         then InPlace(segments, start, end, complete, f.segment - 1) && BreaksFirst(l, segments[f.segment - 1], complete, f.violation)
         else !InPlace(segments, start, end, complete, f.segment - 1)
  }

  ghost predicate Accepted(l: Limits, segments: seq<Segment>, start: int, end: int, complete: bool) {
    && 0 < |segments| <= l.maxSegments && Sound(l, segments, complete)
    && if complete then Tiles(segments, start, end) else Ordered(segments, start, end)
  }

  lemma AcceptedConform(l: Limits, segments: seq<Segment>, start: int, end: int, complete: bool)
    requires segments != []
    ensures Accepted(l, segments, start, end, complete) <==>
              && |segments| <= l.maxSegments && Conform(l, segments, start, end, complete, |segments|)
              && (complete ==> segments[|segments| - 1].endMS == end)
  {
    hide RecordOk, Tiles, Ordered, InPlace;
    PlacesTile(segments, start, end, complete);
  }

  lemma FaultRefuses(l: Limits, segments: seq<Segment>, start: int, end: int, complete: bool, f: Fault)
    requires FirstAtFault(l, segments, start, end, complete, f)
    ensures !Accepted(l, segments, start, end, complete)
  {
    if segments != [] {
      AcceptedConform(l, segments, start, end, complete);
      hide Tiles, Ordered, Keeps, InPlace;
      if 0 < f.segment <= |segments| && !f.violation.CoverageEnd? {
        assert !InPlace(segments, start, end, complete, f.segment - 1) || !RecordOk(l, segments[f.segment - 1], complete);
      }
    }
  }

  /** analysis.go: validateSegments. A complete record tiles its span; a legacy one is only ordered. */
  method ValidateSegments(l: Limits, segments: seq<Segment>, start: int, end: int, complete: bool) returns (fault: Option<Fault>)
    ensures fault.None? <==> Accepted(l, segments, start, end, complete)
    ensures fault.Some? ==> FirstAtFault(l, segments, start, end, complete, fault.value)
  {
    hide Accepted;
    fault := FirstFault(l, segments, start, end, complete);
    hide FirstAtFault, Conform;
    if fault.Some? {
      FaultRefuses(l, segments, start, end, complete, fault.value);
    } else {
      AcceptedConform(l, segments, start, end, complete);
    }
  }

  lemma NoneConform(l: Limits, segments: seq<Segment>, start: int, end: int, complete: bool)
    ensures Conform(l, segments, start, end, complete, 0)
  {}

  lemma OneMoreConforms(l: Limits, segments: seq<Segment>, start: int, end: int, complete: bool, n: nat)
    requires n < |segments| && Conform(l, segments, start, end, complete, n)
    requires InPlace(segments, start, end, complete, n) && RecordOk(l, segments[n], complete)
    ensures Conform(l, segments, start, end, complete, n + 1)
  {
    hide InPlace, RecordOk;
  }

  /** Its loop. */
  method FirstFault(l: Limits, segments: seq<Segment>, start: int, end: int, complete: bool) returns (fault: Option<Fault>)
    ensures fault.Some? ==> FirstAtFault(l, segments, start, end, complete, fault.value)
    ensures fault.None? ==>
              && 0 < |segments| <= l.maxSegments && Conform(l, segments, start, end, complete, |segments|)
              && (complete ==> segments[|segments| - 1].endMS == end)
  {
    hide RecordOk, BreaksFirst, Conform;
    assert Conform(l, segments, start, end, complete, 0) by { NoneConform(l, segments, start, end, complete); }
    if |segments| == 0 || |segments| > l.maxSegments { return Some(Fault(SegmentCount, 0)); }
    var previous := start;
    for i := 0 to |segments|
      invariant start <= previous && previous == if i == 0 then start else segments[i - 1].endMS
      invariant i > 0 ==> previous <= end
      invariant Conform(l, segments, start, end, complete, i)
    {
      var s := segments[i];
      if s.startMS < start || s.endMS <= s.startMS || s.endMS > end { return Some(Fault(SegmentTime, i + 1)); }
      if s.startMS < previous { return Some(Fault(SegmentOverlap, i + 1)); }
      if complete && s.startMS != previous { return Some(Fault(if i == 0 then CoverageStart else CoverageGap, i + 1)); }
      var violation := CheckRecord(l, s, complete);
      if violation.Some? { return Some(Fault(violation.value, i + 1)); }
      OneMoreConforms(l, segments, start, end, complete, i);
      previous := s.endMS;
    }
    if complete && previous != end { return Some(Fault(CoverageEnd, |segments|)); }
    return None;
  }

  // ---- sources -----------------------------------------------------------------------------

  function TotalDuration(sources: seq<Source>): int {
    if sources == [] then 0 else TotalDuration(sources[..|sources| - 1]) + sources[|sources| - 1].durationMS
  }

  ghost predicate SourceOk(s: Source) { s.named && s.durationMS > 0 && s.width > 0 && s.height > 0 }

  ghost predicate SourcesOk(l: Limits, sources: seq<Source>) {
    && 0 < |sources| <= l.maxSources && l.chunkMS > 0
    && (forall k | 0 <= k < |sources| :: SourceOk(sources[k]))
    && (forall j, k | 0 <= j < k < |sources| :: sources[j].id != sources[k].id && sources[j].fingerprint != sources[k].fingerprint)
    && TotalDuration(sources) <= l.maxSourceDurationMS
  }

  lemma {:induction false} TotalGrows(sources: seq<Source>, n: nat)
    requires n <= |sources| && forall k | 0 <= k < |sources| :: SourceOk(sources[k])
    ensures TotalDuration(sources[..n]) <= TotalDuration(sources)
    decreases |sources|
  {
    if n < |sources| {
      assert sources[..|sources| - 1][..n] == sources[..n];
      TotalGrows(sources[..|sources| - 1], n);
    } else {
      assert sources[..n] == sources;
    }
  }

  /** analysis.go: ValidateAnalysisSources; its sums never pass the limit, so they cannot overflow. */
  method ValidateAnalysisSources(l: Limits, sources: seq<Source>) returns (ok: bool)
    ensures ok <==> SourcesOk(l, sources)
  {
    if |sources| == 0 || |sources| > l.maxSources || l.chunkMS <= 0 { return false; }
    var seen: set<nat>, fingerprints: set<nat>, total := {}, {}, 0;
    for k := 0 to |sources|
      invariant seen == set j | 0 <= j < k :: sources[j].id
      invariant fingerprints == set j | 0 <= j < k :: sources[j].fingerprint
      invariant total == TotalDuration(sources[..k]) && (k > 0 ==> total <= l.maxSourceDurationMS)
      invariant forall j | 0 <= j < k :: SourceOk(sources[j])
      invariant forall i, j | 0 <= i < j < k :: sources[i].id != sources[j].id && sources[i].fingerprint != sources[j].fingerprint
    {
      var s := sources[k];
      assert sources[..k + 1][..k] == sources[..k];
      if !s.named || s.id in seen || s.fingerprint in fingerprints || s.durationMS <= 0
         || s.durationMS > l.maxSourceDurationMS - total || s.width <= 0 || s.height <= 0 {
        if SourcesOk(l, sources) { TotalGrows(sources, k + 1); }
        return false;
      }
      seen, fingerprints, total := seen + {s.id}, fingerprints + {s.fingerprint}, total + s.durationMS;
    }
    assert sources[..|sources|] == sources;
    return true;
  }

  // ---- the chunk grid ----------------------------------------------------------------------

  /** Where chunk number `index` starts. */
  function StartOf(index: int, chunk: int): int { index * chunk }

  lemma StartsIncrease(i: int, j: int, chunk: int)
    requires chunk > 0
    ensures i < j <==> StartOf(i, chunk) < StartOf(j, chunk)
    ensures StartOf(i + 1, chunk) == StartOf(i, chunk) + chunk
  {}

  function CellAt(s: Source, chunk: int, index: int): Cell {
    Cell(s.id, s.fingerprint, index, StartOf(index, chunk), Min(chunk, s.durationMS - StartOf(index, chunk)))
  }

  /** The cells of a source from `index` on: as many as start inside it. */
  function CellsFrom(s: Source, chunk: int, index: nat): (cells: seq<Cell>)
    requires chunk > 0
    ensures forall k | 0 <= k < |cells| :: cells[k] == CellAt(s, chunk, index + k)
    ensures |cells| == 0 || StartOf(index + |cells| - 1, chunk) < s.durationMS
    ensures s.durationMS <= StartOf(index + |cells|, chunk)
    decreases s.durationMS - StartOf(index, chunk)
  {
    hide StartOf;
    StartsIncrease(index, index + 1, chunk);
    if StartOf(index, chunk) >= s.durationMS then []
    else [CellAt(s, chunk, index)] + CellsFrom(s, chunk, index + 1)
  }

  function CellsOf(s: Source, chunk: int): seq<Cell>
    requires chunk > 0
  {
    CellsFrom(s, chunk, 0)
  }

  /** The grids of the sources, one after another. */
  function Grid(sources: seq<Source>, chunk: int): seq<Cell>
    requires chunk > 0
  {
    if sources == [] then [] else Grid(sources[..|sources| - 1], chunk) + CellsOf(sources[|sources| - 1], chunk)
  }

  /** A source has exactly the chunks that start inside it. */
  lemma ChunkCount(s: Source, chunk: int, index: nat)
    requires chunk > 0
    ensures index < |CellsOf(s, chunk)| <==> StartOf(index, chunk) < s.durationMS
  {
    hide StartOf;
    var n := |CellsOf(s, chunk)|;
    StartsIncrease(index, n, chunk);
    StartsIncrease(n, index, chunk);
    StartsIncrease(index, n - 1, chunk);
    StartsIncrease(n - 1, index, chunk);
  }

  /** A cell is in the grid of its source exactly when the source starts a chunk at its index. */
  lemma InGrid(s: Source, chunk: int, cell: Cell)
    requires chunk > 0
    ensures cell in CellsOf(s, chunk) <==> 0 <= cell.index && StartOf(cell.index, chunk) < s.durationMS && cell == CellAt(s, chunk, cell.index)
  {
    hide StartOf;
    var cells := CellsOf(s, chunk);
    if 0 <= cell.index { ChunkCount(s, chunk, cell.index); }
    if cell in cells {
      var k :| 0 <= k < |cells| && cells[k] == cell;
    } else if 0 <= cell.index < |cells| {
      assert cells[cell.index] == CellAt(s, chunk, cell.index);
    }
  }

  /** The grid of one source tiles it: each cell starts where the last ended and the last ends with
      the source. */
  lemma GridTilesSource(s: Source, chunk: int, k: nat)
    requires chunk > 0 && s.durationMS > 0 && k < |CellsOf(s, chunk)|
    ensures var cells := CellsOf(s, chunk);
            && cells[0].offsetMS == 0 && cells[k].durationMS > 0
            && cells[k].offsetMS + cells[k].durationMS == if k + 1 < |cells| then cells[k + 1].offsetMS else s.durationMS
  {
    ChunkCount(s, chunk, k);
    ChunkCount(s, chunk, k + 1);
    StartsIncrease(k, k + 1, chunk);
    assert StartOf(0, chunk) == 0;
    hide StartOf;
  }

  /** analysis.go: ValidateChunkInput. The bound on the index comes before the product. */
  method ValidateChunkInput(l: Limits, s: Source, cell: Cell) returns (ok: bool)
    requires cell.source == s.id && cell.fingerprint == s.fingerprint
    ensures ok <==> SourcesOk(l, [s]) && cell in CellsOf(s, l.chunkMS)
  {
    ok := ValidateAnalysisSources(l, [s]);
    if !ok { return; }
    assert SourceOk([s][0]);
    InGrid(s, l.chunkMS, cell);
    IndexBound(s.durationMS, l.chunkMS, cell.index);
    if cell.index < 0 || cell.index > (s.durationMS - 1) / l.chunkMS || cell.offsetMS != StartOf(cell.index, l.chunkMS)
       || cell.durationMS != Min(l.chunkMS, s.durationMS - cell.offsetMS) { return false; }
  }

  lemma IndexBound(duration: int, chunk: int, index: int)
    requires duration > 0 && chunk > 0
    ensures index <= (duration - 1) / chunk <==> StartOf(index, chunk) < duration
  {
    var q := (duration - 1) / chunk;
    assert StartOf(q, chunk) <= duration - 1 < StartOf(q + 1, chunk);
    StartsIncrease(q, index, chunk);
    StartsIncrease(index, q, chunk);
    StartsIncrease(index, q + 1, chunk);
    StartsIncrease(q + 1, index, chunk);
  }

  // ---- merging -----------------------------------------------------------------------------

  function Flatten(chunks: seq<Chunk>): seq<Segment> {
    if chunks == [] then [] else Flatten(chunks[..|chunks| - 1]) + chunks[|chunks| - 1].segments
  }

  function Joined(analyses: seq<Analysis>): seq<Segment> {
    if analyses == [] then [] else Joined(analyses[..|analyses| - 1]) + analyses[|analyses| - 1].segments
  }

  ghost predicate Covers(l: Limits, c: Chunk) {
    Accepted(l, c.segments, c.cell.offsetMS, c.cell.offsetMS + c.cell.durationMS, true)
  }

  ghost predicate Fits(l: Limits, c: Chunk, cell: Cell) { c.cell == cell && Covers(l, c) }

  /** The `n` chunks from `at` on are the first cells, each tiled by its segments. */
  ghost predicate Filled(l: Limits, chunks: seq<Chunk>, at: nat, cells: seq<Cell>, n: nat) {
    at + n <= |chunks| && n <= |cells| && forall k | 0 <= k < n :: Fits(l, chunks[at + k], cells[k])
  }

  /** The chunks from `at` on are the source's whole grid, each tiled by its segments. */
  ghost predicate HasSource(l: Limits, s: Source, chunks: seq<Chunk>, at: nat)
    requires l.chunkMS > 0
  {
    Filled(l, chunks, at, CellsOf(s, l.chunkMS), |CellsOf(s, l.chunkMS)|)
  }

  lemma FlattenOneMore(chunks: seq<Chunk>, at: nat, cursor: nat)
    requires at <= cursor < |chunks|
    ensures Flatten(chunks[at..cursor + 1]) == Flatten(chunks[at..cursor]) + chunks[cursor].segments
  {
    assert chunks[at..cursor + 1][..cursor - at] == chunks[at..cursor];
  }

  lemma OneMoreFilled(l: Limits, chunks: seq<Chunk>, at: nat, cells: seq<Cell>, n: nat)
    requires Filled(l, chunks, at, cells, n) && at + n < |chunks| && n < |cells|
    requires Fits(l, chunks[at + n], cells[n])
    ensures Filled(l, chunks, at, cells, n + 1)
  {
    hide Fits;
  }

  lemma StartsAtZero(chunk: int)
    ensures StartOf(0, chunk) == 0
  {}

  lemma CellOf(s: Source, chunk: int, index: nat)
    requires chunk > 0 && StartOf(index, chunk) < s.durationMS
    ensures index < |CellsOf(s, chunk)| && CellsOf(s, chunk)[index] == CellAt(s, chunk, index)
  {
    hide StartOf;
    ChunkCount(s, chunk, index);
  }

  /** The inner loop of MergeAnalyses: one source's chunks, from `at` on. */
  method MergeSource(l: Limits, s: Source, chunks: seq<Chunk>, at: nat) returns (segments: Option<seq<Segment>>, cursor: nat)
    requires l.chunkMS > 0 && s.durationMS > 0 && at <= |chunks|
    ensures segments.Some? <==> HasSource(l, s, chunks, at)
    ensures segments.Some? ==> cursor == at + |CellsOf(s, l.chunkMS)| && segments.value == Flatten(chunks[at..cursor])
                               && Tiles(segments.value, 0, s.durationMS)
  {
    hide StartOf, CellsOf;
    ghost var cells := CellsOf(s, l.chunkMS);
    var merged, offset, index := [], 0, 0;
    StartsAtZero(l.chunkMS);
    cursor := at;
    while offset < s.durationMS
      invariant 0 <= index <= |cells| && offset == StartOf(index, l.chunkMS) && cursor == at + index <= |chunks|
      invariant Filled(l, chunks, at, cells, index)
      invariant merged == Flatten(chunks[at..cursor]) && Tiles(merged, 0, Min(offset, s.durationMS))
      decreases |cells| - index
    {
      ChunkCount(s, l.chunkMS, index);
      StartsIncrease(index, index + 1, l.chunkMS);
      CellOf(s, l.chunkMS, index);
      if cursor >= |chunks| { return None, cursor; }
      var c := chunks[cursor];
      var duration := Min(l.chunkMS, s.durationMS - offset);
      if c.cell != Cell(s.id, s.fingerprint, index, offset, duration) {
        assert !HasSource(l, s, chunks, at) by { assert !Fits(l, chunks[at + index], cells[index]); }
        return None, cursor;
      }
      var fault := ValidateSegments(l, c.segments, offset, offset + duration, true);
      if fault.Some? {
        assert !HasSource(l, s, chunks, at) by { assert !Fits(l, chunks[at + index], cells[index]); }
        return None, cursor;
      }
      FlattenOneMore(chunks, at, cursor);
      TilesJoin(merged, c.segments, 0, offset, offset + duration);
      OneMoreFilled(l, chunks, at, cells, index);
      merged := merged + c.segments;
      cursor := cursor + 1;
      offset, index := offset + l.chunkMS, index + 1;
    }
    ChunkCount(s, l.chunkMS, index);
    return Some(merged), cursor;
  }

  lemma {:induction false} GridSplits(sources: seq<Source>, chunk: int, n: nat) returns (rest: seq<Cell>)
    requires chunk > 0 && n < |sources|
    ensures Grid(sources, chunk) == Grid(sources[..n], chunk) + CellsOf(sources[n], chunk) + rest
    decreases |sources|
  {
    var last := |sources| - 1;
    if n == last {
      rest := [];
    } else {
      assert sources[..last][..n] == sources[..n];
      var inner := GridSplits(sources[..last], chunk, n);
      rest := inner + CellsOf(sources[last], chunk);
    }
  }

  lemma {:induction false} FlattenJoins(a: seq<Chunk>, b: seq<Chunk>)
    ensures Flatten(a + b) == Flatten(a) + Flatten(b)
    decreases |b|
  {
    if b == [] {
      assert a + b == a;
    } else {
      FlattenJoins(a, b[..|b| - 1]);
      assert (a + b)[..|a + b| - 1] == a + b[..|b| - 1];
      var front, last := Flatten(b[..|b| - 1]), b[|b| - 1].segments;
      assert Flatten(a) + (front + last) == (Flatten(a) + front) + last;
    }
  }

  /** The chunks match a stretch of the grid. */
  ghost predicate Matches(l: Limits, chunks: seq<Chunk>, grid: seq<Cell>) {
    |chunks| == |grid| && forall k | 0 <= k < |chunks| :: Fits(l, chunks[k], grid[k])
  }

  lemma SourceInGrid(l: Limits, sources: seq<Source>, chunks: seq<Chunk>, n: nat)
    requires l.chunkMS > 0 && n < |sources| && Matches(l, chunks, Grid(sources, l.chunkMS))
    ensures HasSource(l, sources[n], chunks, |Grid(sources[..n], l.chunkMS)|)
  {
    hide CellsOf, Grid, Covers;
    var rest := GridSplits(sources, l.chunkMS, n);
    var front, cells := Grid(sources[..n], l.chunkMS), CellsOf(sources[n], l.chunkMS);
    forall k | 0 <= k < |cells| ensures Fits(l, chunks[|front| + k], cells[k]) {
      assert Fits(l, chunks[|front| + k], Grid(sources, l.chunkMS)[|front| + k]);
    }
  }

  /** Every source has its analysis, in order, and its segments tile it. */
  ghost predicate Analysed(sources: seq<Source>, merged: seq<Analysis>) {
    && |merged| == |sources|
    && forall k | 0 <= k < |sources| :: merged[k].source == sources[k] && Tiles(merged[k].segments, 0, sources[k].durationMS)
  }

  /** analysis.go: MergeAnalyses. It accepts exactly the ordered chunk grid of each source, returns the
      same segments in the same order, and they tile each source from its start to its end. */
  method MergeAnalyses(l: Limits, sources: seq<Source>, chunks: seq<Chunk>) returns (out: Option<seq<Analysis>>)
    ensures out.Some? <==> SourcesOk(l, sources) && Matches(l, chunks, Grid(sources, l.chunkMS))
    ensures out.Some? ==> Joined(out.value) == Flatten(chunks) && Analysed(sources, out.value)
  {
    var ok := ValidateAnalysisSources(l, sources);
    if !ok { return None; }
    SourcesAreSound(l, sources);
    hide *;
    out := MergeSources(l, sources, chunks);
  }

  /** The loop over the sources. */
  method MergeSources(l: Limits, sources: seq<Source>, chunks: seq<Chunk>) returns (out: Option<seq<Analysis>>)
    requires l.chunkMS > 0 && forall k | 0 <= k < |sources| :: sources[k].durationMS > 0
    ensures out.Some? <==> Matches(l, chunks, Grid(sources, l.chunkMS))
    ensures out.Some? ==> Joined(out.value) == Flatten(chunks) && Analysed(sources, out.value)
  {
    hide CellsOf, Grid, Flatten, Joined, Tiles, Matches, HasSource, Analysed;
    var merged: seq<Analysis>, cursor := [], 0;
    EmptyMerge(l, chunks);
    for n := 0 to |sources|
      invariant cursor <= |chunks| && cursor == |Grid(sources[..n], l.chunkMS)|
      invariant Matches(l, chunks[..cursor], Grid(sources[..n], l.chunkMS))
      invariant Joined(merged) == Flatten(chunks[..cursor]) && Analysed(sources[..n], merged)
    {
      var segments, next := MergeSource(l, sources[n], chunks, cursor);
      if segments.None? {
        if Matches(l, chunks, Grid(sources, l.chunkMS)) { SourceInGrid(l, sources, chunks, n); }
        return None;
      }
      SourceMatches(l, sources, chunks, n, cursor);
      OneMoreMerged(merged, Analysis(sources[n], segments.value), chunks, cursor, next);
      OneMoreAnalysed(sources, n, merged, Analysis(sources[n], segments.value));
      merged := merged + [Analysis(sources[n], segments.value)];
      cursor := next;
    }
    assert sources[..|sources|] == sources;
    MatchesInFull(l, chunks, cursor, Grid(sources, l.chunkMS));
    if cursor != |chunks| { return None; }
    assert chunks[..cursor] == chunks;
    return Some(merged);
  }

  lemma OneMoreAnalysed(sources: seq<Source>, n: nat, merged: seq<Analysis>, a: Analysis)
    requires n < |sources| && Analysed(sources[..n], merged)
    requires a.source == sources[n] && Tiles(a.segments, 0, sources[n].durationMS)
    ensures Analysed(sources[..n + 1], merged + [a])
  {
    hide Tiles;
  }

  lemma MatchesInFull(l: Limits, chunks: seq<Chunk>, cursor: nat, grid: seq<Cell>)
    requires cursor <= |chunks| && Matches(l, chunks[..cursor], grid)
    ensures Matches(l, chunks, grid) <==> cursor == |chunks|
  {
    hide Covers;
    if cursor == |chunks| { assert chunks[..cursor] == chunks; }
  }

  lemma EmptyMerge(l: Limits, chunks: seq<Chunk>)
    requires l.chunkMS > 0
    ensures Matches(l, chunks[..0], Grid([], l.chunkMS)) && Grid([], l.chunkMS) == []
    ensures Joined([]) == Flatten(chunks[..0]) && Analysed([], [])
  {}

  lemma SourcesAreSound(l: Limits, sources: seq<Source>)
    requires SourcesOk(l, sources)
    ensures l.chunkMS > 0 && forall k | 0 <= k < |sources| :: sources[k].durationMS > 0
  {
    forall k | 0 <= k < |sources| ensures sources[k].durationMS > 0 { assert SourceOk(sources[k]); }
  }

  lemma OneMoreMerged(merged: seq<Analysis>, a: Analysis, chunks: seq<Chunk>, cursor: nat, next: nat)
    requires cursor <= next <= |chunks| && Joined(merged) == Flatten(chunks[..cursor]) && a.segments == Flatten(chunks[cursor..next])
    ensures Joined(merged + [a]) == Flatten(chunks[..next])
  {
    FlattenJoins(chunks[..cursor], chunks[cursor..next]);
    assert chunks[..next] == chunks[..cursor] + chunks[cursor..next] && (merged + [a])[..|merged|] == merged;
  }

  lemma SourceMatches(l: Limits, sources: seq<Source>, chunks: seq<Chunk>, n: nat, cursor: nat)
    requires l.chunkMS > 0 && n < |sources| && cursor <= |chunks| && HasSource(l, sources[n], chunks, cursor)
    requires Matches(l, chunks[..cursor], Grid(sources[..n], l.chunkMS))
    ensures var next := cursor + |CellsOf(sources[n], l.chunkMS)|;
            && next == |Grid(sources[..n + 1], l.chunkMS)| && next <= |chunks|
            && Matches(l, chunks[..next], Grid(sources[..n + 1], l.chunkMS))
  {
    hide CellsOf, Grid, Covers;
    GridOneMore(sources, l.chunkMS, n);
    var front, cells, next := Grid(sources[..n], l.chunkMS), CellsOf(sources[n], l.chunkMS), cursor + |CellsOf(sources[n], l.chunkMS)|;
    forall k | 0 <= k < next ensures Fits(l, chunks[..next][k], (front + cells)[k]) {
      if k < cursor {
        assert Fits(l, chunks[..cursor][k], front[k]);
      } else {
        assert Fits(l, chunks[cursor + (k - cursor)], cells[k - cursor]);
      }
    }
  }

  /** So what is merged accounts for every millisecond of every source, once. */
  lemma MergedCoversSource(a: Analysis, t: int)
    requires Tiles(a.segments, 0, a.source.durationMS)
    ensures 0 <= t < a.source.durationMS <==> exists k :: 0 <= k < |a.segments| && Holds(a.segments[k], t)
    ensures forall j, k | 0 <= j < |a.segments| && 0 <= k < |a.segments| && Holds(a.segments[j], t) && Holds(a.segments[k], t) :: j == k
  {
    EveryMillisecondOnce(a.segments, 0, a.source.durationMS, t);
  }

  // ---- preparing the rest ------------------------------------------------------------------

  /** The cells not among the reused ones, in order. */
  function Missing(cells: seq<Cell>, reused: seq<Cell>): seq<Cell> {
    if cells == [] then []
    else
      var last := cells[|cells| - 1];
      Missing(cells[..|cells| - 1], reused) + if last in reused then [] else [last]
  }

  lemma {:induction false} MissingJoins(a: seq<Cell>, b: seq<Cell>, reused: seq<Cell>)
    ensures Missing(a + b, reused) == Missing(a, reused) + Missing(b, reused)
    decreases |b|
  {
    if b == [] {
      assert a + b == a;
    } else {
      MissingJoins(a, b[..|b| - 1], reused);
      assert (a + b)[..|a + b| - 1] == a + b[..|b| - 1];
    }
  }

  const MAX_COPIES := 49

  /** analysis_preparation.go: ExpectedAnalysisCopies. Exactly the cells that are not reused, unless
      there are more than the limit. */
  method ExpectedAnalysisCopies(originals: seq<Source>, reused: seq<Cell>, chunk: int) returns (out: Option<seq<Cell>>)
    requires chunk > 0
    ensures var missing := Missing(Grid(originals, chunk), reused);
            out == if |missing| <= MAX_COPIES then Some(missing) else None
  {
    hide StartOf, CellsOf, Grid;
    StartsAtZero(chunk);
    NoGrid(chunk);
    var copies: seq<Cell> := [];
    for n := 0 to |originals|
      invariant copies == Missing(Grid(originals[..n], chunk), reused) && |copies| <= MAX_COPIES
    {
      var m := originals[n];
      ghost var cells, before := CellsOf(m, chunk), copies;
      var index, offset := 0, 0;
      while offset < m.durationMS
        invariant 0 <= index <= |cells| && offset == StartOf(index, chunk)
        invariant copies == before + Missing(cells[..index], reused) && |copies| <= MAX_COPIES
        decreases |cells| - index
      {
        CellOf(m, chunk, index);
        StartsIncrease(index, index + 1, chunk);
        var duration := Min(chunk, m.durationMS - offset);
        var cell := Cell(m.id, m.fingerprint, index, offset, duration);
        assert cells[..index + 1][..index] == cells[..index];
        if cell !in reused {
          copies := copies + [cell];
          if |copies| > MAX_COPIES {
            TooManyCopies(originals, reused, chunk, n, index + 1);
            return None;
          }
        }
        index, offset := index + 1, offset + chunk;
      }
      ChunkCount(m, chunk, index);
      assert cells[..index] == cells;
      GridOneMore(originals, chunk, n);
      MissingJoins(Grid(originals[..n], chunk), cells, reused);
    }
    assert originals[..|originals|] == originals;
    return Some(copies);
  }

  lemma NoGrid(chunk: int)
    requires chunk > 0
    ensures Grid([], chunk) == []
  {}

  lemma GridOneMore(sources: seq<Source>, chunk: int, n: nat)
    requires chunk > 0 && n < |sources|
    ensures Grid(sources[..n + 1], chunk) == Grid(sources[..n], chunk) + CellsOf(sources[n], chunk)
  {
    assert sources[..n + 1][..n] == sources[..n];
  }

  lemma TooManyCopies(originals: seq<Source>, reused: seq<Cell>, chunk: int, n: nat, index: nat)
    requires chunk > 0 && n < |originals| && index <= |CellsOf(originals[n], chunk)|
    requires |Missing(Grid(originals[..n], chunk), reused) + Missing(CellsOf(originals[n], chunk)[..index], reused)| > MAX_COPIES
    ensures |Missing(Grid(originals, chunk), reused)| > MAX_COPIES
  {
    hide Missing, Grid, CellsOf;
    var rest := GridSplits(originals, chunk, n);
    var front, cells := Grid(originals[..n], chunk), CellsOf(originals[n], chunk);
    MissingJoins(front + cells, rest, reused);
    MissingJoins(front, cells, reused);
    MissingJoins(cells[..index], cells[index..], reused);
    assert cells[..index] + cells[index..] == cells;
  }

  lemma CellsAreFew(s: Source, chunk: int)
    requires chunk > 0 && s.durationMS > 0
    ensures StartOf(|CellsOf(s, chunk)|, chunk) <= s.durationMS + (chunk - 1)
  {
    var n := |CellsOf(s, chunk)|;
    StartsIncrease(n - 1, n, chunk);
    ChunkCount(s, chunk, 0);
    StartsAtZero(chunk);
    hide StartOf;
  }

  lemma StartsAdd(i: int, j: int, chunk: int)
    ensures StartOf(i + j, chunk) == StartOf(i, chunk) + StartOf(j, chunk)
  {}

  /** At most (total + n * (C - 1)) / C cells for n sources and chunk length C. */
  lemma {:induction false} GridIsSmall(sources: seq<Source>, chunk: int)
    requires chunk > 0 && forall k | 0 <= k < |sources| :: sources[k].durationMS > 0
    ensures StartOf(|Grid(sources, chunk)|, chunk) <= TotalDuration(sources) + StartOf(|sources|, chunk - 1)
    decreases |sources|
  {
    if sources == [] {
      StartsAtZero(chunk);
      StartsAtZero(chunk - 1);
    } else {
      hide StartOf, CellsOf;
      var last := |sources| - 1;
      GridIsSmall(sources[..last], chunk);
      CellsAreFew(sources[last], chunk);
      StartsAdd(|Grid(sources[..last], chunk)|, |CellsOf(sources[last], chunk)|, chunk);
      StartsAdd(last, 1, chunk - 1);
      assert StartOf(1, chunk - 1) == chunk - 1 by { OneStart(chunk - 1); }
    }
  }

  lemma OneStart(chunk: int)
    ensures StartOf(1, chunk) == chunk
  {}

  lemma {:induction false} MissingIsFewer(cells: seq<Cell>, reused: seq<Cell>)
    ensures |Missing(cells, reused)| <= |cells|
    decreases |cells|
  {
    if cells != [] { MissingIsFewer(cells[..|cells| - 1], reused); }
  }

  lemma ExpectedCopiesAreBounded(sources: seq<Source>, reused: seq<Cell>, chunk: int)
    requires chunk > 0 && forall k | 0 <= k < |sources| :: sources[k].durationMS > 0
    ensures |Missing(Grid(sources, chunk), reused)| <= (TotalDuration(sources) + |sources| * (chunk - 1)) / chunk
  {
    GridIsSmall(sources, chunk);
    MissingIsFewer(Grid(sources, chunk), reused);
    Quotient(|Grid(sources, chunk)|, TotalDuration(sources) + |sources| * (chunk - 1), chunk);
  }

  lemma Quotient(n: int, total: int, chunk: int)
    requires chunk > 0 && StartOf(n, chunk) <= total
    ensures n <= total / chunk
  {
    var q := total / chunk;
    assert total < StartOf(q + 1, chunk);
    StartsIncrease(n, q + 1, chunk);
  }
}
