/** Which photo sections a video was taken between (backend/internal/clip/capture_neighbors.go). */
module CaptureNeighbors {
  import opened Basics

  // ---- camera sequences --------------------------------------------------------------------

  predicate IsDigit(c: char) { '0' <= c <= '9' }

  /** How many of the last characters are digits. */
  function TrailingDigits(s: string): (n: nat)
    ensures n <= |s| && (forall k | |s| - n <= k < |s| :: IsDigit(s[k])) && (n < |s| ==> !IsDigit(s[|s| - n - 1]))
  {
    if s == [] || !IsDigit(s[|s| - 1]) then 0 else 1 + TrailingDigits(s[..|s| - 1])
  }

  datatype Sequence = Sequence(prefix: string, digits: string)

  /** The shortest prefix before nothing but digits. A prefix with a line break does not match. */
  function CameraSequence(stem: string): Option<Sequence> {
    var n := TrailingDigits(stem);
    if n == 0 || '\n' in stem[..|stem| - n] then None else Some(Sequence(stem[..|stem| - n], stem[|stem| - n..]))
  }

  /** path.Ext: from the last dot of the last path element on. */
  function ExtLength(name: string): (n: nat)
    ensures n <= |name|
  {
    if name == [] || name[|name| - 1] == '/' then 0
    else if name[|name| - 1] == '.' then 1
    else
      var inner := ExtLength(name[..|name| - 1]);
      if inner == 0 then 0 else inner + 1
  }

  function Stem(name: string): string { name[..|name| - ExtLength(name)] }

  ghost predicate AllDigits(s: string) { forall k | 0 <= k < |s| :: IsDigit(s[k]) }

  ghost function Value(s: string): nat
    requires AllDigits(s)
  {
    if s == [] then 0 else Value(s[..|s| - 1]) * 10 + (s[|s| - 1] as int - '0' as int)
  }

  /** strings.Compare: -1, 0 or 1, by the first difference. */
  function Compare(a: string, b: string): int {
    if a == [] then (if b == [] then 0 else -1)
    else if b == [] then 1
    else if a[0] < b[0] then -1
    else if b[0] < a[0] then 1
    else Compare(a[1..], b[1..])
  }

  function Sign(v: int): int { if v < 0 then -1 else if v > 0 then 1 else 0 }

  /** Comparing by the last character last. */
  lemma {:induction false} CompareFromTheBack(a: string, b: string)
    requires |a| == |b| > 0
    ensures Compare(a, b) ==
              if Compare(a[..|a| - 1], b[..|b| - 1]) != 0 then Compare(a[..|a| - 1], b[..|b| - 1])
              else Sign(a[|a| - 1] as int - b[|b| - 1] as int)
    decreases |a|
  {
    if |a| > 1 {
      CompareFromTheBack(a[1..], b[1..]);
      assert a[1..][..|a| - 2] == a[..|a| - 1][1..] && b[1..][..|b| - 2] == b[..|b| - 1][1..];
    }
  }

  /** For digit strings of one length, of any length, the lexicographic order is the numeric one. */
  lemma {:induction false} LexicographicIsNumeric(a: string, b: string)
    requires AllDigits(a) && AllDigits(b) && |a| == |b|
    ensures Compare(a, b) == Sign(Value(a) - Value(b))
    decreases |a|
  {
    if a != [] {
      CompareFromTheBack(a, b);
      LexicographicIsNumeric(a[..|a| - 1], b[..|b| - 1]);
    }
  }

  // ---- candidates --------------------------------------------------------------------------

  datatype Photo = Photo(capturedAt: Option<int>, file: string)

  datatype Source = Source(id: nat, capturedAt: Option<int>, filename: string)

  datatype PhotoOrder = PhotoOrder(section: nat, at: int, digits: string)

  function Ordering(byTime: bool, a: PhotoOrder, b: PhotoOrder): int {
    if byTime then Sign(a.at - b.at) else Compare(a.digits, b.digits)
  }

  /** The quantity photos are ordered by: the instant, or the number of the sequence. */
  ghost function KeyOf(byTime: bool, p: PhotoOrder): int
    requires byTime || AllDigits(p.digits)
  {
    if byTime then p.at else Value(p.digits)
  }

  /** The photos share one length of digits with the video, unless instants order them. */
  ghost predicate Comparable(byTime: bool, photos: seq<PhotoOrder>, video: PhotoOrder) {
    byTime || (AllDigits(video.digits)
               && forall k | 0 <= k < |photos| :: AllDigits(photos[k].digits) && |photos[k].digits| == |video.digits|)
  }

  /** `before` is the last of the latest photos not after the video; -1 where there is none. */
  ghost predicate IsBefore(byTime: bool, photos: seq<PhotoOrder>, video: PhotoOrder, n: nat, before: int)
    requires n <= |photos| && Comparable(byTime, photos, video)
  {
    if before < 0 then before == -1 && forall k | 0 <= k < n :: KeyOf(byTime, photos[k]) > KeyOf(byTime, video)
    else
      && before < n && KeyOf(byTime, photos[before]) <= KeyOf(byTime, video)
      && forall k | 0 <= k < n && KeyOf(byTime, photos[k]) <= KeyOf(byTime, video) ::
           KeyOf(byTime, photos[k]) < KeyOf(byTime, photos[before])
           || (KeyOf(byTime, photos[k]) == KeyOf(byTime, photos[before]) && k <= before)
  }

  /** `after` is the first of the earliest photos not before the video. */
  ghost predicate IsAfter(byTime: bool, photos: seq<PhotoOrder>, video: PhotoOrder, n: nat, after: int)
    requires n <= |photos| && Comparable(byTime, photos, video)
  {
    if after < 0 then after == -1 && forall k | 0 <= k < n :: KeyOf(byTime, photos[k]) < KeyOf(byTime, video)
    else
      && after < n && KeyOf(byTime, photos[after]) >= KeyOf(byTime, video)
      && forall k | 0 <= k < n && KeyOf(byTime, photos[k]) >= KeyOf(byTime, video) ::
           KeyOf(byTime, photos[k]) > KeyOf(byTime, photos[after])
           || (KeyOf(byTime, photos[k]) == KeyOf(byTime, photos[after]) && k >= after)
  }

  lemma OrderingIsByKey(byTime: bool, photos: seq<PhotoOrder>, video: PhotoOrder, a: PhotoOrder, b: PhotoOrder)
    requires Comparable(byTime, photos, video) && (a == video || a in photos) && (b == video || b in photos)
    ensures (byTime || (AllDigits(a.digits) && AllDigits(b.digits)))
            && Ordering(byTime, a, b) == Sign(KeyOf(byTime, a) - KeyOf(byTime, b))
  {
    if !byTime { LexicographicIsNumeric(a.digits, b.digits); }
  }

  /** The scan over the collected photos. */
  method Nearest(byTime: bool, photos: seq<PhotoOrder>, video: PhotoOrder) returns (before: int, after: int)
    requires Comparable(byTime, photos, video)
    ensures IsBefore(byTime, photos, video, |photos|, before) && IsAfter(byTime, photos, video, |photos|, after)
  {
    hide Compare, Value, Ordering;
    before, after := -1, -1;
    for i := 0 to |photos|
      invariant IsBefore(byTime, photos, video, i, before) && IsAfter(byTime, photos, video, i, after)
    {
      var photo := photos[i];
      var order := Ordering(byTime, photo, video);
      OrderingIsByKey(byTime, photos, video, photo, video);
      if before >= 0 { OrderingIsByKey(byTime, photos, video, photo, photos[before]); }
      if after >= 0 { OrderingIsByKey(byTime, photos, video, photo, photos[after]); }
      if order <= 0 && (before < 0 || Ordering(byTime, photo, photos[before]) >= 0) { before := i; }
      if order >= 0 && (after < 0 || Ordering(byTime, photo, photos[after]) < 0) { after := i; }
    }
  }

  // ---- the photos compared -----------------------------------------------------------------

  /** The photo's place in the video's camera sequence. */
  predicate Follows(file: string, video: Sequence) {
    var other := CameraSequence(Stem(file));
    other.Some? && other.value.prefix == video.prefix && |other.value.digits| == |video.digits|
  }

  /** What photos are compared by: their instants, or their numbers in the video's camera sequence. */
  datatype Metric = Instants | Numbers(video: Sequence)

  /** A photo's place under a metric, if it has one. */
  function Place(metric: Metric, section: nat, photo: Photo): Option<PhotoOrder> {
    match metric
    case Instants => if photo.capturedAt.Some? then Some(PhotoOrder(section, photo.capturedAt.value, "")) else None
    case Numbers(video) =>
      if Follows(photo.file, video) then Some(PhotoOrder(section, 0, CameraSequence(Stem(photo.file)).value.digits)) else None
  }

  function PlacesIn(metric: Metric, section: nat, photos: seq<Photo>): seq<PhotoOrder> {
    if photos == [] then []
    else
      var place := Place(metric, section, photos[|photos| - 1]);
      PlacesIn(metric, section, photos[..|photos| - 1]) + if place.Some? then [place.value] else []
  }

  /** Every photo that has a place, in the order of the sections and of the photos in each. */
  function PlacesOf(metric: Metric, sections: seq<seq<Photo>>): seq<PhotoOrder> {
    if sections == [] then []
    else PlacesOf(metric, sections[..|sections| - 1]) + PlacesIn(metric, |sections| - 1, sections[|sections| - 1])
  }

  lemma {:induction false} PlacesInAreThePhotos(metric: Metric, section: nat, photos: seq<Photo>)
    ensures forall p :: p in PlacesIn(metric, section, photos) <==> exists j | 0 <= j < |photos| :: Place(metric, section, photos[j]) == Some(p)
    decreases |photos|
  {
    hide Place;
    if photos != [] {
      var last := |photos| - 1;
      PlacesInAreThePhotos(metric, section, photos[..last]);
      forall p ensures p in PlacesIn(metric, section, photos) <==> exists j | 0 <= j < |photos| :: Place(metric, section, photos[j]) == Some(p) {
        if p in PlacesIn(metric, section, photos[..last]) {
          var j :| 0 <= j < last && Place(metric, section, photos[..last][j]) == Some(p);
          assert Place(metric, section, photos[j]) == Some(p);
        }
        if exists j | 0 <= j < |photos| :: Place(metric, section, photos[j]) == Some(p) {
          var j :| 0 <= j < |photos| && Place(metric, section, photos[j]) == Some(p);
          assert j < last ==> photos[..last][j] == photos[j];
        }
      }
    }
  }

  lemma {:induction false} PlacesAreThePhotos(metric: Metric, sections: seq<seq<Photo>>)
    ensures forall p :: p in PlacesOf(metric, sections) <==>
              exists i, j | 0 <= i < |sections| && 0 <= j < |sections[i]| :: Place(metric, i, sections[i][j]) == Some(p)
    decreases |sections|
  {
    hide Place, PlacesIn;
    if sections != [] {
      var last := |sections| - 1;
      PlacesAreThePhotos(metric, sections[..last]);
      PlacesInAreThePhotos(metric, last, sections[last]);
      forall p ensures p in PlacesOf(metric, sections) <==>
                exists i, j | 0 <= i < |sections| && 0 <= j < |sections[i]| :: Place(metric, i, sections[i][j]) == Some(p)
      {
        if p in PlacesOf(metric, sections[..last]) {
          var i, j :| 0 <= i < last && 0 <= j < |sections[..last][i]| && Place(metric, i, sections[..last][i][j]) == Some(p);
          assert Place(metric, i, sections[i][j]) == Some(p);
        }
        if exists i, j | 0 <= i < |sections| && 0 <= j < |sections[i]| :: Place(metric, i, sections[i][j]) == Some(p) {
          var i, j :| 0 <= i < |sections| && 0 <= j < |sections[i]| && Place(metric, i, sections[i][j]) == Some(p);
          assert i < last ==> sections[..last][i] == sections[i];
        }
      }
    }
  }

  lemma {:induction false} OneSectionsPlaces(metric: Metric, section: nat, photos: seq<Photo>)
    ensures forall k | 0 <= k < |PlacesIn(metric, section, photos)| :: PlacesIn(metric, section, photos)[k].section == section
    decreases |photos|
  {
    if photos != [] { OneSectionsPlaces(metric, section, photos[..|photos| - 1]); }
  }

  /** Places in sections before `n`, in the order of their sections. */
  ghost predicate InOrder(places: seq<PhotoOrder>, n: nat) {
    && (forall k | 0 <= k < |places| :: places[k].section < n)
    && forall j, k | 0 <= j < k < |places| :: places[j].section <= places[k].section
  }

  lemma InOrderJoins(front: seq<PhotoOrder>, back: seq<PhotoOrder>, n: nat)
    requires InOrder(front, n) && forall k | 0 <= k < |back| :: back[k].section == n
    ensures InOrder(front + back, n + 1)
  {
    var all := front + back;
    forall k | 0 <= k < |all| ensures if k < |front| then all[k].section < n else all[k].section == n {
      if k >= |front| { assert all[k] == back[k - |front|]; }
    }
  }

  /** So of two places the later is in no earlier section: the last of several is the one furthest on. */
  lemma {:induction false} PlacesAreInOrder(metric: Metric, sections: seq<seq<Photo>>)
    ensures InOrder(PlacesOf(metric, sections), |sections|)
    decreases |sections|
  {
    hide PlacesIn;
    if sections != [] {
      var last := |sections| - 1;
      PlacesAreInOrder(metric, sections[..last]);
      OneSectionsPlaces(metric, last, sections[last]);
      InOrderJoins(PlacesOf(metric, sections[..last]), PlacesIn(metric, last, sections[last]), last);
    }
  }

  method TimedPhotos(sections: seq<seq<Photo>>) returns (photos: seq<PhotoOrder>)
    ensures photos == PlacesOf(Instants, sections)
  {
    photos := [];
    for i := 0 to |sections|
      invariant photos == PlacesOf(Instants, sections[..i])
    {
      ghost var before := photos;
      for j := 0 to |sections[i]|
        invariant photos == before + PlacesIn(Instants, i, sections[i][..j])
      {
        assert sections[i][..j + 1][..j] == sections[i][..j];
        if sections[i][j].capturedAt.Some? { photos := photos + [PhotoOrder(i, sections[i][j].capturedAt.value, "")]; }
      }
      assert sections[i][..|sections[i]|] == sections[i] && sections[..i + 1][..i] == sections[..i];
    }
    assert sections[..|sections|] == sections;
  }

  method SequencePhotos(sections: seq<seq<Photo>>, video: Sequence) returns (photos: seq<PhotoOrder>)
    ensures photos == PlacesOf(Numbers(video), sections)
  {
    hide CameraSequence, Stem;
    photos := [];
    for i := 0 to |sections|
      invariant photos == PlacesOf(Numbers(video), sections[..i])
    {
      ghost var before := photos;
      for j := 0 to |sections[i]|
        invariant photos == before + PlacesIn(Numbers(video), i, sections[i][..j])
      {
        assert sections[i][..j + 1][..j] == sections[i][..j];
        var other := CameraSequence(Stem(sections[i][j].file));
        if other.Some? && other.value.prefix == video.prefix && |other.value.digits| == |video.digits| {
          photos := photos + [PhotoOrder(i, 0, other.value.digits)];
        }
      }
      assert sections[i][..|sections[i]|] == sections[i] && sections[..i + 1][..i] == sections[..i];
    }
    assert sections[..|sections|] == sections;
  }

  lemma SequenceIsDigits(stem: string)
    ensures CameraSequence(stem).Some? ==> AllDigits(CameraSequence(stem).value.digits) && CameraSequence(stem).value.digits != []
  {}

  // ---- one source's candidates -------------------------------------------------------------

  ghost predicate HasInstants(sections: seq<seq<Photo>>) {
    exists i, j | 0 <= i < |sections| && 0 <= j < |sections[i]| :: sections[i][j].capturedAt.Some?
  }

  /** One metric a source: instants where it and some photo have them, otherwise its camera sequence. */
  ghost predicate ByTime(sections: seq<seq<Photo>>, source: Source) { source.capturedAt.Some? && HasInstants(sections) }

  /** The photos a source is compared with, and what it is compared by. */
  ghost predicate Collected(sections: seq<seq<Photo>>, source: Source, photos: seq<PhotoOrder>, video: PhotoOrder) {
    if ByTime(sections, source) then
      video.at == source.capturedAt.value && photos == PlacesOf(Instants, sections)
    else
      var own := CameraSequence(Stem(source.filename));
      if own.None? then photos == [] && video.digits == ""
      else video.digits == own.value.digits && photos == PlacesOf(Numbers(own.value), sections)
  }

  lemma CollectedIsComparable(sections: seq<seq<Photo>>, source: Source, photos: seq<PhotoOrder>, video: PhotoOrder)
    requires Collected(sections, source, photos, video)
    ensures Comparable(ByTime(sections, source), photos, video)
  {
    var own := CameraSequence(Stem(source.filename));
    if !ByTime(sections, source) && own.Some? {
      SequenceIsDigits(Stem(source.filename));
      PlacesAreThePhotos(Numbers(own.value), sections);
      forall k | 0 <= k < |photos| ensures AllDigits(photos[k].digits) && |photos[k].digits| == |video.digits| {
        assert photos[k] in photos;
        var i, j :| 0 <= i < |sections| && 0 <= j < |sections[i]| && Place(Numbers(own.value), i, sections[i][j]) == Some(photos[k]);
        SequenceIsDigits(Stem(sections[i][j].file));
      }
    }
  }

  method Collect(sections: seq<seq<Photo>>, source: Source) returns (byTime: bool, photos: seq<PhotoOrder>, video: PhotoOrder)
    ensures byTime == ByTime(sections, source) && Collected(sections, source, photos, video)
  {
    hide CameraSequence, Stem;
    photos, byTime := [], source.capturedAt.Some?;
    if byTime {
      photos := TimedPhotos(sections);
      InstantsAreCollected(sections);
    }
    byTime := byTime && |photos| > 0;
    video := PhotoOrder(0, 0, "");
    if byTime {
      video := video.(at := source.capturedAt.value);
    } else {
      photos := [];
      var sequence := CameraSequence(Stem(source.filename));
      if sequence.Some? {
        video := video.(digits := sequence.value.digits);
        photos := SequencePhotos(sections, sequence.value);
      }
    }
  }

  lemma InstantsAreCollected(sections: seq<seq<Photo>>)
    ensures HasInstants(sections) <==> |PlacesOf(Instants, sections)| > 0
  {
    var photos := PlacesOf(Instants, sections);
    PlacesAreThePhotos(Instants, sections);
    if HasInstants(sections) {
      var i, j :| 0 <= i < |sections| && 0 <= j < |sections[i]| && sections[i][j].capturedAt.Some?;
      assert Place(Instants, i, sections[i][j]) == Some(PhotoOrder(i, sections[i][j].capturedAt.value, ""));
    }
    if |photos| > 0 { assert photos[0] in photos; }
  }

  /** The sections of the two photos, sorted and without repetition. */
  function Candidates(photos: seq<PhotoOrder>, before: int, after: int): (out: seq<nat>)
    requires before < |photos| && after < |photos|
    ensures forall i, j | 0 <= i < j < |out| :: out[i] < out[j]
    ensures forall c :: c in out <==> (before >= 0 && c == photos[before].section) || (after >= 0 && c == photos[after].section)
  {
    if before < 0 && after < 0 then []
    else if before < 0 then [photos[after].section]
    else if after < 0 then [photos[before].section]
    else
      var a, b := photos[before].section, photos[after].section;
      if a == b then [a] else if a < b then [a, b] else [b, a]
  }

  /** The sections of the last, in the order of the sections, of the latest photos not after the video and
      of the first of the earliest photos not before it. */
  ghost predicate Neighbours(sections: seq<seq<Photo>>, source: Source, candidates: seq<nat>) {
    exists photos, video, before, after :: NeighboursBy(sections, source, candidates, photos, video, before, after)
  }

  ghost predicate NeighboursBy(sections: seq<seq<Photo>>, source: Source, candidates: seq<nat>,
                               photos: seq<PhotoOrder>, video: PhotoOrder, before: int, after: int)
  {
    && Collected(sections, source, photos, video) && Comparable(ByTime(sections, source), photos, video)
    && IsBefore(ByTime(sections, source), photos, video, |photos|, before)
    && IsAfter(ByTime(sections, source), photos, video, |photos|, after)
    && candidates == Candidates(photos, before, after)
  }

  method NeighboursOf(sections: seq<seq<Photo>>, source: Source) returns (candidates: seq<nat>)
    ensures Neighbours(sections, source, candidates)
  {
    hide IsBefore, IsAfter, Collected, Comparable, ByTime;
    var byTime, photos, video := Collect(sections, source);
    CollectedIsComparable(sections, source, photos, video);
    var before, after := Nearest(byTime, photos, video);
    Indices(byTime, photos, video, before, after);
    candidates := [];
    if before >= 0 { candidates := [photos[before].section]; }
    if after >= 0 && photos[after].section !in candidates { candidates := candidates + [photos[after].section]; }
    // slices.Sort, of at most two sections
    if |candidates| == 2 && candidates[1] < candidates[0] { candidates := [candidates[1], candidates[0]]; }
    assert NeighboursBy(sections, source, candidates, photos, video, before, after);
  }

  lemma Indices(byTime: bool, photos: seq<PhotoOrder>, video: PhotoOrder, before: int, after: int)
    requires Comparable(byTime, photos, video)
    requires IsBefore(byTime, photos, video, |photos|, before) && IsAfter(byTime, photos, video, |photos|, after)
    ensures -1 <= before < |photos| && -1 <= after < |photos|
  {}

  /** capture_neighbors.go: CaptureNeighbors; the last of several sources under one id stands. */
  method CaptureNeighbors(sections: seq<seq<Photo>>, sources: seq<Source>) returns (out: map<nat, seq<nat>>)
    ensures forall id :: id in out <==> exists k | 0 <= k < |sources| :: sources[k].id == id
    ensures forall k | 0 <= k < |sources| && (forall j | k < j < |sources| :: sources[j].id != sources[k].id) ::
              Neighbours(sections, sources[k], out[sources[k].id])
  {
    hide Neighbours;
    out := map[];
    for n := 0 to |sources|
      invariant forall id :: id in out <==> exists k | 0 <= k < n :: sources[k].id == id
      invariant forall k | 0 <= k < n && (forall j | k < j < n :: sources[j].id != sources[k].id) ::
                  Neighbours(sections, sources[k], out[sources[k].id])
    {
      var candidates := NeighboursOf(sections, sources[n]);
      out := out[sources[n].id := candidates];
    }
  }
}
