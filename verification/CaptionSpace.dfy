/** Where a caption may stand and what it must avoid: source-space boxes projected through the
    renderer's cover crop (backend/internal/clip: caption_safe.go, analysis.go). Lengths are exact
    reals where the source computes in floating point. */
module CaptionSpace {

  datatype Region = Region(x: real, y: real, width: real, height: real)
  datatype Point = Point(x: real, y: real)
  datatype Canvas = Canvas(width: int, height: int)
  datatype Cut = Cut(source: nat, startMS: int, endMS: int, focal: Point)
  datatype Segment = Segment(startMS: int, endMS: int, subject: Region, captionSafe: seq<Region>)
  datatype Analysis = Analysis(source: nat, width: int, height: int, segments: seq<Segment>)

  function Min(a: real, b: real): real { if a < b then a else b }
  function Max(a: real, b: real): real { if a < b then b else a }

  predicate Normalized(v: real) { 0.0 <= v <= 1.0 }

  /** analysis.go: ValidRegion. */
  predicate ValidRegion(r: Region) {
    && Normalized(r.x) && Normalized(r.y) && Normalized(r.width) && Normalized(r.height)
    && r.x + r.width <= 1.0 && r.y + r.height <= 1.0
  }

  predicate Touches(cut: Cut, s: Segment) { cut.startMS < s.endMS && s.startMS < cut.endMS }

  /** The open box. */
  predicate Inside(box: Region, p: Point) {
    box.x < p.x < box.x + box.width && box.y < p.y < box.y + box.height
  }

  predicate Covered(boxes: seq<Region>, p: Point) { exists k | 0 <= k < |boxes| :: Inside(boxes[k], p) }

  // ---- the cover crop ----------------------------------------------------------------------

  /** The scaled source, w by h, shifted by (x, y) behind the canvas. */
  datatype Crop = Crop(w: real, h: real, x: real, y: real)

  function CoverCrop(canvas: Canvas, width: int, height: int, focal: Point): Crop
    requires width > 0 && height > 0
  {
    var cw, ch := canvas.width as real, canvas.height as real;
    var scale := Max(cw / width as real, ch / height as real);
    var w, h := width as real * scale, height as real * scale;
    Crop(w, h, Max(0.0, Min(w - cw, w * focal.x - cw / 2.0)), Max(0.0, Min(h - ch, h * focal.y - ch / 2.0)))
  }

  lemma MulOrdered(a: real, b: real, w: real)
    requires w > 0.0
    ensures a < b <==> a * w < b * w
    ensures a <= b <==> a * w <= b * w
  {}

  lemma QuotientOrdered(a: real, n: real, w: real)
    requires w > 0.0
    ensures a < n / w <==> a * w < n
    ensures n / w < a <==> n < a * w
  {
    MulOrdered(a, n / w, w);
    MulOrdered(n / w, a, w);
  }

  lemma ScaleReaches(n: real, w: real, scale: real)
    requires w > 0.0 && n / w <= scale
    ensures n <= w * scale
  {
    MulOrdered(n / w, scale, w);
  }

  /** The scaled source covers the whole canvas, so every canvas point shows a source point. */
  lemma CropCovers(canvas: Canvas, width: int, height: int, focal: Point)
    requires width > 0 && height > 0 && canvas.width > 0 && canvas.height > 0
    ensures var c := CoverCrop(canvas, width, height, focal);
            && c.w > 0.0 && c.h > 0.0
            && 0.0 <= c.x && c.x + canvas.width as real <= c.w
            && 0.0 <= c.y && c.y + canvas.height as real <= c.h
  {
    var cw, ch := canvas.width as real, canvas.height as real;
    var scale := Max(cw / width as real, ch / height as real);
    ScaleReaches(cw, width as real, scale);
    ScaleReaches(ch, height as real, scale);
  }

  function Preimage(c: Crop, p: Point): Point
    requires c.w > 0.0 && c.h > 0.0
  {
    Point((p.x + c.x) / c.w, (p.y + c.y) / c.h)
  }

  function Projected(box: Region, c: Crop): Region {
    Region(box.x * c.w - c.x, box.y * c.h - c.y, box.width * c.w, box.height * c.h)
  }

  /** A canvas point is in a projected box exactly when the source point it shows is in the box. */
  lemma ProjectionIsExact(box: Region, c: Crop, p: Point)
    requires c.w > 0.0 && c.h > 0.0
    ensures Inside(Projected(box, c), p) <==> Inside(box, Preimage(c, p))
  {
    QuotientOrdered(box.x, p.x + c.x, c.w);
    QuotientOrdered(box.x + box.width, p.x + c.x, c.w);
    QuotientOrdered(box.y, p.y + c.y, c.h);
    QuotientOrdered(box.y + box.height, p.y + c.y, c.h);
    assert (box.x + box.width) * c.w == box.x * c.w + box.width * c.w;
    assert (box.y + box.height) * c.h == box.y * c.h + box.height * c.h;
  }

  // ---- intersections -----------------------------------------------------------------------

  function Overlap(a: Region, b: Region): Region {
    var x, y := Max(a.x, b.x), Max(a.y, b.y);
    Region(x, y, Min(a.x + a.width, b.x + b.width) - x, Min(a.y + a.height, b.y + b.height) - y)
  }

  /** caption_safe.go: intersectCaptionSpace. Two boxes that do not meet share no point. */
  function IntersectCaptionSpace(a: Region, b: Region): (r: (Region, bool))
    ensures forall p: Point :: (r.1 && Inside(r.0, p)) <==> Inside(a, p) && Inside(b, p)
    ensures r.1 && ValidRegion(a) && ValidRegion(b) ==> ValidRegion(r.0)
  {
    var o := Overlap(a, b);
    (o, o.x + o.width > o.x && o.y + o.height > o.y)
  }

  lemma CoveredByOneMore(boxes: seq<Region>, box: Region, p: Point)
    ensures Covered(boxes + [box], p) <==> Covered(boxes, p) || Inside(box, p)
  {
    var more := boxes + [box];
    if Covered(boxes, p) {
      var k :| 0 <= k < |boxes| && Inside(boxes[k], p);
      assert more[k] == boxes[k];
    }
    if Inside(box, p) { assert Inside(more[|boxes|], p); }
  }

  ghost predicate AllValid(boxes: seq<Region>) { forall k | 0 <= k < |boxes| :: ValidRegion(boxes[k]) }

  /** The pairwise intersections cover exactly what both lists cover. */
  method IntersectAll(safe: seq<Region>, other: seq<Region>) returns (common: seq<Region>)
    ensures forall p: Point :: Covered(common, p) <==> Covered(safe, p) && Covered(other, p)
    ensures AllValid(safe) && AllValid(other) ==> AllValid(common)
  {
    common := [];
    for i := 0 to |safe|
      invariant forall p: Point :: Covered(common, p) <==> Covered(safe[..i], p) && Covered(other, p)
      invariant AllValid(safe) && AllValid(other) ==> AllValid(common)
    {
      ghost var before := common;
      for j := 0 to |other|
        invariant forall p: Point :: Covered(common, p) <==> Covered(before, p) || (Inside(safe[i], p) && Covered(other[..j], p))
        invariant AllValid(safe) && AllValid(other) ==> AllValid(common)
      {
        ghost var sofar := common;
        var (box, ok) := IntersectCaptionSpace(safe[i], other[j]);
        if ok && box !in common { common := common + [box]; }
        assert other[..j + 1] == other[..j] + [other[j]];
        forall p: Point
          ensures Covered(common, p) <==> Covered(before, p) || (Inside(safe[i], p) && Covered(other[..j + 1], p))
        {
          CoveredByOneMore(sofar, box, p);
          CoveredByOneMore(other[..j], other[j], p);
        }
      }
      assert other[..|other|] == other;
      assert safe[..i + 1] == safe[..i] + [safe[i]];
      forall p: Point ensures Covered(common, p) <==> Covered(safe[..i + 1], p) && Covered(other, p) {
        CoveredByOneMore(safe[..i], safe[i], p);
      }
    }
    assert safe[..|safe|] == safe;
  }

  // ---- CutCaptionSafe ----------------------------------------------------------------------

  ghost predicate OnCanvas(canvas: Canvas, p: Point) {
    0.0 < p.x < canvas.width as real && 0.0 < p.y < canvas.height as real
  }

  /** Every scene of `segments` the cut touches, and at least one, keeps the source point empty. */
  ghost predicate EmptyIn(cut: Cut, segments: seq<Segment>, q: Point) {
    && (exists k | 0 <= k < |segments| :: Touches(cut, segments[k]))
    && forall k | 0 <= k < |segments| :: Touches(cut, segments[k]) ==> Covered(segments[k].captionSafe, q)
  }

  /** The source point behind `p` is empty throughout the cut. */
  ghost predicate SafeAt(canvas: Canvas, cut: Cut, analysis: Analysis, p: Point) {
    && cut.source == analysis.source && analysis.width > 0 && analysis.height > 0 && OnCanvas(canvas, p)
    && var c := CoverCrop(canvas, analysis.width, analysis.height, cut.focal);
       c.w > 0.0 && c.h > 0.0 && EmptyIn(cut, analysis.segments, Preimage(c, p))
  }

  /** What segment validation guarantees of the safe boxes. */
  ghost predicate Validated(segments: seq<Segment>) {
    forall k | 0 <= k < |segments| :: AllValid(segments[k].captionSafe)
  }

  lemma NothingSafe(cut: Cut, segments: seq<Segment>, k: nat)
    requires k < |segments| && Touches(cut, segments[k]) && segments[k].captionSafe == []
    ensures forall q: Point :: !EmptyIn(cut, segments, q)
  {
    forall q: Point ensures !EmptyIn(cut, segments, q) {
      assert !Covered(segments[k].captionSafe, q);
    }
  }

  lemma OneMoreScene(cut: Cut, segments: seq<Segment>, k: nat, q: Point)
    requires k < |segments|
    ensures !Touches(cut, segments[k]) ==> (EmptyIn(cut, segments[..k + 1], q) <==> EmptyIn(cut, segments[..k], q))
    ensures Touches(cut, segments[k]) && (forall j | 0 <= j < k :: !Touches(cut, segments[j]))
            ==> (EmptyIn(cut, segments[..k + 1], q) <==> Covered(segments[k].captionSafe, q))
    ensures Touches(cut, segments[k]) && (exists j | 0 <= j < k :: Touches(cut, segments[j]))
            ==> (EmptyIn(cut, segments[..k + 1], q) <==> EmptyIn(cut, segments[..k], q) && Covered(segments[k].captionSafe, q))
  {
    var more := segments[..k + 1];
    assert forall j | 0 <= j < k :: more[j] == segments[..k][j] == segments[j];
    assert more[k] == segments[k];
  }

  /** The first loop: the boxes empty in every touched scene, or nothing once one scene has none. */
  method SharedSafe(cut: Cut, segments: seq<Segment>) returns (safe: seq<Region>)
    ensures forall q: Point :: Covered(safe, q) <==> EmptyIn(cut, segments, q)
    ensures Validated(segments) ==> AllValid(safe)
  {
    safe := [];
    var seen := false;
    for k := 0 to |segments|
      invariant seen <==> exists j | 0 <= j < k :: Touches(cut, segments[j])
      invariant !seen ==> safe == []
      invariant forall q: Point :: Covered(safe, q) <==> EmptyIn(cut, segments[..k], q)
      invariant Validated(segments) ==> AllValid(safe)
    {
      ghost var before := safe;
      var segment := segments[k];
      if segment.endMS <= cut.startMS || segment.startMS >= cut.endMS {
        forall q: Point ensures Covered(safe, q) <==> EmptyIn(cut, segments[..k + 1], q) { OneMoreScene(cut, segments, k, q); }
        continue;
      }
      if |segment.captionSafe| == 0 {
        NothingSafe(cut, segments, k);
        return [];
      }
      if !seen {
        safe, seen := segment.captionSafe, true;
      } else {
        safe := IntersectAll(safe, segment.captionSafe);
      }
      forall q: Point ensures Covered(safe, q) <==> EmptyIn(cut, segments[..k + 1], q) { OneMoreScene(cut, segments, k, q); }
      if |safe| == 0 {
        NeverSafeAgain(cut, segments, k + 1);
        return [];
      }
    }
    assert segments[..|segments|] == segments;
  }

  lemma NeverSafeAgain(cut: Cut, segments: seq<Segment>, k: nat)
    requires k <= |segments| && (exists j | 0 <= j < k :: Touches(cut, segments[j]))
    requires forall q: Point :: !EmptyIn(cut, segments[..k], q)
    ensures forall q: Point :: !EmptyIn(cut, segments, q)
  {
    forall q: Point ensures !EmptyIn(cut, segments, q) {
      var front := segments[..k];
      var j :| 0 <= j < k && Touches(cut, segments[j]);
      assert Touches(cut, front[j]);
      assert !EmptyIn(cut, front, q);
      var i :| 0 <= i < k && Touches(cut, front[i]) && !Covered(front[i].captionSafe, q);
      assert segments[i] == front[i];
    }
  }

  /** caption_safe.go: CutCaptionSafe. Its open boxes never cover a canvas point that is not safe, and
      on validated segments they cover every one that is. */
  method CutCaptionSafe(canvas: Canvas, cut: Cut, analysis: Analysis) returns (out: seq<Region>)
    ensures forall p: Point :: Covered(out, p) ==> SafeAt(canvas, cut, analysis, p)
    ensures Validated(analysis.segments) ==> forall p: Point :: SafeAt(canvas, cut, analysis, p) ==> Covered(out, p)
  {
    if cut.source != analysis.source || analysis.width <= 0 || analysis.height <= 0 { return []; }
    var safe := SharedSafe(cut, analysis.segments);
    var c := CoverCrop(canvas, analysis.width, analysis.height, cut.focal);
    var frame := Region(0.0, 0.0, canvas.width as real, canvas.height as real);
    out := [];
    for k := 0 to |safe|
      invariant forall p: Point :: Covered(out, p) ==> OnCanvas(canvas, p) && CoveredThrough(safe[..k], c, p)
      invariant AllValid(safe) ==> forall p: Point :: OnCanvas(canvas, p) && CoveredThrough(safe[..k], c, p) ==> Covered(out, p)
    {
      ghost var before := out;
      var box := safe[k];
      if ValidRegion(box) {
        var (visible, ok) := IntersectCaptionSpace(Projected(box, c), frame);
        if ok { out := out + [visible]; }
        forall p: Point { CoveredByOneMore(before, visible, p); }
      }
      assert safe[..k + 1] == safe[..k] + [box];
      forall p: Point
        ensures Covered(out, p) ==> OnCanvas(canvas, p) && CoveredThrough(safe[..k + 1], c, p)
        ensures AllValid(safe) && OnCanvas(canvas, p) && CoveredThrough(safe[..k + 1], c, p) ==> Covered(out, p)
      {
        OneMoreBox(safe[..k], box, c, p);
      }
    }
    assert safe[..|safe|] == safe;
    forall p: Point ensures OnCanvas(canvas, p) ==> (CoveredThrough(safe, c, p) <==> SafeAt(canvas, cut, analysis, p)) {
      if OnCanvas(canvas, p) {
        CropCovers(canvas, analysis.width, analysis.height, cut.focal);
        ThroughIsPreimage(safe, c, p);
      }
    }
  }

  /** The point is in the projection of one of the boxes. */
  ghost predicate CoveredThrough(boxes: seq<Region>, c: Crop, p: Point) {
    exists k | 0 <= k < |boxes| :: Inside(Projected(boxes[k], c), p)
  }

  lemma OneMoreBox(boxes: seq<Region>, box: Region, c: Crop, p: Point)
    ensures CoveredThrough(boxes + [box], c, p) <==> CoveredThrough(boxes, c, p) || Inside(Projected(box, c), p)
  {
    var more := boxes + [box];
    if CoveredThrough(boxes, c, p) {
      var k :| 0 <= k < |boxes| && Inside(Projected(boxes[k], c), p);
      assert more[k] == boxes[k];
    }
    if Inside(Projected(box, c), p) { assert Inside(Projected(more[|boxes|], c), p); }
  }

  lemma ThroughIsPreimage(boxes: seq<Region>, c: Crop, p: Point)
    requires c.w > 0.0 && c.h > 0.0
    ensures CoveredThrough(boxes, c, p) <==> Covered(boxes, Preimage(c, p))
  {
    forall k | 0 <= k < |boxes| ensures Inside(Projected(boxes[k], c), p) <==> Inside(boxes[k], Preimage(c, p)) {
      ProjectionIsExact(boxes[k], c, p);
    }
  }

  // ---- CaptionAvoid ------------------------------------------------------------------------

  function Clamp(v: real): real { Max(0.0, Min(1.0, v)) }

  /** A subject box as it shows on the output frame, in frame units. */
  function Shown(canvas: Canvas, c: Crop, box: Region): Region
    requires canvas.width > 0 && canvas.height > 0
  {
    var cw, ch := canvas.width as real, canvas.height as real;
    var l, r := Clamp((box.x * c.w - c.x) / cw), Clamp(((box.x + box.width) * c.w - c.x) / cw);
    var t, b := Clamp((box.y * c.h - c.y) / ch), Clamp(((box.y + box.height) * c.h - c.y) / ch);
    Region(l, t, r - l, b - t)
  }

  predicate Visible(r: Region) { r.width > 0.0 && r.height > 0.0 }

  predicate Within(inner: Region, outer: Region) {
    && outer.x <= inner.x && outer.y <= inner.y
    && inner.x + inner.width <= outer.x + outer.width && inner.y + inner.height <= outer.y + outer.height
  }

  predicate Relevant(canvas: Canvas, c: Crop, cut: Cut, s: Segment)
    requires canvas.width > 0 && canvas.height > 0
  {
    Touches(cut, s) && s.subject.width != 0.0 && s.subject.height != 0.0 && Visible(Shown(canvas, c, s.subject))
  }

  /** `outer` contains every visible subject of the first `n` scenes. */
  ghost predicate HoldsAll(canvas: Canvas, c: Crop, cut: Cut, segments: seq<Segment>, n: nat, outer: Region)
    requires canvas.width > 0 && canvas.height > 0 && n <= |segments|
  {
    forall k | 0 <= k < n && Relevant(canvas, c, cut, segments[k]) :: Within(Shown(canvas, c, segments[k].subject), outer)
  }

  /** The four visible subjects that reach the edges of a region. */
  datatype Edges = Edges(left: nat, top: nat, right: nat, bottom: nat)

  ghost predicate Reaches(canvas: Canvas, c: Crop, cut: Cut, segments: seq<Segment>, n: nat, e: Edges, r: Region)
    requires canvas.width > 0 && canvas.height > 0 && n <= |segments|
  {
    && e.left < n && e.top < n && e.right < n && e.bottom < n
    && Relevant(canvas, c, cut, segments[e.left]) && Relevant(canvas, c, cut, segments[e.top])
    && Relevant(canvas, c, cut, segments[e.right]) && Relevant(canvas, c, cut, segments[e.bottom])
    && (var s := Shown(canvas, c, segments[e.left].subject); s.x == r.x)
    && (var s := Shown(canvas, c, segments[e.top].subject); s.y == r.y)
    && (var s := Shown(canvas, c, segments[e.right].subject); s.x + s.width == r.x + r.width)
    && (var s := Shown(canvas, c, segments[e.bottom].subject); s.y + s.height == r.y + r.height)
  }

  lemma ReachingIsLeast(canvas: Canvas, c: Crop, cut: Cut, segments: seq<Segment>, n: nat, e: Edges, r: Region, outer: Region)
    requires canvas.width > 0 && canvas.height > 0 && n <= |segments|
    requires Reaches(canvas, c, cut, segments, n, e, r) && HoldsAll(canvas, c, cut, segments, n, outer)
    ensures Within(r, outer)
  {
    hide Shown, Relevant;
    assert Within(Shown(canvas, c, segments[e.left].subject), outer);
    assert Within(Shown(canvas, c, segments[e.top].subject), outer);
    assert Within(Shown(canvas, c, segments[e.right].subject), outer);
    assert Within(Shown(canvas, c, segments[e.bottom].subject), outer);
  }

  lemma ShownIsInTheFrame(canvas: Canvas, c: Crop, box: Region)
    requires canvas.width > 0 && canvas.height > 0
    ensures var s := Shown(canvas, c, box);
            0.0 <= s.x <= 1.0 && 0.0 <= s.x + s.width <= 1.0 && 0.0 <= s.y <= 1.0 && 0.0 <= s.y + s.height <= 1.0
  {}

  function Joined(a: Region, b: Region): Region {
    var x, y := Min(a.x, b.x), Min(a.y, b.y);
    Region(x, y, Max(a.x + a.width, b.x + b.width) - x, Max(a.y + a.height, b.y + b.height) - y)
  }

  function JoinedEdges(e: Edges, r: Region, k: nat, box: Region): Edges {
    Edges(if r.x < box.x then e.left else k, if r.y < box.y then e.top else k,
          if r.x + r.width < box.x + box.width then k else e.right,
          if r.y + r.height < box.y + box.height then k else e.bottom)
  }

  lemma JoiningReaches(canvas: Canvas, c: Crop, cut: Cut, segments: seq<Segment>, n: nat, e: Edges, r: Region)
    requires canvas.width > 0 && canvas.height > 0 && n < |segments| && Relevant(canvas, c, cut, segments[n])
    requires Reaches(canvas, c, cut, segments, n, e, r) && HoldsAll(canvas, c, cut, segments, n, r)
    ensures var box := Shown(canvas, c, segments[n].subject);
            && Reaches(canvas, c, cut, segments, n + 1, JoinedEdges(e, r, n, box), Joined(r, box))
            && HoldsAll(canvas, c, cut, segments, n + 1, Joined(r, box))
  {
    hide Shown, Relevant;
  }

  /** analysis.go: CaptionAvoid. The least region of the unit frame that contains every visible subject
      of the cut, or nothing where no subject is visible. */
  method CaptionAvoid(canvas: Canvas, cut: Cut, analysis: Analysis) returns (avoid: Region)
    requires canvas.width > 0 && canvas.height > 0 && analysis.width > 0 && analysis.height > 0
    ensures var c, segments := CoverCrop(canvas, analysis.width, analysis.height, cut.focal), analysis.segments;
            if exists k | 0 <= k < |segments| :: Relevant(canvas, c, cut, segments[k]) then
              && ValidRegion(avoid) && Visible(avoid) && HoldsAll(canvas, c, cut, segments, |segments|, avoid)
              && (forall outer: Region :: HoldsAll(canvas, c, cut, segments, |segments|, outer) ==> Within(avoid, outer))
            else avoid == Region(0.0, 0.0, 0.0, 0.0)
  {
    hide Shown, Reaches, HoldsAll, JoinedEdges;
    var c := CoverCrop(canvas, analysis.width, analysis.height, cut.focal);
    var left, top, right, bottom := 1.0, 1.0, 0.0, 0.0;
    ghost var found, edges := false, Edges(0, 0, 0, 0);
    for k := 0 to |analysis.segments|
      invariant found <==> exists j | 0 <= j < k :: Relevant(canvas, c, cut, analysis.segments[j])
      invariant if found then 0.0 <= left < right <= 1.0 && 0.0 <= top < bottom <= 1.0
                else left == top == 1.0 && right == bottom == 0.0
      invariant found ==> Reaches(canvas, c, cut, analysis.segments, k, edges, Region(left, top, right - left, bottom - top))
                          && HoldsAll(canvas, c, cut, analysis.segments, k, Region(left, top, right - left, bottom - top))
    {
      var s := analysis.segments[k];
      ghost var before := Region(left, top, right - left, bottom - top);
      if found && !Relevant(canvas, c, cut, s) { Skipping(canvas, c, cut, analysis.segments, k, edges, before); }
      if s.endMS <= cut.startMS || s.startMS >= cut.endMS || s.subject.width == 0.0 || s.subject.height == 0.0 { continue; }
      var box := Shown(canvas, c, s.subject);
      ShownIsInTheFrame(canvas, c, s.subject);
      var l, r, t, b := box.x, box.x + box.width, box.y, box.y + box.height;
      if l >= r || t >= b { continue; }
      assert Relevant(canvas, c, cut, s);
      ghost var joined := if found then Joined(before, box) else box;
      if found {
        JoiningReaches(canvas, c, cut, analysis.segments, k, edges, before);
        edges := JoinedEdges(edges, before, k, box);
      } else {
        FirstReaches(canvas, c, cut, analysis.segments, k);
        edges := Edges(k, k, k, k);
      }
      found := true;
      left, top, right, bottom := Min(left, l), Min(top, t), Max(right, r), Max(bottom, b);
      assert Region(left, top, right - left, bottom - top) == joined;
    }
    if left >= right || top >= bottom { return Region(0.0, 0.0, 0.0, 0.0); }
    avoid := Region(left, top, right - left, bottom - top);
    forall outer: Region | HoldsAll(canvas, c, cut, analysis.segments, |analysis.segments|, outer) ensures Within(avoid, outer) {
      ReachingIsLeast(canvas, c, cut, analysis.segments, |analysis.segments|, edges, avoid, outer);
    }
  }

  lemma Skipping(canvas: Canvas, c: Crop, cut: Cut, segments: seq<Segment>, n: nat, e: Edges, r: Region)
    requires canvas.width > 0 && canvas.height > 0 && n < |segments| && !Relevant(canvas, c, cut, segments[n])
    requires Reaches(canvas, c, cut, segments, n, e, r) && HoldsAll(canvas, c, cut, segments, n, r)
    ensures Reaches(canvas, c, cut, segments, n + 1, e, r) && HoldsAll(canvas, c, cut, segments, n + 1, r)
  {
    hide Shown, Relevant;
  }

  lemma FirstReaches(canvas: Canvas, c: Crop, cut: Cut, segments: seq<Segment>, n: nat)
    requires canvas.width > 0 && canvas.height > 0 && n < |segments| && Relevant(canvas, c, cut, segments[n])
    requires forall j | 0 <= j < n :: !Relevant(canvas, c, cut, segments[j])
    ensures var box := Shown(canvas, c, segments[n].subject);
            Reaches(canvas, c, cut, segments, n + 1, Edges(n, n, n, n), box) && HoldsAll(canvas, c, cut, segments, n + 1, box)
  {
    hide Shown, Relevant;
  }
}
