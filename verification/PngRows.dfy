/** Reconstruction of 8-bit PNG rows (scripts/browser-analysis-native-check.py: png_rgb), against the
    filters of section 6 of RFC 2083. */
module PngRows {
  import opened Basics

  type byte = v: int | 0 <= v < 256

  // ---- predictors --------------------------------------------------------------------------

  function Abs(v: int): nat { if v < 0 then -v else v }

  /** The source's own: of a, b and c, the first whose distance to a + b - c is the least. */
  function Paeth(a: byte, b: byte, c: byte): byte {
    var p := a + b - c;
    var least := Min(Min(Abs(p - a), Abs(p - b)), Abs(p - c));
    if Abs(p - a) == least then a else if Abs(p - b) == least then b else c
  }

  /** Section 6.6: the nearest of the three, with ties broken in the order left, above, upper left. */
  lemma PaethBreaksTiesInOrder(a: byte, b: byte, c: byte)
    ensures var p := a + b - c;
            var pa, pb, pc := Abs(p - a), Abs(p - b), Abs(p - c);
            Paeth(a, b, c) == if pa <= pb && pa <= pc then a else if pb <= pc then b else c
  {}

  function Plus(a: int, b: int): byte { (a + b) % 256 }

  function Minus(a: int, b: int): byte { (a - b) % 256 }

  lemma PlusUndoesMinus(a: byte, b: byte)
    ensures Plus(Minus(a, b), b) == a
  {}

  predicate Known(kind: byte) { kind <= 4 }

  function Predictor(kind: byte, a: byte, b: byte, c: byte): byte
    requires Known(kind)
  {
    if kind == 0 then 0 else if kind == 1 then a else if kind == 2 then b
    else if kind == 3 then (a + b) / 2 else Paeth(a, b, c)
  }

  // ---- one row -----------------------------------------------------------------------------

  /** The byte `i` before which `row` is already raw, from the row above and the bytes to the left. */
  function PredictorAt(kind: byte, row: seq<byte>, prior: seq<byte>, i: nat, channels: nat): byte
    requires Known(kind) && i < |prior| && (i >= channels ==> i - channels < |row|)
  {
    Predictor(kind, if i >= channels then row[i - channels] else 0, prior[i], if i >= channels then prior[i - channels] else 0)
  }

  /** Section 6.2 to 6.6: what an encoder writes for a raw row. */
  function Filtered(kind: byte, row: seq<byte>, prior: seq<byte>, channels: nat): (out: seq<byte>)
    requires Known(kind) && |row| == |prior|
    ensures |out| == |row|
  {
    seq(|row|, i requires 0 <= i < |row| => Minus(row[i], PredictorAt(kind, row, prior, i, channels)))
  }

  /** What the reconstruction makes of an encoded row, byte by byte from the left. */
  function Unfiltered(kind: byte, encoded: seq<byte>, prior: seq<byte>, channels: nat): (out: seq<byte>)
    requires Known(kind) && |encoded| <= |prior| && channels > 0
    ensures |out| == |encoded|
  {
    if encoded == [] then []
    else
      var i := |encoded| - 1;
      var front := Unfiltered(kind, encoded[..i], prior, channels);
      front + [Plus(encoded[i], PredictorAt(kind, front, prior, i, channels))]
  }

  lemma {:induction false} RowRoundTrip(kind: byte, row: seq<byte>, prior: seq<byte>, channels: nat, n: nat)
    requires Known(kind) && |row| == |prior| && channels > 0 && n <= |row|
    ensures Unfiltered(kind, Filtered(kind, row, prior, channels)[..n], prior, channels) == row[..n]
    decreases n
  {
    if n > 0 {
      var encoded := Filtered(kind, row, prior, channels);
      RowRoundTrip(kind, row, prior, channels, n - 1);
      assert encoded[..n][..n - 1] == encoded[..n - 1];
      var p := PredictorAt(kind, row, prior, n - 1, channels);
      assert PredictorAt(kind, row[..n - 1], prior, n - 1, channels) == p;
      PlusUndoesMinus(row[n - 1], p);
      hide Plus, Minus, Predictor;
    }
  }

  /** The inner loop of png_rgb: the row is rewritten in place, each byte from bytes already raw. */
  method UnfilterRow(kind: byte, row: array<byte>, previous: seq<byte>, channels: nat) returns (ok: bool)
    requires row.Length == |previous| && channels > 0
    modifies row
    ensures ok <==> Known(kind) || row.Length == 0
    ensures ok && Known(kind) ==> row[..] == Unfiltered(kind, old(row[..]), previous, channels)
  {
    hide Predictor, Plus;
    ghost var encoded := row[..];
    for i := 0 to row.Length
      invariant Known(kind) ==> row[..i] == Unfiltered(kind, encoded[..i], previous, channels)
      invariant row[i..] == encoded[i..] && (i > 0 ==> Known(kind))
    {
      if !Known(kind) { return false; }
      var a := if i >= channels then row[i - channels] else 0;
      var b := previous[i];
      var c := if i >= channels then previous[i - channels] else 0;
      var predictor := Predictor(kind, a, b, c);
      assert encoded[..i + 1][..i] == encoded[..i] && row[i] == encoded[i..][0];
      row[i] := Plus(row[i], predictor);
    }
    assert row[..row.Length] == row[..] && encoded[..row.Length] == encoded;
    return true;
  }

  // ---- a whole image -----------------------------------------------------------------------

  /** The rows of a decompressed image, each after its filter byte; none once a filter is unknown. */
  function Rows(raw: seq<byte>, stride: nat, channels: nat): (rows: Option<seq<seq<byte>>>)
    requires channels > 0
    ensures rows.Some? ==> forall k | 0 <= k < |rows.value| :: |rows.value[k]| == stride
    decreases |raw|
  {
    if raw == [] then Some([])
    else if |raw| < stride + 1 then None
    else
      var at := |raw| - (stride + 1);
      var front := Rows(raw[..at], stride, channels);
      if front.None? || !Known(raw[at]) then None
      else Some(front.value + [Unfiltered(raw[at], raw[at + 1..], Above(front.value, stride), channels)])
  }

  /** The row above the next one: zeroes above the first. */
  function Above(rows: seq<seq<byte>>, stride: nat): (row: seq<byte>)
    requires forall k | 0 <= k < |rows| :: |rows[k]| == stride
    ensures |row| == stride
  {
    if rows == [] then seq(stride, _ => 0) else rows[|rows| - 1]
  }

  /** One more encoded row. */
  lemma OneMoreRow(raw: seq<byte>, at: nat, stride: nat, channels: nat)
    requires channels > 0 && |raw| == at + stride + 1
    ensures var front := Rows(raw[..at], stride, channels);
            Rows(raw, stride, channels) ==
              if front.None? || !Known(raw[at]) then None
              else Some(front.value + [Unfiltered(raw[at], raw[at + 1..], Above(front.value, stride), channels)])
  {
    hide Unfiltered, Above;
  }

  /** The encoder: each row under a filter of its own choice. */
  function Encoded(rows: seq<seq<byte>>, kinds: seq<byte>, stride: nat, channels: nat): (raw: seq<byte>)
    requires |kinds| == |rows| && (forall k | 0 <= k < |rows| :: |rows[k]| == stride && Known(kinds[k]))
  {
    if rows == [] then []
    else
      var n := |rows| - 1;
      Encoded(rows[..n], kinds[..n], stride, channels) + [kinds[n]] + Filtered(kinds[n], rows[n], Above(rows[..n], stride), channels)
  }

  lemma ThreeParts<T>(front: seq<T>, x: T, back: seq<T>)
    ensures var whole := front + [x] + back;
            whole[..|front|] == front && whole[|front|] == x && whole[|front| + 1..] == back
  {}

  lemma LastRow<T>(rows: seq<T>)
    requires rows != []
    ensures rows[..|rows| - 1] + [rows[|rows| - 1]] == rows
  {}

  lemma WholeRow(kind: byte, row: seq<byte>, prior: seq<byte>, channels: nat)
    requires Known(kind) && |row| == |prior| && channels > 0
    ensures Unfiltered(kind, Filtered(kind, row, prior, channels), prior, channels) == row
  {
    RowRoundTrip(kind, row, prior, channels, |row|);
    assert Filtered(kind, row, prior, channels)[..|row|] == Filtered(kind, row, prior, channels) && row[..|row|] == row;
  }

  /** For every image, 3 or 4 channels and any choice of filters, reconstruction gives the rows back. */
  lemma {:induction false} ImageRoundTrip(rows: seq<seq<byte>>, kinds: seq<byte>, stride: nat, channels: nat)
    requires channels > 0 && |kinds| == |rows| && (forall k | 0 <= k < |rows| :: |rows[k]| == stride && Known(kinds[k]))
    ensures Rows(Encoded(rows, kinds, stride, channels), stride, channels) == Some(rows)
    decreases |rows|
  {
    if rows != [] {
      hide Filtered, Unfiltered, Above, Rows;
      var n := |rows| - 1;
      ImageRoundTrip(rows[..n], kinds[..n], stride, channels);
      var front := Encoded(rows[..n], kinds[..n], stride, channels);
      var row := Filtered(kinds[n], rows[n], Above(rows[..n], stride), channels);
      ThreeParts(front, kinds[n], row);
      OneMoreRow(front + [kinds[n]] + row, |front|, stride, channels);
      WholeRow(kinds[n], rows[n], Above(rows[..n], stride), channels);
      LastRow(rows);
    }
  }

  /** The first three bytes of every pixel. */
  function Colours(row: seq<byte>, channels: nat): seq<byte>
    requires channels >= 3
    decreases |row|
  {
    if |row| < channels then [] else Colours(row[..|row| - channels], channels) + row[|row| - channels..][..3]
  }

  function AllColours(rows: seq<seq<byte>>, channels: nat): seq<byte>
    requires channels == 3 || channels == 4
  {
    if rows == [] then []
    else
      var last := rows[|rows| - 1];
      AllColours(rows[..|rows| - 1], channels) + if channels == 3 then last else Colours(last, channels)
  }

  method DropAlpha(row: array<byte>, width: nat) returns (colours: seq<byte>)
    requires row.Length == width * 4
    ensures colours == Colours(row[..], 4)
  {
    colours := [];
    hide Colours;
    ghost var bytes := row[..];
    var i := 0;
    assert Colours(bytes[..0], 4) == [] by { NoColours(bytes[..0]); }
    ghost var pixels := 0;
    while i < row.Length
      invariant i == pixels * 4 && pixels <= width && colours == Colours(bytes[..i], 4)
      decreases row.Length - i
    {
      OnePixelMore(bytes, i);
      colours := colours + row[i..i + 3];
      i, pixels := i + 4, pixels + 1;
    }
    assert bytes[..|bytes|] == bytes;
  }

  lemma NoColours(row: seq<byte>)
    requires row == []
    ensures Colours(row, 4) == []
  {}

  lemma OnePixelMore(row: seq<byte>, i: nat)
    requires i + 4 <= |row|
    ensures Colours(row[..i + 4], 4) == Colours(row[..i], 4) + row[i..i + 3]
  {
    assert row[..i + 4][..i] == row[..i] && row[..i + 4][i..][..3] == row[i..i + 3];
  }

  /** What a row adds to the result: itself, or its pixels without their last byte. */
  method ColoursOf(row: array<byte>, width: nat, channels: nat) returns (colours: seq<byte>)
    requires (channels == 3 || channels == 4) && row.Length == width * channels
    ensures colours == if channels == 3 then row[..] else Colours(row[..], channels)
  {
    if channels == 3 { return row[..]; }
    colours := DropAlpha(row, width);
  }

  lemma MulOrdered(a: nat, b: nat, step: nat)
    requires a <= b
    ensures a * step <= b * step
  {}

  lemma RowFits(k: nat, height: nat, step: nat)
    requires k < height
    ensures k * step + step == (k + 1) * step <= height * step
  {
    MulOrdered(k + 1, height, step);
  }

  /** One row of the image, from the bytes after its filter byte. */
  method NextRow(kind: byte, encoded: seq<byte>, previous: seq<byte>, channels: nat) returns (row: Option<array<byte>>)
    requires |encoded| == |previous| > 0 && channels > 0
    ensures row.Some? <==> Known(kind)
    ensures row.Some? ==> row.value[..] == Unfiltered(kind, encoded, previous, channels)
  {
    var bytes := new byte[|encoded|](i requires 0 <= i < |encoded| => encoded[i]);
    assert bytes[..] == encoded;
    var ok := UnfilterRow(kind, bytes, previous, channels);
    return if ok then Some(bytes) else None;
  }

  /** png_rgb, from the decompressed bytes on: the colours of the reconstructed rows, or the failed
      assertion on an unknown filter. */
  method PngRgb(raw: seq<byte>, width: nat, height: nat, channels: nat) returns (result: Option<seq<byte>>)
    requires channels == 3 || channels == 4
    requires width > 0 && |raw| == height * (width * channels + 1)
    ensures var rows := Rows(raw, width * channels, channels);
            result == if rows.None? then None else Some(AllColours(rows.value, channels))
  {
    hide Rows, Unfiltered, Colours, Above;
    var stride := width * channels;
    var out: seq<byte>, previous: seq<byte>, cursor := [], seq(stride, _ => 0), 0;
    ghost var rows: seq<seq<byte>> := [];
    NoRows(raw, stride, channels);
    for k := 0 to height
      invariant cursor == k * (stride + 1) <= |raw| && Rows(raw[..cursor], stride, channels) == Some(rows)
      invariant previous == Above(rows, stride) && out == AllColours(rows, channels)
    {
      RowFits(k, height, stride + 1);
      ghost var next := cursor + stride + 1;
      var row := NextRow(raw[cursor], raw[cursor + 1..cursor + 1 + stride], previous, channels);
      assert raw[..next][..cursor] == raw[..cursor] && raw[..next][cursor + 1..] == raw[cursor + 1..next];
      OneMoreRow(raw[..next], cursor, stride, channels);
      if row.None? {
        UnknownFilterStays(raw, next, height - k - 1, stride, channels);
        return None;
      }
      OneMoreColour(rows, row.value[..], stride, channels);
      rows := rows + [row.value[..]];
      var colours := ColoursOf(row.value, width, channels);
      out := out + colours;
      previous := row.value[..];
      cursor := cursor + 1 + stride;
    }
    assert raw[..cursor] == raw;
    return Some(out);
  }

  lemma NoRows(raw: seq<byte>, stride: nat, channels: nat)
    requires channels > 0
    ensures Rows(raw[..0], stride, channels) == Some([]) && Above([], stride) == seq(stride, _ => 0)
  {}

  lemma OneMoreColour(rows: seq<seq<byte>>, row: seq<byte>, stride: nat, channels: nat)
    requires channels == 3 || channels == 4
    requires |row| == stride && forall k | 0 <= k < |rows| :: |rows[k]| == stride
    ensures AllColours(rows + [row], channels) == AllColours(rows, channels) + if channels == 3 then row else Colours(row, channels)
    ensures Above(rows + [row], stride) == row
  {
    assert (rows + [row])[..|rows|] == rows;
  }

  lemma {:induction false} UnknownFilterStays(raw: seq<byte>, n: nat, more: nat, stride: nat, channels: nat)
    requires channels > 0 && n <= |raw| && Rows(raw[..n], stride, channels).None? && |raw| == n + more * (stride + 1)
    ensures Rows(raw, stride, channels).None?
    decreases more
  {
    hide Rows;
    if more > 0 {
      RowFits(more - 1, more, stride + 1);
      var at := |raw| - (stride + 1);
      assert raw[..at][..n] == raw[..n];
      OneMoreRow(raw, at, stride, channels);
      hide Unfiltered, Above;
      UnknownFilterStays(raw[..at], n, more - 1, stride, channels);
    } else {
      assert raw[..n] == raw;
    }
  }
}
