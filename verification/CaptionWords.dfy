/** Dividing spoken wording over captions and their phrases
    (backend/internal/clip/caption_refresh.go). Text is a sequence of runes. */
module CaptionWords {
  import opened Basics

  /** unicode.IsSpace. */
  predicate IsSpace(c: char) {
    || '\U{9}' <= c <= '\U{D}' || c == ' ' || c == '\U{85}' || c == '\U{A0}' || c == '\U{1680}'
    || '\U{2000}' <= c <= '\U{200A}' || c == '\U{2028}' || c == '\U{2029}' || c == '\U{202F}' || c == '\U{205F}' || c == '\U{3000}'
  }

  function NonSpace(text: string): string {
    if text == [] then [] else NonSpace(text[..|text| - 1]) + if IsSpace(text[|text| - 1]) then [] else [text[|text| - 1]]
  }

  function Flatten(pieces: seq<string>): string {
    if pieces == [] then [] else Flatten(pieces[..|pieces| - 1]) + pieces[|pieces| - 1]
  }

  lemma {:induction false} NonSpaceJoins(a: string, b: string)
    ensures NonSpace(a + b) == NonSpace(a) + NonSpace(b)
    decreases |b|
  {
    if b == [] {
      assert a + b == a;
    } else {
      NonSpaceJoins(a, b[..|b| - 1]);
      assert (a + b)[..|a + b| - 1] == a + b[..|b| - 1];
    }
  }

  // ---- trimming ----------------------------------------------------------------------------

  /** strings.TrimSpace. */
  function TrimSpace(text: string): (out: string)
    ensures NonSpace(out) == NonSpace(text)
    ensures out != [] ==> !IsSpace(out[0]) && !IsSpace(out[|out| - 1])
    decreases |text|
  {
    if text == [] then []
    else if IsSpace(text[|text| - 1]) then TrimSpace(text[..|text| - 1])
    else if IsSpace(text[0]) then
      assert text == [text[0]] + text[1..];
      NonSpaceJoins([text[0]], text[1..]);
      TrimSpace(text[1..])
    else text
  }

  // ---- the partition -----------------------------------------------------------------------

  /** The first space at or after `from`, or `from` itself where none follows. */
  function SpaceFrom(text: string, from: nat): (at: nat)
    requires from <= |text|
    ensures from <= at <= |text|
    ensures if exists j | from <= j < |text| :: IsSpace(text[j])
            then at < |text| && IsSpace(text[at]) && forall j | from <= j < at :: !IsSpace(text[j])
            else at == from
    decreases |text| - from
  {
    if from == |text| || IsSpace(text[from]) then from
    else
      var next := SpaceFrom(text, from + 1);
      if next < |text| && IsSpace(text[next]) then next else from
  }

  /** The share of the text that the first `i + 1` of `count` pieces get. */
  function Share(length: nat, i: nat, count: nat): int
    requires i < count
  {
    length * (i + 1) / count
  }

  lemma MulOrdered(a: nat, b: nat, c: nat)
    ensures a <= b ==> a * c <= b * c
  {}

  lemma QuotientBound(p: nat, length: nat, count: nat)
    requires count > 0 && p <= length * count
    ensures 0 <= p / count <= length
    ensures p == length * count ==> p / count == length
  {
    var d := p / count;
    assert d * count <= p < d * count + count;
    MulOrdered(length + 1, d, count);
    MulOrdered(d + 1, length, count);
  }

  lemma ShareIsInside(length: nat, i: nat, count: nat)
    requires i < count
    ensures 0 <= Share(length, i, count) <= length
    ensures i == count - 1 ==> Share(length, i, count) == length
  {
    MulOrdered(i + 1, count, length);
    QuotientBound(length * (i + 1), length, count);
  }

  /** Where piece number `i` of `count` ends. */
  function Cut(text: string, count: nat, i: nat): (end: nat)
    requires i < count
    ensures end <= |text| && (i == count - 1 ==> end == |text|)
  {
    hide Share;
    ShareIsInside(|text|, i, count);
    var share := Share(|text|, i, count);
    var end := if i < count - 1 then SpaceFrom(text, share) else share;
    if i == 0 then end else Max(end, Cut(text, count, i - 1))
  }

  function Start(text: string, count: nat, i: nat): (start: nat)
    requires i < count
    ensures start <= Cut(text, count, i)
  {
    if i == 0 then 0 else Cut(text, count, i - 1)
  }

  /** The pieces before trimming: contiguous slices of the text. */
  function Slices(text: string, count: nat): (slices: seq<string>)
    ensures |slices| == count
  {
    seq(count, i requires 0 <= i < count => text[Start(text, count, i)..Cut(text, count, i)])
  }

  lemma {:induction false} SlicesUpTo(text: string, count: nat, i: nat)
    requires i < count
    ensures Flatten(Slices(text, count)[..i + 1]) == text[..Cut(text, count, i)]
    decreases i
  {
    hide Cut;
    var slices := Slices(text, count);
    assert slices[..i + 1][..i] == slices[..i];
    if i > 0 {
      SlicesUpTo(text, count, i - 1);
      assert text[..Cut(text, count, i - 1)] + slices[i] == text[..Cut(text, count, i)];
    } else {
      assert slices[..0] == [];
    }
  }

  /** For every text and count, the slices put together are the whole text. */
  lemma SlicesAreTheText(text: string, count: nat)
    requires count > 0
    ensures Flatten(Slices(text, count)) == text
  {
    SlicesUpTo(text, count, count - 1);
    assert Slices(text, count)[..count] == Slices(text, count) && text[..|text|] == text;
  }

  /** A boundary between two pieces is at a space, or at a share of the text after which no space
      follows, or closes an empty piece: no word is cut while a space is still to come. */
  lemma BoundariesAreAtSpaces(text: string, count: nat, i: nat)
    requires i + 1 < count
    ensures var end := Cut(text, count, i);
            || (end < |text| && IsSpace(text[end]))
            || end == Start(text, count, i)
            || (end == Share(|text|, i, count) && forall j | end <= j < |text| :: !IsSpace(text[j]))
  {
    hide Share;
    ShareIsInside(|text|, i, count);
  }

  function Words(text: string, count: nat): (words: seq<string>)
    ensures |words| == count
  {
    seq(count, i requires 0 <= i < count => TrimSpace(Slices(text, count)[i]))
  }

  /** caption_refresh.go: CaptionWords. */
  method CaptionWords(text: string, count: int) returns (words: seq<string>)
    ensures words == if count <= 0 then [] else Words(text, count)
  {
    if count <= 0 { return []; }
    words := Divide(text, count);
  }

  method Divide(text: string, count: nat) returns (words: seq<string>)
    requires count > 0
    ensures words == Words(text, count)
  {
    hide SpaceFrom, Cut, Slices, TrimSpace, Share, Words;
    words := [];
    var start := 0;
    for i := 0 to count
      invariant 0 <= start <= |text| && (i < count ==> start == Start(text, count, i))
      invariant |words| == i && forall k | 0 <= k < i :: words[k] == Words(text, count)[k]
    {
      SliceIs(text, count, i);
      var end := Share(|text|, i, count);
      if i < count - 1 { end := NextSpace(text, end); }
      if end < start { end := start; }
      words := words + [TrimSpace(text[start..end])];
      start := end;
    }
  }

  lemma SliceIs(text: string, count: nat, i: nat)
    requires i < count
    ensures Words(text, count)[i] == TrimSpace(text[Start(text, count, i)..Cut(text, count, i)])
    ensures 0 <= Share(|text|, i, count) <= |text|
    ensures var end := if i < count - 1 then SpaceFrom(text, Share(|text|, i, count)) else Share(|text|, i, count);
            Cut(text, count, i) == Max(end, Start(text, count, i))
  {
    hide Share, TrimSpace;
    ShareIsInside(|text|, i, count);
  }

  /** The scan for the next space. */
  method NextSpace(text: string, from: nat) returns (at: nat)
    requires from <= |text|
    ensures at == SpaceFrom(text, from)
  {
    for j := from to |text|
      invariant forall k | from <= k < j :: !IsSpace(text[k])
    {
      if IsSpace(text[j]) { return j; }
    }
    return from;
  }

  // ---- what the pieces keep ----------------------------------------------------------------

  lemma {:induction false} TrimmingKeepsWords(slices: seq<string>, words: seq<string>)
    requires |words| == |slices| && forall k | 0 <= k < |slices| :: NonSpace(words[k]) == NonSpace(slices[k])
    ensures NonSpace(Flatten(words)) == NonSpace(Flatten(slices))
    decreases |slices|
  {
    if slices != [] {
      var n := |slices| - 1;
      TrimmingKeepsWords(slices[..n], words[..n]);
      NonSpaceJoins(Flatten(slices[..n]), slices[n]);
      NonSpaceJoins(Flatten(words[..n]), words[n]);
    }
  }

  /** The non-space runes of the pieces are those of the text, in order. */
  lemma WordsKeepTheText(text: string, count: nat)
    requires count > 0
    ensures NonSpace(Flatten(Words(text, count))) == NonSpace(text)
  {
    hide Slices, NonSpace;
    SlicesAreTheText(text, count);
    TrimmingKeepsWords(Slices(text, count), Words(text, count));
  }

  /** The captions' wording divided again over their phrases. */
  function Nested(text: string, phrases: seq<nat>): seq<string> {
    seq(|phrases|, i requires 0 <= i < |phrases| => Flatten(Words(Words(text, |phrases|)[i], phrases[i])))
  }

  /** Nesting the division per phrase still keeps every non-space rune in order. */
  lemma NestingKeepsTheText(text: string, phrases: seq<nat>)
    requires |phrases| > 0 && forall i | 0 <= i < |phrases| :: phrases[i] > 0
    ensures NonSpace(Flatten(Nested(text, phrases))) == NonSpace(text)
  {
    hide NonSpace, Flatten;
    var words := Words(text, |phrases|);
    forall i | 0 <= i < |phrases| ensures NonSpace(Nested(text, phrases)[i]) == NonSpace(words[i]) {
      WordsKeepTheText(words[i], phrases[i]);
    }
    TrimmingKeepsWords(words, Nested(text, phrases));
    WordsKeepTheText(text, |phrases|);
  }

  // ---- refreshing --------------------------------------------------------------------------

  datatype Phrase = Phrase(startMS: int, endMS: int, text: string)

  /** A caption derived from a spoken segment; `edited` is the owner's own wording. */
  datatype Caption = Caption(id: nat, phrases: seq<Phrase>, edited: bool, revision: int)

  predicate Refreshes(c: Caption, revision: int, wording: string, phraseWords: seq<string>) {
    [] !in phraseWords && !c.edited && c.revision != revision && wording != []
  }

  /** RefreshCaptionWords, for one segment and its captions in order of their start. */
  method RefreshSegment(text: string, revision: int, captions: seq<Caption>) returns (out: map<nat, string>)
    requires forall i, j | 0 <= i < j < |captions| :: captions[i].id != captions[j].id
    ensures forall i | 0 <= i < |captions| ::
              var wording := Words(text, |captions|)[i];
              if Refreshes(captions[i], revision, wording, Words(wording, |captions[i].phrases|))
              then captions[i].id in out && out[captions[i].id] == wording else captions[i].id !in out
    ensures forall id | id in out :: exists i | 0 <= i < |captions| :: captions[i].id == id
  {
    hide Words;
    out := map[];
    var words := CaptionWords(text, |captions|);
    for i := 0 to |captions|
      invariant forall k | 0 <= k < i ::
                  var wording := Words(text, |captions|)[k];
                  if Refreshes(captions[k], revision, wording, Words(wording, |captions[k].phrases|))
                  then captions[k].id in out && out[captions[k].id] == wording else captions[k].id !in out
      invariant forall id | id in out :: exists k | 0 <= k < i :: captions[k].id == id
    {
      var caption := captions[i];
      var phraseWords := CaptionWords(words[i], |caption.phrases|);
      assert captions[i].id !in out;
      if [] in phraseWords { continue; }
      if !caption.edited && caption.revision != revision && words[i] != [] { out := out[caption.id := words[i]]; }
    }
  }

  predicate TimesEqual(a: seq<Phrase>, b: seq<Phrase>) {
    |a| == |b| && forall k | 0 <= k < |a| :: a[k].startMS == b[k].startMS && a[k].endMS == b[k].endMS
  }

  /** refreshPhrasesEqual: exactly the unchanged times under the wording's own division. */
  method RefreshPhrasesEqual(expected: string, before: seq<Phrase>, edited: seq<Phrase>) returns (equal: bool)
    ensures equal <==> TimesEqual(before, edited) && forall k | 0 <= k < |edited| :: edited[k].text == Words(expected, |edited|)[k]
  {
    hide Words;
    if |before| != |edited| { return false; }
    for k := 0 to |before|
      invariant forall j | 0 <= j < k :: before[j].startMS == edited[j].startMS && before[j].endMS == edited[j].endMS
    {
      if before[k].startMS != edited[k].startMS || before[k].endMS != edited[k].endMS { return false; }
    }
    var words := CaptionWords(expected, |before|);
    for k := 0 to |edited|
      invariant forall j | 0 <= j < k :: edited[j].text == Words(expected, |edited|)[j]
    {
      if edited[k].text != words[k] { return false; }
    }
    return true;
  }

  /** A refresh's wording over a caption's own phrases. */
  function Reworded(phrases: seq<Phrase>, wording: string): (out: seq<Phrase>)
    ensures |out| == |phrases|
  {
    seq(|phrases|, k requires 0 <= k < |phrases| => phrases[k].(text := Words(wording, |phrases|)[k]))
  }

  /** Wording a refresh returns, divided over the caption's phrases with their times unchanged, is
      accepted, loses no rune of the wording, and leaves no phrase empty. */
  lemma RefreshedWordingIsAccepted(c: Caption, revision: int, wording: string)
    requires c.phrases != [] && Refreshes(c, revision, wording, Words(wording, |c.phrases|))
    ensures var out := Reworded(c.phrases, wording);
            && TimesEqual(c.phrases, out) && (forall k | 0 <= k < |out| :: out[k].text == Words(wording, |out|)[k])
            && (forall k | 0 <= k < |out| :: out[k].text != [])
    ensures NonSpace(Flatten(Words(wording, |c.phrases|))) == NonSpace(wording)
  {
    WordsKeepTheText(wording, |c.phrases|);
    hide Words;
    var words := Words(wording, |c.phrases|);
    forall k | 0 <= k < |words| ensures words[k] != [] { assert words[k] in words; }
  }
}
