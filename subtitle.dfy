/** `SubtitleOverlay`: karaoke captions drawn over a video, one caption line
    at a time, with the active word highlighted. */
module Subtitles {
  import opened Wrappers
  import opened Models
  import PyText
  import TextUtils

  /** What the font reports: the stroked bounding-box width of a text, and the
      unstroked width of a single space. */
  datatype Font = Font(textWidth: string -> int, spaceWidth: int)

  /** `vertical_position` of the overlay configuration. */
  datatype Style = Style(font: Font, verticalPosition: real)

  /** One `draw.text` call: the word, its top-left corner and whether it is
      drawn in the highlight colour rather than the text colour. */
  datatype Placed = Placed(text: string, x: int, y: int, highlighted: bool)

  /** The frame `make_text_frame` returns: the all-zero `H x W x 4` array, or
      a transparent `W x H` image with the words drawn on it. */
  datatype Frame = Transparent(h: int, w: int) | Caption(w: int, h: int, words: seq<Placed>)

  predicate GroupActive(g: CaptionGroup, t: real)
  {
    g.start <= t <= g.end
  }

  predicate WordActive(w: Word, t: real)
  {
    w.start <= t <= w.end
  }

  /** The lowest index from `i` on of a group showing at `t`, or -1. */
  function FirstGroup(groups: seq<CaptionGroup>, t: real, i: nat): (r: int)
    requires i <= |groups|
    ensures r == -1 || (i <= r < |groups| && GroupActive(groups[r], t))
    ensures forall j :: i <= j < |groups| && (r == -1 || j < r) ==> !GroupActive(groups[j], t)
    decreases |groups| - i
  {
    if i == |groups| then -1
    else if GroupActive(groups[i], t) then i
    else FirstGroup(groups, t, i + 1)
  }

  /** The lowest index from `i` on of a word spoken at `t`, or -1. */
  function FirstWord(words: seq<Word>, t: real, i: nat): (r: int)
    requires i <= |words|
    ensures r == -1 || (i <= r < |words| && WordActive(words[r], t))
    ensures forall j :: i <= j < |words| && (r == -1 || j < r) ==> !WordActive(words[j], t)
    decreases |words| - i
  {
    if i == |words| then -1
    else if WordActive(words[i], t) then i
    else FirstWord(words, t, i + 1)
  }

  /** How far the cursor has moved after the first `n` words: each word's
      width plus one space. */
  function Advance(words: seq<Word>, font: Font, n: nat): int
    requires n <= |words|
  {
    if n == 0 then 0
    else Advance(words, font, n - 1) + font.textWidth(words[n - 1].word) + font.spaceWidth
  }

  /** The first `n` words of a line placed left to right from `x0`. */
  function PlaceWords(words: seq<Word>, font: Font, x0: int, y: int, active: int, n: nat): seq<Placed>
    requires n <= |words|
  {
    if n == 0 then []
    else
      PlaceWords(words, font, x0, y, active, n - 1)
      + [Placed(words[n - 1].word, x0 + Advance(words, font, n - 1), y, n - 1 == active)]
  }

  /** The line's left edge: the group text centred, with Python's floor
      division (negative when the text is wider than the frame). */
  function LineX(w: int, style: Style, g: CaptionGroup): int
  {
    (w - style.font.textWidth(g.text)) / 2
  }

  function LineY(h: int, style: Style): int
  {
    PyText.Trunc(h as real * style.verticalPosition)
  }

  /** The drawing of group `g` with word `active` highlighted. */
  function Draw(w: int, h: int, style: Style, g: CaptionGroup, active: int): Frame
  {
    Caption(w, h, PlaceWords(g.words, style.font, LineX(w, style, g), LineY(h, style), active, |g.words|))
  }

  /** The (group, word) state shown at `t`, when some group is showing. */
  function StateAt(groups: seq<CaptionGroup>, t: real): (r: (int, int))
    ensures -1 <= r.0 < |groups|
    ensures r.0 >= 0 ==> -1 <= r.1 < |groups[r.0].words|
  {
    var gi := FirstGroup(groups, t, 0);
    if gi < 0 then (-1, -1) else (gi, FirstWord(groups[gi].words, t, 0))
  }

  /** What the subtitle clip shows at `t`. */
  function FrameAt(groups: seq<CaptionGroup>, w: int, h: int, style: Style, t: real): Frame
  {
    var s := StateAt(groups, t);
    if s.0 < 0 then Transparent(h, w) else Draw(w, h, style, groups[s.0], s.1)
  }

  /** Nothing is drawn exactly when no group's closed interval holds `t`. */
  lemma TransparentIffNoGroup(groups: seq<CaptionGroup>, w: int, h: int, style: Style, t: real)
    ensures FrameAt(groups, w, h, style, t).Transparent?
            <==> forall i :: 0 <= i < |groups| ==> !GroupActive(groups[i], t)
  {
  }

  /** The group shown is the first one whose interval holds `t`, both ends
      included, and the word highlighted is the first one spoken at `t`. */
  lemma ShownGroupIsFirst(groups: seq<CaptionGroup>, t: real)
    requires StateAt(groups, t).0 >= 0
    ensures var (gi, wi) := StateAt(groups, t);
      GroupActive(groups[gi], t) && (forall j :: 0 <= j < gi ==> !GroupActive(groups[j], t))
      && (wi == -1 <==> forall j :: 0 <= j < |groups[gi].words| ==> !WordActive(groups[gi].words[j], t))
      && (wi >= 0 ==> WordActive(groups[gi].words[wi], t)
                      && forall j :: 0 <= j < wi ==> !WordActive(groups[gi].words[j], t))
  {
  }

  /** Word `i` is drawn at the line's left edge plus the widths of the words
      before it, each followed by a space, and only word `active` is
      highlighted. */
  lemma {:induction false} PlacedWord(words: seq<Word>, font: Font, x0: int, y: int, active: int, n: nat, i: nat)
    requires i < n <= |words|
    ensures var p := PlaceWords(words, font, x0, y, active, n);
      |p| == n && p[i] == Placed(words[i].word, x0 + Advance(words, font, i), y, i == active)
    decreases n
  {
    PlaceWordsLength(words, font, x0, y, active, n - 1);
    if i < n - 1 {
      PlacedWord(words, font, x0, y, active, n - 1, i);
    }
  }

  lemma {:induction false} PlaceWordsLength(words: seq<Word>, font: Font, x0: int, y: int, active: int, n: nat)
    requires n <= |words|
    ensures |PlaceWords(words, font, x0, y, active, n)| == n
    decreases n
  {
    if n > 0 {
      PlaceWordsLength(words, font, x0, y, active, n - 1);
    }
  }

  /** With -1 (no word spoken at `t`) nothing is highlighted; otherwise
      exactly one word is. */
  lemma HighlightCount(words: seq<Word>, font: Font, x0: int, y: int, active: int)
    requires -1 <= active < |words|
    ensures var p := PlaceWords(words, font, x0, y, active, |words|);
      forall i :: 0 <= i < |p| ==> (p[i].highlighted <==> i == active)
  {
    var p := PlaceWords(words, font, x0, y, active, |words|);
    PlaceWordsLength(words, font, x0, y, active, |words|);
    forall i | 0 <= i < |p|
      ensures p[i].highlighted <==> i == active
    {
      PlacedWord(words, font, x0, y, active, |words|, i);
    }
  }

  /** When no width is negative, the words go left to right. */
  lemma {:induction false} AdvanceMonotone(words: seq<Word>, font: Font, i: nat, j: nat)
    requires i <= j <= |words| && font.spaceWidth >= 0
    requires forall k :: 0 <= k < |words| ==> font.textWidth(words[k].word) >= 0
    ensures Advance(words, font, i) <= Advance(words, font, j)
    decreases j
  {
    if i < j {
      AdvanceMonotone(words, font, i, j - 1);
    }
  }

  /** The `for i, group in enumerate(caption_groups)` scan with its `break`. */
  method FindActiveGroup(groups: seq<CaptionGroup>, t: real) returns (idx: int)
    ensures idx == FirstGroup(groups, t, 0)
  {
    idx := -1;
    var i := 0;
    while i < |groups|
      invariant 0 <= i <= |groups|
      invariant FirstGroup(groups, t, i) == FirstGroup(groups, t, 0)
    {
      if groups[i].start <= t <= groups[i].end {
        idx := i;
        break;
      }
      i := i + 1;
    }
  }

  /** The scan for the word spoken at `t` inside the active group. */
  method FindActiveWord(words: seq<Word>, t: real) returns (idx: int)
    ensures idx == FirstWord(words, t, 0)
  {
    idx := -1;
    var i := 0;
    while i < |words|
      invariant 0 <= i <= |words|
      invariant FirstWord(words, t, i) == FirstWord(words, t, 0)
    {
      if words[i].start <= t <= words[i].end {
        idx := i;
        break;
      }
      i := i + 1;
    }
  }

  /** Step 4 of `make_text_frame`: centre the line, then draw word by word,
      advancing the cursor by the word's width and a space. */
  method DrawFrame(w: int, h: int, style: Style, g: CaptionGroup, active: int) returns (frame: Frame)
    ensures frame == Draw(w, h, style, g, active)
  {
    var x := LineX(w, style, g);
    var y := LineY(h, style);
    var cursorX := x;
    var placed: seq<Placed> := [];
    for i := 0 to |g.words|
      invariant cursorX == x + Advance(g.words, style.font, i)
      invariant placed == PlaceWords(g.words, style.font, x, y, active, i)
    {
      var wordText := g.words[i].word;
      placed := placed + [Placed(wordText, cursorX, y, i == active)];
      var wWidth := style.font.textWidth(wordText);
      var spaceWidth := style.font.spaceWidth;
      cursorX := cursorX + wWidth + spaceWidth;
    }
    frame := Caption(w, h, placed);
  }

  /** `make_text_frame` with its single-slot memo (`last_state`, `last_frame`). */
  class TextFrameMaker {
    const groups: seq<CaptionGroup>
    const width: int
    const height: int
    const style: Style
    var lastState: (int, int)
    var lastFrame: Option<Frame>

    /** A cached frame is always the drawing of the cached state. */
    ghost predicate Valid()
      reads this
    {
      lastFrame.Some? ==>
        0 <= lastState.0 < |groups| && lastFrame.value == Draw(width, height, style, groups[lastState.0], lastState.1)
    }

    constructor (groups: seq<CaptionGroup>, width: int, height: int, style: Style)
      ensures Valid()
      ensures this.groups == groups && this.width == width && this.height == height && this.style == style
      ensures lastState == (-1, -1) && lastFrame == None
    {
      this.groups := groups;
      this.width := width;
      this.height := height;
      this.style := style;
      lastState := (-1, -1);
      lastFrame := None;
    }

    /** The frame at `t` is what a fresh drawing would give, whatever the
        cache held; the cache moves to the state shown, and is left alone
        when no group is showing. */
    method MakeTextFrame(t: real) returns (frame: Frame)
      requires Valid()
      modifies this
      ensures Valid()
      ensures frame == FrameAt(groups, width, height, style, t)
      ensures StateAt(groups, t).0 < 0 ==> lastState == old(lastState) && lastFrame == old(lastFrame)
      ensures StateAt(groups, t).0 >= 0 ==> lastState == StateAt(groups, t) && lastFrame == Some(frame)
    {
      var activeGroupIdx := FindActiveGroup(groups, t);
      if activeGroupIdx < 0 {
        return Transparent(height, width);
      }
      var activeGroup := groups[activeGroupIdx];
      var activeWordIdx := FindActiveWord(activeGroup.words, t);
      var currentState := (activeGroupIdx, activeWordIdx);
      if currentState == lastState && lastFrame.Some? {
        return lastFrame.value;
      }
      frame := DrawFrame(width, height, style, activeGroup, activeWordIdx);
      lastState := currentState;
      lastFrame := Some(frame);
    }
  }

  /** The words of the first `n` segments, in order. */
  function AllWords(segments: seq<Segment>, n: nat): seq<Word>
    requires n <= |segments|
  {
    if n == 0 then [] else AllWords(segments, n - 1) + segments[n - 1].words
  }

  /** The word list is empty exactly when every segment came back without
      word timestamps. */
  lemma {:induction false} AllWordsEmpty(segments: seq<Segment>, n: nat)
    requires n <= |segments|
    ensures AllWords(segments, n) == [] <==> forall i :: 0 <= i < n ==> segments[i].words == []
    decreases n
  {
    if n > 0 {
      AllWordsEmpty(segments, n - 1);
    }
  }

  /** Every word of every segment is in the list, at its segment's offset. */
  lemma {:induction false} AllWordsHas(segments: seq<Segment>, n: nat, i: nat, k: nat)
    requires i < n <= |segments| && k < |segments[i].words|
    ensures |AllWords(segments, i)| + k < |AllWords(segments, n)|
    ensures AllWords(segments, n)[|AllWords(segments, i)| + k] == segments[i].words[k]
    decreases n
  {
    if i < n - 1 {
      AllWordsHas(segments, n - 1, i, k);
    }
  }

  /** The `all_words.extend(seg.words)` loop. */
  method CollectWords(segments: seq<Segment>) returns (allWords: seq<Word>)
    ensures allWords == AllWords(segments, |segments|)
  {
    allWords := [];
    for i := 0 to |segments|
      invariant allWords == AllWords(segments, i)
    {
      allWords := allWords + segments[i].words;
    }
  }

  /** How `overlay_subtitles` ends: the video is missing, there are no
      words, or the caption groups handed to the renderer. */
  datatype Outcome = VideoMissing | NoWords | Rendered(groups: seq<CaptionGroup>)

  function OverlaySpec(videoExists: bool, transcript: TranscriptionResult, maxWords: int): Outcome
  {
    if !videoExists then VideoMissing
    else
      var words := AllWords(transcript.segments, |transcript.segments|);
      if words == [] then NoWords else Rendered(TextUtils.Groups(words, maxWords))
  }

  /** `overlay_subtitles` up to building the subtitle clip. */
  method OverlaySubtitles(videoExists: bool, transcript: TranscriptionResult, maxWords: int)
    returns (out: Outcome)
    ensures out == OverlaySpec(videoExists, transcript, maxWords)
  {
    if !videoExists {
      return VideoMissing;
    }
    var allWords := CollectWords(transcript.segments);
    if |allWords| == 0 {
      return NoWords;
    }
    var groups := TextUtils.ChunkWords(allWords, maxWords);
    return Rendered(groups);
  }

  /** A rendered overlay has at least one caption line, and its lines spell
      out the transcript's words in order; it is skipped for lack of words
      exactly when no segment has any. */
  lemma OverlayGroups(videoExists: bool, transcript: TranscriptionResult, maxWords: int)
    ensures var out := OverlaySpec(videoExists, transcript, maxWords);
      var segs := transcript.segments;
      (out.VideoMissing? <==> !videoExists)
      && (out.NoWords? <==> videoExists && forall i :: 0 <= i < |segs| ==> segs[i].words == [])
      && (out.Rendered? ==>
            |out.groups| > 0
            && TextUtils.Flatten(TextUtils.GroupWords(out.groups)) == AllWords(segs, |segs|))
  {
    var segs := transcript.segments;
    AllWordsEmpty(segs, |segs|);
    var words := AllWords(segs, |segs|);
    TextUtils.GroupsRoundTrip(words, maxWords);
    TextUtils.EmptyIffNoGroups(words, maxWords);
  }
}
