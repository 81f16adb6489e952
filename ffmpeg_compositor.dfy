/** `FFmpegCompositor`: a cropped face video per clip written frame by frame,
    an ffmpeg command per clip that layers it over a blurred background with
    the overlapping b-rolls, and a concat list joining the segments. Running
    ffmpeg, reading and writing video, and deleting temporary files are
    outside the model. */
module FFmpegRendering {
  import opened Wrappers
  import opened Models
  import PyText
  import PyPath
  import Compositing

  /** Output resolution, the blur radius as the configuration prints it, and
      the workspace directory. */
  datatype EditingConfig = EditingConfig(targetW: int, targetH: int, blurRadius: string, workspaceDir: string)

  /** The size of a decoded source frame. */
  datatype Shape = Shape(h: int, w: int)

  /** The source capture: whether it opens, and the frame sizes that
      successive reads return after seeking to a frame index. */
  datatype Source = Source(opens: bool, readsFrom: int -> seq<Shape>)

  /** One frame handed to the writer: the crop it came from and the clamped
      origin of the slice. */
  datatype WrittenFrame = WrittenFrame(crop: FrameCrop, x: int, y: int)

  function WriteOf(c: FrameCrop, s: Shape): WrittenFrame
  {
    WrittenFrame(c, Compositing.ClampOrigin(c.cropX, c.cropW, s.w), Compositing.ClampOrigin(c.cropY, c.cropH, s.h))
  }

  /** The writes of `_generate_cropped_video` from crop `j` and read `k` on,
      the read counter at `cur`: a frame is written only when the counter
      equals the next crop's frame index. */
  function MatchFrom(crops: seq<FrameCrop>, frames: seq<Shape>, j: nat, k: nat, cur: int): seq<WrittenFrame>
    requires j <= |crops| && k <= |frames|
    decreases |frames| - k
  {
    if j == |crops| || k == |frames| then []
    else if cur == crops[j].frameIndex then [WriteOf(crops[j], frames[k])] + MatchFrom(crops, frames, j + 1, k + 1, cur + 1)
    else MatchFrom(crops, frames, j, k + 1, cur + 1)
  }

  /** The slice origin of one write, clamped as `_generate_cropped_video`
      clamps it. */
  method CropFrame(c: FrameCrop, frame: Shape) returns (out: WrittenFrame)
    ensures out == WriteOf(c, frame)
  {
    var x := c.cropX;
    var y := c.cropY;
    x := if x < frame.w - c.cropW then x else frame.w - c.cropW;
    x := if x < 0 then 0 else x;
    y := if y < frame.h - c.cropH then y else frame.h - c.cropH;
    y := if y < 0 then 0 else y;
    out := WrittenFrame(c, x, y);
  }

  /** `None` where `_generate_cropped_video` returns False. */
  function CroppedVideo(src: Source, crops: seq<FrameCrop>): Option<seq<WrittenFrame>>
  {
    if !src.opens || |crops| == 0 then None
    else Some(MatchFrom(crops, src.readsFrom(crops[0].frameIndex), 0, 0, crops[0].frameIndex))
  }

  method GenerateCroppedVideo(src: Source, crops: seq<FrameCrop>) returns (ok: bool, written: seq<WrittenFrame>)
    ensures ok == CroppedVideo(src, crops).Some?
    ensures ok ==> written == CroppedVideo(src, crops).value
  {
    written := [];
    if !src.opens {
      return false, written;
    }
    if |crops| == 0 {
      return false, written;
    }
    var startFrame := crops[0].frameIndex;
    var frames := src.readsFrom(startFrame);
    ghost var all := MatchFrom(crops, frames, 0, 0, startFrame);
    var currentIdx := startFrame;
    var next := 0;
    ghost var k := 0;
    while next < |crops|
      invariant 0 <= next <= |crops| && 0 <= k <= |frames| && currentIdx == startFrame + k
      invariant written + MatchFrom(crops, frames, next, k, currentIdx) == all
      decreases |frames| - k
    {
      if currentIdx - startFrame >= |frames| {
        break;
      }
      var frame := frames[currentIdx - startFrame];
      if currentIdx == crops[next].frameIndex {
        var out := CropFrame(crops[next], frame);
        assert MatchFrom(crops, frames, next, k, currentIdx) == [out] + MatchFrom(crops, frames, next + 1, k + 1, currentIdx + 1);
        written := written + [out];
        next := next + 1;
      }
      currentIdx := currentIdx + 1;
      k := k + 1;
    }
    return true, written;
  }

  /** Crops are consumed in order, at most once each and at most one per
      read frame, and every slice origin is clamped to be non-negative. */
  lemma {:induction false} MatchInOrder(crops: seq<FrameCrop>, frames: seq<Shape>, j: nat, k: nat, cur: int)
    requires j <= |crops| && k <= |frames|
    ensures var w := MatchFrom(crops, frames, j, k, cur);
      |w| <= |crops| - j && |w| <= |frames| - k
      && forall i :: 0 <= i < |w| ==> w[i].crop == crops[j + i] && 0 <= w[i].x && 0 <= w[i].y
    decreases |frames| - k
  {
    if j < |crops| && k < |frames| {
      if cur == crops[j].frameIndex {
        MatchInOrder(crops, frames, j + 1, k + 1, cur + 1);
      } else {
        MatchInOrder(crops, frames, j, k + 1, cur + 1);
      }
    }
  }

  /** Crops with consecutive frame indices from the read position, and at
      least as many readable frames, are all written. */
  lemma {:induction false} ConsecutiveAllWritten(crops: seq<FrameCrop>, frames: seq<Shape>, j: nat, k: nat, cur: int)
    requires j <= |crops| && k <= |frames| && |crops| - j <= |frames| - k
    requires forall i :: j <= i < |crops| ==> crops[i].frameIndex == cur + (i - j)
    ensures |MatchFrom(crops, frames, j, k, cur)| == |crops| - j
    decreases |crops| - j
  {
    if j < |crops| {
      ConsecutiveAllWritten(crops, frames, j + 1, k + 1, cur + 1);
    }
  }

  function I(n: int): string
  {
    PyText.IntToString(n)
  }

  /** The blurred, zoomed background chain, up to its output label. */
  function BlurChain(cfg: EditingConfig): string
  {
    "[0:v]scale=-2:" + I(cfg.targetH) + ",crop=" + I(cfg.targetW) + ":" + I(cfg.targetH)
    + ",boxblur=" + cfg.blurRadius + ":5"
  }

  /** The background chain as `render` writes it, ending in "[bg]". */
  function BackgroundFilter(cfg: EditingConfig): string
  {
    BlurChain(cfg) + "[bg]"
  }

  const FaceOverlay: string := "[1:v]overlay=(W-w)/2:(H-h)/2"

  /** The face video (input 1) centred over "[bg]", labelled "[v1]". */
  const FaceFilter: string := "[bg]" + FaceOverlay + "[v1]"

  /** The label of the video stream after `n` b-roll overlays. */
  function Label(n: nat): string
  {
    if n == 0 then "v1" else "v" + I(n + 1)
  }

  /** `max(0, br.start - start_t)` as printed: the int 0 prints as "0". */
  function RelStartText(br: BRollSegment, startT: real, fmt: real -> string): string
  {
    var x := br.start - startT;
    if x > 0.0 then fmt(x) else "0"
  }

  function RelStart(br: BRollSegment, startT: real): real
  {
    var x := br.start - startT;
    if x > 0.0 then x else 0.0
  }

  /** `duration = end_t - start_t`. */
  function Duration(startT: real, endT: real): real
  {
    endT - startT
  }

  /** `min(duration, br.end - start_t)`. */
  function RelEnd(br: BRollSegment, startT: real, duration: real): real
  {
    var x := br.end - startT;
    if x < duration then x else duration
  }

  /** The `idx`-th selected b-roll, ffmpeg input `idx + 2`, scaled and
      cropped to the output size as stream `br<idx>`. */
  function ScaleChain(cfg: EditingConfig, idx: nat): string
  {
    "[" + I(idx + 2) + ":v]" + ScaleBody(cfg, idx)
  }

  function ScaleBody(cfg: EditingConfig, idx: nat): string
  {
    "scale=" + I(cfg.targetW) + ":" + I(cfg.targetH) + ":force_original_aspect_ratio=increase,"
    + "crop=" + I(cfg.targetW) + ":" + I(cfg.targetH) + "[br" + I(idx) + "];"
  }

  /** Stream `br<idx>` laid over the previous overlay's output while `t` is
      inside the enable window, labelled `v<idx + 2>`. */
  function OverlayChain(idx: nat, relStart: string, relEnd: string): string
  {
    ("[" + Label(idx) + "]") + OverlayBody(idx, relStart, relEnd) + ("[" + ("v" + I(idx + 2)) + "];")
  }

  function OverlayBody(idx: nat, relStart: string, relEnd: string): string
  {
    "[br" + I(idx) + "]overlay=enable='between(t," + relStart + "," + relEnd + ")'"
  }

  /** The scale chain reads input `idx + 2`. */
  lemma ScaleChainInput(cfg: EditingConfig, idx: nat)
    ensures PyText.StartsWith(ScaleChain(cfg, idx), "[" + I(idx + 2) + ":v]")
  {
    PyText.StartsWithConcat("[" + I(idx + 2) + ":v]", ScaleBody(cfg, idx));
  }

  /** `v<idx + 2>` is the label after `idx + 1` overlays. */
  lemma NextLabel(idx: nat, next: nat)
    requires next == idx + 1
    ensures "v" + I(idx + 2) == Label(next)
  {
  }

  /** The overlay chain consumes the previous overlay's label ... */
  lemma OverlayChainInput(idx: nat, relStart: string, relEnd: string)
    ensures PyText.StartsWith(OverlayChain(idx, relStart, relEnd), "[" + Label(idx) + "]")
  {
    var head := "[" + Label(idx) + "]";
    var body := OverlayBody(idx, relStart, relEnd);
    PyText.StartsWithConcat(head, body);
    PyText.StartsWithAppend(head + body, ("[" + ("v" + I(idx + 2)) + "];"), head);
  }

  /** ... and produces the label after `idx + 1` overlays. */
  lemma OverlayChainOutput(idx: nat, next: nat, relStart: string, relEnd: string)
    requires next == idx + 1
    ensures PyText.EndsWith(OverlayChain(idx, relStart, relEnd), "[" + Label(next) + "];")
  {
    var tail := "[" + ("v" + I(idx + 2)) + "];";
    PyText.EndsWithConcat("[" + Label(idx) + "]" + OverlayBody(idx, relStart, relEnd), tail);
    assert PyText.EndsWith(OverlayChain(idx, relStart, relEnd), tail);
    NextLabel(idx, next);
    assert tail == "[" + Label(next) + "];";
  }

  /** The fixed opening of every graph: the background chain and the face
      overlay, emitted back to back. */
  function FilterHead(cfg: EditingConfig): string
  {
    BackgroundFilter(cfg) + FaceFilter
  }

  /** The scale and overlay chains of the first `n` b-rolls, in order. */
  function Chains(cfg: EditingConfig, brs: seq<BRollSegment>, startT: real, duration: real,
                  fmt: real -> string, n: nat): string
    requires n <= |brs|
  {
    if n == 0 then ""
    else
      var br := brs[n - 1];
      Chains(cfg, brs, startT, duration, fmt, n - 1) + ScaleChain(cfg, n - 1)
      + OverlayChain(n - 1, RelStartText(br, startT, fmt), fmt(RelEnd(br, startT, duration)))
  }

  lemma ChainsStep(cfg: EditingConfig, brs: seq<BRollSegment>, startT: real, duration: real,
                   fmt: real -> string, n: nat, rs: string, re: string)
    requires 0 < n <= |brs|
    requires rs == RelStartText(brs[n - 1], startT, fmt) && re == fmt(RelEnd(brs[n - 1], startT, duration))
    ensures Chains(cfg, brs, startT, duration, fmt, n)
            == Chains(cfg, brs, startT, duration, fmt, n - 1) + ScaleChain(cfg, n - 1) + OverlayChain(n - 1, rs, re)
  {
  }

  /** `filter_str` after the first `n` b-rolls of the clip have been added. */
  function FilterString(cfg: EditingConfig, brs: seq<BRollSegment>, startT: real, duration: real,
                        fmt: real -> string, n: nat): string
    requires n <= |brs|
  {
    FilterHead(cfg) + Chains(cfg, brs, startT, duration, fmt, n)
  }

  /** Every graph opens with the background chain immediately followed by the
      face overlay. */
  lemma FilterStarts(cfg: EditingConfig, brs: seq<BRollSegment>, startT: real, duration: real,
                     fmt: real -> string, n: nat)
    requires n <= |brs|
    ensures PyText.StartsWith(FilterString(cfg, brs, startT, duration, fmt, n), BackgroundFilter(cfg) + FaceFilter)
  {
    PyText.StartsWithConcat(FilterHead(cfg), Chains(cfg, brs, startT, duration, fmt, n));
  }

  /** Without b-rolls the graph ends with the face overlay's "[v1]". */
  lemma FilterEndsFace(cfg: EditingConfig, brs: seq<BRollSegment>, startT: real, duration: real,
                       fmt: real -> string)
    ensures PyText.EndsWith(FilterString(cfg, brs, startT, duration, fmt, 0), "[v1]")
  {
    FaceFilterEnds();
    PyText.EndsWithAppend(BackgroundFilter(cfg), FaceFilter, "[v1]");
    PyText.EmptyTail(FilterHead(cfg));
  }

  /** With `n > 0` b-rolls the graph ends in the last overlay's output label,
      followed by ";". */
  lemma FilterEndsOverlay(cfg: EditingConfig, brs: seq<BRollSegment>, startT: real, duration: real,
                          fmt: real -> string, n: nat)
    requires 0 < n <= |brs|
    ensures PyText.EndsWith(FilterString(cfg, brs, startT, duration, fmt, n), "[" + Label(n) + "];")
  {
    var rs := RelStartText(brs[n - 1], startT, fmt);
    var re := fmt(RelEnd(brs[n - 1], startT, duration));
    var x := "[" + Label(n) + "];";
    OverlayChainOutput(n - 1, n, rs, re);
    assert PyText.EndsWith(OverlayChain(n - 1, rs, re), x);
    ChainsStep(cfg, brs, startT, duration, fmt, n, rs, re);
    var a := Chains(cfg, brs, startT, duration, fmt, n - 1) + ScaleChain(cfg, n - 1);
    var ov := OverlayChain(n - 1, rs, re);
    PyText.EndsWithAppend(a, ov, x);
    assert PyText.EndsWith(a + ov, x);
    var c := Chains(cfg, brs, startT, duration, fmt, n);
    PyText.EndsWithEq(c, a + ov, x);
    assert PyText.EndsWith(c, x);
    PyText.EndsWithAppend(FilterHead(cfg), c, x);
  }

  lemma FaceFilterEnds()
    ensures PyText.StartsWith(FaceFilter, "[bg]") && PyText.EndsWith(FaceFilter, "[v1]")
  {
    PyText.StartsWithConcat("[bg]", FaceOverlay);
    PyText.StartsWithAppend("[bg]" + FaceOverlay, "[v1]", "[bg]");
    PyText.EndsWithConcat("[bg]" + FaceOverlay, "[v1]");
  }

  /** As written, the background chain and the face overlay run together
      with no ";" between them: "[bg][bg]" appears where they meet. */
  lemma {:induction false} MissingSeparator(cfg: EditingConfig)
    ensures BackgroundFilter(cfg) + FaceFilter == BlurChain(cfg) + "[bg][bg]" + FaceOverlay + "[v1]"
  {
    PyText.Regroup(BlurChain(cfg), "[bg]", "[bg]", FaceOverlay, "[v1]");
    assert "[bg]" + "[bg]" == "[bg][bg]";
  }

  /** Strict overlap, as in `compositor.py`. */
  predicate Overlaps(startT: real, endT: real, br: BRollSegment)
  {
    Compositing.Overlaps(startT, endT, br)
  }

  /** The b-rolls among the first `n` segments that overlap [startT, endT]. */
  function SelectBRolls(segs: seq<BRollSegment>, startT: real, endT: real, n: nat): seq<BRollSegment>
    requires n <= |segs|
  {
    if n == 0 then []
    else SelectBRolls(segs, startT, endT, n - 1) + (if Overlaps(startT, endT, segs[n - 1]) then [segs[n - 1]] else [])
  }

  /** A segment is selected exactly when it is one of the segments and
      overlaps the clip. */
  lemma {:induction false} SelectBRollsExact(segs: seq<BRollSegment>, startT: real, endT: real, n: nat, b: BRollSegment)
    requires n <= |segs|
    ensures b in SelectBRolls(segs, startT, endT, n) <==> b in segs[..n] && Overlaps(startT, endT, b)
  {
    if n > 0 {
      SelectBRollsExact(segs, startT, endT, n - 1, b);
      assert segs[..n] == segs[..n - 1] + [segs[n - 1]];
    }
  }

  /** Under strict overlap with a clip of length `duration = end_t - start_t`,
      the enable window is a non-empty interval inside the clip; and it is
      non-empty only under overlap. */
  lemma EnableWindow(br: BRollSegment, startT: real, endT: real)
    ensures Overlaps(startT, endT, br) ==>
      0.0 <= RelStart(br, startT) < RelEnd(br, startT, Duration(startT, endT)) <= Duration(startT, endT)
    ensures RelStart(br, startT) < RelEnd(br, startT, Duration(startT, endT)) ==> Overlaps(startT, endT, br)
  {
  }

  /** `-i <path>` for each of the first `n` selected b-rolls. */
  function InputArgs(brs: seq<BRollSegment>, n: nat): (args: seq<string>)
    requires n <= |brs|
    ensures |args| == 2 * n
  {
    if n == 0 then [] else InputArgs(brs, n - 1) + ["-i", brs[n - 1].videoPath]
  }

  lemma {:induction false} InputArgsAt(brs: seq<BRollSegment>, n: nat, i: nat)
    requires n <= |brs| && i < n
    ensures InputArgs(brs, n)[2 * i] == "-i" && InputArgs(brs, n)[2 * i + 1] == brs[i].videoPath
  {
    if i < n - 1 {
      InputArgsAt(brs, n - 1, i);
    }
  }

  /** The command for one segment, given `str` of its start and length, its
      b-rolls, the filter graph and the label of the stream to map. */
  function SegmentCommand(sourcePath: string, facePath: string, segmentPath: string, startText: string,
                          durationText: string, brs: seq<BRollSegment>, filter: string, last: string): seq<string>
  {
    ["ffmpeg", "-y", "-ss", startText, "-t", durationText, "-i", sourcePath, "-i", facePath]
    + InputArgs(brs, |brs|)
    + ["-filter_complex", filter, "-map", "[" + last + "]", "-map", "0:a", "-c:v", "libx264", "-preset", "fast", segmentPath]
  }

  /** Input 0 is the source, input 1 the face video, and the `i`-th selected
      b-roll is the `(i + 2)`-th `-i` input; the graph and the mapped label
      follow the inputs and the segment file comes last. */
  lemma CommandInputs(sourcePath: string, facePath: string, segmentPath: string, startText: string,
                      durationText: string, brs: seq<BRollSegment>, filter: string, last: string, i: nat)
    requires i < |brs|
    ensures var cmd := SegmentCommand(sourcePath, facePath, segmentPath, startText, durationText, brs, filter, last);
      |cmd| == 21 + 2 * |brs|
      && cmd[6] == "-i" && cmd[7] == sourcePath && cmd[8] == "-i" && cmd[9] == facePath
      && cmd[10 + 2 * i] == "-i" && cmd[11 + 2 * i] == brs[i].videoPath
      && cmd[10 + 2 * |brs|] == "-filter_complex" && cmd[11 + 2 * |brs|] == filter
      && cmd[13 + 2 * |brs|] == "[" + last + "]" && cmd[20 + 2 * |brs|] == segmentPath
  {
    InputArgsAt(brs, |brs|, i);
  }

  /** The command `render` runs for a clip spanning [startT, endT]. */
  function ClipCommand(cfg: EditingConfig, plan: RenderPlan, clipId: string, startT: real, endT: real,
                       fmt: real -> string): seq<string>
  {
    var brs := SelectBRolls(plan.bRollSegments, startT, endT, |plan.bRollSegments|);
    SegmentCommand(plan.sourceVideoPath, FacePath(cfg, clipId), SegmentPath(cfg, clipId), fmt(startT),
                   fmt(Duration(startT, endT)), brs, FilterString(cfg, brs, startT, Duration(startT, endT), fmt, |brs|), Label(|brs|))
  }

  function FacePath(cfg: EditingConfig, clipId: string): string
  {
    PyPath.Child(cfg.workspaceDir, "face_" + clipId + ".mp4")
  }

  function SegmentPath(cfg: EditingConfig, clipId: string): string
  {
    PyPath.Child(cfg.workspaceDir, "segment_" + clipId + ".mp4")
  }

  /** `file '<path>'` lines, one per segment, in order. */
  function ConcatList(files: seq<string>): string
  {
    if |files| == 0 then "" else ConcatList(files[..|files| - 1]) + "file '" + files[|files| - 1] + "'\n"
  }

  function ConcatCommand(output: string): seq<string>
  {
    ["ffmpeg", "-y", "-f", "concat", "-safe", "0", "-i", "concat_list.txt", "-c", "copy", output]
  }

  datatype ConcatJob = ConcatJob(listText: string, command: seq<string>)

  /** `_concat_segments`: the list file's text and the ffmpeg command. */
  method ConcatSegments(files: seq<string>, output: string) returns (job: ConcatJob)
    ensures job == ConcatJob(ConcatList(files), ConcatCommand(output))
  {
    var text := "";
    for i := 0 to |files|
      invariant text == ConcatList(files[..i])
    {
      assert files[..i + 1][..i] == files[..i];
      text := text + "file '" + files[i] + "'\n";
    }
    assert files[..|files|] == files;
    job := ConcatJob(text, ["ffmpeg", "-y", "-f", "concat", "-safe", "0", "-i", "concat_list.txt", "-c", "copy", output]);
  }

  function CountChar(s: string, c: char): nat
  {
    if |s| == 0 then 0 else CountChar(s[..|s| - 1], c) + (if s[|s| - 1] == c then 1 else 0)
  }

  lemma {:induction false} CountCharAppend(a: string, b: string, c: char)
    ensures CountChar(a + b, c) == CountChar(a, c) + CountChar(b, c)
    decreases |b|
  {
    if |b| > 0 {
      assert (a + b)[..|a + b| - 1] == a + b[..|b| - 1];
      CountCharAppend(a, b[..|b| - 1], c);
    } else {
      assert a + b == a;
    }
  }

  lemma {:induction false} CountCharAbsent(s: string, c: char)
    requires forall i :: 0 <= i < |s| ==> s[i] != c
    ensures CountChar(s, c) == 0
  {
    if |s| > 0 {
      CountCharAbsent(s[..|s| - 1], c);
    }
  }

  /** With newline-free paths the list has exactly one line per segment. */
  lemma {:induction false} ConcatListLines(files: seq<string>)
    requires forall i :: 0 <= i < |files| ==> CountChar(files[i], '\n') == 0
    ensures CountChar(ConcatList(files), '\n') == |files|
  {
    if |files| > 0 {
      var init := files[..|files| - 1];
      var p := files[|files| - 1];
      ConcatListLines(init);
      CountCharAppend(ConcatList(init), "file '", '\n');
      CountCharAppend(ConcatList(init) + "file '", p, '\n');
      CountCharAppend(ConcatList(init) + "file '" + p, "'\n", '\n');
      CountCharAbsent("file '", '\n');
      assert CountChar("'\n", '\n') == CountChar("'", '\n') + 1;
    }
  }

  /** The list for several segments is the lists of its parts, joined. */
  lemma {:induction false} ConcatListAppend(a: seq<string>, b: seq<string>)
    ensures ConcatList(a + b) == ConcatList(a) + ConcatList(b)
    decreases |b|
  {
    if |b| > 0 {
      assert (a + b)[..|a + b| - 1] == a + b[..|b| - 1];
      ConcatListAppend(a, b[..|b| - 1]);
    } else {
      assert a + b == a;
    }
  }

  /** Everything `render` produces: the face videos' writes and the segment
      commands, one of each per clip whose crop video succeeded, the segment
      files, and the concat job when there is at least one segment. */
  datatype RenderRun = RenderRun(
    faceVideos: seq<seq<WrittenFrame>>, commands: seq<seq<string>>, segmentFiles: seq<string>,
    concat: Option<ConcatJob>)

  datatype Segments = Segments(faceVideos: seq<seq<WrittenFrame>>, commands: seq<seq<string>>, files: seq<string>)

  /** What one clip contributes: its face video's writes, its command and
      its segment file. */
  datatype ClipOutput = ClipOutput(written: seq<WrittenFrame>, command: seq<string>, file: string)

  /** `None` when the clip's crop video could not be generated; its
      timeline is from the first crop's timestamp to the last one's. */
  function ClipSegment(cfg: EditingConfig, plan: RenderPlan, src: Source, fmt: real -> string, cd: ClipCropData)
    : Option<ClipOutput>
  {
    match CroppedVideo(src, cd.frames)
    case None => None
    case Some(written) =>
      var startT := cd.frames[0].timestamp;
      var endT := cd.frames[|cd.frames| - 1].timestamp;
      Some(ClipOutput(written, ClipCommand(cfg, plan, cd.clipId, startT, endT, fmt), SegmentPath(cfg, cd.clipId)))
  }

  /** The segments from the first `n` entries of the plan. */
  function SegmentsUpTo(cfg: EditingConfig, plan: RenderPlan, src: Source, fmt: real -> string, n: nat): Segments
    requires n <= |plan.clipCropData|
  {
    if n == 0 then Segments([], [], [])
    else
      var prev := SegmentsUpTo(cfg, plan, src, fmt, n - 1);
      match ClipSegment(cfg, plan, src, fmt, plan.clipCropData[n - 1])
      case None => prev
      case Some(o) => Segments(prev.faceVideos + [o.written], prev.commands + [o.command], prev.files + [o.file])
  }

  function RenderSpec(cfg: EditingConfig, plan: RenderPlan, src: Source, fmt: real -> string): RenderRun
  {
    var segs := SegmentsUpTo(cfg, plan, src, fmt, |plan.clipCropData|);
    RenderRun(segs.faceVideos, segs.commands, segs.files,
              if |segs.files| == 0 then None else Some(ConcatJob(ConcatList(segs.files), ConcatCommand(plan.outputPath))))
  }

  /** The `clip_b_rolls` loop of `render`. */
  method SelectClipBRolls(segs: seq<BRollSegment>, startT: real, endT: real) returns (clipBRolls: seq<BRollSegment>)
    ensures clipBRolls == SelectBRolls(segs, startT, endT, |segs|)
  {
    clipBRolls := [];
    for j := 0 to |segs|
      invariant clipBRolls == SelectBRolls(segs, startT, endT, j)
    {
      var br := segs[j];
      var os := if br.start > startT then br.start else startT;
      var oe := if br.end < endT then br.end else endT;
      if os < oe {
        clipBRolls := clipBRolls + [br];
      }
    }
  }

  /** The `filter_str +=` loop of `render`, with the label it ends on. */
  method BuildFilter(cfg: EditingConfig, clipBRolls: seq<BRollSegment>, startT: real, duration: real,
                     fmt: real -> string) returns (filterStr: string, lastStream: string)
    ensures filterStr == FilterString(cfg, clipBRolls, startT, duration, fmt, |clipBRolls|)
    ensures lastStream == Label(|clipBRolls|)
  {
    filterStr := "";
    PyText.EmptyConcat(BackgroundFilter(cfg));
    filterStr := filterStr + BackgroundFilter(cfg);
    filterStr := filterStr + FaceFilter;
    PyText.EmptyTail(FilterHead(cfg));
    lastStream := "v1";
    for idx := 0 to |clipBRolls|
      invariant filterStr == FilterString(cfg, clipBRolls, startT, duration, fmt, idx)
      invariant lastStream == Label(idx)
    {
      var br := clipBRolls[idx];
      var relStart := RelStartText(br, startT, fmt);
      var relEnd := fmt(RelEnd(br, startT, duration));
      PyText.AppendTwo(FilterHead(cfg), Chains(cfg, clipBRolls, startT, duration, fmt, idx),
                       ScaleChain(cfg, idx), OverlayChain(idx, relStart, relEnd));
      filterStr := filterStr + ScaleChain(cfg, idx);
      filterStr := filterStr + OverlayChain(idx, relStart, relEnd);
      lastStream := "v" + I(idx + 2);
    }
  }

  /** The `cmd.extend(["-i", br.video_path])` loop. */
  method AddInputs(base: seq<string>, clipBRolls: seq<BRollSegment>) returns (cmd: seq<string>)
    ensures cmd == base + InputArgs(clipBRolls, |clipBRolls|)
  {
    cmd := base;
    for j := 0 to |clipBRolls|
      invariant cmd == base + InputArgs(clipBRolls, j)
    {
      cmd := cmd + ["-i", clipBRolls[j].videoPath];
    }
  }

  lemma ClipCommandIs(cfg: EditingConfig, plan: RenderPlan, clipId: string, startT: real, endT: real,
                      fmt: real -> string, brs: seq<BRollSegment>, filter: string, last: string)
    requires brs == SelectBRolls(plan.bRollSegments, startT, endT, |plan.bRollSegments|)
    requires filter == FilterString(cfg, brs, startT, Duration(startT, endT), fmt, |brs|)
    requires last == Label(|brs|)
    ensures ClipCommand(cfg, plan, clipId, startT, endT, fmt)
            == SegmentCommand(plan.sourceVideoPath, FacePath(cfg, clipId), SegmentPath(cfg, clipId), fmt(startT),
                              fmt(Duration(startT, endT)), brs, filter, last)
  {
  }

  /** One clip's command as `render` assembles it. */
  method BuildClipCommand(cfg: EditingConfig, plan: RenderPlan, clipId: string, startT: real, endT: real,
                          fmt: real -> string) returns (cmd: seq<string>)
    ensures cmd == ClipCommand(cfg, plan, clipId, startT, endT, fmt)
  {
    var duration := Duration(startT, endT);
    var tempFacePath := PyPath.Child(cfg.workspaceDir, "face_" + clipId + ".mp4");
    var segmentFinal := PyPath.Child(cfg.workspaceDir, "segment_" + clipId + ".mp4");
    cmd := ["ffmpeg", "-y", "-ss", fmt(startT), "-t", fmt(duration), "-i", plan.sourceVideoPath, "-i", tempFacePath];
    var clipBRolls := SelectClipBRolls(plan.bRollSegments, startT, endT);
    cmd := AddInputs(cmd, clipBRolls);
    var filterStr, lastStream := BuildFilter(cfg, clipBRolls, startT, duration, fmt);
    cmd := cmd + ["-filter_complex", filterStr, "-map", "[" + lastStream + "]", "-map", "0:a",
                  "-c:v", "libx264", "-preset", "fast", segmentFinal];
    ClipCommandIs(cfg, plan, clipId, startT, endT, fmt, clipBRolls, filterStr, lastStream);
  }

  /** The body of `render`'s loop for one clip. */
  method RenderClip(cfg: EditingConfig, plan: RenderPlan, src: Source, fmt: real -> string, cropData: ClipCropData)
    returns (out: Option<ClipOutput>)
    ensures out == ClipSegment(cfg, plan, src, fmt, cropData)
  {
    var ok, written := GenerateCroppedVideo(src, cropData.frames);
    if !ok {
      return None;
    }
    var startT := cropData.frames[0].timestamp;
    var endT := cropData.frames[|cropData.frames| - 1].timestamp;
    var cmd := BuildClipCommand(cfg, plan, cropData.clipId, startT, endT, fmt);
    out := Some(ClipOutput(written, cmd, PyPath.Child(cfg.workspaceDir, "segment_" + cropData.clipId + ".mp4")));
  }

  /** `render`: clips whose crop video fails are skipped; the others get a
      face video and a segment command; the segments are concatenated only
      when there is at least one. `fmt` stands for `str` on a float. */
  method Render(cfg: EditingConfig, plan: RenderPlan, src: Source, fmt: real -> string) returns (run: RenderRun)
    ensures run == RenderSpec(cfg, plan, src, fmt)
  {
    var faceVideos: seq<seq<WrittenFrame>> := [];
    var commands: seq<seq<string>> := [];
    var segmentFiles: seq<string> := [];
    for i := 0 to |plan.clipCropData|
      invariant Segments(faceVideos, commands, segmentFiles) == SegmentsUpTo(cfg, plan, src, fmt, i)
    {
      var out := RenderClip(cfg, plan, src, fmt, plan.clipCropData[i]);
      if out.Some? {
        faceVideos := faceVideos + [out.value.written];
        commands := commands + [out.value.command];
        segmentFiles := segmentFiles + [out.value.file];
      }
    }
    var concat: Option<ConcatJob> := None;
    if |segmentFiles| > 0 {
      var job := ConcatSegments(segmentFiles, plan.outputPath);
      concat := Some(job);
    }
    run := RenderRun(faceVideos, commands, segmentFiles, concat);
  }

  /** Each kept clip contributes one face video, one command and one segment
      file; a source that does not open yields no segments and so no concat. */
  lemma {:induction false} SegmentsOnlyForCrops(cfg: EditingConfig, plan: RenderPlan, src: Source, fmt: real -> string, n: nat)
    requires n <= |plan.clipCropData|
    ensures var s := SegmentsUpTo(cfg, plan, src, fmt, n);
      |s.faceVideos| == |s.commands| == |s.files| <= n
      && (!src.opens ==> s.files == [])
  {
    if n > 0 {
      SegmentsOnlyForCrops(cfg, plan, src, fmt, n - 1);
    }
  }

  /** The concat job exists exactly when some clip produced a segment. */
  lemma ConcatIffSegments(cfg: EditingConfig, plan: RenderPlan, src: Source, fmt: real -> string)
    ensures var r := RenderSpec(cfg, plan, src, fmt);
      r.concat.Some? == (|r.segmentFiles| > 0)
      && (r.concat.Some? ==> r.concat.value.listText == ConcatList(r.segmentFiles)
                             && r.concat.value.command[|r.concat.value.command| - 1] == plan.outputPath)
  {
  }
}
