/** `VideoCompositor`: per-time crop lookup and the layer plan `render`
    hands to the video library. MoviePy itself (decoding, resizing,
    compositing, encoding) is outside the model. */
module Compositing {
  import opened Wrappers
  import opened Models
  import PyText

  /** Python's `s[i]` for an int index: negative indices count from the end,
      anything else out of range raises. */
  function PyIndex<T>(s: seq<T>, i: int): (r: Option<T>)
    ensures r.Some? <==> -|s| <= i < |s|
    ensures 0 <= i < |s| ==> r == Some(s[i])
    ensures -|s| <= i < 0 ==> r == Some(s[|s| + i])
  {
    if 0 <= i < |s| then Some(s[i])
    else if -|s| <= i < 0 then Some(s[|s| + i])
    else None
  }

  /** `max(0, min(i, n - 1))`: inside [0, n) for a non-empty list. */
  function ClampIndex(i: int, n: int): (k: int)
    ensures n > 0 ==> 0 <= k < n
    ensures 0 <= i < n ==> k == i
    ensures n > 0 && i >= n ==> k == n - 1
    ensures i < 0 ==> k == 0
  {
    var m := if i < n - 1 then i else n - 1;
    if m < 0 then 0 else m
  }

  /** `_get_crop_at_time`: the crop at `int(t * fps)`, clamped into the list;
      an empty list raises. */
  function CropAtTime(t: real, cropFrames: seq<FrameCrop>, fps: real): (r: Option<FrameCrop>)
    ensures r.Some? <==> |cropFrames| > 0
    ensures r.Some? ==> r.value == cropFrames[ClampIndex(PyText.Trunc(t * fps), |cropFrames|)]
  {
    PyIndex(cropFrames, ClampIndex(PyText.Trunc(t * fps), |cropFrames|))
  }

  /** The crop `crop_filter` uses at subclip time `t`: `frames[int(t * fps)]`
      while that index is below the length, otherwise the last crop. */
  function CropFilterFrame(t: real, frames: seq<FrameCrop>, fps: real): Option<FrameCrop>
  {
    var idx := PyText.Trunc(t * fps);
    if idx < |frames| then PyIndex(frames, idx) else PyIndex(frames, -1)
  }

  /** For non-negative times the filter's lookup and `_get_crop_at_time`
      agree: both read the clamped index of a non-empty list. */
  lemma CropFilterAgrees(t: real, frames: seq<FrameCrop>, fps: real)
    requires |frames| > 0 && 0.0 <= t * fps
    ensures CropFilterFrame(t, frames, fps) == CropAtTime(t, frames, fps)
    ensures CropFilterFrame(t, frames, fps).Some?
  {
  }

  /** For a negative index they differ: the filter reads from the end. */
  lemma CropFilterNegative(a: FrameCrop, b: FrameCrop)
    requires a != b
    ensures CropFilterFrame(-1.0, [a, b], 1.0) == Some(b)
    ensures CropAtTime(-1.0, [a, b], 1.0) == Some(a)
  {
    assert PyText.Trunc(-1.0 * 1.0) == -1;
  }

  /** `max(0, min(x, total - size))`: the crop origin clamped into the frame. */
  function ClampOrigin(x: int, size: int, total: int): (r: int)
    ensures 0 <= r
    ensures size <= total ==> r + size <= total
    ensures 0 <= x <= total - size ==> r == x
  {
    var m := if x < total - size then x else total - size;
    if m < 0 then 0 else m
  }

  /** The length of the Python slice `s[a : a + len]` of a sequence of
      length `total`, for `a >= 0`. */
  function SliceLength(a: int, len: int, total: int): int
    requires 0 <= a
  {
    var hi := if a + len < total then a + len else total;
    var lo := if a < total then a else total;
    if hi < lo then 0 else hi - lo
  }

  /** `frame[y:y+h, x:x+w]` after the clamp: exactly the crop's size when it
      fits in the frame, never more than the frame. */
  lemma {:induction false} CropSliceSize(frameH: int, frameW: int, cd: FrameCrop)
    requires 0 <= frameH && 0 <= frameW && 0 <= cd.cropW && 0 <= cd.cropH
    ensures var x := ClampOrigin(cd.cropX, cd.cropW, frameW);
      var y := ClampOrigin(cd.cropY, cd.cropH, frameH);
      SliceLength(x, cd.cropW, frameW) <= frameW && SliceLength(y, cd.cropH, frameH) <= frameH
      && (cd.cropW <= frameW ==> SliceLength(x, cd.cropW, frameW) == cd.cropW)
      && (cd.cropH <= frameH ==> SliceLength(y, cd.cropH, frameH) == cd.cropH)
  {
  }

  /** One layer of a composite. */
  datatype Layer =
    | Background(clipStart: real, clipEnd: real)
    | Cropped(clipStart: real, clipEnd: real, frames: seq<FrameCrop>)
    | BRoll(videoPath: string, length: real, looped: bool, relStart: real)

  datatype Composite = Composite(layers: seq<Layer>, duration: real)

  /** What `render` ends with: nothing written, or the concatenation of the
      composites written to the plan's output at the given frame rate. */
  datatype Rendered = NotWritten | Written(outputPath: string, clips: seq<Composite>, fps: int)

  const OutputFps: int := 30

  function MaxR(a: real, b: real): real { if b > a then b else a }

  function MinR(a: real, b: real): real { if b < a then b else a }

  predicate Overlaps(startT: real, endT: real, br: BRollSegment)
  {
    MaxR(startT, br.start) < MinR(endT, br.end)
  }

  /** The b-roll layer for a segment overlapping [startT, endT]: the overlap's
      length, looped when the footage is shorter, starting at the overlap's
      offset into the clip. */
  function BRollLayer(br: BRollSegment, startT: real, endT: real, durationOf: string -> real): Layer
  {
    var os := MaxR(startT, br.start);
    var oe := MinR(endT, br.end);
    BRoll(br.videoPath, oe - os, durationOf(br.videoPath) < oe - os, os - startT)
  }

  /** The b-roll layers from the first `n` segments. */
  function BRollLayers(segs: seq<BRollSegment>, startT: real, endT: real, onDisk: string -> bool,
                       durationOf: string -> real, n: nat): seq<Layer>
    requires n <= |segs|
  {
    if n == 0 then []
    else
      var br := segs[n - 1];
      BRollLayers(segs, startT, endT, onDisk, durationOf, n - 1)
      + (if Overlaps(startT, endT, br) && onDisk(br.videoPath) then [BRollLayer(br, startT, endT, durationOf)] else [])
  }

  function CompositeOf(cd: ClipCropData, segs: seq<BRollSegment>, onDisk: string -> bool, durationOf: string -> real): Composite
    requires |cd.frames| > 0
  {
    var s := cd.frames[0].timestamp;
    var e := cd.frames[|cd.frames| - 1].timestamp;
    Composite([Background(s, e), Cropped(s, e, cd.frames)] + BRollLayers(segs, s, e, onDisk, durationOf, |segs|), e - s)
  }

  /** The composites for the first `n` entries of the plan, skipping entries
      with no frames. */
  function Composites(plan: RenderPlan, onDisk: string -> bool, durationOf: string -> real, n: nat): seq<Composite>
    requires n <= |plan.clipCropData|
  {
    if n == 0 then []
    else
      var cd := plan.clipCropData[n - 1];
      Composites(plan, onDisk, durationOf, n - 1)
      + (if |cd.frames| == 0 then [] else [CompositeOf(cd, plan.bRollSegments, onDisk, durationOf)])
  }

  function RenderSpec(plan: RenderPlan, onDisk: string -> bool, durationOf: string -> real): Rendered
  {
    var cs := Composites(plan, onDisk, durationOf, |plan.clipCropData|);
    if |cs| == 0 then NotWritten else Written(plan.outputPath, cs, OutputFps)
  }

  /** `render`. `onDisk` and `durationOf` stand for the file-system check and
      the b-roll's decoded duration. */
  method Render(plan: RenderPlan, onDisk: string -> bool, durationOf: string -> real) returns (out: Rendered)
    ensures out == RenderSpec(plan, onDisk, durationOf)
  {
    var finalClips: seq<Composite> := [];
    for i := 0 to |plan.clipCropData|
      invariant finalClips == Composites(plan, onDisk, durationOf, i)
    {
      var cropData := plan.clipCropData[i];
      if |cropData.frames| == 0 {
        continue;
      }
      var startT := cropData.frames[0].timestamp;
      var endT := cropData.frames[|cropData.frames| - 1].timestamp;
      var duration := endT - startT;
      var bRollClips: seq<Layer> := [];
      for j := 0 to |plan.bRollSegments|
        invariant bRollClips == BRollLayers(plan.bRollSegments, startT, endT, onDisk, durationOf, j)
      {
        var br := plan.bRollSegments[j];
        var overlapStart := if br.start > startT then br.start else startT;
        var overlapEnd := if br.end < endT then br.end else endT;
        if overlapStart < overlapEnd {
          var brPath := br.videoPath;
          if onDisk(brPath) {
            var brDur := overlapEnd - overlapStart;
            var looped := durationOf(brPath) < brDur;
            var relStart := overlapStart - startT;
            bRollClips := bRollClips + [BRoll(brPath, brDur, looped, relStart)];
          }
        }
      }
      var layers := [Background(startT, endT), Cropped(startT, endT, cropData.frames)] + bRollClips;
      finalClips := finalClips + [Composite(layers, duration)];
    }
    if |finalClips| == 0 {
      return NotWritten;
    }
    return Written(plan.outputPath, finalClips, OutputFps);
  }

  /** A b-roll layer from an existing file that lasts a positive time inside
      a clip of length `span`. */
  predicate SoundBRoll(l: Layer, span: real, onDisk: string -> bool)
  {
    l.BRoll? && onDisk(l.videoPath) && 0.0 < l.length && 0.0 <= l.relStart && l.relStart + l.length <= span
  }

  /** Every b-roll layer comes from an existing file, lasts a positive time
      and sits inside the clip: it starts at a non-negative offset and ends
      no later than the clip's duration. */
  lemma {:induction false} BRollLayersSound(segs: seq<BRollSegment>, startT: real, endT: real,
                                            onDisk: string -> bool, durationOf: string -> real, n: nat)
    requires n <= |segs|
    ensures forall l :: l in BRollLayers(segs, startT, endT, onDisk, durationOf, n) ==> SoundBRoll(l, endT - startT, onDisk)
  {
    if n > 0 {
      BRollLayersSound(segs, startT, endT, onDisk, durationOf, n - 1);
      var br := segs[n - 1];
      if Overlaps(startT, endT, br) && onDisk(br.videoPath) {
        assert SoundBRoll(BRollLayer(br, startT, endT, durationOf), endT - startT, onDisk);
      }
    }
  }

  /** The number of b-roll layers is the number of overlapping segments whose
      file exists. */
  function UsedCount(segs: seq<BRollSegment>, startT: real, endT: real, onDisk: string -> bool, n: nat): nat
    requires n <= |segs|
  {
    if n == 0 then 0
    else UsedCount(segs, startT, endT, onDisk, n - 1)
         + (if Overlaps(startT, endT, segs[n - 1]) && onDisk(segs[n - 1].videoPath) then 1 else 0)
  }

  lemma {:induction false} BRollLayersCount(segs: seq<BRollSegment>, startT: real, endT: real,
                                            onDisk: string -> bool, durationOf: string -> real, n: nat)
    requires n <= |segs|
    ensures |BRollLayers(segs, startT, endT, onDisk, durationOf, n)| == UsedCount(segs, startT, endT, onDisk, n)
  {
    if n > 0 {
      BRollLayersCount(segs, startT, endT, onDisk, durationOf, n - 1);
    }
  }

  /** The blurred background, then the centred crop of a non-empty crop
      list, then only b-rolls; the composite lasts the clip's span. */
  predicate WellLayered(c: Composite)
  {
    |c.layers| >= 2 && c.layers[0].Background? && c.layers[1].Cropped? && |c.layers[1].frames| > 0
    && c.duration == c.layers[0].clipEnd - c.layers[0].clipStart
    && forall k :: 2 <= k < |c.layers| ==> c.layers[k].BRoll?
  }

  lemma CompositeOfLayered(cd: ClipCropData, segs: seq<BRollSegment>, onDisk: string -> bool, durationOf: string -> real)
    requires |cd.frames| > 0
    ensures WellLayered(CompositeOf(cd, segs, onDisk, durationOf))
  {
    var s := cd.frames[0].timestamp;
    var e := cd.frames[|cd.frames| - 1].timestamp;
    var bs := BRollLayers(segs, s, e, onDisk, durationOf, |segs|);
    BRollLayersSound(segs, s, e, onDisk, durationOf, |segs|);
    var c := CompositeOf(cd, segs, onDisk, durationOf);
    forall k | 2 <= k < |c.layers|
      ensures c.layers[k].BRoll?
    {
      assert c.layers[k] == bs[k - 2] && bs[k - 2] in bs;
    }
  }

  /** Every composite is layered background, crop, b-rolls. */
  lemma {:induction false} LayerOrder(plan: RenderPlan, onDisk: string -> bool, durationOf: string -> real, n: nat)
    requires n <= |plan.clipCropData|
    ensures forall c :: c in Composites(plan, onDisk, durationOf, n) ==> WellLayered(c)
  {
    if n > 0 {
      LayerOrder(plan, onDisk, durationOf, n - 1);
      var cd := plan.clipCropData[n - 1];
      if |cd.frames| > 0 {
        CompositeOfLayered(cd, plan.bRollSegments, onDisk, durationOf);
      }
    }
  }

  /** One composite per entry with frames, in plan order. */
  function NonEmptyCount(cds: seq<ClipCropData>, n: nat): nat
    requires n <= |cds|
  {
    if n == 0 then 0 else NonEmptyCount(cds, n - 1) + (if |cds[n - 1].frames| == 0 then 0 else 1)
  }

  lemma {:induction false} CompositesCount(plan: RenderPlan, onDisk: string -> bool, durationOf: string -> real, n: nat)
    requires n <= |plan.clipCropData|
    ensures |Composites(plan, onDisk, durationOf, n)| == NonEmptyCount(plan.clipCropData, n)
    ensures (NonEmptyCount(plan.clipCropData, n) == 0) == (forall i :: 0 <= i < n ==> |plan.clipCropData[i].frames| == 0)
  {
    if n > 0 {
      CompositesCount(plan, onDisk, durationOf, n - 1);
    }
  }

  /** Nothing is written exactly when no entry of the plan has frames;
      otherwise the output goes to the plan's path at 30 frames per second. */
  lemma EmptyPlanRule(plan: RenderPlan, onDisk: string -> bool, durationOf: string -> real)
    ensures RenderSpec(plan, onDisk, durationOf).NotWritten?
            <==> forall i :: 0 <= i < |plan.clipCropData| ==> |plan.clipCropData[i].frames| == 0
    ensures RenderSpec(plan, onDisk, durationOf).Written? ==>
            RenderSpec(plan, onDisk, durationOf).outputPath == plan.outputPath
            && RenderSpec(plan, onDisk, durationOf).fps == 30
            && |RenderSpec(plan, onDisk, durationOf).clips| == NonEmptyCount(plan.clipCropData, |plan.clipCropData|)
  {
    CompositesCount(plan, onDisk, durationOf, |plan.clipCropData|);
  }
}
