/** `SmartCropper`: one vertical crop rectangle per source frame of each
    curated clip, following the dominant face through a stabilizer. */
module Cropping {
  import opened Wrappers
  import opened Models
  import PyText
  import Stabilization

  /** A face detection's box, in fractions of the frame size. */
  datatype RelBox = RelBox(xmin: real, ymin: real, width: real, height: real)

  /** The opened capture as the model sees it: whether the path exists and
      opens, its properties, and the face detections of the frames that
      successive framesRead return after seeking to a frame index (reading stops
      at the first failed read, i.e. after the sequence). */
  datatype Video = Video(
    present: bool, opens: bool, fps: real, width: int, height: int,
    readsFrom: int -> seq<seq<RelBox>>)

  /** The per-run constants of `_process_single_clip`. */
  datatype Geometry = Geometry(width: int, height: int, fps: real, ratio: real, alpha: real)

  function Area(b: RelBox): real
  {
    b.width * b.height
  }

  /** `max(detections, key=area)`: the first detection of greatest area. */
  function Dominant(ds: seq<RelBox>): (i: nat)
    requires |ds| > 0
    ensures i < |ds|
    ensures forall j :: 0 <= j < |ds| ==> Area(ds[j]) <= Area(ds[i])
    ensures forall j :: 0 <= j < i ==> Area(ds[j]) < Area(ds[i])
  {
    if |ds| == 1 then 0
    else
      var k := Dominant(ds[..|ds| - 1]);
      if Area(ds[|ds| - 1]) > Area(ds[k]) then |ds| - 1 else k
  }

  /** The x anchor of a frame: the dominant face's centre, or the middle of
      the frame when no face was detected. */
  function AnchorX(ds: seq<RelBox>, w: int): int
  {
    if |ds| == 0 then w / 2
    else
      var b := ds[Dominant(ds)];
      PyText.Trunc((b.xmin + b.width / 2.0) * w as real)
  }

  /** The y anchor: always the upper third, whether or not a face was found. */
  function AnchorY(h: int): int
  {
    h / 3
  }

  function CropWidth(h: int, ratio: real): int
  {
    PyText.Trunc(h as real * ratio)
  }

  /** The crop's left edge: centred on the smoothed anchor, then clamped.
      It is never negative, keeps a crop no wider than the frame inside it,
      and is exactly centred whenever centring already fits. */
  function CropX(sx: int, tw: int, w: int): (cx: int)
    ensures 0 <= cx
    ensures tw <= w ==> cx + tw <= w
    ensures 0 <= sx - tw / 2 <= w - tw ==> cx == sx - tw / 2
    ensures tw <= w && sx - tw / 2 < 0 ==> cx == 0
    ensures 0 <= w - tw < sx - tw / 2 ==> cx == w - tw
  {
    var c := sx - tw / 2;
    var m := if c < w - tw then c else w - tw;
    if m < 0 then 0 else m
  }

  function StartFrame(clip: ViralClip, fps: real): int
  {
    PyText.Trunc(clip.startTime * fps)
  }

  function EndFrame(clip: ViralClip, fps: real): int
  {
    PyText.Trunc(clip.endTime * fps)
  }

  /** A clip spans frames only when the frame rate is non-zero. */
  lemma FramesNeedFps(clip: ViralClip, fps: real)
    ensures StartFrame(clip, fps) < EndFrame(clip, fps) ==> fps != 0.0
  {
    if fps == 0.0 {
      assert clip.startTime * fps == 0.0 && clip.endTime * fps == 0.0;
    }
  }

  /** How many frames the `while` loop records: up to the end frame or the
      first failed read, whichever comes first. */
  function FrameCount(start: int, end: int, available: nat): (n: nat)
    ensures n <= available
    ensures start < end && end - start <= available ==> n == end - start
    ensures start < end && available < end - start ==> n == available
    ensures end <= start ==> n == 0
  {
    if end <= start then 0
    else if end - start <= available then end - start
    else available
  }

  function ClipId(videoId: string, clip: ViralClip): string
  {
    videoId + "_" + PyText.IntToString(PyText.Trunc(clip.startTime)) + "_"
    + PyText.IntToString(PyText.Trunc(clip.endTime))
  }

  function Anchors(framesRead: seq<seq<RelBox>>, w: int): (xs: seq<real>)
    ensures |xs| == |framesRead|
  {
    seq(|framesRead|, k requires 0 <= k < |framesRead| => AnchorX(framesRead[k], w) as real)
  }

  /** The crop recorded for frame `idx` with smoothed anchor `sx`. */
  function FrameAt(g: Geometry, idx: int, sx: int): FrameCrop
    requires g.fps != 0.0
  {
    var tw := CropWidth(g.height, g.ratio);
    FrameCrop(idx as real / g.fps, idx, CropX(sx, tw, g.width), 0, g.height, tw)
  }

  /** The first `n` crops of a clip whose frames start at `start`, the
      stabilizer's x axis starting from `init`. */
  function ClipFrames(g: Geometry, start: int, framesRead: seq<seq<RelBox>>, init: Option<real>, n: nat): seq<FrameCrop>
    requires n <= |framesRead| && (n > 0 ==> g.fps != 0.0)
  {
    if n == 0 then []
    else
      var s := Stabilization.EmaFrom(g.alpha, init, Anchors(framesRead, g.width), n);
      ClipFrames(g, start, framesRead, init, n - 1) + [FrameAt(g, start + n - 1, PyText.Trunc(s.value))]
  }

  lemma AnchorsAt(framesRead: seq<seq<RelBox>>, w: int, k: nat, x: int)
    requires k < |framesRead| && x == AnchorX(framesRead[k], w)
    ensures Anchors(framesRead, w)[k] == x as real
  {
  }

  /** What `_process_single_clip` returns for one clip. */
  function SingleClip(g: Geometry, videoId: string, clip: ViralClip, framesRead: seq<seq<RelBox>>, init: Option<real>): ClipCropData
  {
    FramesNeedFps(clip, g.fps);
    var n := FrameCount(StartFrame(clip, g.fps), EndFrame(clip, g.fps), |framesRead|);
    ClipCropData(ClipId(videoId, clip), videoId, ClipFrames(g, StartFrame(clip, g.fps), framesRead, init, n))
  }

  function GeometryOf(v: Video, ratio: real, alpha: real): Geometry
  {
    Geometry(v.width, v.height, v.fps, ratio, alpha)
  }

  /** What `process_clips` returns: nothing for a missing or unopenable video,
      otherwise one entry per clip, each computed from a freshly reset
      stabilizer. */
  function CropPlan(v: Video, clips: seq<ViralClip>, videoId: string, ratio: real, alpha: real): seq<ClipCropData>
  {
    if !v.present || !v.opens then []
    else
      seq(|clips|, i requires 0 <= i < |clips| =>
        SingleClip(GeometryOf(v, ratio, alpha), videoId, clips[i],
                   v.readsFrom(StartFrame(clips[i], v.fps)), None))
  }

  /** Every recorded crop: consecutive frame indices from the start frame,
      timestamp index/fps, full height from the top, width `int(H * ratio)`,
      and inside the frame whenever that width fits. */
  lemma {:induction false} ClipFramesShape(g: Geometry, start: int, framesRead: seq<seq<RelBox>>, init: Option<real>, n: nat)
    requires n <= |framesRead| && (n > 0 ==> g.fps != 0.0)
    ensures var fs := ClipFrames(g, start, framesRead, init, n);
      |fs| == n
      && forall k :: 0 <= k < n ==>
           fs[k].frameIndex == start + k && fs[k].timestamp == (start + k) as real / g.fps
           && fs[k].cropY == 0 && fs[k].cropH == g.height && fs[k].cropW == CropWidth(g.height, g.ratio)
           && 0 <= fs[k].cropX
           && (0 <= fs[k].cropW <= g.width ==> fs[k].cropX + fs[k].cropW <= g.width)
  {
    if n > 0 {
      ClipFramesShape(g, start, framesRead, init, n - 1);
    }
  }

  /** Once the video opens there is exactly one entry per clip, in clip order,
      with the clip's id, even for a clip that spans no frames. */
  lemma PlanShape(v: Video, clips: seq<ViralClip>, videoId: string, ratio: real, alpha: real)
    requires v.present && v.opens
    ensures var plan := CropPlan(v, clips, videoId, ratio, alpha);
      |plan| == |clips|
      && forall i :: 0 <= i < |clips| ==>
           plan[i].clipId == ClipId(videoId, clips[i]) && plan[i].videoId == videoId
           && |plan[i].frames| == FrameCount(StartFrame(clips[i], v.fps), EndFrame(clips[i], v.fps),
                                             |v.readsFrom(StartFrame(clips[i], v.fps))|)
  {
    var plan := CropPlan(v, clips, videoId, ratio, alpha);
    forall i | 0 <= i < |clips|
      ensures |plan[i].frames| == FrameCount(StartFrame(clips[i], v.fps), EndFrame(clips[i], v.fps),
                                             |v.readsFrom(StartFrame(clips[i], v.fps))|)
    {
      var framesRead := v.readsFrom(StartFrame(clips[i], v.fps));
      FramesNeedFps(clips[i], v.fps);
      ClipFramesShape(GeometryOf(v, ratio, alpha), StartFrame(clips[i], v.fps), framesRead, None,
                      FrameCount(StartFrame(clips[i], v.fps), EndFrame(clips[i], v.fps), |framesRead|));
    }
  }

  /** The stabilizer restarts per clip: a clip's crops do not depend on the
      clips processed before it, only on its own frames. */
  lemma ClipsIndependent(v: Video, clips: seq<ViralClip>, other: seq<ViralClip>, videoId: string, ratio: real, alpha: real, i: nat, j: nat)
    requires v.present && v.opens
    requires i < |clips| && j < |other| && clips[i] == other[j]
    ensures CropPlan(v, clips, videoId, ratio, alpha)[i] == CropPlan(v, other, videoId, ratio, alpha)[j]
  {
  }

  /** The first face with the largest box wins a tie. */
  lemma DominantTie()
    ensures Dominant([RelBox(0.1, 0.1, 0.2, 0.2), RelBox(0.6, 0.1, 0.2, 0.2)]) == 0
  {
    assert Dominant([RelBox(0.1, 0.1, 0.2, 0.2)]) == 0;
  }

  class SmartCropper {
    const ratio: real
    const stabilizer: Stabilization.Stabilizer

    constructor (ratio: real, alpha: real)
      ensures this.ratio == ratio && fresh(stabilizer) && stabilizer.alpha == alpha && stabilizer.Valid()
    {
      this.ratio := ratio;
      stabilizer := new Stabilization.Stabilizer(alpha);
    }

    /** `_process_single_clip`: seek, then one crop per successful read while
        the frame index is below the end frame. */
    method ProcessSingleClip(video: Video, clip: ViralClip, videoW: int, videoH: int, fps: real, videoId: string)
      returns (data: ClipCropData)
      requires stabilizer.Valid()
      modifies stabilizer
      ensures stabilizer.Valid()
      ensures data == SingleClip(Geometry(videoW, videoH, fps, ratio, stabilizer.alpha), videoId, clip,
                                 video.readsFrom(StartFrame(clip, fps)), old(stabilizer.prevX))
    {
      ghost var g := Geometry(videoW, videoH, fps, ratio, stabilizer.alpha);
      ghost var init := stabilizer.prevX;
      var startFrame := StartFrame(clip, fps);
      var endFrame := EndFrame(clip, fps);
      var framesRead := video.readsFrom(startFrame);
      FramesNeedFps(clip, fps);
      var framesData: seq<FrameCrop> := [];
      var clipId := videoId + "_" + PyText.IntToString(PyText.Trunc(clip.startTime)) + "_"
        + PyText.IntToString(PyText.Trunc(clip.endTime));
      var currentFrameIdx := startFrame;
      while currentFrameIdx < endFrame
        invariant startFrame <= currentFrameIdx && currentFrameIdx - startFrame <= |framesRead|
        invariant currentFrameIdx == startFrame || currentFrameIdx <= endFrame
        invariant stabilizer.Valid()
        invariant stabilizer.prevX == Stabilization.EmaFrom(g.alpha, init, Anchors(framesRead, videoW), currentFrameIdx - startFrame)
        invariant framesData == ClipFrames(g, startFrame, framesRead, init, currentFrameIdx - startFrame)
      {
        if currentFrameIdx - startFrame >= |framesRead| {
          break;
        }
        ghost var k := currentFrameIdx - startFrame;
        AnchorsAt(framesRead, videoW, k, AnchorX(framesRead[k], videoW));
        var frame := CropFrame(framesRead[currentFrameIdx - startFrame], currentFrameIdx, videoW, videoH, fps, g);
        framesData := framesData + [frame];
        currentFrameIdx := currentFrameIdx + 1;
      }
      assert currentFrameIdx - startFrame == FrameCount(startFrame, endFrame, |framesRead|);
      assert clipId == ClipId(videoId, clip);
      data := ClipCropData(clipId, videoId, framesData);
    }

    /** One pass of the `while` loop: the dominant face's anchor goes
        through the stabilizer and the crop is centred on the result. */
    method CropFrame(detections: seq<RelBox>, currentFrameIdx: int, videoW: int, videoH: int, fps: real,
                     ghost g: Geometry)
      returns (frame: FrameCrop)
      requires stabilizer.Valid() && fps != 0.0
      requires g == Geometry(videoW, videoH, fps, ratio, stabilizer.alpha)
      modifies stabilizer
      ensures stabilizer.Valid()
      ensures stabilizer.prevX == Some(Stabilization.Step(g.alpha, old(stabilizer.prevX), AnchorX(detections, videoW) as real))
      ensures frame == FrameAt(g, currentFrameIdx, PyText.Trunc(stabilizer.prevX.value))
    {
      var faceCenterX := AnchorX(detections, videoW);
      var faceCenterY := AnchorY(videoH);
      var smoothX, smoothY := stabilizer.Update(faceCenterX as real, faceCenterY as real);
      var targetH := videoH;
      var targetW := PyText.Trunc(targetH as real * ratio);
      var cropX := smoothX - targetW / 2;
      var cropY := 0;
      cropX := if cropX < videoW - targetW then cropX else videoW - targetW;
      cropX := if cropX < 0 then 0 else cropX;
      assert cropX == CropX(smoothX, targetW, videoW);
      var timestamp := currentFrameIdx as real / fps;
      frame := FrameCrop(timestamp, currentFrameIdx, cropX, cropY, targetH, targetW);
    }

    /** `process_clips`: nothing for a missing or unopenable video; otherwise a
        stabilizer reset and one crop list per clip. */
    method ProcessClips(video: Video, clips: seq<ViralClip>, videoId: string) returns (results: seq<ClipCropData>)
      requires stabilizer.Valid()
      modifies stabilizer
      ensures stabilizer.Valid()
      ensures results == CropPlan(video, clips, videoId, ratio, stabilizer.alpha)
    {
      results := [];
      if !video.present {
        return;
      }
      if !video.opens {
        return;
      }
      var fps := video.fps;
      var width := video.width;
      var height := video.height;
      for i := 0 to |clips|
        invariant stabilizer.Valid()
        invariant results == CropPlan(video, clips[..i], videoId, ratio, stabilizer.alpha)
      {
        stabilizer.Reset();
        var cropData := ProcessSingleClip(video, clips[i], width, height, fps, videoId);
        assert clips[..i + 1] == clips[..i] + [clips[i]];
        results := results + [cropData];
      }
      assert clips[..|clips|] == clips;
    }
  }
}
