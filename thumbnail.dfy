/** `ThumbnailMaker` of `python_core/packaging/thumbnail.py`: the choice of
    the sharpest of the first three seconds of frames and the placement of
    the upper-cased title. Frame reading, the Laplacian variance, text
    measuring and drawing are parameters: a video is the sequence of the
    variances of the frames that read successfully, after which a read
    fails. */
module Thumbnails {
  import opened Wrappers
  import opened Models
  import PyText

  /** The font `__init__` settles on. */
  datatype Font = TrueType(path: string, size: int) | DefaultFont

  /** `ImageFont.truetype(path, 100)`, or the default font when that raises
      `OSError`. */
  function LoadFont(fontPath: string, fontLoads: bool): Font
  {
    if fontLoads then TrueType(fontPath, 100) else DefaultFont
  }

  /** `int(fps * 3)`. */
  function FrameBudget(fps: real): int
  {
    PyText.Trunc(fps * 3.0)
  }

  /** The best frame so far and `max_variance`. */
  datatype Selection = Selection(best: Option<nat>, maxVariance: real)

  /** The selection after the first `n` frames: a frame replaces the best
      one only when its variance is strictly greater. */
  function Select(variances: seq<real>, n: nat): Selection
    requires n <= |variances|
  {
    if n == 0 then Selection(None, -1.0)
    else
      var p := Select(variances, n - 1);
      if variances[n - 1] > p.maxVariance then Selection(Some(n - 1), variances[n - 1]) else p
  }

  /** The chosen frame is the first of those with the greatest variance, and
      that variance exceeds -1; no frame is chosen exactly when none exceeds
      -1. */
  lemma {:induction false} SelectFirstMax(variances: seq<real>, n: nat)
    requires n <= |variances|
    ensures var s := Select(variances, n);
      (s.best.None? <==> forall j :: 0 <= j < n ==> variances[j] <= -1.0)
      && (s.best.None? ==> s.maxVariance == -1.0)
      && (s.best.Some? ==>
            var i := s.best.value;
            i < n && variances[i] == s.maxVariance && variances[i] > -1.0
            && (forall j :: 0 <= j < n ==> variances[j] <= variances[i])
            && (forall j :: 0 <= j < i ==> variances[j] < variances[i]))
    decreases n
  {
    if n > 0 {
      SelectFirstMax(variances, n - 1);
    }
  }

  /** How many frames the loop looks at: the budget, unless the video runs
      out first. */
  function Seen(budget: int, available: nat): nat
  {
    if budget <= 0 then 0 else if budget <= available then budget else available
  }

  /** How many times `cap.read()` is called: once per budgeted frame, and
      one failed read when the video runs out first. */
  function Reads(budget: int, available: nat): nat
  {
    if budget <= 0 then 0 else if budget <= available then budget else available + 1
  }

  /** At most the budget is read, and a frame is looked at only after a
      successful read. */
  lemma ReadsWithinBudget(budget: int, available: nat)
    ensures Seen(budget, available) <= available
    ensures Reads(budget, available) <= (if budget < 0 then 0 else budget)
    ensures Seen(budget, available) <= Reads(budget, available) <= Seen(budget, available) + 1
  {
  }

  /** The loop over the first frames. */
  method ScanFrames(budget: int, variances: seq<real>) returns (best: Option<nat>, maxVariance: real, readCalls: nat)
    ensures Selection(best, maxVariance) == Select(variances, Seen(budget, |variances|))
    ensures readCalls == Reads(budget, |variances|)
  {
    best, maxVariance, readCalls := None, -1.0, 0;
    var k := 0;
    while k < budget
      invariant 0 <= k <= |variances| && (k <= budget || k == 0)
      invariant Selection(best, maxVariance) == Select(variances, k)
      invariant readCalls == k
      decreases budget - k
    {
      readCalls := readCalls + 1;
      if k >= |variances| {
        break;
      }
      var variance := variances[k];
      if variance > maxVariance {
        maxVariance := variance;
        best := Some(k);
      }
      k := k + 1;
    }
  }

  /** What is drawn and saved: the frame, the text and its corner. */
  datatype Drawing = Drawing(frame: nat, text: string, x: int, y: int, font: Font, outputPath: string)

  /** The returned path, the saved image if any, and how often a frame was
      read. */
  datatype Thumbnail = Thumbnail(path: string, saved: Option<Drawing>, readCalls: nat)

  /** The title's corner for a `w` x `h` text box on a `width` x `height`
      frame: centred across, in the upper third down. */
  function Placement(width: int, height: int, w: int, h: int): (int, int)
  {
    ((width - w) / 2, (height - h) / 3)
  }

  /** Python's `//` floors: the box is centred to within one pixel across
      and its top sits a third of the free height down, rounded down. */
  lemma PlacementBounds(width: int, height: int, w: int, h: int)
    ensures var (x, y) := Placement(width, height, w, h);
      2 * x <= width - w < 2 * x + 2 && 3 * y <= height - h < 3 * y + 3
  {
  }

  /** `generate_thumbnail`. `measure` gives the width and height of the
      stroked text's box. */
  function ThumbnailSpec(font: Font, videoExists: bool, isOpened: bool, fps: real, variances: seq<real>,
                         width: int, height: int, measure: (Font, string) -> (int, int),
                         clip: ViralClip, outputPath: string): Thumbnail
  {
    if !videoExists || !isOpened then Thumbnail("", None, 0)
    else
      var budget := FrameBudget(fps);
      var s := Select(variances, Seen(budget, |variances|));
      var readCalls := Reads(budget, |variances|);
      if s.best.None? then Thumbnail("", None, readCalls)
      else
        var text := PyText.Upper(clip.title);
        var (w, h) := measure(font, text);
        var (x, y) := Placement(width, height, w, h);
        Thumbnail(outputPath, Some(Drawing(s.best.value, text, x, y, font, outputPath)), readCalls)
  }

  method GenerateThumbnail(font: Font, videoExists: bool, isOpened: bool, fps: real, variances: seq<real>,
                           width: int, height: int, measure: (Font, string) -> (int, int),
                           clip: ViralClip, outputPath: string)
    returns (t: Thumbnail)
    ensures t == ThumbnailSpec(font, videoExists, isOpened, fps, variances, width, height, measure, clip, outputPath)
  {
    if !videoExists {
      return Thumbnail("", None, 0);
    }
    if !isOpened {
      return Thumbnail("", None, 0);
    }
    var numFrames := PyText.Trunc(fps * 3.0);
    var best, maxVariance, readCalls := ScanFrames(numFrames, variances);
    if best.None? {
      return Thumbnail("", None, readCalls);
    }
    var text := PyText.Upper(clip.title);
    var (textW, textH) := measure(font, text);
    var x := (width - textW) / 2;
    var y := (height - textH) / 3;
    return Thumbnail(outputPath, Some(Drawing(best.value, text, x, y, font, outputPath)), readCalls);
  }

  /** A thumbnail is saved exactly when the video exists, opens, and one of
      the looked-at frames has variance above -1; then the path returned is
      `output_path` and the drawing shows the upper-cased title on the first
      sharpest frame, of those within the budget. Otherwise "" is returned
      and nothing is saved. */
  lemma ThumbnailOutcomes(font: Font, videoExists: bool, isOpened: bool, fps: real, variances: seq<real>,
                          width: int, height: int, measure: (Font, string) -> (int, int),
                          clip: ViralClip, outputPath: string)
    ensures var t := ThumbnailSpec(font, videoExists, isOpened, fps, variances, width, height, measure, clip, outputPath);
      var n := Seen(FrameBudget(fps), |variances|);
      (t.saved.Some? <==> videoExists && isOpened && exists j :: 0 <= j < n && variances[j] > -1.0)
      && (t.saved.None? ==> t.path == "")
      && (t.saved.Some? ==>
            var d := t.saved.value;
            t.path == outputPath && d.outputPath == outputPath && d.text == PyText.Upper(clip.title)
            && d.frame < n
            && (forall j :: 0 <= j < n ==> variances[j] <= variances[d.frame])
            && (forall j :: 0 <= j < d.frame ==> variances[j] < variances[d.frame]))
  {
    if videoExists && isOpened {
      SelectFirstMax(variances, Seen(FrameBudget(fps), |variances|));
    }
  }
}
