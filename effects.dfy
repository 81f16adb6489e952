/** The cover-scale arithmetic of `create_blurred_background`: scale the
    frame until it covers the target, then take a centred target-sized window.
    Resizing and blurring themselves are library calls outside the model. */
module Effects {
  import opened Wrappers
  import PyText

  /** The resized frame size and the window's top-left corner in it. */
  datatype Cover = Cover(newW: int, newH: int, startX: int, startY: int)

  /** Python's `max(a, b)`: the first argument unless the second is larger. */
  function MaxReal(a: real, b: real): real
  {
    if b > a then b else a
  }

  /** `scale = max(target_w / w, target_h / h)`. */
  function CoverScale(targetW: int, targetH: int, w: int, h: int): real
    requires w != 0 && h != 0
  {
    MaxReal(targetW as real / w as real, targetH as real / h as real)
  }

  /** The geometry for a `h` x `w` frame and a `targetW` x `targetH` target;
      `None` where the division by a zero frame side raises. */
  function CoverGeometry(targetW: int, targetH: int, w: int, h: int): (c: Option<Cover>)
    ensures c.Some? <==> w != 0 && h != 0
  {
    if w == 0 || h == 0 then None
    else Some(CoverAt(targetW, targetH, w, h, CoverScale(targetW, targetH, w, h)))
  }

  /** The frame resized by `scale` (each side truncated) and the centred
      window's corner. */
  function CoverAt(targetW: int, targetH: int, w: int, h: int, scale: real): Cover
  {
    var newW := PyText.Trunc(w as real * scale);
    var newH := PyText.Trunc(h as real * scale);
    Cover(newW, newH, (newW - targetW) / 2, (newH - targetH) / 2)
  }

  /** One side of the frame scaled by at least `t / side` reaches `t`. */
  lemma CoverSide(t: int, side: int, scale: real)
    requires side > 0 && t >= 0 && t as real / side as real <= scale
    ensures PyText.Trunc(side as real * scale) >= t
  {
    var r := t as real / side as real;
    assert side as real * r == t as real;
    assert side as real * scale - side as real * r == side as real * (scale - r);
    MulNonNeg(side as real, scale - r);
  }

  /** Scaled by exactly `t / side` it lands on `t`. */
  lemma CoverSideExact(t: int, side: int, scale: real)
    requires side > 0 && t >= 0 && scale == t as real / side as real
    ensures PyText.Trunc(side as real * scale) == t
  {
    assert side as real * scale == t as real;
  }

  lemma MulNonNeg(a: real, b: real)
    requires 0.0 <= a && 0.0 <= b
    ensures 0.0 <= a * b
  {
  }

  /** Resizing by the cover scale: both sides reach the target, and the
      side with the larger ratio lands exactly on it. */
  lemma CoverAtCovers(targetW: int, targetH: int, w: int, h: int, scale: real)
    requires w > 0 && h > 0 && targetW >= 0 && targetH >= 0
    requires scale == CoverScale(targetW, targetH, w, h)
    ensures var c := CoverAt(targetW, targetH, w, h, scale);
      c.newW >= targetW && c.newH >= targetH && (c.newW == targetW || c.newH == targetH)
  {
    var rw := targetW as real / w as real;
    var rh := targetH as real / h as real;
    if rh > rw {
      assert scale == rh;
      CoverSideExact(targetH, h, scale);
      CoverSide(targetW, w, scale);
    } else {
      assert scale == rw;
      CoverSideExact(targetW, w, scale);
      CoverSide(targetH, h, scale);
    }
    CoverAtSides(targetW, targetH, w, h, scale);
  }

  lemma CoverAtSides(targetW: int, targetH: int, w: int, h: int, scale: real)
    ensures CoverAt(targetW, targetH, w, h, scale).newW == PyText.Trunc(w as real * scale)
    ensures CoverAt(targetW, targetH, w, h, scale).newH == PyText.Trunc(h as real * scale)
  {
  }

  /** The resized frame covers the target on both sides, and the side with
      the larger ratio lands exactly on its target. */
  lemma CoverCovers(targetW: int, targetH: int, w: int, h: int)
    requires w > 0 && h > 0 && targetW >= 0 && targetH >= 0
    ensures var c := CoverGeometry(targetW, targetH, w, h).value;
      c.newW >= targetW && c.newH >= targetH && (c.newW == targetW || c.newH == targetH)
  {
    CoverAtCovers(targetW, targetH, w, h, CoverScale(targetW, targetH, w, h));
  }

  /** For a real frame and a non-negative target, the window's offsets are
      non-negative, the window fits inside the resized frame, and one offset
      is zero. */
  lemma CoverFits(targetW: int, targetH: int, w: int, h: int)
    requires w > 0 && h > 0 && targetW >= 0 && targetH >= 0
    ensures var c := CoverGeometry(targetW, targetH, w, h).value;
      0 <= c.startX && c.startX + targetW <= c.newW
      && 0 <= c.startY && c.startY + targetH <= c.newH
      && (c.startX == 0 || c.startY == 0)
  {
    CoverCovers(targetW, targetH, w, h);
    var c := CoverGeometry(targetW, targetH, w, h).value;
    assert c.startX == (c.newW - targetW) / 2 && c.startY == (c.newH - targetH) / 2;
    WindowFits(c.newW, c.newH, targetW, targetH);
  }

  lemma WindowFits(newW: int, newH: int, targetW: int, targetH: int)
    requires newW >= targetW && newH >= targetH && (newW == targetW || newH == targetH)
    ensures 0 <= (newW - targetW) / 2 && (newW - targetW) / 2 + targetW <= newW
    ensures 0 <= (newH - targetH) / 2 && (newH - targetH) / 2 + targetH <= newH
    ensures (newW - targetW) / 2 == 0 || (newH - targetH) / 2 == 0
  {
  }

  /** The 1080x1920 target over a 1920x1080 frame: scaled by 16/9 to
      3413x1920 (truncated), a window starting at x = 1166. */
  lemma LandscapeToPortrait()
    ensures CoverGeometry(1080, 1920, 1920, 1080) == Some(Cover(3413, 1920, 1166, 0))
  {
    assert CoverScale(1080, 1920, 1920, 1080) == 1920.0 / 1080.0;
    assert 1920.0 * (1920.0 / 1080.0) == 3413.0 + 1.0 / 3.0;
    assert PyText.Trunc(1920.0 * (1920.0 / 1080.0)) == 3413;
    assert 1080.0 * (1920.0 / 1080.0) == 1920.0;
  }
}
