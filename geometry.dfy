/**
 * The integer arithmetic of the photo handler: the centred square crop, the
 * fixed output size and the position of the caption.  Python's `//` floors;
 * every division here is by a positive constant, where Dafny's Euclidean `/`
 * floors too, also for a negative dividend.
 */
module Geometry {

  /** Side of the square every avatar is resized to (`resize((1280, 1280))`). */
  const Canvas: nat := 1280

  /** Offset of the black drop shadow from the white caption, along both axes. */
  const ShadowOffset: int := 2

  function Min(a: int, b: int): (m: int)
    ensures m <= a && m <= b && (m == a || m == b)
  {
    if a <= b then a else b
  }

  /** A PIL box: `(left, upper, right, lower)`, right and lower exclusive. */
  datatype Box = Box(left: int, upper: int, right: int, lower: int)
  {
    function Width(): int { right - left }
    function Height(): int { lower - upper }
  }

  /** The crop box of an image of `w` by `h` pixels; it lies inside the image. */
  function CenteredSquare(w: nat, h: nat): (b: Box)
    ensures 0 <= b.left <= b.right <= w && 0 <= b.upper <= b.lower <= h
  {
    var m := Min(w, h);
    Box((w - m) / 2, (h - m) / 2, (w + m) / 2, (h + m) / 2)
  }

  /**
   * The crop box is the largest square, centred: its side is `min(w, h)`, and
   * the margin it leaves on the right (bottom) is the one on the left (top),
   * or one pixel more.
   */
  lemma CenteredSquareIsCentred(w: nat, h: nat)
    ensures var b := CenteredSquare(w, h);
      && b.Width() == Min(w, h) && b.Height() == Min(w, h)
      && 0 <= (w - b.right) - b.left <= 1
      && 0 <= (h - b.lower) - b.upper <= 1
  {
  }

  /**
   * `(width - text_width) // 2`: the left edge of a text of width `tw` centred
   * on a picture `width` wide.  The space right of the text is the space left
   * of it, or one pixel more; this holds also when the text is wider than the
   * picture and `x` is negative.
   */
  function CenteredX(width: int, tw: nat): (x: int)
    ensures 0 <= (width - (x + tw)) - x <= 1
  {
    (width - tw) / 2
  }

  /**
   * `int(height * 0.78)`, computed exactly as `height * 78 // 100`: the
   * largest `y` with `100 * y <= 78 * height`.
   */
  function CaptionY(height: nat): (y: nat)
    ensures 100 * y <= 78 * height < 100 * (y + 1)
  {
    height * 78 / 100
  }

  /** On the 1280-pixel canvas the caption's top edge is row 998. */
  lemma CaptionRowOnCanvas()
    ensures CaptionY(Canvas) == 998
  {
  }

  /** A landscape photo keeps `h` columns from `(w - h) / 2` on; nothing is cut vertically. */
  lemma {:induction false} LandscapeCrop(w: nat, h: nat)
    requires w >= h
    ensures CenteredSquare(w, h) == Box((w - h) / 2, 0, (w - h) / 2 + h, h)
  {
    assert (w + h) / 2 == (w - h) / 2 + h;
  }

  /** A portrait photo keeps `w` rows from `(h - w) / 2` on; nothing is cut horizontally. */
  lemma {:induction false} PortraitCrop(w: nat, h: nat)
    requires w <= h
    ensures CenteredSquare(w, h) == Box(0, (h - w) / 2, w, (h - w) / 2 + w)
  {
    assert (h + w) / 2 == (h - w) / 2 + w;
  }

  /** A 2000 by 1000 photo keeps its middle 1000 columns. */
  lemma CropOf2000By1000()
    ensures CenteredSquare(2000, 1000) == Box(500, 0, 1500, 1000)
  {
    LandscapeCrop(2000, 1000);
  }
}
