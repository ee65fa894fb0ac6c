/**
 * The picture pipeline of the photo handler, without pixels: a picture is its
 * size, where it came from and the list of operations applied to it, in order.
 * Decoding, resampling, alpha blending and rasterising text are left to PIL and
 * are not modelled; what is kept is every size and every ordering the handler
 * fixes.
 */
module Composition {
  import opened Wrappers
  import opened Geometry

  datatype Colour = Black | White

  datatype Origin = UserPhoto | OverlayFile(path: string)

  datatype Picture = Picture(width: nat, height: nat, origin: Origin, steps: seq<Step>)

  datatype Step =
    | Crop(box: Box)
    | Resize(width: nat, height: nat)
    | Composite(overlay: Picture)
    | DrawText(x: int, y: int, text: string, fill: Colour)

  /** File name of the document sent back to the user. */
  const AvatarFileName := "avatar.png"

  /** `img.crop(box)`: PIL refuses a box whose right or lower edge precedes the left or upper one. */
  function CropTo(p: Picture, b: Box): (r: Picture)
    requires b.left <= b.right && b.upper <= b.lower
    ensures r.width == b.Width() && r.height == b.Height()
    ensures r.origin == p.origin && r.steps == p.steps + [Crop(b)]
  {
    Picture(b.Width(), b.Height(), p.origin, p.steps + [Crop(b)])
  }

  /** `img.resize((w, h))`. */
  function ResizeTo(p: Picture, w: nat, h: nat): (r: Picture)
    ensures r.width == w && r.height == h
    ensures r.origin == p.origin && r.steps == p.steps + [Resize(w, h)]
  {
    Picture(w, h, p.origin, p.steps + [Resize(w, h)])
  }

  /**
   * `Image.alpha_composite(base, over)`: the overlay is drawn on top of the
   * base; PIL refuses two pictures of different sizes.
   */
  function AlphaComposite(base: Picture, over: Picture): (r: Picture)
    requires base.width == over.width && base.height == over.height
    ensures r.width == base.width && r.height == base.height && r.origin == base.origin
    ensures r.steps == base.steps + [Composite(over)]
  {
    Picture(base.width, base.height, base.origin, base.steps + [Composite(over)])
  }

  /** `draw.text((x, y), text, fill=colour)`: painting does not change the size. */
  function Draw(p: Picture, x: int, y: int, text: string, fill: Colour): (r: Picture)
    ensures r.width == p.width && r.height == p.height && r.origin == p.origin
    ensures r.steps == p.steps + [DrawText(x, y, text, fill)]
  {
    Picture(p.width, p.height, p.origin, p.steps + [DrawText(x, y, text, fill)])
  }

  /** The path the overlay of a mode is read from: `f"overlays/{mode}.png"`. */
  function OverlayPath(mode: string): (path: string)
    ensures |path| == |mode| + 13
    ensures path[..9] == "overlays/" && path[|path| - 4..] == ".png"
  {
    "overlays/" + mode + ".png"
  }

  /** The mode an overlay path names: the part between `overlays/` and `.png`. */
  function ModeOfPath(path: string): (mode: string)
    requires |path| >= 13
  {
    path[9..|path| - 4]
  }

  /** Every mode has its own overlay file: the path gives the mode back. */
  lemma OverlayPathRoundTrip(mode: string)
    ensures ModeOfPath(OverlayPath(mode)) == mode
  {
    var path := OverlayPath(mode);
    assert path[9..|path| - 4] == mode;
  }

  /** Two different modes never share an overlay file. */
  lemma OverlayPathInjective(a: string, b: string)
    requires OverlayPath(a) == OverlayPath(b)
    ensures a == b
  {
    OverlayPathRoundTrip(a);
    OverlayPathRoundTrip(b);
  }

  /** The caption text `f"Till {date_text}"`. */
  function Caption(date: string): (text: string)
    ensures |text| == |date| + 5 && text[..5] == "Till "
  {
    "Till " + date
  }

  /** The date a caption shows. */
  function DateOfCaption(text: string): (date: string)
    requires |text| >= 5
  {
    text[5..]
  }

  /** The caption shows exactly the stored date. */
  lemma CaptionRoundTrip(date: string)
    ensures DateOfCaption(Caption(date)) == date
  {
    assert Caption(date)[5..] == date;
  }

  /**
   * The caption, if any: only in mode `vacation`, and only when a date is
   * stored and is a non-empty string (Python's `if date_text:`).
   */
  function CaptionFor(mode: string, date: Option<string>): (c: Option<string>)
    ensures c.Some? <==> mode == "vacation" && date.Some? && date.value != ""
    ensures c.Some? ==> c.value == Caption(date.value)
  {
    if mode == "vacation" && date.Some? && date.value != "" then Some(Caption(date.value)) else None
  }

  /**
   * Decode, crop to the centred square and resize to the canvas
   * (`user_img.crop(...)`, `user_img.resize((1280, 1280))`).
   */
  function Normalize(w: nat, h: nat): (p: Picture)
    ensures p.width == Canvas && p.height == Canvas && p.origin == UserPhoto
    ensures p.steps == [Crop(CenteredSquare(w, h)), Resize(Canvas, Canvas)]
  {
    var photo := Picture(w, h, UserPhoto, []);
    ResizeTo(CropTo(photo, CenteredSquare(w, h)), Canvas, Canvas)
  }

  /** The overlay file of a mode, of whatever size it is on disk, resized to `base`'s size. */
  function FittedOverlay(mode: string, ow: nat, oh: nat, base: Picture): (o: Picture)
    ensures o.width == base.width && o.height == base.height
    ensures o.origin == OverlayFile(OverlayPath(mode))
  {
    ResizeTo(Picture(ow, oh, OverlayFile(OverlayPath(mode)), []), base.width, base.height)
  }

  /** The caption drawn twice: black at `(x + 2, y + 2)` first, then white at `(x, y)`. */
  function DrawCaption(p: Picture, text: string, tw: nat): (r: Picture)
    ensures r.width == p.width && r.height == p.height && r.origin == p.origin
    ensures |r.steps| == |p.steps| + 2 && r.steps[..|p.steps|] == p.steps
  {
    var x := CenteredX(p.width, tw);
    var y := CaptionY(p.height);
    Draw(Draw(p, x + ShadowOffset, y + ShadowOffset, text, Black), x, y, text, White)
  }

  /**
   * The whole composition: the normalised photo of `w` by `h` pixels, the
   * overlay of `mode` (of `ow` by `oh` pixels on disk) on top, and the caption
   * of width `tw` on the composited picture when `CaptionFor` gives one.
   * The avatar always has the canvas size, whatever the photo's and the
   * overlay's sizes.
   */
  function Render(w: nat, h: nat, mode: string, ow: nat, oh: nat, date: Option<string>, tw: nat): (r: Picture)
    ensures r.width == Canvas && r.height == Canvas && r.origin == UserPhoto
  {
    var base := Normalize(w, h);
    var combined := AlphaComposite(base, FittedOverlay(mode, ow, oh, base));
    match CaptionFor(mode, date)
    case None => combined
    case Some(text) => DrawCaption(combined, text, tw)
  }

  /**
   * The order of the pipeline: crop to the centred square, resize to the
   * canvas, composite the mode's overlay already resized to the canvas, and
   * nothing more unless there is a caption.
   */
  lemma RenderOrder(w: nat, h: nat, mode: string, ow: nat, oh: nat, date: Option<string>, tw: nat)
    ensures var r := Render(w, h, mode, ow, oh, date, tw);
      && |r.steps| >= 3
      && r.steps[0] == Crop(CenteredSquare(w, h))
      && r.steps[1] == Resize(Canvas, Canvas)
      && r.steps[2].Composite?
      && r.steps[2].overlay.width == Canvas && r.steps[2].overlay.height == Canvas
      && r.steps[2].overlay.origin == OverlayFile(OverlayPath(mode))
      && (|r.steps| == 3 <==> CaptionFor(mode, date).None?)
  {
  }

  /**
   * With a caption, the two text steps come after the composite: the black
   * shadow two pixels right of and below the white text, drawn before it, at
   * the centred column and at row `int(0.78 * 1280)`.
   */
  lemma RenderCaption(w: nat, h: nat, mode: string, ow: nat, oh: nat, date: Option<string>, tw: nat)
    requires CaptionFor(mode, date).Some?
    ensures var r := Render(w, h, mode, ow, oh, date, tw);
      var x, y := CenteredX(Canvas, tw), CaptionY(Canvas);
      && |r.steps| == 5
      && r.steps[3] == DrawText(x + 2, y + 2, "Till " + date.value, Black)
      && r.steps[4] == DrawText(x, y, "Till " + date.value, White)
      && y == 998
      && 0 <= (Canvas - (x + tw)) - x <= 1
  {
  }
}
