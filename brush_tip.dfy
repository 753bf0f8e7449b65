// KisBrush: the brush tip, its geometry, and the rasterisation of a dab.
//
// The brush is a class whose fields are those of KisBrush::Private. What
// kis_brush.cpp calls but does not define (normalizeAngle, the
// KisQImagePyramid size queries, KoColorSpaceMaths::multiply, qGray, QPainter
// drawing) is the `Collaborators` value a brush is built with.

module BrushTip {
  import opened Primitives
  import opened Pixels

  /** enumBrushType */
  datatype BrushType = InvalidType | MaskType | ImageType | PipeMaskType | PipeImageType

  /** IMAGE and PIPE_IMAGE brushes carry full colour; the others are stencils. */
  predicate IsFullColor(t: BrushType) {
    t == ImageType || t == PipeImageType
  }

  /** A QTransform built as scale, then rotate, then translate */
  datatype Transform = Transform(scaleX: real, scaleY: real, rotate: real, dx: real, dy: real)

  /**
   * The functions kis_brush.cpp relies on without defining them:
   * normalizeAngle, KisQImagePyramid::characteristicSize and ::imageSize
   * (size, scale, angle[, sub-pixel x, sub-pixel y]), KoColorSpaceMaths<quint8>::multiply,
   * qGray, and what QPainter::drawImage paints at pixel (x, y) of a canvas
   * whose pixel there was `background`.
   */
  datatype Collaborators = Collaborators(
    normalizeAngle: real -> real,
    pyramidCharacteristicSize: (Size, real, real) -> SizeF,
    pyramidImageSize: (Size, real, real, real, real) -> Size,
    multiply: (byte, byte) -> byte,
    gray: Argb -> byte,
    draw: (Transform, Image, Argb, int, int) -> Argb)

  /**
   * KisBrush::transformBrushTip: a canvas the size of the source image, one
   * pixel wider (taller) when there is a horizontal (vertical) sub-pixel
   * offset, filled with zero and then painted with the transformed image.
   */
  function TransformBrushTip(kit: Collaborators, image: Image,
                             scaleX: real, scaleY: real, rotate: real,
                             subPixelX: real, subPixelY: real): (r: Image)
    ensures r.Valid()
    ensures r.width == image.width + (if subPixelX == 0.0 then 0 else 1)
    ensures r.height == image.height + (if subPixelY == 0.0 then 0 else 1)
    ensures forall y, x | 0 <= y < r.height && 0 <= x < r.width ::
      r.rows[y][x] == kit.draw(Transform(scaleX, scaleY, rotate, subPixelX, subPixelY), image, Transparent, x, y)
  {
    var w := image.width + (if subPixelX == 0.0 then 0 else 1);
    var h := image.height + (if subPixelY == 0.0 then 0 else 1);
    var t := Transform(scaleX, scaleY, rotate, subPixelX, subPixelY);
    Canvas(w, h, (x, y) => kit.draw(t, image, Transparent, x, y))
  }

  function Canvas(w: nat, h: nat, f: (int, int) -> Argb): (r: Image)
    ensures r.Valid() && r.width == w && r.height == h
    ensures forall y, x | 0 <= y < h && 0 <= x < w :: r.rows[y][x] == f(x, y)
  {
    Image(w, h, seq(h, y => seq(w, x => f(x, y))))
  }

  /**
   * The 8-bit coverage of one pixel of the transformed tip: darkness (of the
   * grey value for coloured brushes, of the first byte otherwise) times alpha.
   */
  function Coverage(kit: Collaborators, p: Argb, hasColor: bool): byte {
    if hasColor then kit.multiply(255 - kit.gray(p), p.a)
    else kit.multiply(255 - FirstByte(p), p.a)
  }

  /** What a mask is applied to: one plain colour, or the pixels of a device */
  datatype MaskSource = PlainSource(color: PixelBytes) | DeviceSource(pixels: (int, int) -> PixelBytes) {
    function At(x: int, y: int): PixelBytes {
      match this
      case PlainSource(color) => color
      case DeviceSource(pixels) => pixels(x, y)
    }
  }

  /**
   * The expected contents of a dab: a mask image's coverage applied to a
   * source, or a full-colour image converted into a colour space.
   */
  datatype Raster =
    | MaskedRaster(cs: ColorSpace, source: MaskSource, kit: Collaborators, hasColor: bool, img: Image)
    | ConvertedRaster(cs: ColorSpace, img: Image)
  {
    function Pixel(y: int, x: int): PixelBytes {
      if 0 <= y < |img.rows| && 0 <= x < |img.rows[y]| then
        match this
        case MaskedRaster(cs, source, kit, hasColor, img) =>
          cs.applyAlpha(source.At(x, y), Coverage(kit, img.rows[y][x], hasColor))
        case ConvertedRaster(cs, img) => cs.fromArgb(img.rows[y][x])
      else []
    }
  }

  /** The device's storage has the raster's size and holds its pixels */
  ghost predicate Holds(dst: FixedDevice, r: Raster)
    reads dst`data, dst.data
  {
    && dst.data.Length0 == r.img.height && dst.data.Length1 == r.img.width
    && forall y, x | 0 <= y < r.img.height && 0 <= x < r.img.width :: dst.data[y, x] == r.Pixel(y, x)
  }

  /** Storage filled pixel by pixel with a masked source holds the masked raster */
  lemma HoldsMaskedRaster(dst: FixedDevice, cs: ColorSpace, source: MaskSource, kit: Collaborators, hasColor: bool, img: Image)
    requires img.Valid() && dst.data.Length0 == img.height && dst.data.Length1 == img.width
    requires forall y, x | 0 <= y < img.height && 0 <= x < img.width ::
      dst.data[y, x] == cs.applyAlpha(source.At(x, y), Coverage(kit, img.rows[y][x], hasColor))
    ensures Holds(dst, MaskedRaster(cs, source, kit, hasColor, img))
  {
    var r := MaskedRaster(cs, source, kit, hasColor, img);
    forall y, x | 0 <= y < img.height && 0 <= x < img.width
      ensures dst.data[y, x] == r.Pixel(y, x)
    {
      assert |img.rows| == img.height && |img.rows[y]| == img.width;
    }
  }

  /**
   * KoColorSpace::applyAlphaU8Mask on `nPixels` pixels of row `row`, each
   * pixel taking the alpha at its column.
   */
  method ApplyAlphaU8Mask(cs: ColorSpace, data: array2<PixelBytes>, row: nat, alpha: array<byte>, nPixels: nat)
    requires row < data.Length0 && nPixels <= data.Length1 && nPixels <= alpha.Length
    modifies data
    ensures forall x | 0 <= x < nPixels :: data[row, x] == cs.applyAlpha(old(data[row, x]), alpha[x])
    ensures forall y, x | 0 <= y < data.Length0 && 0 <= x < data.Length1 && (y != row || x >= nPixels) ::
      data[y, x] == old(data[y, x])
  {
    var x := 0;
    while x < nPixels
      invariant 0 <= x <= nPixels
      invariant forall xx | 0 <= xx < x :: data[row, xx] == cs.applyAlpha(old(data[row, xx]), alpha[xx])
      invariant forall y, xx | 0 <= y < data.Length0 && 0 <= xx < data.Length1 && (y != row || xx >= x) ::
        data[y, xx] == old(data[y, xx])
    {
      data[row, x] := cs.applyAlpha(data[row, x], alpha[x]);
      x := x + 1;
    }
  }

  /**
   * PaintDeviceColoringInformation: a horizontal-line iterator over a paint
   * device, created at (0, 0). The ghost counters record how often the mask
   * loop advanced it. The line width is kept as given; the iterator's end of
   * line is not modelled, so nextColumn moves right without a limit.
   */
  class DeviceColoringIterator {
    const device: PaintDevice
    const lineWidth: int
    const startX: int
    var x: int
    var y: int
    ghost var columnSteps: nat
    ghost var rowSteps: nat

    constructor (source: PaintDevice, width: int)
      ensures device == source && lineWidth == width
      ensures startX == 0 && x == 0 && y == 0
      ensures columnSteps == 0 && rowSteps == 0
    {
      device := source;
      lineWidth := width;
      startX := 0;
      x, y := 0, 0;
      columnSteps, rowSteps := 0, 0;
    }

    /** color(): the raw bytes under the iterator */
    function Color(): PixelBytes
      reads this, device
    {
      device.pixels(x, y)
    }

    /** nextColumn() */
    method NextColumn()
      modifies this`x, this`columnSteps
      ensures x == old(x) + 1 && columnSteps == old(columnSteps) + 1
    {
      x := x + 1;
      columnSteps := columnSteps + 1;
    }

    /** nextRow(): back to the start of the line, one row down */
    method NextRow()
      modifies this`x, this`y, this`rowSteps
      ensures x == startX && y == old(y) + 1 && rowSteps == old(rowSteps) + 1
    {
      x := startX;
      y := y + 1;
      rowSteps := rowSteps + 1;
    }
  }

  /** KisBrush::ColoringInformation: none, a plain colour, or a paint device */
  datatype ColoringInformation =
    | NoColoring
    | PlainColoring(color: PixelBytes)
    | DeviceColoring(lineIterator: DeviceColoringIterator)

  function ColoringFrame(c: ColoringInformation): set<object> {
    if c.DeviceColoring? then {c.lineIterator} else {}
  }

  /** The pixels of the device a colouring reads, if it reads one */
  function DevicePixels(c: ColoringInformation): (int, int) -> PixelBytes
    reads if c.DeviceColoring? then {c.lineIterator.device} else {}
  {
    if c.DeviceColoring? then c.lineIterator.device.pixels else (_, _) => []
  }

  /**
   * The bytes the mask loop puts at (x, y) before the coverage is applied:
   * zero when there is no colouring, the plain colour, or pixel `pixels` of
   * the device under an iterator that started its first row at line y0.
   */
  function PreMaskColor(c: ColoringInformation, pixels: (int, int) -> PixelBytes, cs: ColorSpace, y0: int, x: int, y: int): PixelBytes {
    match c
    case NoColoring => ZeroPixel(cs)
    case PlainColoring(color) => color
    case DeviceColoring(it) => pixels(it.startX + x, y0 + y)
  }

  /**
   * The colour pass over scan line y: the plain colour in every column, or the
   * device pixel under the iterator, which then steps one column.
   */
  method FillRowColor(data: array2<PixelBytes>, y: nat, coloring: ColoringInformation, cs: ColorSpace, ghost y0: int)
    requires !coloring.NoColoring? && y < data.Length0
    requires coloring.DeviceColoring? ==>
      coloring.lineIterator.x == coloring.lineIterator.startX && coloring.lineIterator.y == y0 + y
    modifies data, ColoringFrame(coloring)
    ensures forall x | 0 <= x < data.Length1 :: data[y, x] == PreMaskColor(coloring, DevicePixels(coloring), cs, y0, x, y)
    ensures forall yy, x | 0 <= yy < data.Length0 && yy != y && 0 <= x < data.Length1 :: data[yy, x] == old(data[yy, x])
    ensures coloring.DeviceColoring? ==>
      && coloring.lineIterator.x == coloring.lineIterator.startX + data.Length1
      && coloring.lineIterator.y == old(coloring.lineIterator.y)
      && coloring.lineIterator.columnSteps == old(coloring.lineIterator.columnSteps) + data.Length1
      && coloring.lineIterator.rowSteps == old(coloring.lineIterator.rowSteps)
  {
    var x := 0;
    while x < data.Length1
      invariant 0 <= x <= data.Length1
      invariant forall xx | 0 <= xx < x :: data[y, xx] == PreMaskColor(coloring, DevicePixels(coloring), cs, y0, xx, y)
      invariant forall yy, xx | 0 <= yy < data.Length0 && yy != y && 0 <= xx < data.Length1 :: data[yy, xx] == old(data[yy, xx])
      invariant coloring.DeviceColoring? ==>
        && coloring.lineIterator.x == coloring.lineIterator.startX + x
        && coloring.lineIterator.y == old(coloring.lineIterator.y)
        && coloring.lineIterator.columnSteps == old(coloring.lineIterator.columnSteps) + x
        && coloring.lineIterator.rowSteps == old(coloring.lineIterator.rowSteps)
    {
      if coloring.PlainColoring? {
        data[y, x] := coloring.color;
      } else {
        data[y, x] := coloring.lineIterator.Color();
        coloring.lineIterator.NextColumn();
      }
      x := x + 1;
    }
  }

  /** The outline cache: which dab the boundary was traced from */
  datatype Outline = Outline(fromFullColorTip: bool, baseScale: real, baseAngle: real)

  const HugeSpacingLimitation: string := "huge-spacing"

  /** int(0.95 * 255): a red channel above this is "white enough" */
  const PiercedRedThreshold: int := (0.95 * 255.0).Floor

  /** The sample window of isPiercedApprox, inclusive on both ends */
  datatype Window = Window(x0: int, x1: int, y0: int, y1: int)

  function PiercingWindow(w: nat, h: nat): (win: Window)
    ensures win.x0 <= win.x1 && win.y0 <= win.y1
  {
    var wr := w as real;
    var hr := h as real;
    // 5.0 / 0 is infinity in the source, so the minimum is then 0.1
    var xPortion := if w == 0 then 0.1 else Min(0.1, 5.0 / wr);
    var yPortion := if h == 0 then 0.1 else Min(0.1, 5.0 / hr);
    assert xPortion >= 0.0 && yPortion >= 0.0;
    assert (0.5 - xPortion) * wr <= (0.5 + xPortion) * wr;
    assert (0.5 - yPortion) * hr <= (0.5 + yPortion) * hr;
    Window(((0.5 - xPortion) * wr).Floor, Ceil((0.5 + xPortion) * wr),
           ((0.5 - yPortion) * hr).Floor, Ceil((0.5 + yPortion) * hr))
  }

  predicate IsBright(p: Argb) { p.r > PiercedRedThreshold }

  /** Bright pixels of row y with x in [x0, xEnd) */
  function RowBright(img: Image, y: int, x0: int, xEnd: int): nat
    decreases xEnd - x0
  {
    if xEnd <= x0 then 0
    else RowBright(img, y, x0, xEnd - 1) + (if IsBright(img.Pixel(xEnd - 1, y)) then 1 else 0)
  }

  /** Bright pixels with x in [x0, xEnd) and y in [y0, yEnd) */
  function WindowBright(img: Image, x0: int, xEnd: int, y0: int, yEnd: int): nat
    decreases yEnd - y0
  {
    if yEnd <= y0 then 0
    else WindowBright(img, x0, xEnd, y0, yEnd - 1) + RowBright(img, yEnd - 1, x0, xEnd)
  }

  function SampleCount(win: Window): int {
    (win.x1 - win.x0 + 1) * (win.y1 - win.y0 + 1)
  }

  /** int(0.1 * maxNumSamples); the count is positive, so truncation is the floor */
  function FailedPixelsThreshold(win: Window): int {
    (0.1 * SampleCount(win) as real).Floor
  }

  /** What isPiercedApprox answers for a tip image */
  function PiercedApprox(img: Image): bool {
    var win := PiercingWindow(img.width, img.height);
    WindowBright(img, win.x0, win.x1 + 1, win.y0, win.y1 + 1) > FailedPixelsThreshold(win)
  }

  /** The bright count of a row never exceeds the row's length. */
  lemma {:induction false} RowBrightBounded(img: Image, y: int, x0: int, xEnd: int)
    ensures RowBright(img, y, x0, xEnd) <= if xEnd <= x0 then 0 else xEnd - x0
    decreases xEnd - x0
  {
    if xEnd > x0 {
      RowBrightBounded(img, y, x0, xEnd - 1);
    }
  }

  /** The bright count of a window never exceeds the number of samples in it. */
  lemma {:induction false} WindowBrightBounded(img: Image, x0: int, xEnd: int, y0: int, yEnd: int)
    requires x0 <= xEnd
    ensures WindowBright(img, x0, xEnd, y0, yEnd) <= (xEnd - x0) * (if yEnd <= y0 then 0 else yEnd - y0)
    decreases yEnd - y0
  {
    if yEnd > y0 {
      WindowBrightBounded(img, x0, xEnd, y0, yEnd - 1);
      RowBrightBounded(img, yEnd - 1, x0, xEnd);
      assert (xEnd - x0) * (yEnd - y0) == (xEnd - x0) * (if yEnd - 1 <= y0 then 0 else yEnd - 1 - y0) + (xEnd - x0);
    }
  }

  predicate InWindow(win: Window, x: int, y: int) {
    win.x0 <= x <= win.x1 && win.y0 <= y <= win.y1
  }

  /** Counting only dark pixels gives zero, and a fully bright row counts every pixel. */
  lemma {:induction false} RowBrightExtremes(img: Image, y: int, x0: int, xEnd: int)
    requires x0 <= xEnd
    ensures (forall x | x0 <= x < xEnd :: !IsBright(img.Pixel(x, y))) ==> RowBright(img, y, x0, xEnd) == 0
    ensures (forall x | x0 <= x < xEnd :: IsBright(img.Pixel(x, y))) ==> RowBright(img, y, x0, xEnd) == xEnd - x0
    decreases xEnd - x0
  {
    if xEnd > x0 {
      RowBrightExtremes(img, y, x0, xEnd - 1);
    }
  }

  lemma {:induction false} WindowBrightExtremes(img: Image, x0: int, xEnd: int, y0: int, yEnd: int)
    requires x0 <= xEnd && y0 <= yEnd
    ensures (forall x, y | x0 <= x < xEnd && y0 <= y < yEnd :: !IsBright(img.Pixel(x, y))) ==>
      WindowBright(img, x0, xEnd, y0, yEnd) == 0
    ensures (forall x, y | x0 <= x < xEnd && y0 <= y < yEnd :: IsBright(img.Pixel(x, y))) ==>
      WindowBright(img, x0, xEnd, y0, yEnd) == (xEnd - x0) * (yEnd - y0)
    decreases yEnd - y0
  {
    if yEnd > y0 {
      WindowBrightExtremes(img, x0, xEnd, y0, yEnd - 1);
      RowBrightExtremes(img, yEnd - 1, x0, xEnd);
      assert (xEnd - x0) * (yEnd - y0) == (xEnd - x0) * (yEnd - 1 - y0) + (xEnd - x0);
    }
  }

  lemma ThresholdBelowSampleCount(win: Window)
    requires win.x0 <= win.x1 && win.y0 <= win.y1
    ensures 0 <= FailedPixelsThreshold(win) < SampleCount(win)
  {
    var a, b := win.x1 - win.x0 + 1, win.y1 - win.y0 + 1;
    ProductOfPositives(a, b);
    var n := SampleCount(win);
    assert n == a * b;
    var r := 0.1 * n as real;
    assert 0.0 <= r < n as real;
    assert r.Floor as real <= r;
  }

  lemma {:induction false} ProductOfPositives(a: int, b: int)
    requires a >= 1 && b >= 1
    ensures a * b >= 1
    decreases a
  {
    if a > 1 {
      ProductOfPositives(a - 1, b);
      assert a * b == (a - 1) * b + b;
    }
  }

  /** A tip with no bright pixel in the central window is not pierced. */
  lemma DarkCentreNotPierced(img: Image)
    requires var win := PiercingWindow(img.width, img.height);
      forall x, y | InWindow(win, x, y) :: !IsBright(img.Pixel(x, y))
    ensures !PiercedApprox(img)
  {
    var win := PiercingWindow(img.width, img.height);
    forall x, y | win.x0 <= x < win.x1 + 1 && win.y0 <= y < win.y1 + 1
      ensures !IsBright(img.Pixel(x, y))
    {
      assert InWindow(win, x, y);
    }
    WindowBrightExtremes(img, win.x0, win.x1 + 1, win.y0, win.y1 + 1);
    ThresholdBelowSampleCount(win);
  }

  /** A tip whose central window is entirely bright is pierced. */
  lemma BrightCentrePierced(img: Image)
    requires var win := PiercingWindow(img.width, img.height);
      forall x, y | InWindow(win, x, y) :: IsBright(img.Pixel(x, y))
    ensures PiercedApprox(img)
  {
    var win := PiercingWindow(img.width, img.height);
    forall x, y | win.x0 <= x < win.x1 + 1 && win.y0 <= y < win.y1 + 1
      ensures IsBright(img.Pixel(x, y))
    {
      assert InWindow(win, x, y);
    }
    WindowBrightExtremes(img, win.x0, win.x1 + 1, win.y0, win.y1 + 1);
    ThresholdBelowSampleCount(win);
  }

  /** isPiercedApprox never reports more bright pixels than the window holds. */
  lemma PiercedWindowBound(img: Image)
    ensures var win := PiercingWindow(img.width, img.height);
      WindowBright(img, win.x0, win.x1 + 1, win.y0, win.y1 + 1) <= SampleCount(win)
  {
    var win := PiercingWindow(img.width, img.height);
    WindowBrightBounded(img, win.x0, win.x1 + 1, win.y0, win.y1 + 1);
  }

  class Brush {
    const kit: Collaborators

    var angle: real
    var scale: real
    var hasColor: bool
    var brushType: BrushType
    var width: int
    var height: int
    var spacing: real
    var hotSpot: PointF
    var tipImage: Image
    var autoSpacingActive: bool
    var autoSpacingCoeff: real
    var boundary: Option<Outline>
    var filename: string

    /**
     * KisBrush(): the defaults of KisBrush::Private. Private leaves width,
     * height, spacing and the hot spot uninitialised; the model starts them
     * at zero, a value no contract depends on.
     */
    constructor (kit: Collaborators)
      ensures this.kit == kit
      ensures boundary == None && angle == 0.0 && scale == 1.0 && !hasColor && brushType == InvalidType
      ensures !autoSpacingActive && autoSpacingCoeff == 1.0
      ensures width == 0 && height == 0 && spacing == 0.0 && hotSpot == PointF(0.0, 0.0)
      ensures tipImage == Image(0, 0, []) && filename == ""
    {
      this.kit := kit;
      angle, scale, hasColor, brushType := 0.0, 1.0, false, InvalidType;
      autoSpacingActive, autoSpacingCoeff := false, 1.0;
      boundary := None;
      width, height, spacing, hotSpot := 0, 0, 0.0, PointF(0.0, 0.0);
      tipImage := Image(0, 0, []);
      filename := "";
    }

    /** The copy constructor: every field but the boundary, which is regenerated on demand */
    constructor Copy(rhs: Brush)
      ensures kit == rhs.kit && tipImage == rhs.tipImage
      ensures brushType == rhs.brushType && width == rhs.width && height == rhs.height
      ensures spacing == rhs.spacing && hotSpot == rhs.hotSpot && hasColor == rhs.hasColor
      ensures angle == rhs.angle && scale == rhs.scale
      ensures autoSpacingActive == rhs.autoSpacingActive && autoSpacingCoeff == rhs.autoSpacingCoeff
      ensures filename == rhs.filename
      ensures boundary == None
    {
      kit := rhs.kit;
      tipImage := rhs.tipImage;
      brushType := rhs.brushType;
      width := rhs.width;
      height := rhs.height;
      spacing := rhs.spacing;
      hotSpot := rhs.hotSpot;
      hasColor := rhs.hasColor;
      angle := rhs.angle;
      scale := rhs.scale;
      autoSpacingActive := rhs.autoSpacingActive;
      autoSpacingCoeff := rhs.autoSpacingCoeff;
      filename := rhs.filename;
      boundary := None;
    }

    /** setBrushTipImage: a non-null image also sets the brush's width and height */
    method SetBrushTipImage(image: Image)
      modifies this`tipImage, this`width, this`height
      ensures tipImage == image
      ensures !image.IsNull() ==> width == image.width && height == image.height
      ensures image.IsNull() ==> width == old(width) && height == old(height)
    {
      tipImage := image;
      if !image.IsNull() {
        width := image.width;
        height := image.height;
      }
    }

    /** setHotSpot: each coordinate clamped into [0, width) x [0, height) */
    method SetHotSpot(pt: PointF)
      modifies this`hotSpot
      ensures pt.x < 0.0 ==> hotSpot.x == 0.0
      ensures 0.0 <= pt.x < width as real ==> hotSpot.x == pt.x
      ensures 0.0 <= pt.x && pt.x >= width as real ==> hotSpot.x == (width - 1) as real
      ensures pt.y < 0.0 ==> hotSpot.y == 0.0
      ensures 0.0 <= pt.y < height as real ==> hotSpot.y == pt.y
      ensures 0.0 <= pt.y && pt.y >= height as real ==> hotSpot.y == (height - 1) as real
      ensures width >= 1 ==> 0.0 <= hotSpot.x < width as real
      ensures height >= 1 ==> 0.0 <= hotSpot.y < height as real
    {
      var x := pt.x;
      var y := pt.y;
      if x < 0.0 {
        x := 0.0;
      } else if x >= width as real {
        x := (width - 1) as real;
      }
      if y < 0.0 {
        y := 0.0;
      } else if y >= height as real {
        y := (height - 1) as real;
      }
      hotSpot := PointF(x, y);
    }

    /** characteristicSize: the caller's x scale and rotation composed with the brush's own */
    function CharacteristicSize(scaleX: real, scaleY: real, rotation: real): SizeF
      reads this
    {
      kit.pyramidCharacteristicSize(Size(width, height), scaleX * scale, kit.normalizeAngle(rotation + angle))
    }

    /**
     * hotSpot(scaleX, scaleY, rotation): the centre of the characteristic size,
     * each side first floored at one pixel.
     */
    function HotSpot(scaleX: real, scaleY: real, rotation: real): (p: PointF)
      reads this
      ensures p.x >= 0.5 && p.y >= 0.5
      ensures 2.0 * p.x == Max(CharacteristicSize(scaleX, scaleY, rotation).width, 1.0)
      ensures 2.0 * p.y == Max(CharacteristicSize(scaleX, scaleY, rotation).height, 1.0)
    {
      var metric := CharacteristicSize(scaleX, scaleY, rotation);
      var w := if metric.width < 1.0 then 1.0 else metric.width;
      var h := if metric.height < 1.0 then 1.0 else metric.height;
      PointF(w / 2.0, h / 2.0)
    }

    /** maskAngle: the caller's angle composed with the brush's own */
    function MaskAngle(angle: real): real
      reads this
    {
      kit.normalizeAngle(angle + this.angle)
    }

    /** maskWidth: width of the pyramid image at the composed scale and angle */
    function MaskWidth(scale: real, angle: real, subPixelX: real, subPixelY: real): int
      reads this
    {
      kit.pyramidImageSize(Size(width, height), scale * this.scale, MaskAngle(angle), subPixelX, subPixelY).width
    }

    /** maskHeight: height of the pyramid image at the composed scale and angle */
    function MaskHeight(scale: real, angle: real, subPixelX: real, subPixelY: real): int
      reads this
    {
      kit.pyramidImageSize(Size(width, height), scale * this.scale, MaskAngle(angle), subPixelX, subPixelY).height
    }

    /**
     * characteristicSize and the mask sizes query the pyramid at the same
     * composed angle and x scale; characteristicSize ignores the y scale.
     */
    lemma SizesShareComposition(scaleX: real, scaleY: real, otherScaleY: real, angle: real, subPixelX: real, subPixelY: real)
      ensures CharacteristicSize(scaleX, scaleY, angle)
           == kit.pyramidCharacteristicSize(Size(width, height), scaleX * scale, MaskAngle(angle))
      ensures CharacteristicSize(scaleX, scaleY, angle) == CharacteristicSize(scaleX, otherScaleY, angle)
      ensures MaskWidth(scaleX, angle, subPixelX, subPixelY)
           == kit.pyramidImageSize(Size(width, height), scaleX * scale, MaskAngle(angle), subPixelX, subPixelY).width
      ensures MaskHeight(scaleY, angle, subPixelX, subPixelY)
           == kit.pyramidImageSize(Size(width, height), scaleY * scale, MaskAngle(angle), subPixelX, subPixelY).height
    {
    }

    /** The transformed tip the mask loop rasterises */
    function TransformedTip(scaleX: real, scaleY: real, angle: real, subPixelX: real, subPixelY: real): Image
      reads this
    {
      TransformBrushTip(kit, tipImage, scaleX * scale, scaleY * scale, MaskAngle(angle), subPixelX, subPixelY)
    }

    /** setSpacing: never below 0.02 */
    method SetSpacing(s: real)
      modifies this`spacing
      ensures spacing >= 0.02
      ensures s >= 0.02 ==> spacing == s
      ensures s < 0.02 ==> spacing == 0.02
    {
      var v := s;
      if v < 0.02 {
        v := 0.02;
      }
      spacing := v;
    }

    /** setAutoSpacing */
    method SetAutoSpacing(active: bool, coeff: real)
      modifies this`autoSpacingActive, this`autoSpacingCoeff
      ensures autoSpacingActive == active && autoSpacingCoeff == coeff
    {
      autoSpacingCoeff := coeff;
      autoSpacingActive := active;
    }

    /** setScale; the outline cache is left as it is */
    method SetScale(s: real)
      modifies this`scale
      ensures scale == s
    {
      scale := s;
    }

    /** setAngle; the outline cache is left as it is */
    method SetAngle(rotation: real)
      modifies this`angle
      ensures angle == rotation
    {
      angle := rotation;
    }

    method SetBrushType(t: BrushType)
      modifies this`brushType
      ensures brushType == t
    {
      brushType := t;
    }

    method SetHasColor(c: bool)
      modifies this`hasColor
      ensures hasColor == c
    {
      hasColor := c;
    }

    /**
     * isPiercedApprox: counts the pixels of a small central window whose red
     * channel is above 95% and reports whether more than a tenth of the
     * window is that bright.
     */
    method IsPiercedApprox() returns (pierced: bool)
      ensures pierced == PiercedApprox(tipImage)
    {
      var image := tipImage;
      var win := PiercingWindow(image.width, image.height);
      var x0, x1, y0, y1 := win.x0, win.x1, win.y0, win.y1;
      var failedPixelsThreshold := FailedPixelsThreshold(win);
      var thresholdValue := (0.95 * 255.0).Floor;
      var failedPixels := 0;

      var y := y0;
      while y <= y1
        invariant y0 <= y <= y1 + 1
        invariant failedPixels == WindowBright(image, x0, x1 + 1, y0, y)
      {
        var x := x0;
        ghost var before := failedPixels;
        while x <= x1
          invariant x0 <= x <= x1 + 1
          invariant failedPixels == before + RowBright(image, y, x0, x)
        {
          var pixel := image.Pixel(x, y);
          if pixel.r > thresholdValue {
            failedPixels := failedPixels + 1;
          }
          x := x + 1;
        }
        y := y + 1;
      }
      pierced := failedPixels > failedPixelsThreshold;
    }

    /**
     * generateMaskAndApplyMaskOrCreateDab: resizes `dst` to the transformed
     * tip, fills it with the colouring in raster order (advancing a device
     * iterator once per column and once per row), and multiplies each row by
     * the coverage of the tip's pixels.
     */
    method GenerateMaskAndApplyMaskOrCreateDab(dst: FixedDevice, coloring: ColoringInformation,
                                               scaleX: real, scaleY: real, angle: real,
                                               subPixelX: real, subPixelY: real, softnessFactor: real)
      requires coloring.DeviceColoring? ==> coloring.lineIterator.x == coloring.lineIterator.startX
      modifies dst, ColoringFrame(coloring)
      ensures var img := TransformedTip(scaleX, scaleY, angle, subPixelX, subPixelY);
        && dst.bounds == Rect(0, 0, img.width, img.height)
        && fresh(dst.data) && dst.data.Length0 == img.height && dst.data.Length1 == img.width
        && (forall y, x | 0 <= y < img.height && 0 <= x < img.width ::
              dst.data[y, x] == dst.colorSpace.applyAlpha(
                PreMaskColor(coloring, DevicePixels(coloring), dst.colorSpace, if coloring.DeviceColoring? then old(coloring.lineIterator.y) else 0, x, y),
                Coverage(kit, img.rows[y][x], hasColor)))
        && (coloring.DeviceColoring? ==>
              && coloring.lineIterator.x == coloring.lineIterator.startX
              && coloring.lineIterator.y == old(coloring.lineIterator.y) + img.height
              && coloring.lineIterator.columnSteps == old(coloring.lineIterator.columnSteps) + img.width * img.height
              && coloring.lineIterator.rowSteps == old(coloring.lineIterator.rowSteps) + img.height)
      ensures dst.colorSpace == old(dst.colorSpace) && dst.effects == old(dst.effects)
    {
      var outputImage := TransformedTip(scaleX, scaleY, angle, subPixelX, subPixelY);
      var maskWidth := outputImage.width;
      var maskHeight := outputImage.height;

      dst.SetRect(Rect(0, 0, maskWidth, maskHeight));
      dst.Initialize();

      var cs := dst.colorSpace;
      ghost var y0 := if coloring.DeviceColoring? then coloring.lineIterator.y else 0;
      MaskRows(dst.data, coloring, DevicePixels(coloring), cs, y0, outputImage, hasColor);
      assert outputImage == TransformedTip(scaleX, scaleY, angle, subPixelX, subPixelY);
    }

    /**
     * The mask loop over every scan line of `img`, on storage already the size
     * of `img` and zero-filled.
     */
    method MaskRows(data: array2<PixelBytes>, coloring: ColoringInformation, ghost pixels: (int, int) -> PixelBytes,
                    cs: ColorSpace, ghost y0: int, outputImage: Image, hasColor: bool)
      requires outputImage.Valid() && data.Length0 == outputImage.height && data.Length1 == outputImage.width
      requires forall yy, xx | 0 <= yy < data.Length0 && 0 <= xx < data.Length1 :: data[yy, xx] == ZeroPixel(cs)
      requires DevicePixels(coloring) == pixels
      requires coloring.DeviceColoring? ==>
        coloring.lineIterator.x == coloring.lineIterator.startX && coloring.lineIterator.y == y0
      modifies data, ColoringFrame(coloring)
      ensures forall yy, xx | 0 <= yy < data.Length0 && 0 <= xx < data.Length1 ::
        data[yy, xx] == cs.applyAlpha(PreMaskColor(coloring, pixels, cs, y0, xx, yy), Coverage(kit, outputImage.rows[yy][xx], hasColor))
      ensures DevicePixels(coloring) == pixels
      ensures coloring.DeviceColoring? ==>
        && coloring.lineIterator.x == coloring.lineIterator.startX
        && coloring.lineIterator.y == y0 + data.Length0
        && coloring.lineIterator.columnSteps == old(coloring.lineIterator.columnSteps) + data.Length1 * data.Length0
        && coloring.lineIterator.rowSteps == old(coloring.lineIterator.rowSteps) + data.Length0
    {
      var maskWidth := outputImage.width;
      var maskHeight := outputImage.height;
      var alphaArray := new byte[maskWidth];
      ghost var columns0 := if coloring.DeviceColoring? then coloring.lineIterator.columnSteps else 0;
      ghost var rows0 := if coloring.DeviceColoring? then coloring.lineIterator.rowSteps else 0;

      var y := 0;
      while y < maskHeight
        invariant 0 <= y <= maskHeight
        invariant DevicePixels(coloring) == pixels
        invariant forall yy, xx | 0 <= yy < y && 0 <= xx < maskWidth ::
          data[yy, xx] == cs.applyAlpha(PreMaskColor(coloring, pixels, cs, y0, xx, yy), Coverage(kit, outputImage.rows[yy][xx], hasColor))
        invariant forall yy, xx | y <= yy < maskHeight && 0 <= xx < maskWidth :: data[yy, xx] == ZeroPixel(cs)
        invariant coloring.DeviceColoring? ==>
          && coloring.lineIterator.x == coloring.lineIterator.startX
          && coloring.lineIterator.y == y0 + y
          && coloring.lineIterator.columnSteps == columns0 + y * maskWidth
          && coloring.lineIterator.rowSteps == rows0 + y
      {
        MaskRow(data, y, coloring, pixels, cs, y0, outputImage.rows[y], hasColor, alphaArray);
        y := y + 1;
      }
    }

    /**
     * One scan line of the mask loop: the colour pass, the coverage pass, the
     * alpha multiplication, and the iterator's step to the next line.
     */
    method MaskRow(data: array2<PixelBytes>, y: nat, coloring: ColoringInformation, ghost pixels: (int, int) -> PixelBytes,
                   cs: ColorSpace, ghost y0: int, row: seq<Argb>, hasColor: bool, alphaArray: array<byte>)
      requires y < data.Length0 && data.Length1 == alphaArray.Length == |row|
      requires forall xx | 0 <= xx < data.Length1 :: data[y, xx] == ZeroPixel(cs)
      requires DevicePixels(coloring) == pixels
      requires coloring.DeviceColoring? ==>
        coloring.lineIterator.x == coloring.lineIterator.startX && coloring.lineIterator.y == y0 + y
      modifies data, alphaArray, ColoringFrame(coloring)
      ensures forall xx | 0 <= xx < data.Length1 ::
        data[y, xx] == cs.applyAlpha(PreMaskColor(coloring, pixels, cs, y0, xx, y), Coverage(kit, row[xx], hasColor))
      ensures forall yy, xx | 0 <= yy < data.Length0 && yy != y && 0 <= xx < data.Length1 :: data[yy, xx] == old(data[yy, xx])
      ensures DevicePixels(coloring) == pixels
      ensures coloring.DeviceColoring? ==>
        && coloring.lineIterator.x == coloring.lineIterator.startX
        && coloring.lineIterator.y == old(coloring.lineIterator.y) + 1
        && coloring.lineIterator.columnSteps == old(coloring.lineIterator.columnSteps) + data.Length1
        && coloring.lineIterator.rowSteps == old(coloring.lineIterator.rowSteps) + 1
    {
      if !coloring.NoColoring? {
        FillRowColor(data, y, coloring, cs, y0);
      }
      assert forall xx | 0 <= xx < data.Length1 :: data[y, xx] == PreMaskColor(coloring, pixels, cs, y0, xx, y);
      RowCoverage(alphaArray, row, hasColor);
      ApplyAlphaU8Mask(cs, data, y, alphaArray, data.Length1);
      if !coloring.PlainColoring? && !coloring.NoColoring? {
        coloring.lineIterator.NextRow();
      }
    }

    /** The coverage pass over one scan line of the transformed tip */
    method RowCoverage(alpha: array<byte>, row: seq<Argb>, hasColor: bool)
      requires |row| == alpha.Length
      modifies alpha
      ensures forall x | 0 <= x < alpha.Length :: alpha[x] == Coverage(kit, row[x], hasColor)
    {
      var x := 0;
      while x < alpha.Length
        invariant 0 <= x <= alpha.Length
        invariant forall xx | 0 <= xx < x :: alpha[xx] == Coverage(kit, row[xx], hasColor)
      {
        alpha[x] := Coverage(kit, row[x], hasColor);
        x := x + 1;
      }
    }

    /** mask(dst, ...): coverage only, no colouring */
    method Mask(dst: FixedDevice, scaleX: real, scaleY: real, angle: real,
                subPixelX: real, subPixelY: real, softnessFactor: real)
      modifies dst
      ensures var img := TransformedTip(scaleX, scaleY, angle, subPixelX, subPixelY);
        && dst.bounds == Rect(0, 0, img.width, img.height)
        && fresh(dst.data) && Holds(dst, MaskedRaster(dst.colorSpace, PlainSource(ZeroPixel(dst.colorSpace)), kit, hasColor, img))
      ensures dst.colorSpace == old(dst.colorSpace) && dst.effects == old(dst.effects)
    {
      ghost var img := TransformedTip(scaleX, scaleY, angle, subPixelX, subPixelY);
      GenerateMaskAndApplyMaskOrCreateDab(dst, NoColoring, scaleX, scaleY, angle, subPixelX, subPixelY, softnessFactor);
      HoldsMaskedRaster(dst, dst.colorSpace, PlainSource(ZeroPixel(dst.colorSpace)), kit, hasColor, img);
    }

    /** mask(dst, color, ...): every pixel starts as the plain colour */
    method MaskWithColor(dst: FixedDevice, color: PixelBytes, scaleX: real, scaleY: real, angle: real,
                         subPixelX: real, subPixelY: real, softnessFactor: real)
      modifies dst
      ensures var img := TransformedTip(scaleX, scaleY, angle, subPixelX, subPixelY);
        && dst.bounds == Rect(0, 0, img.width, img.height)
        && fresh(dst.data) && Holds(dst, MaskedRaster(dst.colorSpace, PlainSource(color), kit, hasColor, img))
      ensures dst.colorSpace == old(dst.colorSpace) && dst.effects == old(dst.effects)
    {
      ghost var img := TransformedTip(scaleX, scaleY, angle, subPixelX, subPixelY);
      GenerateMaskAndApplyMaskOrCreateDab(dst, PlainColoring(color), scaleX, scaleY, angle, subPixelX, subPixelY, softnessFactor);
      HoldsMaskedRaster(dst, dst.colorSpace, PlainSource(color), kit, hasColor, img);
    }

    /**
     * mask(dst, src, ...): pixel (x, y) starts as pixel (x, y) of `src`, read
     * through an iterator as wide as maskWidth.
     */
    method MaskWithDevice(dst: FixedDevice, src: PaintDevice, scaleX: real, scaleY: real, angle: real,
                          subPixelX: real, subPixelY: real, softnessFactor: real)
      modifies dst
      ensures var img := TransformedTip(scaleX, scaleY, angle, subPixelX, subPixelY);
        && dst.bounds == Rect(0, 0, img.width, img.height)
        && fresh(dst.data) && Holds(dst, MaskedRaster(dst.colorSpace, DeviceSource(src.pixels), kit, hasColor, img))
      ensures dst.colorSpace == old(dst.colorSpace) && dst.effects == old(dst.effects)
    {
      var lineIterator := new DeviceColoringIterator(src, MaskWidth(scaleX, angle, subPixelX, subPixelY));
      var coloring := DeviceColoring(lineIterator);
      ghost var img := TransformedTip(scaleX, scaleY, angle, subPixelX, subPixelY);
      GenerateMaskAndApplyMaskOrCreateDab(dst, coloring, scaleX, scaleY, angle, subPixelX, subPixelY, softnessFactor);
      assert DevicePixels(coloring) == src.pixels;
      assert forall y, x :: PreMaskColor(coloring, src.pixels, dst.colorSpace, 0, x, y) == DeviceSource(src.pixels).At(x, y);
      HoldsMaskedRaster(dst, dst.colorSpace, DeviceSource(src.pixels), kit, hasColor, img);
    }

    /** The image paintDevice converts: the tip at the composed scale, the y scale times `ratio` */
    function FullColorTip(scale: real, ratio: real, angle: real, subPixelX: real, subPixelY: real): Image
      reads this
    {
      TransformBrushTip(kit, tipImage, scale * this.scale, scale * this.scale * ratio, MaskAngle(angle), subPixelX, subPixelY)
    }

    /**
     * paintDevice: for full-colour tips, the transformed tip converted into
     * `cs` as a new dab. The y scale is the x scale times `ratio`.
     */
    method FullColorDab(cs: ColorSpace, scale: real, ratio: real, angle: real,
                        subPixelX: real, subPixelY: real) returns (dab: FixedDevice)
      ensures fresh(dab) && fresh(dab.data) && dab.colorSpace == cs && dab.effects == []
      ensures var img := FullColorTip(scale, ratio, angle, subPixelX, subPixelY);
        && dab.bounds == Rect(0, 0, img.width, img.height)
        && Holds(dab, ConvertedRaster(cs, img))
    {
      var outputImage := FullColorTip(scale, ratio, angle, subPixelX, subPixelY);
      dab := new FixedDevice(cs);
      dab.ConvertFromImage(outputImage);
    }

    /** resetBoundary: drops the cached outline */
    method ResetBoundary()
      modifies this`boundary
      ensures boundary == None
    {
      boundary := None;
    }

    /**
     * boundary(): the cached outline, traced on first use from a dab at the
     * inverse of the brush's own scale and angle (a full-colour dab for image
     * brushes, a black mask otherwise).
     */
    method Boundary() returns (outline: Outline)
      modifies this`boundary
      ensures boundary == Some(outline)
      ensures old(boundary).Some? ==> outline == old(boundary).value
      ensures old(boundary).None? ==> outline == Outline(IsFullColor(brushType), scale, angle)
    {
      if boundary.None? {
        boundary := Some(Outline(brushType == ImageType || brushType == PipeImageType, scale, angle));
      }
      outline := boundary.value;
    }

    /** lodLimitations: spacing above 0.5 adds the "huge-spacing" limitation */
    function LodLimitations(limitations: seq<string>): (r: seq<string>)
      reads this
      ensures |limitations| <= |r| <= |limitations| + 1
      ensures r[..|limitations|] == limitations
      ensures |r| == |limitations| + 1 <==> spacing > 0.5
      ensures |r| == |limitations| + 1 ==> r[|limitations|] == HugeSpacingLimitation
    {
      if spacing > 0.5 then limitations + [HugeSpacingLimitation] else limitations
    }
  }

  /** The element attribute toXML writes */
  function ToXml(element: map<string, string>): (e: map<string, string>)
    ensures "BrushVersion" in e && e["BrushVersion"] == "2"
    ensures BrushVersion(e) != "1"
    ensures forall k | k in element && k != "BrushVersion" :: k in e && e[k] == element[k]
  {
    element["BrushVersion" := "2"]
  }

  /** element.attribute("BrushVersion", "1") */
  function BrushVersion(element: map<string, string>): string {
    if "BrushVersion" in element then element["BrushVersion"] else "1"
  }

  /**
   * fromXML, after the registry has produced `brush`: a brush saved in the
   * version-1 format (or with no version) has its scale doubled.
   */
  method FromXml(element: map<string, string>, brush: Brush?)
    modifies brush
    ensures brush != null ==> brush.scale == old(brush.scale) * (if BrushVersion(element) == "1" then 2.0 else 1.0)
    ensures brush != null ==> brush.angle == old(brush.angle) && brush.spacing == old(brush.spacing)
    ensures brush != null ==>
      unchanged(brush`hasColor, brush`brushType, brush`width, brush`height, brush`hotSpot, brush`tipImage,
                brush`autoSpacingActive, brush`autoSpacingCoeff, brush`boundary, brush`filename)
  {
    if brush != null && BrushVersion(element) == "1" {
      brush.SetScale(brush.scale * 2.0);
    }
  }
}
