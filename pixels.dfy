// Pixel buffers the brush engine reads and writes.
//
// QImage in Format_ARGB32 becomes `Image` (rows of `Argb` pixels);
// KoColorSpace becomes a value carrying its identity and the two per-pixel
// primitives the core calls; KisFixedPaintDevice (the dab) and KisPaintDevice
// (the colour-source scratch device) are classes, because the core updates them
// in place. Conversions and effects that live in the colour-space library are
// function-valued fields: the model does not know what they compute, only
// where and in which order they are applied.

module Pixels {
  import opened Primitives

  /** QRgb, split into its channels */
  datatype Argb = Argb(a: byte, r: byte, g: byte, b: byte)

  const Transparent: Argb := Argb(0, 0, 0, 0)

  /** Qt's QImage::pixel answers 12345 (0x00003039) for a coordinate outside the image. */
  const OutOfRangePixel: Argb := Argb(0, 0, 0x30, 0x39)

  /**
   * The byte that comes first in memory for an ARGB32 pixel. On the
   * little-endian machines the engine runs on, that is the blue channel.
   */
  function FirstByte(p: Argb): byte { p.b }

  /** QImage in Format_ARGB32: `rows[y]` is scan line y. */
  datatype Image = Image(width: nat, height: nat, rows: seq<seq<Argb>>) {

    ghost predicate Valid() {
      |rows| == height && forall y | 0 <= y < height :: |rows[y]| == width
    }

    predicate IsNull() { width == 0 || height == 0 }

    /** QImage::pixel */
    function Pixel(x: int, y: int): (p: Argb)
      ensures !(0 <= x < width && 0 <= y < height) ==> p == OutOfRangePixel
    {
      if 0 <= x < width && 0 <= y < height && y < |rows| && x < |rows[y]| then rows[y][x]
      else OutOfRangePixel
    }
  }

  /** The raw bytes of one pixel in some colour space */
  type PixelBytes = seq<byte>

  /**
   * KoColorSpace: `id` and `profile` decide equality (KoColorSpace::operator==);
   * `applyAlpha` is what applyAlphaU8Mask does to one pixel, and `fromArgb`
   * what convertFromQImage does to one pixel.
   */
  datatype ColorSpace = ColorSpace(
    id: string,
    profile: string,
    pixelSize: nat,
    applyAlpha: (PixelBytes, byte) -> PixelBytes,
    fromArgb: Argb -> PixelBytes)

  predicate SameColorSpace(a: ColorSpace, b: ColorSpace) {
    a.id == b.id && a.profile == b.profile
  }

  /** A pixel whose bytes are all zero, as KisFixedPaintDevice::initialize leaves it */
  function ZeroPixel(cs: ColorSpace): (p: PixelBytes)
    ensures |p| == cs.pixelSize && forall i | 0 <= i < |p| :: p[i] == 0
  {
    seq(cs.pixelSize, _ => 0)
  }

  /** KisPaintInformation, reduced to what the core passes on */
  datatype PaintInformation = PaintInformation(pos: PointF, pressure: real)

  /**
   * Post-processing applied to a dab after the brush has drawn it. The effects
   * themselves belong to other components; a dab records which were applied,
   * in order.
   */
  datatype DabEffect =
    | Mirrored(horizontal: bool, vertical: bool)
    | SharpnessThreshold
    | Textured(topLeft: Point, info: PaintInformation)

  /** KisFixedPaintDevice: a dab, `data[y, x]` being the pixel at (x, y) of `bounds` */
  class FixedDevice {
    var colorSpace: ColorSpace
    var bounds: Rect
    var data: array2<PixelBytes>
    var effects: seq<DabEffect>

    constructor (cs: ColorSpace)
      ensures colorSpace == cs && bounds == Rect(0, 0, 0, 0) && effects == []
      ensures data.Length0 == 0 && data.Length1 == 0 && fresh(data)
    {
      colorSpace := cs;
      bounds := Rect(0, 0, 0, 0);
      data := new PixelBytes[0, 0];
      effects := [];
    }

    /** KisFixedPaintDevice::setRect */
    method SetRect(r: Rect)
      modifies this`bounds
      ensures bounds == r
    {
      bounds := r;
    }

    /** KisFixedPaintDevice::initialize: storage for `bounds`, every byte zero */
    method Initialize()
      requires bounds.width >= 0 && bounds.height >= 0
      modifies this`data
      ensures fresh(data)
      ensures data.Length0 == bounds.height && data.Length1 == bounds.width
      ensures forall y, x | 0 <= y < data.Length0 && 0 <= x < data.Length1 :: data[y, x] == ZeroPixel(colorSpace)
    {
      var zero := ZeroPixel(colorSpace);
      data := new PixelBytes[bounds.height, bounds.width]((_, _) => zero);
    }

    /** KisFixedPaintDevice::convertFromQImage: resize to the image and convert each pixel */
    method ConvertFromImage(image: Image)
      requires image.Valid()
      modifies this`data, this`bounds
      ensures fresh(data)
      ensures bounds == Rect(0, 0, image.width, image.height)
      ensures data.Length0 == image.height && data.Length1 == image.width
      ensures forall y, x | 0 <= y < image.height && 0 <= x < image.width ::
        data[y, x] == colorSpace.fromArgb(image.rows[y][x])
    {
      bounds := Rect(0, 0, image.width, image.height);
      var cs := colorSpace;
      data := new PixelBytes[image.height, image.width]((y, x) requires 0 <= y < image.height && 0 <= x < image.width =>
        cs.fromArgb(image.rows[y][x]));
    }

    /** Records an effect applied to the dab by another component. */
    method Apply(effect: DabEffect)
      modifies this`effects
      ensures effects == old(effects) + [effect]
    {
      effects := effects + [effect];
    }
  }

  /** KisPaintDevice: an unbounded device, every pixel readable */
  class PaintDevice {
    var colorSpace: ColorSpace
    var pixels: (int, int) -> PixelBytes

    constructor (cs: ColorSpace)
      ensures colorSpace == cs
      ensures forall x, y :: pixels(x, y) == ZeroPixel(cs)
    {
      colorSpace := cs;
      pixels := (_, _) => ZeroPixel(cs);
    }

    /** What a colour source's colorize leaves in the device */
    method Fill(f: (int, int) -> PixelBytes)
      modifies this`pixels
      ensures pixels == f
    {
      pixels := f;
    }

    /** KisPaintDevice::clear: every pixel back to the default (zero) pixel */
    method Clear()
      modifies this`pixels
      ensures forall x, y :: pixels(x, y) == ZeroPixel(colorSpace)
    {
      var cs := colorSpace;
      pixels := (_, _) => ZeroPixel(cs);
    }
  }
}
