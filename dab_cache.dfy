// KisDabCache: where a dab goes on the canvas, and how it is produced.
//
// calculateDabRect is a function over the cache's options and the brush;
// fetchDabCommon and postProcessDab are methods that update the cached
// colour-source device and the dab. The option objects the cache points to
// (mirror, sharpness, texture, precision) and the colour source belong to
// other components: each is a value holding the function the cache calls, and
// the effects they apply to a dab are recorded on the dab in order.

module DabCache {
  import opened Primitives
  import opened Pixels
  import opened BrushTip

  /** One row of the precision table: granularity of angle, size fraction, sub-pixel and softness */
  datatype PrecisionValues = PrecisionValues(angle: real, sizeFrac: real, subPixel: real, softnessFactor: real)

  const Eps: real := 0.000001

  /** precisionLevels, from the coarsest (0) to the finest (4) */
  const PrecisionLevels: seq<PrecisionValues> := [
    PrecisionValues(Pi / 180.0, 0.05, 1.0, 0.01),
    PrecisionValues(Pi / 180.0, 0.01, 1.0, 0.01),
    PrecisionValues(Pi / 180.0, 0.0, 1.0, 0.01),
    PrecisionValues(Pi / 180.0, 0.0, 0.5, 0.01),
    PrecisionValues(Eps, 0.0, Eps, Eps)
  ]

  predicate NoCoarserThan(finer: PrecisionValues, coarser: PrecisionValues) {
    && finer.angle <= coarser.angle
    && finer.sizeFrac <= coarser.sizeFrac
    && finer.subPixel <= coarser.subPixel
    && finer.softnessFactor <= coarser.softnessFactor
  }

  /** A higher precision level never has a coarser step in any of the four columns. */
  lemma PrecisionLevelsRefine(i: int, j: int)
    requires 0 <= i <= j < |PrecisionLevels|
    ensures NoCoarserThan(PrecisionLevels[j], PrecisionLevels[i])
  {
  }

  /** MirrorProperties: which axes the dab is mirrored along, and whether the canvas is flipped */
  datatype MirrorProperties = MirrorProperties(horizontalMirror: bool, verticalMirror: bool, coordinateSystemFlipped: bool) {
    predicate IsEmpty() { !horizontalMirror && !verticalMirror }
  }

  const NoMirror: MirrorProperties := MirrorProperties(false, false, false)

  /** KisPressureMirrorOption: the mirror properties for a paint sample */
  datatype MirrorOption = MirrorOption(apply: PaintInformation -> MirrorProperties)

  /** What KisPressureSharpnessOption::apply writes into x, y and the two sub-pixel fractions */
  datatype SharpPlacement = SharpPlacement(x: int, y: int, subPixelX: Double, subPixelY: Double)

  /** KisPressureSharpnessOption: places the dab from a paint sample and the top-left point */
  datatype SharpnessOption = SharpnessOption(apply: (PaintInformation, PointF) -> SharpPlacement)

  /** KisTextureProperties; its effect on a dab is recorded, not computed */
  datatype TextureOption = TextureOption(name: string)

  /** KisPrecisionOption; the cache stores it and the shown code does not consult it */
  datatype PrecisionOption = PrecisionOption(level: nat)

  /**
   * KisColorSource: whether it is a uniform colour, that colour, and what
   * colorize leaves in a cleared device of the given colour space for a
   * rectangle and a canvas position.
   */
  datatype ColorSource = ColorSource(
    isUniformColor: bool,
    uniformColor: PixelBytes,
    colorize: (ColorSpace, Rect, Point) -> ((int, int) -> PixelBytes))

  /** KisDabCache::DabPosition */
  datatype DabPosition = DabPosition(rect: Rect, subPixel: PointF, realAngle: real)

  /**
   * positiveFraction: the fraction of x in [0, 1), also for negative x, so
   * that x minus it is a whole number.
   */
  function PositiveFraction(x: real): (f: real)
    ensures 0.0 <= f < 1.0
    ensures (x - f).Floor as real == x - f
  {
    SplitCoordinate(x).1
  }

  /** A NaN fraction counts as zero. */
  function ZeroIfNaN(d: Double): (r: real)
    ensures d.Finite? ==> r == d.value
    ensures d.NaN? ==> r == 0.0
  {
    if d.NaN? then 0.0 else d.value
  }

  /** How a dab is produced */
  datatype DabSource =
    | FullColorTip
    | DeviceMask(source: ColorSource)
    | PlainMask(color: PixelBytes)
    | NullColorSource

  /**
   * The colour fetchDabCommon computes: the source's uniform colour when it
   * has one, the caller's colour otherwise.
   */
  function PaintColor(colorSource: Option<ColorSource>, color: PixelBytes): (c: PixelBytes)
    ensures colorSource.Some? && colorSource.value.isUniformColor ==> c == colorSource.value.uniformColor
    ensures colorSource.None? || !colorSource.value.isUniformColor ==> c == color
  {
    if colorSource.Some? && colorSource.value.isUniformColor then colorSource.value.uniformColor else color
  }

  /**
   * The dispatch as written: full-colour brushes use the tip, all others
   * colorize through the colour source, which the KoColor overload of
   * fetchDab passes as null.
   */
  function DabSourceAsWritten(brushType: BrushType, colorSource: Option<ColorSource>): DabSource {
    if IsFullColor(brushType) then FullColorTip
    else if colorSource.None? then NullColorSource
    else DeviceMask(colorSource.value)
  }

  /** For a stencil brush and no colour source, the dispatch as written dereferences null. */
  lemma ColorOverloadDereferencesNull(brushType: BrushType)
    requires !IsFullColor(brushType)
    ensures DabSourceAsWritten(brushType, None) == NullColorSource
  {
  }

  /**
   * The dispatch the model uses: as written, except that a stencil brush with
   * no colour source is masked with the paint colour.
   */
  function DabSourceFor(brushType: BrushType, colorSource: Option<ColorSource>, color: PixelBytes): (s: DabSource)
    ensures s != NullColorSource
    ensures IsFullColor(brushType) <==> s == FullColorTip
    ensures !IsFullColor(brushType) && colorSource.Some? ==> s == DeviceMask(colorSource.value)
    ensures !IsFullColor(brushType) && colorSource.None? ==> s == PlainMask(PaintColor(colorSource, color))
  {
    if IsFullColor(brushType) then FullColorTip
    else if colorSource.None? then PlainMask(PaintColor(colorSource, color))
    else DeviceMask(colorSource.value)
  }

  /** Wherever the dispatch as written does not dereference null, the model's dispatch agrees with it. */
  lemma DabSourceAgreesWhereDefined(brushType: BrushType, colorSource: Option<ColorSource>, color: PixelBytes)
    requires DabSourceAsWritten(brushType, colorSource) != NullColorSource
    ensures DabSourceFor(brushType, colorSource, color) == DabSourceAsWritten(brushType, colorSource)
  {
  }

  /** The pixels of a missing device */
  function NoPixels(x: int, y: int): PixelBytes {
    []
  }

  class DabCache {
    const brush: Brush
    var colorSourceDevice: PaintDevice?
    var mirrorOption: Option<MirrorOption>
    var sharpnessOption: Option<SharpnessOption>
    var textureOption: Option<TextureOption>
    var precisionOption: Option<PrecisionOption>
    var subPixelPrecisionDisabled: bool

    constructor (brush: Brush)
      ensures this.brush == brush && colorSourceDevice == null
      ensures mirrorOption == None && sharpnessOption == None && textureOption == None && precisionOption == None
      ensures !subPixelPrecisionDisabled
    {
      this.brush := brush;
      colorSourceDevice := null;
      mirrorOption, sharpnessOption, textureOption, precisionOption := None, None, None, None;
      subPixelPrecisionDisabled := false;
    }

    method SetMirrorPostprocessing(option: Option<MirrorOption>)
      modifies this`mirrorOption
      ensures mirrorOption == option
    {
      mirrorOption := option;
    }

    method SetSharpnessPostprocessing(option: Option<SharpnessOption>)
      modifies this`sharpnessOption
      ensures sharpnessOption == option
    {
      sharpnessOption := option;
    }

    method SetTexturePostprocessing(option: Option<TextureOption>)
      modifies this`textureOption
      ensures textureOption == option
    {
      textureOption := option;
    }

    method SetPrecisionOption(option: Option<PrecisionOption>)
      modifies this`precisionOption
      ensures precisionOption == option
    {
      precisionOption := option;
    }

    method DisableSubpixelPrecision()
      modifies this`subPixelPrecisionDisabled
      ensures subPixelPrecisionDisabled
    {
      subPixelPrecisionDisabled := true;
    }

    /** The mirror properties of a sample: none without a mirror option */
    function MirrorFor(info: PaintInformation): MirrorProperties
      reads this`mirrorOption
    {
      if mirrorOption.Some? then mirrorOption.value.apply(info) else NoMirror
    }

    /** Integer position and fractions before mirroring: the sharpness option's, or the floor split */
    function Placement(info: PaintInformation, pt: PointF): SharpPlacement
      reads this`sharpnessOption
    {
      if sharpnessOption.Some? then sharpnessOption.value.apply(info, pt)
      else SharpPlacement(SplitCoordinate(pt.x).0, SplitCoordinate(pt.y).0,
                          Finite(SplitCoordinate(pt.x).1), Finite(SplitCoordinate(pt.y).1))
    }

    /**
     * The first half of calculateDabRect: the hot-spot-relative point split
     * into pixel and fraction (or placed by the sharpness option), the
     * fractions zeroed when sub-pixel precision is disabled or NaN, and the
     * mask size at those fractions.
     */
    function UnmirroredPosition(cursorPoint: PointF, hotSpot: PointF, scaleX: real, scaleY: real, angle: real,
                                info: PaintInformation): (p: DabPosition)
      reads this`sharpnessOption, this`subPixelPrecisionDisabled, brush
      ensures p.realAngle == angle
      ensures sharpnessOption.None? && !subPixelPrecisionDisabled ==>
        && p.rect.x as real + p.subPixel.x == cursorPoint.x - hotSpot.x
        && p.rect.y as real + p.subPixel.y == cursorPoint.y - hotSpot.y
      ensures sharpnessOption.None? ==> 0.0 <= p.subPixel.x < 1.0 && 0.0 <= p.subPixel.y < 1.0
      ensures subPixelPrecisionDisabled ==> p.subPixel == PointF(0.0, 0.0)
      ensures p.rect.width == brush.MaskWidth(scaleX, angle, p.subPixel.x, p.subPixel.y)
      ensures p.rect.height == brush.MaskHeight(scaleY, angle, p.subPixel.x, p.subPixel.y)
    {
      var pt := PointF(cursorPoint.x - hotSpot.x, cursorPoint.y - hotSpot.y);
      var placement := Placement(info, pt);
      var subPixelX := if subPixelPrecisionDisabled then 0.0 else ZeroIfNaN(placement.subPixelX);
      var subPixelY := if subPixelPrecisionDisabled then 0.0 else ZeroIfNaN(placement.subPixelY);
      var width := brush.MaskWidth(scaleX, angle, subPixelX, subPixelY);
      var height := brush.MaskHeight(scaleY, angle, subPixelX, subPixelY);
      DabPosition(Rect(placement.x, placement.y, width, height), PointF(subPixelX, subPixelY), angle)
    }

    /**
     * Horizontal mirroring in calculateDabRect: a new horizontal fraction,
     * the width at it, and an x chosen so that the dab ends at the cursor
     * plus the hot spot rounded up to a whole pixel.
     */
    function MirrorHorizontally(p: DabPosition, cursorX: real, hotSpotX: real, scaleX: real): (q: DabPosition)
      reads brush
      ensures q.rect.x + q.rect.width == Ceil(cursorX + hotSpotX)
      ensures q.subPixel.x == Ceil(cursorX + hotSpotX) as real - (cursorX + hotSpotX)
      ensures q.rect.width == brush.MaskWidth(scaleX, p.realAngle, q.subPixel.x, p.subPixel.y)
      ensures q.rect.y == p.rect.y && q.rect.height == p.rect.height
      ensures q.subPixel.y == p.subPixel.y && q.realAngle == p.realAngle
    {
      var subPixelX := PositiveFraction(-(cursorX + hotSpotX));
      var width := brush.MaskWidth(scaleX, p.realAngle, subPixelX, p.subPixel.y);
      EdgeOfReflection(cursorX + hotSpotX, subPixelX);
      QRoundOfInteger(Ceil(cursorX + hotSpotX));
      var x := QRound(cursorX + subPixelX + hotSpotX) - width;
      DabPosition(Rect(x, p.rect.y, width, p.rect.height), PointF(subPixelX, p.subPixel.y), p.realAngle)
    }

    /**
     * Vertical mirroring in calculateDabRect, symmetric to the horizontal
     * rule; the height is taken at the current horizontal fraction.
     */
    function MirrorVertically(p: DabPosition, cursorY: real, hotSpotY: real, scaleY: real): (q: DabPosition)
      reads brush
      ensures q.rect.y + q.rect.height == Ceil(cursorY + hotSpotY)
      ensures q.subPixel.y == Ceil(cursorY + hotSpotY) as real - (cursorY + hotSpotY)
      ensures q.rect.height == brush.MaskHeight(scaleY, p.realAngle, p.subPixel.x, q.subPixel.y)
      ensures q.rect.x == p.rect.x && q.rect.width == p.rect.width
      ensures q.subPixel.x == p.subPixel.x && q.realAngle == p.realAngle
    {
      var subPixelY := PositiveFraction(-(cursorY + hotSpotY));
      var height := brush.MaskHeight(scaleY, p.realAngle, p.subPixel.x, subPixelY);
      EdgeOfReflection(cursorY + hotSpotY, subPixelY);
      QRoundOfInteger(Ceil(cursorY + hotSpotY));
      var y := QRound(cursorY + subPixelY + hotSpotY) - height;
      DabPosition(Rect(p.rect.x, y, p.rect.width, height), PointF(p.subPixel.x, subPixelY), p.realAngle)
    }

    /**
     * calculateDabRect: the dab's rectangle, its sub-pixel offset, and the
     * angle it is drawn at (the reflected angle on a flipped canvas).
     */
    function CalculateDabRect(cursorPoint: PointF, scaleX: real, scaleY: real, angle: real,
                              info: PaintInformation, mirror: MirrorProperties): (p: DabPosition)
      reads this`sharpnessOption, this`subPixelPrecisionDisabled, brush
      ensures p.realAngle == if mirror.coordinateSystemFlipped then 2.0 * Pi - angle else angle
    {
      var a := if mirror.coordinateSystemFlipped then 2.0 * Pi - angle else angle;
      var hotSpot := brush.HotSpot(scaleX, scaleY, a);
      var p0 := UnmirroredPosition(cursorPoint, hotSpot, scaleX, scaleY, a, info);
      var p1 := if mirror.horizontalMirror then MirrorHorizontally(p0, cursorPoint.x, hotSpot.x, scaleX) else p0;
      if mirror.verticalMirror then MirrorVertically(p1, cursorPoint.y, hotSpot.y, scaleY) else p1
    }

    /** The mirroring fetchDabCommon applies, unless the mirror properties are empty */
    function MirrorEffects(mirror: MirrorProperties): (e: seq<DabEffect>)
      ensures |e| <= 1
      ensures |e| == 1 <==> !mirror.IsEmpty()
      ensures !mirror.IsEmpty() ==> e == [Mirrored(mirror.horizontalMirror, mirror.verticalMirror)]
    {
      if mirror.IsEmpty() then [] else [Mirrored(mirror.horizontalMirror, mirror.verticalMirror)]
    }

    /** The effects postProcessDab applies: the sharpness threshold, then the texture */
    function PostProcessEffects(topLeft: Point, info: PaintInformation): seq<DabEffect>
      reads this`sharpnessOption, this`textureOption
    {
      (if sharpnessOption.Some? then [SharpnessThreshold] else [])
      + (if textureOption.Some? then [Textured(topLeft, info)] else [])
    }

    /** postProcessDab */
    method PostProcessDab(dab: FixedDevice, dabTopLeft: Point, info: PaintInformation)
      modifies dab`effects
      ensures dab.effects == old(dab.effects) + PostProcessEffects(dabTopLeft, info)
    {
      if sharpnessOption.Some? {
        dab.Apply(SharpnessThreshold);
      }
      if textureOption.Some? {
        dab.Apply(Textured(dabTopLeft, info));
      }
    }

    /**
     * The pixels of a dab produced at `position`: the full-colour tip
     * converted into `cs` for image brushes; otherwise the transformed tip's
     * coverage applied to the cached colour-source device, or to the plain
     * colour when there is no colour source.
     */
    ghost function ExpectedDab(cs: ColorSpace, source: DabSource, devicePixels: (int, int) -> PixelBytes,
                               scaleX: real, scaleY: real, position: DabPosition): Raster
      reads brush
    {
      var tip := brush.TransformedTip(scaleX, scaleY, position.realAngle, position.subPixel.x, position.subPixel.y);
      match source
      case FullColorTip =>
        ConvertedRaster(cs, brush.FullColorTip(scaleX, 1.0, position.realAngle, position.subPixel.x, position.subPixel.y))
      case DeviceMask(_) => MaskedRaster(cs, DeviceSource(devicePixels), brush.kit, brush.hasColor, tip)
      case PlainMask(c) => MaskedRaster(cs, PlainSource(c), brush.kit, brush.hasColor, tip)
      case NullColorSource => ConvertedRaster(cs, Image(0, 0, []))  // never chosen by DabSourceFor
    }

    /** `dab` holds the expected pixels; masking through a colour source implies a colour-source device */
    ghost predicate HoldsDab(dab: FixedDevice, cs: ColorSpace, colorSource: Option<ColorSource>, color: PixelBytes,
                             scaleX: real, scaleY: real, position: DabPosition)
      reads this`colorSourceDevice, colorSourceDevice, brush, dab`data, dab.data
    {
      var source := DabSourceFor(brush.brushType, colorSource, color);
      && (source.DeviceMask? ==> colorSourceDevice != null)
      && Holds(dab, ExpectedDab(cs, source, if colorSourceDevice != null then colorSourceDevice.pixels else NoPixels,
                                scaleX, scaleY, position))
    }

    /**
     * The colour-source device is in `cs`: the previous one when it was
     * already in `cs`, a new one otherwise.
     */
    twostate predicate DeviceReusedOrReplaced(cs: ColorSpace)
      reads this`colorSourceDevice, colorSourceDevice
    {
      && colorSourceDevice != null
      && SameColorSpace(colorSourceDevice.colorSpace, cs)
      && (old(colorSourceDevice) == null || !SameColorSpace(cs, old(colorSourceDevice.colorSpace)) ==> fresh(colorSourceDevice))
      && (old(colorSourceDevice) != null && SameColorSpace(cs, old(colorSourceDevice.colorSpace)) ==>
            colorSourceDevice == old(colorSourceDevice))
    }

    /**
     * The colour-source device of fetchDabCommon: reallocated when absent or
     * in another colour space, cleared otherwise, then colorized over a
     * rectangle of the dab's size at the origin.
     */
    method PrepareColorSourceDevice(cs: ColorSpace, source: ColorSource, size: Size, pos: Point)
      modifies this`colorSourceDevice, colorSourceDevice
      ensures DeviceReusedOrReplaced(cs)
      ensures colorSourceDevice.pixels == source.colorize(colorSourceDevice.colorSpace, Rect(0, 0, size.width, size.height), pos)
    {
      if colorSourceDevice == null || !SameColorSpace(cs, colorSourceDevice.colorSpace) {
        colorSourceDevice := new PaintDevice(cs);
      } else {
        colorSourceDevice.Clear();
      }
      var maskRect := Rect(0, 0, size.width, size.height);
      var device := colorSourceDevice;
      device.Fill(source.colorize(device.colorSpace, maskRect, pos));
    }

    /**
     * The dispatch of fetchDabCommon: the full-colour tip for image brushes,
     * otherwise a mask over the colour-source device, which is reallocated
     * when absent or in another colour space and cleared otherwise, then
     * colorized over the dab's rectangle.
     */
    method ProduceDab(cs: ColorSpace, colorSource: Option<ColorSource>, color: PixelBytes,
                      scaleX: real, scaleY: real, info: PaintInformation, softnessFactor: real, position: DabPosition)
      returns (dab: FixedDevice)
      modifies this`colorSourceDevice, colorSourceDevice
      ensures fresh(dab) && fresh(dab.data) && dab.colorSpace == cs && dab.effects == []
      ensures HoldsDab(dab, cs, colorSource, color, scaleX, scaleY, position)
      ensures IsFullColor(brush.brushType) || colorSource.None? ==> colorSourceDevice == old(colorSourceDevice)
      ensures IsFullColor(brush.brushType) || colorSource.None? ==> colorSourceDevice != null ==> unchanged(colorSourceDevice)
      ensures !IsFullColor(brush.brushType) && colorSource.Some? ==>
        && DeviceReusedOrReplaced(cs)
        && colorSourceDevice.pixels == colorSource.value.colorize(colorSourceDevice.colorSpace,
              Rect(0, 0, position.rect.width, position.rect.height), ToPoint(info.pos))
    {
      var paintColor := PaintColor(colorSource, color);
      var source := DabSourceFor(brush.brushType, colorSource, color);

      dab := new FixedDevice(cs);

      if source.FullColorTip? {
        dab := brush.FullColorDab(cs, scaleX, 1.0, position.realAngle, position.subPixel.x, position.subPixel.y);
        assert HoldsDab(dab, cs, colorSource, color, scaleX, scaleY, position);
      } else if source.DeviceMask? {
        MaskOverColorSource(dab, source.source, scaleX, scaleY, info, softnessFactor, position);
        assert HoldsDab(dab, cs, colorSource, color, scaleX, scaleY, position);
      } else {
        brush.MaskWithColor(dab, paintColor, scaleX, scaleY, position.realAngle,
                            position.subPixel.x, position.subPixel.y, softnessFactor);
        assert HoldsDab(dab, cs, colorSource, color, scaleX, scaleY, position);
      }
    }

    /** The mask branch of fetchDabCommon with a colour source */
    method MaskOverColorSource(dab: FixedDevice, source: ColorSource, scaleX: real, scaleY: real,
                               info: PaintInformation, softnessFactor: real, position: DabPosition)
      modifies this`colorSourceDevice, colorSourceDevice, dab
      ensures DeviceReusedOrReplaced(dab.colorSpace)
      ensures colorSourceDevice.pixels == source.colorize(colorSourceDevice.colorSpace,
                Rect(0, 0, position.rect.width, position.rect.height), ToPoint(info.pos))
      ensures Holds(dab, MaskedRaster(dab.colorSpace, DeviceSource(colorSourceDevice.pixels), brush.kit, brush.hasColor,
                brush.TransformedTip(scaleX, scaleY, position.realAngle, position.subPixel.x, position.subPixel.y)))
      ensures fresh(dab.data) && dab.colorSpace == old(dab.colorSpace) && dab.effects == old(dab.effects)
    {
      PrepareColorSourceDevice(dab.colorSpace, source, position.rect.Dimensions(), ToPoint(info.pos));
      var device := colorSourceDevice;
      brush.MaskWithDevice(dab, device, scaleX, scaleY, position.realAngle,
                           position.subPixel.x, position.subPixel.y, softnessFactor);
    }

    /**
     * fetchDabCommon: places the dab, produces it, mirrors it if the mirror
     * properties are not empty, and post-processes it. The dab's pixels are
     * those the brush produced; the effects applied after that are listed
     * in `effects`, in order.
     */
    method FetchDabCommon(cs: ColorSpace, colorSource: Option<ColorSource>, color: PixelBytes,
                          cursorPoint: PointF, scaleX: real, scaleY: real, initialAngle: real,
                          info: PaintInformation, softnessFactor: real)
      returns (dab: FixedDevice, dstDabRect: Rect)
      modifies this`colorSourceDevice, colorSourceDevice
      ensures fresh(dab) && fresh(dab.data) && dab.colorSpace == cs
      ensures var mirror := old(MirrorFor(info));
        var position := old(CalculateDabRect(cursorPoint, scaleX, scaleY, initialAngle, info, mirror));
        && dstDabRect == position.rect
        && HoldsDab(dab, cs, colorSource, color, scaleX, scaleY, position)
        && dab.effects == MirrorEffects(mirror) + PostProcessEffects(position.rect.TopLeft(), info)
      ensures IsFullColor(brush.brushType) || colorSource.None? ==> colorSourceDevice == old(colorSourceDevice)
      ensures IsFullColor(brush.brushType) || colorSource.None? ==> colorSourceDevice != null ==> unchanged(colorSourceDevice)
      ensures !IsFullColor(brush.brushType) && colorSource.Some? ==> DeviceReusedOrReplaced(cs)
    {
      var mirrorProperties := MirrorFor(info);

      var position := CalculateDabRect(cursorPoint, scaleX, scaleY, initialAngle, info, mirrorProperties);
      dstDabRect := position.rect;

      dab := ProduceFinishedDab(cs, colorSource, color, scaleX, scaleY, info, softnessFactor, position, mirrorProperties);
    }

    /** The dab of fetchDabCommon from its dispatch to its post-processing, at a given position */
    method ProduceFinishedDab(cs: ColorSpace, colorSource: Option<ColorSource>, color: PixelBytes,
                              scaleX: real, scaleY: real, info: PaintInformation, softnessFactor: real,
                              position: DabPosition, mirror: MirrorProperties)
      returns (dab: FixedDevice)
      modifies this`colorSourceDevice, colorSourceDevice
      ensures fresh(dab) && fresh(dab.data) && dab.colorSpace == cs
      ensures HoldsDab(dab, cs, colorSource, color, scaleX, scaleY, position)
      ensures dab.effects == MirrorEffects(mirror) + PostProcessEffects(position.rect.TopLeft(), info)
      ensures IsFullColor(brush.brushType) || colorSource.None? ==> colorSourceDevice == old(colorSourceDevice)
      ensures IsFullColor(brush.brushType) || colorSource.None? ==> colorSourceDevice != null ==> unchanged(colorSourceDevice)
      ensures !IsFullColor(brush.brushType) && colorSource.Some? ==> DeviceReusedOrReplaced(cs)
    {
      dab := ProduceDab(cs, colorSource, color, scaleX, scaleY, info, softnessFactor, position);
      ghost var data := dab.data;
      FinishDab(dab, mirror, position.rect.TopLeft(), info);
      assert dab.data == data;
    }

    /** The end of fetchDabCommon: mirroring unless the properties are empty, then postProcessDab */
    method FinishDab(dab: FixedDevice, mirror: MirrorProperties, dabTopLeft: Point, info: PaintInformation)
      modifies dab`effects
      ensures dab.effects == old(dab.effects) + MirrorEffects(mirror) + PostProcessEffects(dabTopLeft, info)
    {
      if !mirror.IsEmpty() {
        dab.Apply(Mirrored(mirror.horizontalMirror, mirror.verticalMirror));
      }
      PostProcessDab(dab, dabTopLeft, info);
    }

    /** fetchDab with a colour source */
    method FetchDab(cs: ColorSpace, colorSource: ColorSource, cursorPoint: PointF,
                    scaleX: real, scaleY: real, angle: real, info: PaintInformation, softnessFactor: real)
      returns (dab: FixedDevice, dstDabRect: Rect)
      modifies this`colorSourceDevice, colorSourceDevice
      ensures fresh(dab) && dab.colorSpace == cs
      ensures dstDabRect == old(CalculateDabRect(cursorPoint, scaleX, scaleY, angle, info, MirrorFor(info))).rect
    {
      dab, dstDabRect := FetchDabCommon(cs, Some(colorSource), [], cursorPoint, scaleX, scaleY, angle, info, softnessFactor);
    }

    /** fetchDab with a plain colour: no colour source */
    method FetchDabWithColor(cs: ColorSpace, color: PixelBytes, cursorPoint: PointF,
                             scaleX: real, scaleY: real, angle: real, info: PaintInformation, softnessFactor: real)
      returns (dab: FixedDevice, dstDabRect: Rect)
      modifies this`colorSourceDevice, colorSourceDevice
      ensures fresh(dab) && dab.colorSpace == cs
      ensures dstDabRect == old(CalculateDabRect(cursorPoint, scaleX, scaleY, angle, info, MirrorFor(info))).rect
      ensures colorSourceDevice == old(colorSourceDevice)
      ensures colorSourceDevice != null ==> unchanged(colorSourceDevice)
    {
      dab, dstDabRect := FetchDabCommon(cs, None, color, cursorPoint, scaleX, scaleY, angle, info, softnessFactor);
    }
  }

  // Properties of the placement arithmetic

  /**
   * Without sharpness, mirroring or disabled precision, the rectangle's
   * corner plus the sub-pixel offset is exactly the cursor minus the hot spot.
   */
  lemma PlainPlacementIsExact(cache: DabCache, cursorPoint: PointF, scaleX: real, scaleY: real, angle: real,
                              info: PaintInformation, flipped: bool)
    requires cache.sharpnessOption.None? && !cache.subPixelPrecisionDisabled
    ensures var p := cache.CalculateDabRect(cursorPoint, scaleX, scaleY, angle, info, MirrorProperties(false, false, flipped));
      var hotSpot := cache.brush.HotSpot(scaleX, scaleY, p.realAngle);
      && p.rect.x as real + p.subPixel.x == cursorPoint.x - hotSpot.x
      && p.rect.y as real + p.subPixel.y == cursorPoint.y - hotSpot.y
      && 0.0 <= p.subPixel.x < 1.0 && 0.0 <= p.subPixel.y < 1.0
  {
  }

  /**
   * With sub-pixel precision disabled and no mirroring, both fractions are
   * zero and the corner is the floor of the cursor minus the hot spot.
   */
  lemma DisabledPrecisionSnapsToPixels(cache: DabCache, cursorPoint: PointF, scaleX: real, scaleY: real, angle: real,
                                       info: PaintInformation, flipped: bool)
    requires cache.sharpnessOption.None? && cache.subPixelPrecisionDisabled
    ensures var p := cache.CalculateDabRect(cursorPoint, scaleX, scaleY, angle, info, MirrorProperties(false, false, flipped));
      var hotSpot := cache.brush.HotSpot(scaleX, scaleY, p.realAngle);
      && p.subPixel == PointF(0.0, 0.0)
      && p.rect.x == (cursorPoint.x - hotSpot.x).Floor
      && p.rect.y == (cursorPoint.y - hotSpot.y).Floor
  {
  }

  /** A NaN fraction from the sharpness option becomes zero. */
  lemma NaNFractionBecomesZero(cache: DabCache, cursorPoint: PointF, scaleX: real, scaleY: real, angle: real,
                               info: PaintInformation, flipped: bool)
    requires cache.sharpnessOption.Some?
    ensures var hotSpot := cache.brush.HotSpot(scaleX, scaleY, if flipped then 2.0 * Pi - angle else angle);
      var placement := cache.Placement(info, PointF(cursorPoint.x - hotSpot.x, cursorPoint.y - hotSpot.y));
      var p := cache.CalculateDabRect(cursorPoint, scaleX, scaleY, angle, info, MirrorProperties(false, false, flipped));
      && (placement.subPixelX.NaN? ==> p.subPixel.x == 0.0)
      && (placement.subPixelY.NaN? ==> p.subPixel.y == 0.0)
      && p.rect.x == placement.x && p.rect.y == placement.y
  {
  }

  /**
   * A horizontally mirrored dab ends (x + width) at the cursor plus the hot
   * spot rounded up to a whole pixel: the reflection of where an unmirrored
   * dab begins.
   */
  lemma {:induction false} HorizontalMirrorRightEdge(cache: DabCache, cursorPoint: PointF, scaleX: real, scaleY: real, angle: real,
                                                     info: PaintInformation, mirror: MirrorProperties)
    requires mirror.horizontalMirror
    ensures var p := cache.CalculateDabRect(cursorPoint, scaleX, scaleY, angle, info, mirror);
      var hotSpot := cache.brush.HotSpot(scaleX, scaleY, p.realAngle);
      && p.rect.x + p.rect.width == Ceil(cursorPoint.x + hotSpot.x)
      && p.subPixel.x == Ceil(cursorPoint.x + hotSpot.x) as real - (cursorPoint.x + hotSpot.x)
  {
    var p := cache.CalculateDabRect(cursorPoint, scaleX, scaleY, angle, info, mirror);
    var hotSpot := cache.brush.HotSpot(scaleX, scaleY, p.realAngle);
    var v := cursorPoint.x + hotSpot.x;
    var f := PositiveFraction(-v);
    EdgeOfReflection(v, f);
    QRoundOfInteger(Ceil(v));
  }

  /** The vertical rule, symmetric to the horizontal one */
  lemma {:induction false} VerticalMirrorBottomEdge(cache: DabCache, cursorPoint: PointF, scaleX: real, scaleY: real, angle: real,
                                                    info: PaintInformation, mirror: MirrorProperties)
    requires mirror.verticalMirror
    ensures var p := cache.CalculateDabRect(cursorPoint, scaleX, scaleY, angle, info, mirror);
      var hotSpot := cache.brush.HotSpot(scaleX, scaleY, p.realAngle);
      && p.rect.y + p.rect.height == Ceil(cursorPoint.y + hotSpot.y)
      && p.subPixel.y == Ceil(cursorPoint.y + hotSpot.y) as real - (cursorPoint.y + hotSpot.y)
  {
    var p := cache.CalculateDabRect(cursorPoint, scaleX, scaleY, angle, info, mirror);
    var hotSpot := cache.brush.HotSpot(scaleX, scaleY, p.realAngle);
    var v := cursorPoint.y + hotSpot.y;
    var f := PositiveFraction(-v);
    EdgeOfReflection(v, f);
    QRoundOfInteger(Ceil(v));
  }

  /** v plus the positive fraction of -v is v rounded up. */
  lemma EdgeOfReflection(v: real, f: real)
    requires f == PositiveFraction(-v)
    ensures v + f == Ceil(v) as real
  {
    var n := -v - f;
    assert n.Floor as real == n;
    assert Ceil(v) == -n.Floor by {
      assert -(n.Floor) as real == v + f;
      assert 0.0 <= f < 1.0;
    }
  }

  /**
   * Vertical mirroring leaves the horizontal placement and width as they are;
   * horizontal mirroring leaves the vertical fraction as it is (the height,
   * and so y, are recomputed with the new horizontal fraction).
   */
  lemma MirrorAxesIndependent(cache: DabCache, cursorPoint: PointF, scaleX: real, scaleY: real, angle: real,
                              info: PaintInformation, mirror: MirrorProperties)
    ensures var p := cache.CalculateDabRect(cursorPoint, scaleX, scaleY, angle, info, mirror);
      var q := cache.CalculateDabRect(cursorPoint, scaleX, scaleY, angle, info, mirror.(verticalMirror := false));
      var r := cache.CalculateDabRect(cursorPoint, scaleX, scaleY, angle, info, mirror.(horizontalMirror := false));
      && p.rect.x == q.rect.x && p.rect.width == q.rect.width && p.subPixel.x == q.subPixel.x
      && p.subPixel.y == r.subPixel.y
  {
  }
}
