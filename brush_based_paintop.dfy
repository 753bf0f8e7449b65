// KisBrushBasedPaintOp: the spacing between dabs of a brush-based paint
// operation, the too-small check, and the wiring of the brush and its dab
// cache; and TextBrushInitializationWorkaround, which hands a text brush
// prepared ahead of time to the paint operation made from the same settings.
//
// The spacing computations are functions of the brush; the paint operation
// and the workaround are classes whose fields their methods assign. std::sqrt
// and the painter's level-of-detail scale are values the paint operation is
// given.

module BrushBasedPaintOp {
  import opened Primitives
  import opened Pixels
  import opened BrushTip
  import opened DabCache
  import opened PaintOpSettings

  type PositiveReal = r: real | r > 0.0 witness 1.0

  /** KisSpacingInformation: the distance between dabs along x and y, and the rotation it applies at */
  datatype SpacingInformation = SpacingInformation(spacing: PointF, rotation: real)

  /**
   * KisPressureSpacingOption: whether it is enabled, whether it spaces
   * isotropically, and the extra scale it computes from a sample.
   */
  datatype SpacingOption = SpacingOption(isChecked: bool, isotropicSpacing: bool, apply: PaintInformation -> real)

  /** `sqrt` is a square root on the non-negative reals */
  ghost predicate IsSquareRoot(sqrt: real -> real) {
    forall v: real :: v >= 0.0 ==> sqrt(v) >= 0.0 && sqrt(v) * sqrt(v) == v
  }

  /**
   * calcAutoSpacing: the dab size itself below one pixel, its square root
   * from one pixel on, times the coefficient.
   */
  function CalcAutoSpacing(sqrt: real -> real, value: real, coeff: real): (s: real)
    ensures value < 1.0 ==> s == coeff * value
    ensures value >= 1.0 ==> s == coeff * sqrt(value)
  {
    coeff * (if value < 1.0 then value else sqrt(value))
  }

  /** `p` scaled by `k` in both coordinates */
  function Scaled(k: real, p: PointF): PointF {
    PointF(k * p.x, k * p.y)
  }

  /** Multiplying by a non-negative factor keeps an order. */
  lemma MultiplyMonotonic(k: real, a: real, b: real)
    requires k >= 0.0
    ensures a <= b ==> k * a <= k * b
  {
  }

  /** Multiplying by a positive factor keeps a strict order. */
  lemma MultiplyStrictlyMonotonic(k: real, a: real, b: real)
    requires a < b && k > 0.0
    ensures k * a < k * b
  {
  }

  /** A value equal to one below a bound is below it. */
  lemma EqualBelow(x: real, y: real, bound: real)
    requires x == y && y < bound
    ensures x < bound
  {
  }

  /** A value below one equal to a bound is below it. */
  lemma BelowEqual(x: real, y: real, bound: real)
    requires x < y && y == bound
    ensures x < bound
  {
  }

  /** A value at most one below a bound is below it. */
  lemma AtMostBelow(x: real, y: real, bound: real)
    requires x <= y && y < bound
    ensures x < bound
  {
  }

  /** Scaling by a non-negative factor keeps the order of both coordinates. */
  lemma ScaledMonotonic(k: real, p1: PointF, p2: PointF)
    requires k >= 0.0 && p1.x <= p2.x && p1.y <= p2.y
    ensures Scaled(k, p1).x <= Scaled(k, p2).x && Scaled(k, p1).y <= Scaled(k, p2).y
  {
    MultiplyMonotonic(k, p1.x, p2.x);
    MultiplyMonotonic(k, p1.y, p2.y);
  }

  /**
   * One coordinate of the point form of calcAutoSpacing: auto spacing of the
   * value taken back to level of detail 0, scaled to the painter's level.
   */
  function AutoSpacingAtLod(sqrt: real -> real, lodScale: PositiveReal, value: real, coeff: real): real
  {
    var invLodScale := 1.0 / lodScale;
    lodScale * CalcAutoSpacing(sqrt, invLodScale * value, coeff)
  }

  /** A value below the level-of-detail scale is below one pixel at level of detail 0. */
  lemma ToLod0Below(lodScale: PositiveReal, value: real)
    requires value < lodScale
    ensures (1.0 / lodScale) * value < 1.0
  {
    var inv := 1.0 / lodScale;
    assert lodScale * (1.0 / lodScale) == 1.0 && (1.0 / lodScale) * lodScale == 1.0 && 1.0 / lodScale > 0.0;
    MultiplyStrictlyMonotonic(inv, value, lodScale);
    BelowEqual(inv * value, inv * lodScale, 1.0);
    EqualBelow((1.0 / lodScale) * value, inv * value, 1.0);
  }

  /** Going to level of detail 0 and back is the identity on a linear spacing. */
  lemma BackFromLod0(lodScale: PositiveReal, value: real, coeff: real)
    ensures lodScale * (coeff * ((1.0 / lodScale) * value)) == coeff * value
  {
    assert lodScale * (1.0 / lodScale) == 1.0 && (1.0 / lodScale) * lodScale == 1.0 && 1.0 / lodScale > 0.0;
    var inv := 1.0 / lodScale;
    assert lodScale * (coeff * (inv * value)) == (lodScale * inv) * (coeff * value);
  }

  /**
   * Below one level-0 pixel auto spacing is linear, so it does not depend on
   * the level of detail.
   */
  lemma AutoSpacingLinearBelowOnePixel(sqrt: real -> real, lodScale: PositiveReal, value: real, coeff: real)
    requires value < lodScale
    ensures AutoSpacingAtLod(sqrt, lodScale, value, coeff) == coeff * value
  {
    ToLod0Below(lodScale, value);
    BackFromLod0(lodScale, value, coeff);
  }

  /** Auto spacing at any level of detail grows with the value. */
  lemma AutoSpacingAtLodMonotonic(sqrt: real -> real, lodScale: PositiveReal, v1: real, v2: real, coeff: real)
    requires IsSquareRoot(sqrt) && v1 <= v2 && coeff >= 0.0
    ensures AutoSpacingAtLod(sqrt, lodScale, v1, coeff) <= AutoSpacingAtLod(sqrt, lodScale, v2, coeff)
  {
    assert lodScale * (1.0 / lodScale) == 1.0 && (1.0 / lodScale) * lodScale == 1.0 && 1.0 / lodScale > 0.0;
    MultiplyMonotonic(1.0 / lodScale, v1, v2);
    AutoSpacingMonotonic(sqrt, (1.0 / lodScale) * v1, (1.0 / lodScale) * v2, coeff);
    MultiplyMonotonic(lodScale, CalcAutoSpacing(sqrt, (1.0 / lodScale) * v1, coeff),
                      CalcAutoSpacing(sqrt, (1.0 / lodScale) * v2, coeff));
  }

  lemma SquareRootAtLeastOne(sqrt: real -> real, v: real)
    requires IsSquareRoot(sqrt) && v >= 1.0
    ensures sqrt(v) >= 1.0
  {
    var s := sqrt(v);
    assert s >= 0.0 && s * s == v;
    MultiplyMonotonic(s, s, 1.0);
  }

  lemma SquareRootMonotonic(sqrt: real -> real, v1: real, v2: real)
    requires IsSquareRoot(sqrt) && 0.0 <= v1 < v2
    ensures sqrt(v1) < sqrt(v2)
  {
    var s1, s2 := sqrt(v1), sqrt(v2);
    assert s1 >= 0.0 && s1 * s1 == v1;
    assert s2 >= 0.0 && s2 * s2 == v2;
    MultiplyMonotonic(s2, s2, s1);
    MultiplyMonotonic(s1, s2, s1);
  }

  /** Auto spacing grows with the dab size. */
  lemma AutoSpacingMonotonic(sqrt: real -> real, v1: real, v2: real, coeff: real)
    requires IsSquareRoot(sqrt) && v1 <= v2 && coeff >= 0.0
    ensures CalcAutoSpacing(sqrt, v1, coeff) <= CalcAutoSpacing(sqrt, v2, coeff)
  {
    if v1 < 1.0 && v2 >= 1.0 {
      SquareRootAtLeastOne(sqrt, v2);
      assert v1 <= sqrt(v2);
    } else if 1.0 <= v1 < v2 {
      SquareRootMonotonic(sqrt, v1, v2);
    }
  }

  /**
   * Auto spacing is sub-linear from one pixel on: a larger dab gets a
   * smaller spacing-to-size ratio, s(v2) / s(v1) < v2 / v1.
   */
  lemma AutoSpacingSubLinear(sqrt: real -> real, v1: real, v2: real, coeff: real)
    requires IsSquareRoot(sqrt) && 1.0 <= v1 < v2 && coeff > 0.0
    ensures CalcAutoSpacing(sqrt, v2, coeff) * v1 < CalcAutoSpacing(sqrt, v1, coeff) * v2
  {
    var s1, s2 := sqrt(v1), sqrt(v2);
    SquareRootAtLeastOne(sqrt, v1);
    SquareRootMonotonic(sqrt, v1, v2);
    assert s1 * s1 == v1 && s2 * s2 == v2;
    assert s2 * v1 == (s1 * s2) * s1;
    assert s1 * v2 == (s1 * s2) * s2;
    assert (s1 * s2) * s1 < (s1 * s2) * s2;
    calc {
      CalcAutoSpacing(sqrt, v2, coeff) * v1;
    ==
      coeff * (s2 * v1);
    <
      coeff * (s1 * v2);
    ==
      CalcAutoSpacing(sqrt, v1, coeff) * v2;
    }
  }

  /** Auto spacing does not exceed the linear spacing coeff * v. */
  lemma AutoSpacingAtMostLinear(sqrt: real -> real, v: real, coeff: real)
    requires IsSquareRoot(sqrt) && v >= 0.0 && coeff >= 0.0
    ensures 0.0 <= CalcAutoSpacing(sqrt, v, coeff) <= coeff * v
  {
    if v >= 1.0 {
      var s := sqrt(v);
      SquareRootAtLeastOne(sqrt, v);
      assert s <= s * s == v;
    }
  }

  /** The two pieces of auto spacing meet at one pixel. */
  lemma AutoSpacingContinuousAtOne(sqrt: real -> real, coeff: real)
    requires IsSquareRoot(sqrt)
    ensures CalcAutoSpacing(sqrt, 1.0, coeff) == coeff
  {
    var s := sqrt(1.0);
    assert s >= 0.0 && s * s == 1.0;
    MultiplyMonotonic(s, s, 1.0);
    MultiplyMonotonic(s, 1.0, s);
  }

  /**
   * TextBrushInitializationWorkaround: the brush read ahead of time for
   * text-brush settings, and the settings it was read from.
   */
  class TextBrushInitializationWorkaround {
    var brush: Brush?
    var settings: Settings?

    constructor ()
      ensures brush == null && settings == null
    {
      brush := null;
      settings := null;
    }

    /**
     * preinitialize: keeps the brush read from text-brush settings together
     * with those settings, and forgets both for any other settings.
     * Whether the settings describe a text brush and the brush read from
     * them are given by the brush option.
     */
    method Preinitialize(settings: Settings, isTextBrush: bool, readBrush: Brush)
      modifies this`brush, this`settings
      ensures isTextBrush ==> brush == readBrush && this.settings == settings
      ensures !isTextBrush ==> brush == null && this.settings == null
      ensures forall s: Settings? :: TryGetBrush(s) == (if isTextBrush && s == settings then readBrush else null)
    {
      if isTextBrush {
        brush := readBrush;
        this.settings := settings;
      } else {
        brush := null;
        this.settings := null;
      }
    }

    /** tryGetBrush: the kept brush, only for the very settings it was read from */
    function TryGetBrush(s: Settings?): (b: Brush?)
      reads this
      ensures b != null ==> s != null && s == settings && b == brush
      ensures s != null && s == settings ==> b == brush
    {
      if s != null && s == settings then brush else null
    }
  }

  class BrushBasedPaintOp {
    var brush: Brush?
    var dabCache: DabCache?
    /** KisLodTransform::lodToScale of the painter's device */
    const lodScale: PositiveReal
    /** std::sqrt */
    const sqrt: real -> real

    /**
     * The constructor: the brush prepared for these settings if there is
     * one, else the brush the brush option reads from them; then a dab cache
     * for that brush with the precision, mirror and texture options.
     */
    constructor (settings: Settings, workaround: TextBrushInitializationWorkaround, readBrush: Brush,
                 precisionOption: PrecisionOption, mirrorOption: MirrorOption, textureOption: TextureOption,
                 lodScale: PositiveReal, sqrt: real -> real)
      ensures brush == (if workaround.TryGetBrush(settings) != null then workaround.TryGetBrush(settings) else readBrush)
      ensures dabCache != null && fresh(dabCache) && dabCache.brush == brush
      ensures dabCache.precisionOption == Some(precisionOption)
      ensures dabCache.mirrorOption == Some(mirrorOption)
      ensures dabCache.textureOption == Some(textureOption)
      ensures dabCache.sharpnessOption == None && dabCache.colorSourceDevice == null
      ensures this.lodScale == lodScale && this.sqrt == sqrt
    {
      this.lodScale := lodScale;
      this.sqrt := sqrt;
      var b := workaround.TryGetBrush(settings);
      if b == null {
        b := readBrush;
      }
      brush := b;
      new;
      var cache := new DabCache(b);
      cache.SetPrecisionOption(Some(precisionOption));
      cache.SetMirrorPostprocessing(Some(mirrorOption));
      cache.SetTexturePostprocessing(Some(textureOption));
      dabCache := cache;
    }

    /** canPaint: there is a brush */
    function CanPaint(): (can: bool)
      reads this
      ensures can <==> brush != null
    {
      brush != null
    }

    /**
     * checkSizeTooSmall: the brush, at the given scale times its own,
     * would be under a hundredth of a pixel wide or high.
     */
    function CheckSizeTooSmall(scale: real): bool
      requires brush != null
      reads this, brush
    {
      DabTooSmall(scale * brush.scale, brush.width, brush.height)
    }

    /**
     * calcAutoSpacing of a point: auto spacing of each coordinate taken at
     * level of detail 0 and scaled back to the painter's level.
     */
    function CalcAutoSpacingPoint(pt: PointF, coeff: real): PointF
      reads this
    {
      PointF(AutoSpacingAtLod(sqrt, lodScale, pt.x, coeff), AutoSpacingAtLod(sqrt, lodScale, pt.y, coeff))
    }

    /**
     * The spacing for a dab of the given size: the brush's auto spacing or
     * its spacing factor applied to each side (or, isotropically, to the
     * larger side for both), then the extra scale. Isotropic spacing
     * ignores the rotation.
     */
    function EffectiveSpacingOfDab(dabWidth: real, dabHeight: real, extraScale: real, isotropicSpacing: bool,
                                   rotation: real): (info: SpacingInformation)
      requires brush != null
      reads this, brush
      ensures !isotropicSpacing ==> info.rotation == rotation
      ensures isotropicSpacing ==> info.rotation == 0.0 && info.spacing.x == info.spacing.y
      ensures !isotropicSpacing && !brush.autoSpacingActive ==>
        info.spacing == PointF(dabWidth * brush.spacing * extraScale, dabHeight * brush.spacing * extraScale)
      ensures isotropicSpacing && !brush.autoSpacingActive ==>
        info.spacing.x == Max(dabWidth, dabHeight) * brush.spacing * extraScale
    {
      if !isotropicSpacing then
        var spacing :=
          if brush.autoSpacingActive then CalcAutoSpacingPoint(PointF(dabWidth, dabHeight), brush.autoSpacingCoeff)
          else Scaled(brush.spacing, PointF(dabWidth, dabHeight));
        SpacingInformation(Scaled(extraScale, spacing), rotation)
      else
        var significantDimension := Max(dabWidth, dabHeight);
        var d :=
          if brush.autoSpacingActive then CalcAutoSpacing(sqrt, significantDimension, brush.autoSpacingCoeff)
          else brush.spacing * significantDimension;
        SpacingInformation(Scaled(extraScale, PointF(d, d)), 0.0)
    }

    /**
     * effectiveSpacing(scale, rotation): the spacing for the brush's
     * characteristic size at that scale, unrotated, without extra scale or
     * isotropy.
     */
    function EffectiveSpacing(scale: real, rotation: real): (info: SpacingInformation)
      requires brush != null
      reads this, brush
      ensures var metric := brush.CharacteristicSize(scale, scale, 0.0);
              info == EffectiveSpacingOfDab(metric.width, metric.height, 1.0, false, rotation)
    {
      var metric := brush.CharacteristicSize(scale, scale, 0.0);
      EffectiveSpacingOfDab(metric.width, metric.height, 1.0, false, rotation)
    }

    /**
     * effectiveSpacing with a spacing option: the option's extra scale when
     * it is checked, 1 otherwise, and its isotropy.
     */
    function EffectiveSpacingWithOption(scaleX: real, scaleY: real, rotation: real,
                                        spacingOption: SpacingOption, pi: PaintInformation): (info: SpacingInformation)
      requires brush != null
      reads this, brush
      ensures var metric := brush.CharacteristicSize(scaleX, scaleY, 0.0);
              var extra := if spacingOption.isChecked then spacingOption.apply(pi) else 1.0;
              info == EffectiveSpacingOfDab(metric.width, metric.height, extra, spacingOption.isotropicSpacing, rotation)
    {
      var extraSpacingScale := if spacingOption.isChecked then spacingOption.apply(pi) else 1.0;
      var metric := brush.CharacteristicSize(scaleX, scaleY, 0.0);
      EffectiveSpacingOfDab(metric.width, metric.height, extraSpacingScale, spacingOption.isotropicSpacing, rotation)
    }

    /** effectiveSpacing with one scale for both axes */
    function EffectiveSpacingUniform(scale: real, rotation: real, spacingOption: SpacingOption,
                                     pi: PaintInformation): (info: SpacingInformation)
      requires brush != null
      reads this, brush
      ensures info == EffectiveSpacingWithOption(scale, scale, rotation, spacingOption, pi)
    {
      EffectiveSpacingWithOption(scale, scale, rotation, spacingOption, pi)
    }
  }

  /**
   * The two-argument spacing is the spacing with an unchecked, anisotropic
   * spacing option.
   */
  lemma TwoArgumentSpacingIsUncheckedOption(op: BrushBasedPaintOp, scale: real, rotation: real,
                                            option: SpacingOption, pi: PaintInformation)
    requires op.brush != null && !option.isChecked && !option.isotropicSpacing
    ensures op.EffectiveSpacing(scale, rotation) == op.EffectiveSpacingUniform(scale, rotation, option, pi)
  {
  }

  /** The extra scale multiplies both components of the spacing and nothing else. */
  lemma ExtraScaleMultipliesSpacing(op: BrushBasedPaintOp, w: real, h: real, extra: real, isotropic: bool,
                                    rotation: real)
    requires op.brush != null
    ensures var scaled := op.EffectiveSpacingOfDab(w, h, extra, isotropic, rotation);
            var plain := op.EffectiveSpacingOfDab(w, h, 1.0, isotropic, rotation);
            scaled == SpacingInformation(Scaled(extra, plain.spacing), plain.rotation)
  {
  }

  /** At level of detail 0 the point form of auto spacing is auto spacing of each coordinate. */
  lemma AutoSpacingAtFullDetail(sqrt: real -> real, value: real, coeff: real)
    ensures AutoSpacingAtLod(sqrt, 1.0, value, coeff) == CalcAutoSpacing(sqrt, value, coeff)
  {
    var k: PositiveReal := 1.0;
    assert (1.0 / k) * value == value;
    assert CalcAutoSpacing(sqrt, (1.0 / k) * value, coeff) == CalcAutoSpacing(sqrt, value, coeff);
    assert AutoSpacingAtLod(sqrt, k, value, coeff) == k * CalcAutoSpacing(sqrt, (1.0 / k) * value, coeff);
  }

  /** Below one level-0 pixel in both coordinates the point form of auto spacing is linear. */
  lemma AutoSpacingPointBelowOnePixel(op: BrushBasedPaintOp, pt: PointF, coeff: real)
    requires pt.x < op.lodScale && pt.y < op.lodScale
    ensures op.CalcAutoSpacingPoint(pt, coeff) == Scaled(coeff, pt)
  {
    AutoSpacingLinearBelowOnePixel(op.sqrt, op.lodScale, pt.x, coeff);
    AutoSpacingLinearBelowOnePixel(op.sqrt, op.lodScale, pt.y, coeff);
  }

  /**
   * A larger dab is never spaced more tightly, with auto spacing (for a
   * non-negative coefficient) or with a non-negative spacing factor, for a
   * non-negative extra scale.
   */
  lemma SpacingMonotonicInDabSize(op: BrushBasedPaintOp, w1: real, h1: real, w2: real, h2: real,
                                  extra: real, isotropic: bool, rotation: real)
    requires op.brush != null && IsSquareRoot(op.sqrt)
    requires w1 <= w2 && h1 <= h2 && extra >= 0.0
    requires op.brush.spacing >= 0.0 && op.brush.autoSpacingCoeff >= 0.0
    ensures var s1 := op.EffectiveSpacingOfDab(w1, h1, extra, isotropic, rotation).spacing;
            var s2 := op.EffectiveSpacingOfDab(w2, h2, extra, isotropic, rotation).spacing;
            s1.x <= s2.x && s1.y <= s2.y
  {
    var coeff := op.brush.autoSpacingCoeff;
    if !isotropic {
      if op.brush.autoSpacingActive {
        AutoSpacingAtLodMonotonic(op.sqrt, op.lodScale, w1, w2, coeff);
        AutoSpacingAtLodMonotonic(op.sqrt, op.lodScale, h1, h2, coeff);
        ScaledMonotonic(extra, op.CalcAutoSpacingPoint(PointF(w1, h1), coeff), op.CalcAutoSpacingPoint(PointF(w2, h2), coeff));
      } else {
        ScaledMonotonic(op.brush.spacing, PointF(w1, h1), PointF(w2, h2));
        ScaledMonotonic(extra, Scaled(op.brush.spacing, PointF(w1, h1)), Scaled(op.brush.spacing, PointF(w2, h2)));
      }
    } else {
      var m1, m2 := Max(w1, h1), Max(w2, h2);
      if op.brush.autoSpacingActive {
        AutoSpacingMonotonic(op.sqrt, m1, m2, coeff);
        var d1, d2 := CalcAutoSpacing(op.sqrt, m1, coeff), CalcAutoSpacing(op.sqrt, m2, coeff);
        ScaledMonotonic(extra, PointF(d1, d1), PointF(d2, d2));
      } else {
        MultiplyMonotonic(op.brush.spacing, m1, m2);
        var d1, d2 := op.brush.spacing * m1, op.brush.spacing * m2;
        ScaledMonotonic(extra, PointF(d1, d1), PointF(d2, d2));
      }
    }
  }

  /** A side under a hundredth of a pixel at a dab scale */
  function SideTooSmall(s: real, side: int): bool {
    s * side as real < 0.01
  }

  /** A dab too small in either dimension at a dab scale */
  function DabTooSmall(s: real, width: int, height: int): bool {
    SideTooSmall(s, width) || SideTooSmall(s, height)
  }

  lemma SideTooSmallMonotonic(s1: real, s2: real, side: int)
    requires s1 <= s2 && side >= 0 && SideTooSmall(s2, side)
    ensures SideTooSmall(s1, side)
  {
    MultiplyMonotonic(side as real, s1, s2);
    AtMostBelow(s1 * side as real, s2 * side as real, 0.01);
  }

  lemma DabTooSmallMonotonic(s1: real, s2: real, width: int, height: int)
    requires s1 <= s2 && width >= 0 && height >= 0 && DabTooSmall(s2, width, height)
    ensures DabTooSmall(s1, width, height)
  {
    if SideTooSmall(s2, width) {
      SideTooSmallMonotonic(s1, s2, width);
    } else {
      SideTooSmallMonotonic(s1, s2, height);
    }
  }

  /** A brush too small at some scale is too small at every smaller non-negative scale. */
  lemma TooSmallAtSmallerScale(op: BrushBasedPaintOp, s1: real, s2: real)
    requires op.brush != null && op.brush.scale >= 0.0 && op.brush.width >= 0 && op.brush.height >= 0
    requires 0.0 <= s1 <= s2 && op.CheckSizeTooSmall(s2)
    ensures op.CheckSizeTooSmall(s1)
  {
    MultiplyMonotonic(op.brush.scale, s1, s2);
    assert s1 * op.brush.scale <= s2 * op.brush.scale;
    DabTooSmallMonotonic(s1 * op.brush.scale, s2 * op.brush.scale, op.brush.width, op.brush.height);
  }
}
