# Krita brush dab pipeline, modelled in Dafny

This project models how Krita's brush engine turns a brush tip into a dab,
together with the settings objects around it. A dab is the small raster a
brush-based paint operation stamps onto the canvas at each sample of a stroke.
The model covers:

- **The brush tip** (`KisBrush`, module `BrushTip`, `brush_tip.dfy`):
  - its geometry: hot spot, characteristic size and mask size;
  - spacing, scale and angle;
  - the check for a pierced tip;
  - the mask loop that rasterises a transformed tip into a dab, either as
    coverage only, over a plain colour, or over a colour-source device;
  - the full-colour dab of image brushes;
  - the cached outline and the XML version rule.
- **The dab cache** (`KisDabCache`, module `DabCache`, `dab_cache.dfy`):
  - where a dab goes: the integer rectangle, the sub-pixel fraction, NaN
    fractions from the sharpness option, and mirroring;
  - which of the brush's dab producers is used;
  - the colour-source scratch device, reused or reallocated;
  - the post-processing effects, in the order applied.
- **The brush-based paint operation** (`KisBrushBasedPaintOp`, module
  `BrushBasedPaintOp`, `brush_based_paintop.dfy`):
  - spacing from the brush's spacing factor or auto spacing, at the painter's
    level of detail;
  - the "too small to paint" check;
  - the text-brush initialisation workaround.
- **Paint-operation settings** (`KisPaintOpSettings`, module
  `PaintOpSettings`, `paintop_settings.dfy`):
  - the property map and its typed getters with defaults;
  - when a property change marks the preset dirty, and the notification
    locker that suppresses that;
  - unsaved runtime properties and cloning.
- **The inline citation** (`KoInlineCite`, module `InlineCite`,
  `inline_cite.dfy`):
  - a citation's record of bibliography fields;
  - `loadOdf` and `saveOdf` against the `text:bibliography-mark` element of
    OpenDocument (section 8.1.4 of OpenDocument 1.2, Part 1);
  - what survives a save followed by a load.

Two further modules hold what the others share:

- `primitives.dfy`: Qt's value types; `double` with NaN; the floor split of
  `KisPaintOp::splitCoordinate`; `qRound`.
- `pixels.dfy`: `QImage` in ARGB32; colour spaces; `KisFixedPaintDevice` as
  the dab class; `KisPaintDevice` as the colour-source device class.

The model takes the source's form:

- Objects the C++ code updates in place are classes with `modifies` frames:
  - the brush, the dab cache, the fixed and unbounded paint devices and the
    device colouring iterator;
  - the settings, the preset and the notification locker;
  - the citation and the XML writer.
- The dab's storage is an `array2`. The mask loop is a pair of methods with
  loop invariants:
  - each method is proved to leave the dab equal to a raster given as a
    function of the transformed tip;
  - each is proved to step the colour iterator exactly once per column and
    once per row.
- Pure computations are functions with lemmas about them: the spacing
  formulas, the pierced-tip count, and the reading of an XML element.

What the brush code calls but does not define is passed in as function-typed
values:

- the image pyramid's size queries, `normalizeAngle`, `qGray`, 8-bit
  multiply, and `QPainter` drawing;
- colour-space conversions and the per-pixel alpha multiply;
- the mirror, sharpness and spacing options' `apply`;
- the colour source's `colorize` and the paint-operation registry's default
  settings;
- `sqrt`, characterised only as a strictly increasing square root;
- the level-of-detail scale, a positive real.

The model states where and in which order these are called, not what they
compute.

## Model

| member | source | states |
|---|---|---|
| Primitives.Max | libs/brush/kis_brush.cpp:227-233 | qMax: the result is at least each argument and is one of them |
| Primitives.Min | libs/brush/kis_brush.cpp:260-261 | qMin: the result is at most each argument and is one of them |
| Primitives.Ceil | libs/brush/kis_brush.cpp:264-267 | std::ceil: the least integer not below the argument |
| Primitives.SplitCoordinate | plugins/paintops/libpaintop/kis_dab_cache.cpp:186-187 | splitCoordinate: integer part plus fraction is the coordinate, and the fraction lies in [0, 1) for negative coordinates too |
| Primitives.SplitCoordinateUnique | plugins/paintops/libpaintop/kis_dab_cache.cpp:186-187 | any integer and fraction in [0, 1) that sum to the coordinate are the split, so the split is determined by its contract |
| Primitives.QRound | plugins/paintops/libpaintop/kis_dab_cache.cpp:209 | qRound: the nearest integer, with halves rounded up |
| Primitives.QRoundOfInteger | plugins/paintops/libpaintop/kis_dab_cache.cpp:209 | rounding leaves an integer unchanged |
| Pixels.Image.Pixel | libs/brush/kis_brush.cpp:276 | QImage::pixel: outside the image it answers Qt's fixed out-of-range value |
| Pixels.ZeroPixel | libs/brush/kis_brush.cpp:503 | the pixel KisFixedPaintDevice::initialize leaves: pixelSize bytes, all zero |
| Pixels.FixedDevice.constructor | plugins/paintops/libpaintop/kis_dab_cache.cpp:263 | a new dab in the given colour space, empty, with no effects applied |
| Pixels.FixedDevice.SetRect | libs/brush/kis_brush.cpp:502 | setRect changes the bounds only |
| Pixels.FixedDevice.Initialize | libs/brush/kis_brush.cpp:503 | initialize gives new storage of the bounds' size, every pixel zero |
| Pixels.FixedDevice.ConvertFromImage | libs/brush/kis_brush.cpp:576 | convertFromQImage: the bounds become the image's, and each pixel is the conversion of the image pixel at the same place |
| Pixels.FixedDevice.Apply | plugins/paintops/libpaintop/kis_dab_cache.cpp:278-279 | an effect applied to the dab is appended to the ones already applied |
| Pixels.PaintDevice.constructor | plugins/paintops/libpaintop/kis_dab_cache.cpp:261 | a new unbounded device in the colour space, every pixel zero |
| Pixels.PaintDevice.Clear | plugins/paintops/libpaintop/kis_dab_cache.cpp:264 | clear resets every pixel to zero |
| Pixels.PaintDevice.Fill | plugins/paintops/libpaintop/kis_dab_cache.cpp:268 | colorize leaves exactly the colour source's pixels |
| BrushTip.TransformBrushTip | libs/brush/kis_brush.cpp:443-451 | the canvas has the source's size, plus one column or row when there is a sub-pixel offset on that axis; every pixel is the transform painted over transparent |
| BrushTip.HoldsMaskedRaster | libs/brush/kis_brush.cpp:520-556 | storage filled with the masked colour pixel by pixel holds the masked raster of the tip |
| BrushTip.ApplyAlphaU8Mask | libs/brush/kis_brush.cpp:549 | applyAlphaU8Mask multiplies the first nPixels of one row, each by its own alpha, and leaves every other pixel unchanged |
| BrushTip.DeviceColoringIterator.constructor | libs/brush/kis_brush.cpp:77-81 | the iterator starts at the device's origin with the given line width and no steps taken |
| BrushTip.DeviceColoringIterator.NextColumn | libs/brush/kis_brush.cpp:92-95 | nextColumn moves one pixel right and counts one column step |
| BrushTip.DeviceColoringIterator.NextRow | libs/brush/kis_brush.cpp:96-99 | nextRow returns to the start column one line down and counts one row step |
| BrushTip.FillRowColor | libs/brush/kis_brush.cpp:522-533 | the colour pass over one scan line: each pixel gets the plain colour or the device pixel under the iterator; other rows are unchanged; the iterator ends one line-width to the right |
| BrushTip.PiercingWindow | libs/brush/kis_brush.cpp:257-267 | the central sampling window of isPiercedApprox is never empty on either axis |
| BrushTip.RowBrightBounded | libs/brush/kis_brush.cpp:274-282 | a row never has more bright pixels than pixels |
| BrushTip.WindowBrightBounded | libs/brush/kis_brush.cpp:274-282 | a window never has more bright pixels than samples |
| BrushTip.RowBrightExtremes | libs/brush/kis_brush.cpp:274-282 | an all-dark row counts zero and an all-bright row counts every pixel |
| BrushTip.WindowBrightExtremes | libs/brush/kis_brush.cpp:274-282 | an all-dark window counts zero and an all-bright window counts every sample |
| BrushTip.ThresholdBelowSampleCount | libs/brush/kis_brush.cpp:269-270 | the failed-pixel threshold (a tenth of the samples, truncated) is non-negative and below the number of samples |
| BrushTip.DarkCentreNotPierced | libs/brush/kis_brush.cpp:253-285 | a tip with no bright pixel in the central window is not pierced |
| BrushTip.BrightCentrePierced | libs/brush/kis_brush.cpp:253-285 | a tip whose central window is all bright is pierced |
| BrushTip.PiercedWindowBound | libs/brush/kis_brush.cpp:253-285 | the bright count isPiercedApprox compares never exceeds the window's sample count |
| BrushTip.Brush.IsPiercedApprox | libs/brush/kis_brush.cpp:253-285 | the nested counting loops answer what the pierced-tip rule defines for the tip image |
| BrushTip.Brush.constructor | libs/brush/kis_brush.cpp:102-137 | the defaults of KisBrush::Private: scale 1, angle 0, no colour, invalid type, auto spacing off with coefficient 1, no outline |
| BrushTip.Brush.Copy | libs/brush/kis_brush.cpp:145-164 | the copy takes every field of the original except the outline, which it regenerates on demand |
| BrushTip.Brush.SetBrushTipImage | libs/brush/kis_brush.cpp:292-307 | the image is stored; a non-null image also sets the width and height, and a null one leaves them |
| BrushTip.Brush.SetHotSpot | libs/brush/kis_brush.cpp:199-215 | each coordinate is clamped into [0, width) x [0, height); an in-range coordinate is kept as it is |
| BrushTip.Brush.HotSpot | libs/brush/kis_brush.cpp:217-240 | the hot spot is half the characteristic size, each side first raised to at least one pixel, so each coordinate is at least 0.5 |
| BrushTip.Brush.SizesShareComposition | libs/brush/kis_brush.cpp:344-382 | characteristicSize, maskWidth and maskHeight query the pyramid at the same composed scale and angle; characteristicSize ignores the y scale |
| BrushTip.Brush.SetSpacing | libs/brush/kis_brush.cpp:390-394 | the spacing is never below 0.02; a larger value is kept as it is |
| BrushTip.Brush.SetAutoSpacing | libs/brush/kis_brush.cpp:401-405 | the activity flag and the coefficient are set together |
| BrushTip.Brush.SetScale | libs/brush/kis_brush.cpp:612-615 | setScale sets the scale only |
| BrushTip.Brush.SetAngle | libs/brush/kis_brush.cpp:622-625 | setAngle sets the angle only |
| BrushTip.Brush.SetBrushType | libs/brush/kis_brush.cpp:309-312 | setBrushType sets the type only |
| BrushTip.Brush.SetHasColor | libs/brush/kis_brush.cpp:248-251 | setHasColor sets the flag only |
| BrushTip.Brush.GenerateMaskAndApplyMaskOrCreateDab | libs/brush/kis_brush.cpp:482-559 | the dab takes the transformed tip's size; each pixel is its colouring with alpha multiplied by the tip's coverage there; a device iterator takes one column step per pixel and one row step per line |
| BrushTip.Brush.MaskRows | libs/brush/kis_brush.cpp:520-556 | the loop over scan lines: every row holds the masked colouring and the iterator has stepped through every line |
| BrushTip.Brush.MaskRow | libs/brush/kis_brush.cpp:520-556 | one scan line: the colour pass, coverage and alpha multiply, the step to the next line; other rows are unchanged |
| BrushTip.Brush.RowCoverage | libs/brush/kis_brush.cpp:535-547 | each alpha is darkness times alpha: the grey value for coloured brushes, the first byte otherwise |
| BrushTip.Brush.Mask | libs/brush/kis_brush.cpp:426-429 | mask without colour: the dab holds the tip's coverage applied to zero pixels |
| BrushTip.Brush.MaskWithColor | libs/brush/kis_brush.cpp:431-435 | mask with a colour: the dab holds the tip's coverage applied to that colour |
| BrushTip.Brush.MaskWithDevice | libs/brush/kis_brush.cpp:437-441 | mask over a device: the dab holds the tip's coverage applied to the device's pixel at each position |
| BrushTip.Brush.FullColorDab | libs/brush/kis_brush.cpp:561-579 | paintDevice: a new dab in the colour space holding the tip converted at the composed scale, with the y scale times the ratio |
| BrushTip.Brush.ResetBoundary | libs/brush/kis_brush.cpp:581-585 | resetBoundary drops the cached outline |
| BrushTip.Brush.Boundary | libs/brush/kis_brush.cpp:587-610 | the outline is cached; it is generated once, from a full-colour dab for image brushes and a mask otherwise, and reused after that |
| BrushTip.Brush.LodLimitations | libs/brush/kis_brush.cpp:637-642 | lodLimitations keeps the existing limitations and adds "huge-spacing" exactly when the spacing exceeds 0.5 |
| BrushTip.ToXml | libs/brush/kis_brush.cpp:330-333 | toXML marks the element as brush version 2 and keeps its other attributes |
| BrushTip.FromXml | libs/brush/kis_brush.cpp:335-342 | a brush saved in version 1, or with no version, has its scale doubled; no other field of the brush changes |
| DabCache.PrecisionLevelsRefine | plugins/paintops/libpaintop/kis_dab_cache.cpp:42-48 | a higher precision level never has a coarser step in any column of the table |
| DabCache.PositiveFraction | plugins/paintops/libpaintop/kis_dab_cache.cpp:156-162 | positiveFraction: a fraction in [0, 1) whose removal leaves a whole number, for negative values too |
| DabCache.ZeroIfNaN | plugins/paintops/libpaintop/kis_dab_cache.cpp:195-201 | a NaN fraction counts as zero and a finite one is kept |
| DabCache.PaintColor | plugins/paintops/libpaintop/kis_dab_cache.cpp:249-250 | the paint colour is the source's colour when the source is uniform, the caller's colour otherwise |
| DabCache.ColorOverloadDereferencesNull | plugins/paintops/libpaintop/kis_dab_cache.cpp:125-140 | as written, fetchDab with a plain colour sends a stencil brush to the colour-source branch with a null colour source |
| DabCache.DabSourceFor | plugins/paintops/libpaintop/kis_dab_cache.cpp:254-275 | the dispatch never uses a null source: full colour exactly for image brushes, otherwise a mask over the colour source, or over the paint colour when there is none |
| DabCache.DabSourceAgreesWhereDefined | plugins/paintops/libpaintop/kis_dab_cache.cpp:254-275 | wherever the dispatch as written has a colour source, the corrected dispatch is the same |
| DabCache.DabCache.constructor | plugins/paintops/libpaintop/kis_dab_cache.cpp:73-76 | a new cache holds the brush, no options, no colour-source device, and sub-pixel precision on |
| DabCache.DabCache.SetMirrorPostprocessing | plugins/paintops/libpaintop/kis_dab_cache.cpp:83-86 | stores the mirror option |
| DabCache.DabCache.SetSharpnessPostprocessing | plugins/paintops/libpaintop/kis_dab_cache.cpp:88-91 | stores the sharpness option |
| DabCache.DabCache.SetTexturePostprocessing | plugins/paintops/libpaintop/kis_dab_cache.cpp:93-96 | stores the texture option |
| DabCache.DabCache.SetPrecisionOption | plugins/paintops/libpaintop/kis_dab_cache.cpp:98-101 | stores the precision option |
| DabCache.DabCache.DisableSubpixelPrecision | plugins/paintops/libpaintop/kis_dab_cache.cpp:103-106 | turns sub-pixel precision off |
| DabCache.DabCache.UnmirroredPosition | plugins/paintops/libpaintop/kis_dab_cache.cpp:172-204 | without a sharpness option, corner plus fraction is the cursor minus the hot spot and the fractions lie in [0, 1); disabled precision zeroes them; the size is the mask size at the fractions |
| DabCache.DabCache.MirrorHorizontally | plugins/paintops/libpaintop/kis_dab_cache.cpp:206-210 | a horizontally mirrored dab ends at the cursor plus hot spot rounded up, its fraction is the rounding distance, and its vertical placement is unchanged |
| DabCache.DabCache.MirrorVertically | plugins/paintops/libpaintop/kis_dab_cache.cpp:212-216 | a vertically mirrored dab ends at the cursor plus hot spot rounded up, and its horizontal placement is unchanged |
| DabCache.DabCache.CalculateDabRect | plugins/paintops/libpaintop/kis_dab_cache.cpp:166-221 | the dab's angle is the reflected angle 2*pi - angle on a flipped canvas and the given angle otherwise |
| DabCache.DabCache.MirrorEffects | plugins/paintops/libpaintop/kis_dab_cache.cpp:277-280 | mirroring is applied, once, exactly when the mirror properties are not empty, and it records both mirror axes |
| DabCache.DabCache.PostProcessDab | plugins/paintops/libpaintop/kis_dab_cache.cpp:287-298 | postProcessDab appends the sharpness threshold, then the texture, each only when its option is set |
| DabCache.DabCache.PrepareColorSourceDevice | plugins/paintops/libpaintop/kis_dab_cache.cpp:260-268 | the scratch device is kept when it exists in the same colour space and replaced otherwise; either way it ends up holding the colorized rectangle |
| DabCache.DabCache.ProduceDab | plugins/paintops/libpaintop/kis_dab_cache.cpp:252-275 | a new dab holding the full-colour tip, the mask over the colorized device, or the mask over the plain colour; the scratch device and its pixels change only in the colour-source branch |
| DabCache.DabCache.MaskOverColorSource | plugins/paintops/libpaintop/kis_dab_cache.cpp:259-274 | the colour-source branch: the device is prepared and colorized, and the dab holds the tip's coverage over it |
| DabCache.DabCache.FetchDabCommon | plugins/paintops/libpaintop/kis_dab_cache.cpp:224-285 | the returned rectangle is calculateDabRect's; the dab holds the produced pixels; the effects are the mirroring, then the post-processing, in that order |
| DabCache.DabCache.ProduceFinishedDab | plugins/paintops/libpaintop/kis_dab_cache.cpp:252-284 | from dispatch to post-processing at a given position: the produced pixels, then the mirror and post-processing effects |
| DabCache.DabCache.FinishDab | plugins/paintops/libpaintop/kis_dab_cache.cpp:277-282 | the end of fetchDabCommon appends the mirroring effects, then the post-processing effects |
| DabCache.DabCache.FetchDab | plugins/paintops/libpaintop/kis_dab_cache.cpp:108-123 | fetchDab with a colour source returns a new dab in the colour space at calculateDabRect's rectangle |
| DabCache.DabCache.FetchDabWithColor | plugins/paintops/libpaintop/kis_dab_cache.cpp:125-140 | fetchDab with a colour returns a new dab at calculateDabRect's rectangle and leaves the scratch device and its pixels alone |
| DabCache.PlainPlacementIsExact | plugins/paintops/libpaintop/kis_dab_cache.cpp:180-188 | with no sharpness option, no mirroring and precision on, corner plus fraction is exactly the cursor minus the hot spot |
| DabCache.DisabledPrecisionSnapsToPixels | plugins/paintops/libpaintop/kis_dab_cache.cpp:190-193 | with precision disabled, the fractions are zero and the corner is the floor of the cursor minus the hot spot |
| DabCache.NaNFractionBecomesZero | plugins/paintops/libpaintop/kis_dab_cache.cpp:195-201 | a NaN fraction from the sharpness option becomes zero, and the option's integer position is kept |
| DabCache.HorizontalMirrorRightEdge | plugins/paintops/libpaintop/kis_dab_cache.cpp:206-210 | a horizontally mirrored dab's right edge is the cursor plus the hot spot rounded up |
| DabCache.VerticalMirrorBottomEdge | plugins/paintops/libpaintop/kis_dab_cache.cpp:212-216 | a vertically mirrored dab's bottom edge is the cursor plus the hot spot rounded up |
| DabCache.EdgeOfReflection | plugins/paintops/libpaintop/kis_dab_cache.cpp:207-209 | a value plus the positive fraction of its negation is the value rounded up |
| DabCache.MirrorAxesIndependent | plugins/paintops/libpaintop/kis_dab_cache.cpp:206-216 | vertical mirroring leaves the horizontal placement alone, and horizontal mirroring leaves the vertical fraction alone |
| BrushBasedPaintOp.CalcAutoSpacing | plugins/paintops/libpaintop/kis_brush_based_paintop.cpp:146-149 | auto spacing is linear in the size below one pixel and the square root from one pixel on, times the coefficient |
| BrushBasedPaintOp.AutoSpacingMonotonic | plugins/paintops/libpaintop/kis_brush_based_paintop.cpp:146-149 | auto spacing grows with the dab size |
| BrushBasedPaintOp.AutoSpacingSubLinear | plugins/paintops/libpaintop/kis_brush_based_paintop.cpp:146-149 | from one pixel on, a larger dab gets a smaller spacing-to-size ratio |
| BrushBasedPaintOp.AutoSpacingAtMostLinear | plugins/paintops/libpaintop/kis_brush_based_paintop.cpp:146-149 | auto spacing is never more than the linear spacing coefficient times size |
| BrushBasedPaintOp.AutoSpacingContinuousAtOne | plugins/paintops/libpaintop/kis_brush_based_paintop.cpp:146-149 | the two pieces of auto spacing meet at one pixel |
| BrushBasedPaintOp.AutoSpacingLinearBelowOnePixel | plugins/paintops/libpaintop/kis_brush_based_paintop.cpp:151-158 | below one level-0 pixel, auto spacing at any level of detail is linear and so independent of the level |
| BrushBasedPaintOp.AutoSpacingAtLodMonotonic | plugins/paintops/libpaintop/kis_brush_based_paintop.cpp:151-158 | at any level of detail, auto spacing grows with the size |
| BrushBasedPaintOp.AutoSpacingAtFullDetail | plugins/paintops/libpaintop/kis_brush_based_paintop.cpp:151-158 | at level of detail 0, the point form of auto spacing is the plain auto spacing |
| BrushBasedPaintOp.TextBrushInitializationWorkaround.constructor | plugins/paintops/libpaintop/kis_brush_based_paintop.cpp:57-59 | the workaround starts holding no brush and no settings |
| BrushBasedPaintOp.TextBrushInitializationWorkaround.Preinitialize | plugins/paintops/libpaintop/kis_brush_based_paintop.cpp:40-51 | text-brush settings keep the brush read from them; any other settings clear both; afterwards tryGetBrush answers the brush only for those very settings |
| BrushBasedPaintOp.TextBrushInitializationWorkaround.TryGetBrush | plugins/paintops/libpaintop/kis_brush_based_paintop.cpp:53-55 | a brush is returned only for the settings it was prepared for, and for those settings it is the kept brush |
| BrushBasedPaintOp.BrushBasedPaintOp.constructor | plugins/paintops/libpaintop/kis_brush_based_paintop.cpp:74-102 | the brush is the prepared one when there is one and otherwise the one read from the settings; the new dab cache uses that brush with the precision, mirror and texture options and no sharpness option |
| BrushBasedPaintOp.BrushBasedPaintOp.CanPaint | plugins/paintops/libpaintop/kis_brush_based_paintop.cpp:188-191 | canPaint holds exactly when there is a brush |
| BrushBasedPaintOp.BrushBasedPaintOp.EffectiveSpacingOfDab | plugins/paintops/libpaintop/kis_brush_based_paintop.cpp:160-186 | isotropic spacing is equal on both axes, unrotated and taken from the larger side; anisotropic spacing keeps the rotation and is each side times the spacing factor and the extra scale |
| BrushBasedPaintOp.BrushBasedPaintOp.EffectiveSpacing | plugins/paintops/libpaintop/kis_brush_based_paintop.cpp:116-121 | the two-argument spacing is the dab spacing of the unrotated characteristic size, with no extra scale and no isotropy |
| BrushBasedPaintOp.BrushBasedPaintOp.EffectiveSpacingWithOption | plugins/paintops/libpaintop/kis_brush_based_paintop.cpp:130-144 | the option's extra scale applies only when the option is checked; its isotropy is always passed on |
| BrushBasedPaintOp.BrushBasedPaintOp.EffectiveSpacingUniform | plugins/paintops/libpaintop/kis_brush_based_paintop.cpp:123-128 | one scale is used for both axes |
| BrushBasedPaintOp.TwoArgumentSpacingIsUncheckedOption | plugins/paintops/libpaintop/kis_brush_based_paintop.cpp:116-144 | the two-argument spacing equals the spacing with an unchecked, anisotropic option |
| BrushBasedPaintOp.ExtraScaleMultipliesSpacing | plugins/paintops/libpaintop/kis_brush_based_paintop.cpp:183 | the extra scale multiplies both spacing components and changes nothing else |
| BrushBasedPaintOp.AutoSpacingPointBelowOnePixel | plugins/paintops/libpaintop/kis_brush_based_paintop.cpp:151-158 | below one level-0 pixel on both axes, the point form of auto spacing is the point times the coefficient |
| BrushBasedPaintOp.SpacingMonotonicInDabSize | plugins/paintops/libpaintop/kis_brush_based_paintop.cpp:160-186 | a larger dab is never spaced more tightly, with auto spacing or with a non-negative spacing factor |
| BrushBasedPaintOp.TooSmallAtSmallerScale | plugins/paintops/libpaintop/kis_brush_based_paintop.cpp:109-114 | a brush too small to paint at some scale is too small at every smaller non-negative scale |
| PaintOpSettings.Lookup | libs/image/brushengine/kis_paintop_settings.cpp:327 | getProperty finds a value exactly when the name is present, and it is the stored value |
| PaintOpSettings.GetReal | libs/image/brushengine/kis_paintop_settings.cpp:181-189 | a missing name gives the default and a stored number gives that number |
| PaintOpSettings.GetBool | libs/image/brushengine/kis_paintop_settings.cpp:201-204 | a missing name gives the default and a stored flag gives that flag |
| PaintOpSettings.GetText | libs/image/brushengine/kis_paintop_settings.cpp:191-194 | a missing name gives the default and a stored string gives that string |
| PaintOpSettings.EffectiveCompositeOp | libs/image/brushengine/kis_paintop_settings.cpp:206-209 | in eraser mode the op is "erase"; otherwise it is the chosen op, or "normal" when none was chosen |
| PaintOpSettings.SetThenGet | libs/image/brushengine/kis_paintop_settings.cpp:166-204 | a value stored under a name is what the typed getter for that name reads back |
| PaintOpSettings.EraserModeOverridesCompositeOp | libs/image/brushengine/kis_paintop_settings.cpp:196-209 | eraser mode overrides the chosen composite op, and turning it off brings the chosen op back |
| PaintOpSettings.Preset.SetPresetDirty | libs/image/brushengine/kis_paintop_settings.cpp:330 | sets the preset's dirty flag |
| PaintOpSettings.ConfigWidget.constructor | libs/image/brushengine/kis_paintop_settings.cpp:161 | a widget reports the paint-operation size it was given |
| PaintOpSettings.Settings.constructor | libs/image/brushengine/kis_paintop_settings.cpp:73-77 | new settings have no widget, no preset, no model name, no unsaved properties and dirty notifications enabled |
| PaintOpSettings.Settings.SetOptionsWidget | libs/image/brushengine/kis_paintop_settings.cpp:83-86 | stores the options widget |
| PaintOpSettings.Settings.SetPreset | libs/image/brushengine/kis_paintop_settings.cpp:87-90 | stores the preset |
| PaintOpSettings.Settings.SetModelName | libs/image/brushengine/kis_paintop_settings.cpp:239-242 | stores the model name |
| PaintOpSettings.Settings.SetProperty | libs/image/brushengine/kis_paintop_settings.cpp:325-335 | the value is always stored; the preset becomes dirty exactly when the value differs from the stored one, notifications are enabled and there is a preset; an already dirty preset stays dirty |
| PaintOpSettings.Settings.SetPropertyNotSaved | libs/image/brushengine/kis_paintop_settings.cpp:219 | the name joins the properties left out of saving |
| PaintOpSettings.Settings.PaintOpSize | libs/image/brushengine/kis_paintop_settings.cpp:158-164 | the widget's size, or 1 x 1 without a widget |
| PaintOpSettings.Settings.SetPaintOpOpacity | libs/image/brushengine/kis_paintop_settings.cpp:166-169 | the opacity reads back as set, only its property changes, and the preset becomes dirty exactly when setProperty's rule says so |
| PaintOpSettings.Settings.SetPaintOpFlow | libs/image/brushengine/kis_paintop_settings.cpp:171-174 | the flow reads back as set, only its property changes, and the preset becomes dirty exactly when setProperty's rule says so |
| PaintOpSettings.Settings.SetPaintOpCompositeOp | libs/image/brushengine/kis_paintop_settings.cpp:176-179 | the composite op reads back as set, only its property changes, and the preset becomes dirty exactly when setProperty's rule says so |
| PaintOpSettings.Settings.SetEraserMode | libs/image/brushengine/kis_paintop_settings.cpp:196-199 | eraser mode reads back as set, only its property changes, and the preset becomes dirty exactly when setProperty's rule says so |
| PaintOpSettings.Settings.PaintOpOpacity | libs/image/brushengine/kis_paintop_settings.cpp:181-184 | opacity is 1.0 unless set |
| PaintOpSettings.Settings.PaintOpFlow | libs/image/brushengine/kis_paintop_settings.cpp:186-189 | flow is 1.0 unless set |
| PaintOpSettings.Settings.PaintOpCompositeOp | libs/image/brushengine/kis_paintop_settings.cpp:191-194 | the composite op is "normal" unless set |
| PaintOpSettings.Settings.EraserMode | libs/image/brushengine/kis_paintop_settings.cpp:201-204 | eraser mode is off unless set |
| PaintOpSettings.Settings.EffectivePaintOpCompositeOp | libs/image/brushengine/kis_paintop_settings.cpp:206-209 | "erase" in eraser mode, the chosen composite op otherwise |
| PaintOpSettings.Settings.SavedEraserSize | libs/image/brushengine/kis_paintop_settings.cpp:211-214 | the saved eraser size is 0.0 unless set |
| PaintOpSettings.Settings.SetSavedEraserSize | libs/image/brushengine/kis_paintop_settings.cpp:216-220 | the size reads back as set and is marked as not saved; the preset becomes dirty exactly when setProperty's rule says so |
| PaintOpSettings.Settings.SavedBrushSize | libs/image/brushengine/kis_paintop_settings.cpp:222-225 | the saved brush size is 0.0 unless set |
| PaintOpSettings.Settings.SetSavedBrushSize | libs/image/brushengine/kis_paintop_settings.cpp:227-231 | the size reads back as set and is marked as not saved; the preset becomes dirty exactly when setProperty's rule says so |
| PaintOpSettings.Settings.IsValid | libs/image/brushengine/kis_paintop_settings.cpp:252-255 | every settings object is valid |
| PaintOpSettings.Settings.IsLoadable | libs/image/brushengine/kis_paintop_settings.cpp:257-260 | settings are loadable exactly when they are valid |
| PaintOpSettings.Settings.IndirectPaintingCompositeOp | libs/image/brushengine/kis_paintop_settings.cpp:262-265 | indirect painting uses alpha darken |
| PaintOpSettings.Settings.SetCanvasRotation | libs/image/brushengine/kis_paintop_settings.cpp:306-312 | the rotation is stored and marked as not saved, and neither the preset's dirty flag nor the notification flag changes |
| PaintOpSettings.Settings.SetCanvasMirroring | libs/image/brushengine/kis_paintop_settings.cpp:314-323 | both mirroring flags are stored and marked as not saved, and neither the preset's dirty flag nor the notification flag changes |
| PaintOpSettings.Settings.Clone | libs/image/brushengine/kis_paintop_settings.cpp:129-143 | no clone without a paint-operation id; otherwise new settings holding the registry defaults overridden by every property of this object, and this object's preset; the clone's other fields are fresh, so nothing is marked not saved |
| PaintOpSettings.DirtyNotificationsLocker.constructor | libs/image/brushengine/kis_paintop_settings.cpp:54-59 | the locker remembers the notification state and disables notifications |
| PaintOpSettings.DirtyNotificationsLocker.Release | libs/image/brushengine/kis_paintop_settings.cpp:61-63 | releasing the locker restores the remembered state |
| PaintOpSettings.IsLodUserAllowed | libs/image/brushengine/kis_paintop_settings.cpp:343-346 | level of detail is allowed unless the configuration says otherwise |
| PaintOpSettings.SetLodUserAllowed | libs/image/brushengine/kis_paintop_settings.cpp:348-351 | the flag reads back as set; the preset becomes dirty exactly when setProperty's rule says so |
| InlineCite.FieldNamedInverse | libs/kotext/KoInlineCite.cpp:328-358 | each field's attribute name leads back to that field |
| InlineCite.AttributeNamesDistinct | libs/kotext/KoInlineCite.cpp:328-358 | no two fields are loaded from the same attribute |
| InlineCite.LoadRank | libs/kotext/KoInlineCite.cpp:328-358 | each field has one of the 31 positions in the order loadOdf assigns them |
| InlineCite.RankOfFieldAt | libs/kotext/KoInlineCite.cpp:328-358 | the position of the field at a position is that position |
| InlineCite.FieldAtRank | libs/kotext/KoInlineCite.cpp:328-358 | the field at a field's position is that field, so the load order is a bijection |
| InlineCite.XmlWriter.constructor | libs/kotext/KoInlineCite.cpp:369 | a new writer has written nothing |
| InlineCite.XmlWriter.StartElement | libs/kotext/KoInlineCite.cpp:373 | startElement appends a start tag |
| InlineCite.XmlWriter.AddAttribute | libs/kotext/KoInlineCite.cpp:376 | addAttribute appends one attribute |
| InlineCite.XmlWriter.AddTextNode | libs/kotext/KoInlineCite.cpp:436 | addTextNode appends one text node |
| InlineCite.XmlWriter.EndElement | libs/kotext/KoInlineCite.cpp:437 | endElement appends an end tag |
| InlineCite.NamespaceOf | libs/kotext/KoInlineCite.cpp:373 | the "text" prefix stands for the OpenDocument text namespace |
| InlineCite.Find | libs/kotext/KoInlineCite.cpp:328 | a found value is the value of an attribute with that namespace and local name |
| InlineCite.LoadedRecordFields | libs/kotext/KoInlineCite.cpp:328-358 | after loading, each field holds the value of its own attribute, or the empty string |
| InlineCite.Written | libs/kotext/KoInlineCite.cpp:375-434 | as written, the address attribute carries the identifier and every other attribute carries its own field; corrected, every attribute carries its own field |
| InlineCite.IdentifierStep | libs/kotext/KoInlineCite.cpp:375-376 | the identifier statement is step 0 of the write fold |
| InlineCite.BibliographyTypeStep | libs/kotext/KoInlineCite.cpp:377-378 | the bibliography-type statement is step 1 of the fold |
| InlineCite.AddressStep | libs/kotext/KoInlineCite.cpp:379-380 | the address statement tests the address but writes the identifier |
| InlineCite.AnnoteStep | libs/kotext/KoInlineCite.cpp:381-382 | the annote statement is step 3 of the fold |
| InlineCite.AuthorStep | libs/kotext/KoInlineCite.cpp:383-384 | the author statement is step 4 of the fold |
| InlineCite.BookTitleStep | libs/kotext/KoInlineCite.cpp:385-386 | the booktitle statement is step 5 of the fold |
| InlineCite.ChapterStep | libs/kotext/KoInlineCite.cpp:387-388 | the chapter statement is step 6 of the fold |
| InlineCite.EditionStep | libs/kotext/KoInlineCite.cpp:389-390 | the edition statement is step 7 of the fold |
| InlineCite.EditorStep | libs/kotext/KoInlineCite.cpp:391-392 | the editor statement is step 8 of the fold |
| InlineCite.PublicationTypeStep | libs/kotext/KoInlineCite.cpp:393-394 | the publication type is written under "howpublished", step 9 of the fold |
| InlineCite.InstitutionStep | libs/kotext/KoInlineCite.cpp:395-396 | the institution statement is step 10 of the fold |
| InlineCite.JournalStep | libs/kotext/KoInlineCite.cpp:397-398 | the journal statement is step 11 of the fold |
| InlineCite.MonthStep | libs/kotext/KoInlineCite.cpp:399-400 | the month statement is step 12 of the fold |
| InlineCite.NoteStep | libs/kotext/KoInlineCite.cpp:401-402 | the note statement is step 13 of the fold |
| InlineCite.NumberStep | libs/kotext/KoInlineCite.cpp:403-404 | the number statement is step 14 of the fold |
| InlineCite.OrganisationStep | libs/kotext/KoInlineCite.cpp:403-406 | there is no statement for the organisation, so step 15 writes nothing |
| InlineCite.PagesStep | libs/kotext/KoInlineCite.cpp:405-406 | the pages statement is step 16 of the fold |
| InlineCite.PublisherStep | libs/kotext/KoInlineCite.cpp:407-408 | the publisher statement is step 17 of the fold |
| InlineCite.SchoolStep | libs/kotext/KoInlineCite.cpp:409-410 | the school statement is step 18 of the fold |
| InlineCite.SeriesStep | libs/kotext/KoInlineCite.cpp:411-412 | the series statement is step 19 of the fold |
| InlineCite.TitleStep | libs/kotext/KoInlineCite.cpp:413-414 | the title statement is step 20 of the fold |
| InlineCite.ReportTypeStep | libs/kotext/KoInlineCite.cpp:415-416 | the report-type statement is step 21 of the fold |
| InlineCite.VolumeStep | libs/kotext/KoInlineCite.cpp:417-418 | the volume statement is step 22 of the fold |
| InlineCite.YearStep | libs/kotext/KoInlineCite.cpp:419-420 | the year statement is step 23 of the fold |
| InlineCite.UrlStep | libs/kotext/KoInlineCite.cpp:421-422 | the url statement is step 24 of the fold |
| InlineCite.IsbnStep | libs/kotext/KoInlineCite.cpp:423-424 | the isbn statement is step 25 of the fold |
| InlineCite.Custom1Step | libs/kotext/KoInlineCite.cpp:425-426 | the custom1 statement is step 26 of the fold |
| InlineCite.Custom2Step | libs/kotext/KoInlineCite.cpp:427-428 | the custom2 statement is step 27 of the fold |
| InlineCite.Custom3Step | libs/kotext/KoInlineCite.cpp:429-430 | the custom3 statement is step 28 of the fold |
| InlineCite.Custom4Step | libs/kotext/KoInlineCite.cpp:431-432 | the custom4 statement is step 29 of the fold |
| InlineCite.Custom5Step | libs/kotext/KoInlineCite.cpp:433-434 | the custom5 statement is step 30, the last of the fold |
| InlineCite.SaveIdentifierToAnnoteSteps | libs/kotext/KoInlineCite.cpp:375-382 | the statements from identifier to annote are steps 0 to 3 of the fold |
| InlineCite.SaveAuthorToEditionSteps | libs/kotext/KoInlineCite.cpp:383-390 | the statements from author to edition are steps 4 to 7 |
| InlineCite.SaveEditorToJournalSteps | libs/kotext/KoInlineCite.cpp:391-398 | the statements from editor to journal are steps 8 to 11 |
| InlineCite.SaveMonthToOrganisationSteps | libs/kotext/KoInlineCite.cpp:399-404 | the statements from month to number, and the missing organisation statement, are steps 12 to 15 |
| InlineCite.SavePagesToSeriesSteps | libs/kotext/KoInlineCite.cpp:405-412 | the statements from pages to series are steps 16 to 19 |
| InlineCite.SaveTitleToYearSteps | libs/kotext/KoInlineCite.cpp:413-420 | the statements from title to year are steps 20 to 23 |
| InlineCite.SaveUrlToCustom2Steps | libs/kotext/KoInlineCite.cpp:421-428 | the statements from url to custom2 are steps 24 to 27 |
| InlineCite.SaveCustom3ToCustom5Steps | libs/kotext/KoInlineCite.cpp:429-434 | the statements from custom3 to custom5 are steps 28 to 30 |
| InlineCite.SaveStatementsAsWritten | libs/kotext/KoInlineCite.cpp:375-434 | saveOdf's 30 attribute statements, in order, are the fold over the load order under the rules as written |
| InlineCite.WriteAttributeIfSet | libs/kotext/KoInlineCite.cpp:375-376 | one statement appends the attribute only when the tested field is not empty |
| InlineCite.FindWritten | libs/kotext/KoInlineCite.cpp:375-434 | among the written attributes, a field's name finds that field's written value when it was written, and nothing otherwise |
| InlineCite.ReadSavedMark | libs/kotext/KoInlineCite.cpp:373-437 | what saveOdf writes reads back as one bibliography-mark element with the written attributes and the bracketed identifier as its text |
| InlineCite.SaveThenLoad | libs/kotext/KoInlineCite.cpp:321-437 | loadOdf accepts what saveOdf wrote; each field's attribute holds the written value when the field is saved and not empty, and is missing otherwise |
| InlineCite.SaveThenLoadRecord | libs/kotext/KoInlineCite.cpp:321-437 | after save then load, a field holds the written value when it is saved and not empty, and the empty string otherwise |
| InlineCite.AsWrittenRoundTrip | libs/kotext/KoInlineCite.cpp:343 | saveOdf as written, then loadOdf: the organisation comes back empty, a non-empty address comes back as the identifier, and every other field comes back unchanged |
| InlineCite.AsWrittenLosesFields | libs/kotext/KoInlineCite.cpp:379-380 | a concrete citation whose address and organisation do not survive save then load |
| InlineCite.CorrectedRoundTrip | libs/kotext/KoInlineCite.cpp:375-434 | with the corrected save, load restores every field exactly |
| InlineCite.Cite.constructor | libs/kotext/KoInlineCite.cpp:85-89 | a new citation has every field empty |
| InlineCite.Cite.SetIdentifier | libs/kotext/KoInlineCite.cpp:110-113 | sets the identifier and no other field |
| InlineCite.Cite.SetAddress | libs/kotext/KoInlineCite.cpp:120-123 | sets the address and no other field |
| InlineCite.Cite.SetAnnotation | libs/kotext/KoInlineCite.cpp:125-128 | sets the annote field and no other field |
| InlineCite.Cite.SetAuthor | libs/kotext/KoInlineCite.cpp:130-133 | sets the author and no other field |
| InlineCite.Cite.SetBibliographyType | libs/kotext/KoInlineCite.cpp:135-138 | sets the bibliography type and no other field |
| InlineCite.Cite.SetBookTitle | libs/kotext/KoInlineCite.cpp:140-143 | sets the book title and no other field |
| InlineCite.Cite.SetChapter | libs/kotext/KoInlineCite.cpp:145-148 | sets the chapter and no other field |
| InlineCite.Cite.SetCustom1 | libs/kotext/KoInlineCite.cpp:150-153 | sets custom1 and no other field |
| InlineCite.Cite.SetCustom2 | libs/kotext/KoInlineCite.cpp:155-158 | sets custom2 and no other field |
| InlineCite.Cite.SetCustom3 | libs/kotext/KoInlineCite.cpp:160-163 | sets custom3 and no other field |
| InlineCite.Cite.SetCustom4 | libs/kotext/KoInlineCite.cpp:165-168 | sets custom4 and no other field |
| InlineCite.Cite.SetCustom5 | libs/kotext/KoInlineCite.cpp:170-173 | sets custom5 and no other field |
| InlineCite.Cite.SetEdition | libs/kotext/KoInlineCite.cpp:175-178 | sets the edition and no other field |
| InlineCite.Cite.SetEditor | libs/kotext/KoInlineCite.cpp:180-183 | sets the editor and no other field |
| InlineCite.Cite.SetInstitution | libs/kotext/KoInlineCite.cpp:185-188 | sets the institution and no other field |
| InlineCite.Cite.SetIsbn | libs/kotext/KoInlineCite.cpp:190-193 | sets the ISBN and no other field |
| InlineCite.Cite.SetJournal | libs/kotext/KoInlineCite.cpp:195-198 | sets the journal and no other field |
| InlineCite.Cite.SetMonth | libs/kotext/KoInlineCite.cpp:200-203 | sets the month and no other field |
| InlineCite.Cite.SetNote | libs/kotext/KoInlineCite.cpp:205-208 | sets the note and no other field |
| InlineCite.Cite.SetNumber | libs/kotext/KoInlineCite.cpp:210-213 | sets the number and no other field |
| InlineCite.Cite.SetOrganisation | libs/kotext/KoInlineCite.cpp:215-218 | sets the organisation and no other field |
| InlineCite.Cite.SetPages | libs/kotext/KoInlineCite.cpp:220-223 | sets the pages and no other field |
| InlineCite.Cite.SetPublicationType | libs/kotext/KoInlineCite.cpp:225-228 | sets the publication type and no other field |
| InlineCite.Cite.SetPublisher | libs/kotext/KoInlineCite.cpp:230-233 | sets the publisher and no other field |
| InlineCite.Cite.SetReportType | libs/kotext/KoInlineCite.cpp:235-238 | sets the report type and no other field |
| InlineCite.Cite.SetSchool | libs/kotext/KoInlineCite.cpp:240-243 | sets the school and no other field |
| InlineCite.Cite.SetSeries | libs/kotext/KoInlineCite.cpp:245-248 | sets the series and no other field |
| InlineCite.Cite.SetTitle | libs/kotext/KoInlineCite.cpp:250-253 | sets the title and no other field |
| InlineCite.Cite.SetUrl | libs/kotext/KoInlineCite.cpp:255-258 | sets the URL and no other field |
| InlineCite.Cite.SetVolume | libs/kotext/KoInlineCite.cpp:260-263 | sets the volume and no other field |
| InlineCite.Cite.SetYear | libs/kotext/KoInlineCite.cpp:265-268 | sets the year and no other field |
| InlineCite.Cite.LoadOdf | libs/kotext/KoInlineCite.cpp:321-365 | loadOdf accepts exactly a text:bibliography-mark element and then loads every field from its attribute; any other element is refused and leaves the record unchanged |
| InlineCite.Cite.SaveOdf | libs/kotext/KoInlineCite.cpp:367-437 | saveOdf appends a bibliography mark holding the attributes of the record under the rules as written, and the bracketed identifier as its text |

## Left out

- Collaborators are function-typed values the caller supplies; what they compute is not modelled. They are: the `KisQImagePyramid` size queries, `normalizeAngle`, `qGray`, `KoColorSpaceMaths::multiply`, `QPainter` drawing, the colour-space conversions and alpha multiply, the options' `apply`, `KisColorSource::colorize`, the paint-operation registry, and `sqrt`.
- Brush getters and `setWidth`/`setHeight` (kis_brush.cpp:179-198, 243-246, 314-317, 396-415, 617-630): they read or write one field, and the model uses the class fields directly.
- The tip image is taken as already loaded. `brushTipImage()` (kis_brush.cpp:171-177) calls the resource's `load()` when the image is null, and the copy constructor, `isPiercedApprox`, `generateMaskAndApplyMaskOrCreateDab` and `paintDevice` read the image through it. `load()` is the file loading of the resource base class, which is not part of this model, so Brush.Copy, Brush.IsPiercedApprox, Brush.GenerateMaskAndApplyMaskOrCreateDab and Brush.FullColorDab read the `tipImage` field directly.
- `KisBrush(filename)` (kis_brush.cpp:139-143) passes the file name to the resource base class, which is not part of this model.
- `brushIndex`, `canPaintFor`, `notifyStrokeStarted` and `notifyCachedDabPainted` (kis_brush.cpp:384-388, 287-290, 417-424) return a constant or do nothing.
- `predefinedBrushToXML` (kis_brush.cpp:319-328): this is number-to-text formatting of doubles.
- `outline()` (kis_brush.cpp:632-635): the traced path of the outline is not modelled. An `Outline` records only what it was traced from.
- BrushTip.TransformBrushTip: the raster work inside the Qt painter (smooth transform, composition mode) is the `draw` collaborator.
- `generateMaskAndApplyMaskOrCreateDab` takes no account of `softnessFactor` and the paint information, and neither does the C++ code.
- `quint8` pointer arithmetic and `memcpy` over the dab's bytes become indexed writes into an `array2` of pixels.
- The device colouring iterator's pixel read is the device's pixel at the iterator's position. `KisHLineConstIteratorSP` is not part of this model.
- The dab cache's `precisionOption` is stored and not consulted, as in kis_dab_cache.cpp. Only the table of precision levels is modelled (kis_dab_cache.cpp:42-48).
- DabCache.DabCache.FetchDab: the ensures states the rectangle and the colour space, and not the dab's pixels. Those are stated by FetchDabCommon, which it calls.
- DabCache.DabCache.FetchDabWithColor: the ensures are as for FetchDab. The corrected dispatch (DabSourceFor) is what it actually runs; see Findings.
- DabCache.DabCache.CalculateDabRect: the ensures states only the angle rule. The placement is stated by the lemmas PlainPlacementIsExact, DisabledPrecisionSnapsToPixels, NaNFractionBecomesZero, HorizontalMirrorRightEdge, VerticalMirrorBottomEdge and MirrorAxesIndependent, which quantify over all inputs.
- BrushBasedPaintOp.BrushBasedPaintOp.CheckSizeTooSmall and BrushBasedPaintOp.BrushBasedPaintOp.CalcAutoSpacingPoint have no ensures of their own. Their properties are the lemmas TooSmallAtSmallerScale and AutoSpacingPointBelowOnePixel.
- `KisLodTransform::lodToScale` is a positive level-of-detail scale the paint operation is given.
- `KisBrushBasedPaintOp` destructor, `TextBrushInitializationWorkaround::instance()` and `preinitializeOpStatically` (kis_brush_based_paintop.cpp:33-39, 61-72, 104-107) are left out. They concern a global static instance and object lifetime, and the workaround's state is a class the caller holds.
- The constructor's reading of the brush option from the settings is the `readBrush` argument (kis_brush_based_paintop.cpp:74-102).
- QVariant is reduced to numbers, flags and strings. Getting a stored value of another kind converts it by fixed rules, not Qt's full conversion table.
- PaintOpSettings.Settings.SetProperty: the change test that decides whether the preset becomes dirty compares the new and stored values structurally, kind included. QVariant's `!=` converts between kinds first, so a stored text "0.5" and a new number 0.5 count as equal in the C++ code but as a change here. The setters that go through SetProperty (SetPaintOpOpacity, SetPaintOpFlow, SetPaintOpCompositeOp, SetEraserMode, SetSavedEraserSize, SetSavedBrushSize, SetLodUserAllowed) inherit this.
- `mousePressEvent` and `setRandomOffset` (kis_paintop_settings.cpp:96-126) use the mouse, the clock and random numbers.
- `activate`, `changePaintOpSize`, `brushOutline` and `ellipseOutline` (kis_paintop_settings.cpp:145-155, 267-304) are left out. They are a no-op, a call into the widget, and outline painting.
- The `preset()`, `modelName()` and `optionsWidget()` getters (kis_paintop_settings.cpp:91-94, 234-237, 244-250) return the fields. `onPropertyChanged` (338-341) is empty.
- PaintOpSettings.Settings.IsValid states the constant the source returns. The virtual overrides in subclasses are not part of this model.
- InlineCite: the citation's text frame, `setMotherFrame`, `textFrame`, `resize`, `paint` and `updatePosition` (KoInlineCite.cpp:96-108, 270-319) are left out. These use the text layout, font metrics and painting. `loadOdf` and `saveOdf` also build a cursor on the text frame, whose result they never use; the model leaves it out, including the null dereference on a citation whose frame was never set.
- InlineCite.Cite.Identifier reads one field of the record and has no ensures.
- The XML writer is reduced to the events it is asked to write. A qualified name `text:x` is split into the prefix and the local name. Indentation, escaping and the `false` indentation flag are not modelled.
- A reader of what the writer wrote is modelled for one element without nested elements. That is all saveOdf writes.
- `double` and `qreal` arithmetic is exact real arithmetic. Only NaN is kept, by the `Double` datatype, where a NaN fraction can arise. The rounding of floating-point products and sums is not modelled: in BrushTip.PiercingWindow (`(0.5 ± portion) * w` before floor and ceil), in the 10% threshold of the pierced-tip check (`0.1 * n`), in the spacing formulas and in the dab placement arithmetic. Where double rounding would carry a result across an integer, the C++ code and the model can differ.
- Primitives.SplitCoordinate: `KisPaintOp::splitCoordinate` is defined outside the modelled files. It is given here as the floor split: the whole part is the floor, and the fraction lies in [0, 1).
- Primitives.QRound: `qRound` is Qt's and is defined outside the modelled files. It is given here as `floor(r + 0.5)`, which rounds halves up. Qt versions that round negative halves away from zero give a different result there. Overflow of `int` is not modelled.
- DabCache.DabCache.ProduceDab: the full-colour branch (kis_dab_cache.cpp:254-257) calls a six-argument `paintDevice` overload declared in a header that is not part of this model. The model takes it to forward to the seven-parameter `paintDevice` of kis_brush.cpp:561-564 with ratio 1.0.
- `QString != ""` is modelled as a non-empty sequence. A null QString is the empty string here.

## Findings

| source | as written | input that shows it | evidently intended | confidence | as-written member | corrected member |
|---|---|---|---|---|---|---|
| plugins/paintops/libpaintop/kis_dab_cache.cpp:125-140 | fetchDab with a KoColor passes a null colour source to fetchDabCommon; for any brush that is not an image brush, the stencil branch calls `colorSource->...` on it | a mask brush (type MASK) and fetchDab(cs, color, ...) | a stencil brush without a colour source is masked with the given colour, as the computed paint colour suggests | not executed | DabCache.ColorOverloadDereferencesNull | DabCache.DabSourceAgreesWhereDefined |
| libs/kotext/KoInlineCite.cpp:379-380 | saveOdf writes `d->identifier` as the value of `text:address` | a citation with identifier "Smith2011" and address "Berlin" loads back with address "Smith2011" | the address attribute carries the address | not executed | InlineCite.AsWrittenLosesFields | InlineCite.CorrectedRoundTrip |
| libs/kotext/KoInlineCite.cpp:403-406 | saveOdf has no statement for the organisation, which loadOdf reads from `text:organisations` (line 343) | a citation with organisation "KDE" loads back with an empty organisation | saveOdf writes `text:organisations` when the organisation is not empty | not executed | InlineCite.AsWrittenRoundTrip | InlineCite.CorrectedRoundTrip |
