// KisPaintOpSettings: the property map of a paint operation's settings, and
// the rule for when changing a property marks the owning preset dirty.
//
// The settings object is a class whose property map (inherited from
// KisPropertiesConfiguration) is a `map` field that the methods reassign. The
// preset and the options widget are objects the settings point to. The typed
// getters of KisPropertiesConfiguration read the map and fall back to a
// default when the name is absent.

module PaintOpSettings {
  import opened Primitives

  /** QVariant, reduced to the kinds the settings store */
  datatype Variant = RealValue(r: real) | BoolValue(b: bool) | StringValue(s: string)

  /** QVariant::toDouble */
  function ToReal(v: Variant): real {
    match v
    case RealValue(r) => r
    case BoolValue(b) => if b then 1.0 else 0.0
    case StringValue(_) => 0.0
  }

  /** QVariant::toBool */
  function ToBool(v: Variant): bool {
    match v
    case RealValue(r) => r != 0.0
    case BoolValue(b) => b
    case StringValue(s) => s != "" && s != "0" && s != "false"
  }

  /** QVariant::toString */
  function ToText(v: Variant): string {
    match v
    case RealValue(_) => ""
    case BoolValue(b) => if b then "true" else "false"
    case StringValue(s) => s
  }

  /** KisPropertiesConfiguration::getProperty: the stored value, if any */
  function Lookup(properties: map<string, Variant>, name: string): (v: Option<Variant>)
    ensures v.Some? <==> name in properties
    ensures v.Some? ==> v.value == properties[name]
  {
    if name in properties then Some(properties[name]) else None
  }

  /** getDouble(name, def) */
  function GetReal(properties: map<string, Variant>, name: string, def: real): (r: real)
    ensures name !in properties ==> r == def
    ensures name in properties && properties[name].RealValue? ==> r == properties[name].r
  {
    match Lookup(properties, name)
    case None => def
    case Some(v) => ToReal(v)
  }

  /** getBool(name, def) */
  function GetBool(properties: map<string, Variant>, name: string, def: bool): (b: bool)
    ensures name !in properties ==> b == def
    ensures name in properties && properties[name].BoolValue? ==> b == properties[name].b
  {
    match Lookup(properties, name)
    case None => def
    case Some(v) => ToBool(v)
  }

  /** getString(name, def) */
  function GetText(properties: map<string, Variant>, name: string, def: string): (s: string)
    ensures name !in properties ==> s == def
    ensures name in properties && properties[name].StringValue? ==> s == properties[name].s
  {
    match Lookup(properties, name)
    case None => def
    case Some(v) => ToText(v)
  }

  /** The composite-op identifiers of the composite-op registry */
  const CompositeOver: string := "normal"
  const CompositeErase: string := "erase"
  const CompositeAlphaDarken: string := "alphadarken"

  /** The property names the settings use */
  const OpacityName: string := "OpacityValue"
  const FlowName: string := "FlowValue"
  const CompositeOpName: string := "CompositeOp"
  const EraserModeName: string := "EraserMode"
  const SavedEraserSizeName: string := "SavedEraserSize"
  const SavedBrushSizeName: string := "SavedBrushSize"
  const CanvasRotationName: string := "runtimeCanvasRotation"
  const CanvasMirroredXName: string := "runtimeCanvasMirroredX"
  const CanvasMirroredYName: string := "runtimeCanvasMirroredY"
  const LodUserAllowedName: string := "lodUserAllowed"
  const PaintOpIdName: string := "paintop"

  /** The composite op a stroke paints with: erasing in eraser mode, the chosen op otherwise */
  function EffectiveCompositeOp(properties: map<string, Variant>): (op: string)
    ensures GetBool(properties, EraserModeName, false) ==> op == CompositeErase
    ensures !GetBool(properties, EraserModeName, false) ==> op == GetText(properties, CompositeOpName, CompositeOver)
  {
    if !GetBool(properties, EraserModeName, false) then GetText(properties, CompositeOpName, CompositeOver)
    else CompositeErase
  }

  /** KisPaintOpPreset, as far as the settings touch it */
  class Preset {
    var dirty: bool

    constructor ()
      ensures !dirty
    {
      dirty := false;
    }

    method SetPresetDirty(value: bool)
      modifies this`dirty
      ensures dirty == value
    {
      dirty := value;
    }
  }

  /** KisPaintOpConfigWidget, as far as the settings ask it */
  class ConfigWidget {
    var paintOpSize: SizeF

    constructor (size: SizeF)
      ensures paintOpSize == size
    {
      paintOpSize := size;
    }
  }

  /**
   * KisPaintOpRegistry::settings: the properties a fresh settings object of
   * a paint operation starts with, by paint-operation id.
   */
  datatype Registry = Registry(defaults: string -> map<string, Variant>)

  class Settings {
    var properties: map<string, Variant>
    var notSaved: set<string>
    var settingsWidget: ConfigWidget?
    var modelName: string
    var preset: Preset?
    var disableDirtyNotifications: bool

    /** A fresh settings object: no widget, no preset, notifications enabled */
    constructor (properties: map<string, Variant>)
      ensures this.properties == properties && notSaved == {}
      ensures settingsWidget == null && modelName == "" && preset == null && !disableDirtyNotifications
    {
      this.properties := properties;
      notSaved := {};
      settingsWidget := null;
      modelName := "";
      preset := null;
      disableDirtyNotifications := false;
    }

    method SetOptionsWidget(widget: ConfigWidget?)
      modifies this`settingsWidget
      ensures settingsWidget == widget
    {
      settingsWidget := widget;
    }

    method SetPreset(p: Preset?)
      modifies this`preset
      ensures preset == p
    {
      preset := p;
    }

    method SetModelName(name: string)
      modifies this`modelName
      ensures modelName == name
    {
      modelName := name;
    }

    /**
     * setProperty: always stores the value; marks the preset dirty when the
     * value differs from the stored one, dirty notifications are enabled and
     * there is a preset.
     */
    method SetProperty(name: string, value: Variant)
      modifies this`properties, preset
      ensures properties == old(properties)[name := value]
      ensures preset != null ==>
        preset.dirty == (old(preset.dirty) || (Some(value) != Lookup(old(properties), name) && !disableDirtyNotifications))
    {
      if Some(value) != Lookup(properties, name) && !disableDirtyNotifications && preset != null {
        preset.SetPresetDirty(true);
      }
      properties := properties[name := value];
    }

    /** setPropertyNotSaved: the property is left out when the settings are saved */
    method SetPropertyNotSaved(name: string)
      modifies this`notSaved
      ensures notSaved == old(notSaved) + {name}
    {
      notSaved := notSaved + {name};
    }

    /** paintOpSize: the widget's size, or 1 x 1 without a widget */
    function PaintOpSize(): (size: SizeF)
      reads this, settingsWidget
      ensures settingsWidget == null ==> size == SizeF(1.0, 1.0)
      ensures settingsWidget != null ==> size == settingsWidget.paintOpSize
    {
      if settingsWidget != null then settingsWidget.paintOpSize else SizeF(1.0, 1.0)
    }

    method SetPaintOpOpacity(value: real)
      modifies this`properties, preset
      ensures PaintOpOpacity() == value
      ensures properties == old(properties)[OpacityName := RealValue(value)]
      ensures preset != null ==>
        preset.dirty == (old(preset.dirty) || (Some(RealValue(value)) != Lookup(old(properties), OpacityName) && !disableDirtyNotifications))
    {
      SetProperty(OpacityName, RealValue(value));
    }

    method SetPaintOpFlow(value: real)
      modifies this`properties, preset
      ensures PaintOpFlow() == value
      ensures properties == old(properties)[FlowName := RealValue(value)]
      ensures preset != null ==>
        preset.dirty == (old(preset.dirty) || (Some(RealValue(value)) != Lookup(old(properties), FlowName) && !disableDirtyNotifications))
    {
      SetProperty(FlowName, RealValue(value));
    }

    method SetPaintOpCompositeOp(value: string)
      modifies this`properties, preset
      ensures PaintOpCompositeOp() == value
      ensures properties == old(properties)[CompositeOpName := StringValue(value)]
      ensures preset != null ==>
        preset.dirty == (old(preset.dirty) || (Some(StringValue(value)) != Lookup(old(properties), CompositeOpName) && !disableDirtyNotifications))
    {
      SetProperty(CompositeOpName, StringValue(value));
    }

    method SetEraserMode(value: bool)
      modifies this`properties, preset
      ensures EraserMode() == value
      ensures properties == old(properties)[EraserModeName := BoolValue(value)]
      ensures preset != null ==>
        preset.dirty == (old(preset.dirty) || (Some(BoolValue(value)) != Lookup(old(properties), EraserModeName) && !disableDirtyNotifications))
    {
      SetProperty(EraserModeName, BoolValue(value));
    }

    /** paintOpOpacity: 1.0 unless set */
    function PaintOpOpacity(): (opacity: real)
      reads this
      ensures OpacityName !in properties ==> opacity == 1.0
      ensures OpacityName in properties && properties[OpacityName].RealValue? ==> opacity == properties[OpacityName].r
    {
      GetReal(properties, OpacityName, 1.0)
    }

    /** paintOpFlow: 1.0 unless set */
    function PaintOpFlow(): (flow: real)
      reads this
      ensures FlowName !in properties ==> flow == 1.0
      ensures FlowName in properties && properties[FlowName].RealValue? ==> flow == properties[FlowName].r
    {
      GetReal(properties, FlowName, 1.0)
    }

    /** paintOpCompositeOp: the "over" op unless set */
    function PaintOpCompositeOp(): (op: string)
      reads this
      ensures CompositeOpName !in properties ==> op == CompositeOver
      ensures CompositeOpName in properties && properties[CompositeOpName].StringValue? ==> op == properties[CompositeOpName].s
    {
      GetText(properties, CompositeOpName, CompositeOver)
    }

    /** eraserMode: off unless set */
    function EraserMode(): (on: bool)
      reads this
      ensures EraserModeName !in properties ==> !on
      ensures EraserModeName in properties && properties[EraserModeName].BoolValue? ==> on == properties[EraserModeName].b
    {
      GetBool(properties, EraserModeName, false)
    }

    /** effectivePaintOpCompositeOp */
    function EffectivePaintOpCompositeOp(): (op: string)
      reads this
      ensures op == (if EraserMode() then CompositeErase else PaintOpCompositeOp())
    {
      EffectiveCompositeOp(properties)
    }

    /** savedEraserSize: 0.0 unless set */
    function SavedEraserSize(): (size: real)
      reads this
      ensures SavedEraserSizeName !in properties ==> size == 0.0
      ensures SavedEraserSizeName in properties && properties[SavedEraserSizeName].RealValue? ==>
        size == properties[SavedEraserSizeName].r
    {
      GetReal(properties, SavedEraserSizeName, 0.0)
    }

    /** setSavedEraserSize: stored, but not saved with the settings */
    method SetSavedEraserSize(value: real)
      modifies this`properties, this`notSaved, preset
      ensures SavedEraserSize() == value
      ensures properties == old(properties)[SavedEraserSizeName := RealValue(value)]
      ensures preset != null ==>
        preset.dirty == (old(preset.dirty) || (Some(RealValue(value)) != Lookup(old(properties), SavedEraserSizeName) && !disableDirtyNotifications))
      ensures notSaved == old(notSaved) + {SavedEraserSizeName}
    {
      SetProperty(SavedEraserSizeName, RealValue(value));
      SetPropertyNotSaved(SavedEraserSizeName);
    }

    /** savedBrushSize: 0.0 unless set */
    function SavedBrushSize(): (size: real)
      reads this
      ensures SavedBrushSizeName !in properties ==> size == 0.0
      ensures SavedBrushSizeName in properties && properties[SavedBrushSizeName].RealValue? ==>
        size == properties[SavedBrushSizeName].r
    {
      GetReal(properties, SavedBrushSizeName, 0.0)
    }

    /** setSavedBrushSize: stored, but not saved with the settings */
    method SetSavedBrushSize(value: real)
      modifies this`properties, this`notSaved, preset
      ensures SavedBrushSize() == value
      ensures properties == old(properties)[SavedBrushSizeName := RealValue(value)]
      ensures preset != null ==>
        preset.dirty == (old(preset.dirty) || (Some(RealValue(value)) != Lookup(old(properties), SavedBrushSizeName) && !disableDirtyNotifications))
      ensures notSaved == old(notSaved) + {SavedBrushSizeName}
    {
      SetProperty(SavedBrushSizeName, RealValue(value));
      SetPropertyNotSaved(SavedBrushSizeName);
    }

    /** isValid: every settings object is valid */
    function IsValid(): (valid: bool)
      ensures valid
    {
      true
    }

    /** isLoadable: loadable exactly when valid */
    function IsLoadable(): (loadable: bool)
      ensures loadable == IsValid()
    {
      IsValid()
    }

    /** indirectPaintingCompositeOp: alpha darken */
    function IndirectPaintingCompositeOp(): (op: string)
      ensures op == CompositeAlphaDarken
    {
      CompositeAlphaDarken
    }

    /**
     * setCanvasRotation: stores the rotation as an unsaved property with
     * dirty notifications locked, so the preset's dirty flag and the
     * notification flag stay as they were.
     */
    method SetCanvasRotation(angle: real)
      modifies this`properties, this`notSaved, this`disableDirtyNotifications, preset
      ensures properties == old(properties)[CanvasRotationName := RealValue(angle)]
      ensures notSaved == old(notSaved) + {CanvasRotationName}
      ensures disableDirtyNotifications == old(disableDirtyNotifications)
      ensures preset != null ==> preset.dirty == old(preset.dirty)
    {
      var locker := new DirtyNotificationsLocker(this);
      SetProperty(CanvasRotationName, RealValue(angle));
      SetPropertyNotSaved(CanvasRotationName);
      locker.Release();
    }

    /** setCanvasMirroring: as setCanvasRotation, for the two mirroring flags */
    method SetCanvasMirroring(xAxisMirrored: bool, yAxisMirrored: bool)
      modifies this`properties, this`notSaved, this`disableDirtyNotifications, preset
      ensures properties == old(properties)[CanvasMirroredXName := BoolValue(xAxisMirrored)]
                                           [CanvasMirroredYName := BoolValue(yAxisMirrored)]
      ensures notSaved == old(notSaved) + {CanvasMirroredXName, CanvasMirroredYName}
      ensures disableDirtyNotifications == old(disableDirtyNotifications)
      ensures preset != null ==> preset.dirty == old(preset.dirty)
    {
      var locker := new DirtyNotificationsLocker(this);
      SetProperty(CanvasMirroredXName, BoolValue(xAxisMirrored));
      SetPropertyNotSaved(CanvasMirroredXName);
      SetProperty(CanvasMirroredYName, BoolValue(yAxisMirrored));
      SetPropertyNotSaved(CanvasMirroredYName);
      locker.Release();
    }

    /**
     * clone: nothing without a paint-operation id; otherwise a fresh settings
     * object of that paint operation holding every property of this one, and
     * this one's preset. The clone's other fields are those of a fresh object,
     * so a property this one marks as not saved is saved with the clone.
     */
    method Clone(registry: Registry) returns (settings: Settings?)
      ensures GetText(properties, PaintOpIdName, "") == "" <==> settings == null
      ensures settings != null ==> fresh(settings)
      ensures settings != null ==>
        && settings.properties == registry.defaults(GetText(properties, PaintOpIdName, "")) + properties
        && settings.preset == preset
      ensures settings != null ==>
        && settings.notSaved == {} && settings.settingsWidget == null && settings.modelName == ""
        && !settings.disableDirtyNotifications
    {
      var paintopId := GetText(properties, PaintOpIdName, "");
      if paintopId == "" {
        return null;
      }
      settings := new Settings(registry.defaults(paintopId));
      var remaining := properties.Keys;
      while remaining != {}
        invariant remaining <= properties.Keys
        invariant fresh(settings) && settings.preset == null
        invariant settings.notSaved == {} && settings.settingsWidget == null && settings.modelName == ""
        invariant !settings.disableDirtyNotifications
        invariant settings.properties == registry.defaults(paintopId) + (properties - remaining)
        decreases remaining
      {
        var key :| key in remaining;
        settings.SetProperty(key, properties[key]);
        remaining := remaining - {key};
      }
      assert properties - remaining == properties;
      settings.SetPreset(preset);
    }
  }

  /**
   * Private::DirtyNotificationsLocker: disables dirty notifications while it
   * lives and restores the previous state when it goes.
   */
  class DirtyNotificationsLocker {
    const settings: Settings
    const oldNotificationsState: bool

    constructor (settings: Settings)
      modifies settings`disableDirtyNotifications
      ensures this.settings == settings
      ensures oldNotificationsState == old(settings.disableDirtyNotifications)
      ensures settings.disableDirtyNotifications
    {
      this.settings := settings;
      oldNotificationsState := settings.disableDirtyNotifications;
      new;
      settings.disableDirtyNotifications := true;
    }

    /** The destructor */
    method Release()
      modifies settings`disableDirtyNotifications
      ensures settings.disableDirtyNotifications == oldNotificationsState
    {
      settings.disableDirtyNotifications := oldNotificationsState;
    }
  }

  /** isLodUserAllowed: allowed unless the configuration says otherwise */
  function IsLodUserAllowed(config: Settings): (allowed: bool)
    reads config
    ensures LodUserAllowedName !in config.properties ==> allowed
    ensures LodUserAllowedName in config.properties && config.properties[LodUserAllowedName].BoolValue? ==>
      allowed == config.properties[LodUserAllowedName].b
  {
    GetBool(config.properties, LodUserAllowedName, true)
  }

  /** setLodUserAllowed: through setProperty, so it may mark the preset dirty */
  method SetLodUserAllowed(config: Settings, value: bool)
    modifies config`properties, config.preset
    ensures IsLodUserAllowed(config) == value
    ensures config.properties == old(config.properties)[LodUserAllowedName := BoolValue(value)]
    ensures config.preset != null ==>
        config.preset.dirty == (old(config.preset.dirty) || (Some(BoolValue(value)) != Lookup(old(config.properties), LodUserAllowedName) && !config.disableDirtyNotifications))
  {
    config.SetProperty(LodUserAllowedName, BoolValue(value));
  }

  /** A value stored under a name is what the typed getter reads back. */
  lemma SetThenGet(properties: map<string, Variant>, name: string, r: real, b: bool, s: string,
                   defReal: real, defBool: bool, defText: string)
    ensures GetReal(properties[name := RealValue(r)], name, defReal) == r
    ensures GetBool(properties[name := BoolValue(b)], name, defBool) == b
    ensures GetText(properties[name := StringValue(s)], name, defText) == s
  {
  }

  /** Eraser mode overrides the chosen composite op, and turning it off brings the chosen op back. */
  lemma EraserModeOverridesCompositeOp(properties: map<string, Variant>, op: string, eraser: bool)
    ensures var p := properties[CompositeOpName := StringValue(op)][EraserModeName := BoolValue(eraser)];
            EffectiveCompositeOp(p) == if eraser then CompositeErase else op
  {
    var p := properties[CompositeOpName := StringValue(op)][EraserModeName := BoolValue(eraser)];
    assert p[CompositeOpName] == StringValue(op);
  }
}
