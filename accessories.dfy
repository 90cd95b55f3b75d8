/**
 * Which characteristic classes each accessory type drives, and the
 * configuration checks of the climate and temperature-sensor accessories.
 */

/** Light bulbs: the configuration's list, when it has one, replaces the capability tests. */
module LightAccessories {
  import opened JsValue
  import opened DeviceApi
  import opened Characteristics
  import opened BaseAccessories

  const Supported := [OnKind, BrightnessKind, ColorTemperatureKind, HueKind, SaturationKind]
  const Required := [OnKind]

  /** The classes a configured `light_characteristics` array selects, in this fixed order. */
  function Configured(items: seq<JsVal>): seq<Kind>
  {
    Pieces(Includes(items, Str("Brightness")), Includes(items, Str("Color")), Includes(items, Str("Color Temperature")))
  }

  function Selected(device: TuyaDevice): seq<Kind>
  {
    match Get(device.config, "light_characteristics")
    case Arr(items) => Configured(items)
    case _ => DeviceSupportedCharacteristics(Supported, Required, device)
  }

  /** Each configured word selects its classes, "Color" both hue and saturation, in a fixed order. */
  lemma ConfiguredSelection(items: seq<JsVal>)
    ensures BrightnessKind in Configured(items) <==> Str("Brightness") in items
    ensures HueKind in Configured(items) <==> Str("Color") in items
    ensures SaturationKind in Configured(items) <==> Str("Color") in items
    ensures ColorTemperatureKind in Configured(items) <==> Str("Color Temperature") in items
    ensures OnKind !in Configured(items)
    ensures Sublist(Configured(items), [BrightnessKind, HueKind, SaturationKind, ColorTemperatureKind])
  {
    var b, c, t := Includes(items, Str("Brightness")), Includes(items, Str("Color")), Includes(items, Str("Color Temperature"));
    PiecesMembers(b, c, t);
    PiecesOrder(b, c, t);
  }

  /** The selection for given answers to the three membership questions. */
  function Pieces(b: bool, c: bool, t: bool): seq<Kind>
  {
    (if b then [BrightnessKind] else []) + (if c then [HueKind, SaturationKind] else [])
    + (if t then [ColorTemperatureKind] else [])
  }

  lemma PiecesMembers(b: bool, c: bool, t: bool)
    ensures var s := Pieces(b, c, t);
      (BrightnessKind in s <==> b) && (HueKind in s <==> c) && (SaturationKind in s <==> c)
      && (ColorTemperatureKind in s <==> t) && OnKind !in s
  {
  }

  lemma PiecesOrder(b: bool, c: bool, t: bool)
    ensures Sublist(Pieces(b, c, t), [BrightnessKind, HueKind, SaturationKind, ColorTemperatureKind])
  {
  }

  /** A configured list ignores what the device reports, and the order and repetition of the words. */
  lemma ConfigIgnoresDevice(d1: TuyaDevice, d2: TuyaDevice, items1: seq<JsVal>, items2: seq<JsVal>)
    requires Get(d1.config, "light_characteristics") == Arr(items1)
    requires Get(d2.config, "light_characteristics") == Arr(items2)
    requires forall w :: w in items1 <==> w in items2
    ensures Selected(d1) == Selected(d2)
  {
  }

  /** A configured selection repeats no class and never holds On. */
  lemma ConfiguredDistinct(items: seq<JsVal>)
    ensures NoDuplicates(Configured(items)) && OnKind !in Configured(items)
  {
    var b := if Includes(items, Str("Brightness")) then [BrightnessKind] else [];
    var c := if Includes(items, Str("Color")) then [HueKind, SaturationKind] else [];
    var t := if Includes(items, Str("Color Temperature")) then [ColorTemperatureKind] else [];
    assert Configured(items) == b + c + t;
    ConcatDistinct(b, c);
    ConcatDistinct(b + c, t);
  }

  /** Either way On comes first and nothing is registered twice. */
  lemma InitialList(device: TuyaDevice)
    ensures var all := InitialCharacteristics(Required, Selected(device));
      all[0] == OnKind && NoDuplicates(all)
  {
    if Get(device.config, "light_characteristics").Arr? {
      var c := Configured(Get(device.config, "light_characteristics").items);
      ConfiguredDistinct(Get(device.config, "light_characteristics").items);
      ConcatDistinct(Required, c);
    } else {
      InitialHasNoDuplicates(Supported, Required, device);
    }
  }
}

/** Fans: Active always, RotationSpeed by configuration or capability. */
module FanAccessories {
  import opened JsValue
  import opened DeviceApi
  import opened Characteristics
  import opened BaseAccessories

  const Supported := [ActiveKind, RotationSpeedKind]
  const Required := [ActiveKind]

  function Selected(device: TuyaDevice): seq<Kind>
  {
    match Get(device.config, "fan_characteristics")
    case Arr(items) => if Includes(items, Str("Speed")) then [RotationSpeedKind] else []
    case _ => DeviceSupportedCharacteristics(Supported, Required, device)
  }

  /** The selection never holds more than RotationSpeed, which a configured "Speed" forces in. */
  lemma SelectionIsSpeedAtMost(device: TuyaDevice)
    ensures forall k :: k in Selected(device) ==> k == RotationSpeedKind
    ensures NoDuplicates(InitialCharacteristics(Required, Selected(device)))
    ensures Get(device.config, "fan_characteristics").Arr? ==>
      (Selected(device) == [RotationSpeedKind] <==> Str("Speed") in Get(device.config, "fan_characteristics").items)
  {
    if !Get(device.config, "fan_characteristics").Arr? {
      InitialHasNoDuplicates(Supported, Required, device);
    }
  }
}

/** Dimmers: any configuration at all switches to the configured list. */
module DimmerAccessories {
  import opened JsValue
  import opened DeviceApi
  import opened Characteristics
  import opened BaseAccessories

  const Supported := [OnKind, BrightnessKind]
  const Required := [OnKind]

  /** `String.prototype.includes`. */
  predicate HasSubstring(s: string, t: string)
    decreases |s|
  {
    |t| <= |s| && (s[..|t|] == t || (s != [] && HasSubstring(s[1..], t)))
  }

  /**
   * `(config.dimmer_characteristics ?? []).includes("Brightness")`: an array
   * tests membership, a string tests for a substring, and any other value
   * has no `includes` to call, so it throws (`None`).
   */
  function ConfiguredBrightness(v: JsVal): Option<bool>
  {
    match v
    case Undef => Some(false)
    case Null => Some(false)
    case Arr(items) => Some(Includes(items, Str("Brightness")))
    case Str(s) => Some(HasSubstring(s, "Brightness"))
    case _ => None
  }

  /** The selection, or `None` where the configuration makes the getter throw. */
  function Selected(device: TuyaDevice): (r: Option<seq<Kind>>)
    ensures !Truthy(device.config) ==> r == Some(DeviceSupportedCharacteristics(Supported, Required, device))
  {
    if Truthy(device.config) then
      match ConfiguredBrightness(Get(device.config, "dimmer_characteristics"))
      case Some(b) => Some(if b then [BrightnessKind] else [])
      case None => None
    else Some(DeviceSupportedCharacteristics(Supported, Required, device))
  }

  /** A configuration with no `dimmer_characteristics` selects nothing, even on a dimmable device. */
  lemma EmptyConfigSelectsNothing(device: TuyaDevice)
    requires device.config.Obj? && "dimmer_characteristics" !in device.config.props
    ensures Selected(device) == Some([])
  {
  }

  /** On the configured path Brightness is selected iff the list holds "Brightness". */
  lemma ConfiguredList(device: TuyaDevice, items: seq<JsVal>)
    requires device.config.Obj? && Get(device.config, "dimmer_characteristics") == Arr(items)
    ensures Selected(device) == Some(if Str("Brightness") in items then [BrightnessKind] else [])
  {
  }

  /** Without configuration, Brightness follows the capability test. */
  lemma UnconfiguredFollowsCapability(device: TuyaDevice)
    requires device.config == Undef
    ensures Selected(device).Some?
    ensures BrightnessKind in Selected(device).value <==> IsSupportedByAccessory(BrightnessKind, device)
    ensures OnKind !in Selected(device).value
  {
  }

  /** A number where the list belongs makes the getter throw. */
  lemma NumberListThrows(device: TuyaDevice, n: real)
    requires device.config.Obj? && Get(device.config, "dimmer_characteristics") == Num(n)
    ensures Selected(device) == None
  {
  }
}

/** Windows: the three position classes always, HoldPosition by configuration or capability. */
module WindowAccessories {
  import opened JsValue
  import opened DeviceApi
  import opened Characteristics
  import opened BaseAccessories

  const Supported := [CurrentPositionKind, HoldPositionKind, PositionStateKind, TargetPositionKind]
  const Required := [CurrentPositionKind, PositionStateKind, TargetPositionKind]

  function Selected(device: TuyaDevice): seq<Kind>
  {
    match Get(device.config, "cover_characteristics")
    case Arr(items) => if Includes(items, Str("Stop")) then [HoldPositionKind] else []
    case _ => DeviceSupportedCharacteristics(Supported, Required, device)
  }

  lemma SelectionIsHoldAtMost(device: TuyaDevice)
    ensures forall k :: k in Selected(device) ==> k == HoldPositionKind
    ensures NoDuplicates(InitialCharacteristics(Required, Selected(device)))
    ensures Get(device.config, "cover_characteristics").Arr? ==>
      (Selected(device) == [HoldPositionKind] <==> Str("Stop") in Get(device.config, "cover_characteristics").items)
    ensures !Get(device.config, "cover_characteristics").Arr? ==>
      (Selected(device) == [HoldPositionKind] <==> IsSupportedByAccessory(HoldPositionKind, device))
  {
    if !Get(device.config, "cover_characteristics").Arr? {
      InitialHasNoDuplicates(Supported, Required, device);
      if IsSupportedByAccessory(HoldPositionKind, device) {
        assert HoldPositionKind in Selected(device);
      }
    }
  }
}

/**
 * The accessories whose classes are all required, so the capability tests
 * never add anything.
 */
module FixedAccessories {
  import opened DeviceApi
  import opened Characteristics
  import opened BaseAccessories

  const CoverClasses := [CurrentPositionKind, PositionStateKind, TargetPositionKind]
  const GarageDoorClasses := [CurrentDoorStateKind, ObstructionDetectedKind, TargetDoorStateKind]
  const SceneClasses := [MomentaryOnKind]
  const OutletClasses := [OnKind]
  const SwitchClasses := [OnKind]
  const ClimateClasses := [CurrentTemperatureKind, TargetTemperatureKind, CurrentHeatingCoolingStateKind,
                           TargetHeatingCoolingStateKind, TemperatureDisplayUnitsKind]
  const TemperatureSensorClasses := [CurrentTemperatureKind]

  /** With the same list as supported and required, the device-dependent part is empty. */
  lemma AllRequiredSelectsNothing(classes: seq<Kind>, device: TuyaDevice)
    ensures DeviceSupportedCharacteristics(classes, classes, device) == []
    ensures InitialCharacteristics(classes, DeviceSupportedCharacteristics(classes, classes, device)) == classes
  {
    var notRequired := (k: Kind) => k !in classes;
    var canDrive := (k: Kind) => IsSupportedByAccessory(k, device);
    assert DeviceSupportedCharacteristics(classes, classes, device) == Filter(Filter(classes, notRequired), canDrive);
    FilterNone(classes, notRequired);
  }

  lemma FixedListsAreDistinct()
    ensures NoDuplicates(CoverClasses) && NoDuplicates(GarageDoorClasses) && NoDuplicates(SceneClasses)
    ensures NoDuplicates(OutletClasses) && NoDuplicates(SwitchClasses)
    ensures NoDuplicates(ClimateClasses) && NoDuplicates(TemperatureSensorClasses)
  {
  }
}

/** The checks and factors that climate and temperature-sensor configuration goes through. */
module TemperatureConfig {
  import opened JsValue

  /** `!Number(v)`: 0 and NaN are not usable values. */
  predicate Unusable(v: JsVal)
  {
    ToNumber(v).None? || ToNumber(v).value == 0.0
  }

  /** `Math.round(x * 2) / 2`: the nearest multiple of one half. */
  function HalfStep(x: real): (r: real)
    ensures x - 0.25 < r <= x + 0.25
    ensures (r * 2.0).Floor as real == r * 2.0
  {
    var k := JsRound(x * 2.0);
    assert (k as real / 2.0) * 2.0 == k as real;
    assert (k as real).Floor == k;
    k as real / 2.0
  }

  /** `config.key` on the configuration object; `config?.key` on a missing one is `undefined`. */
  function Setting(config: JsVal, key: string): JsVal
  {
    Get(config, key)
  }

  /** `config.key = v` on the configuration object. */
  function WithSetting(config: JsVal, key: string, v: JsVal): (r: JsVal)
    ensures config.Obj? ==> r == Obj(config.props[key := v])
    ensures !config.Obj? ==> r == config
  {
    match config
    case Obj(p) => Obj(p[key := v])
    case _ => config
  }

  /** The factor getters: `Number(config.key)` when truthy, else 1. `None` is NaN. */
  function TemperatureFactor(config: JsVal, key: string): (f: Option<real>)
    ensures !Truthy(Setting(config, key)) ==> f == Some(1.0)
    ensures Truthy(Setting(config, key)) ==> f == ToNumber(Setting(config, key))
  {
    if Truthy(Setting(config, key)) then ToNumber(Setting(config, key)) else Some(1.0)
  }

  function WrongValue(key: string): string
  {
    "Wrong value configured for `" + key + "`, should be a number"
  }

  const MinLargerThanMax := "The minimum temperature is larger then the maximum temperature"

  /** A truthy value that is 0 or NaN as a number: the check reports it. */
  predicate HasParseError(config: JsVal, key: string)
  {
    Truthy(Setting(config, key)) && Unusable(Setting(config, key))
  }

  /**
   * The configuration after one numeric check: a truthy usable value is
   * replaced by its number (to the half step when `halfSteps`); anything
   * else is left as it was.
   */
  function Checked(config: JsVal, key: string, halfSteps: bool): JsVal
  {
    var v := Setting(config, key);
    if Truthy(v) && !Unusable(v) then
      WithSetting(config, key, Num(if halfSteps then HalfStep(ToNumber(v).value) else ToNumber(v).value))
    else config
  }

  /** The message one check adds to the list, if any. */
  function ErrorOf(config: JsVal, key: string): seq<string>
  {
    if HasParseError(config, key) then [WrongValue(key)] else []
  }

  /** One numeric check: a truthy unusable value is pushed as an error, a usable one is rewritten as a number. */
  method CheckSetting(errors: seq<string>, config: JsVal, key: string, halfSteps: bool) returns (pushed: seq<string>, result: JsVal)
    ensures HasParseError(config, key) ==> pushed == errors + [WrongValue(key)]
    ensures !HasParseError(config, key) ==> pushed == errors
    ensures result == Checked(config, key, halfSteps)
  {
    pushed := errors;
    result := config;
    var v := Setting(config, key);
    if Truthy(v) {
      var n := ToNumber(v);
      if n.None? || n.value == 0.0 {
        pushed := pushed + [WrongValue(key)];
      } else {
        result := WithSetting(config, key, Num(if halfSteps then HalfStep(n.value) else n.value));
      }
    }
  }

  /** After its check a usable setting of an object configuration reads back as a non-zero number. */
  lemma CheckedReadsBack(config: JsVal, key: string, halfSteps: bool)
    requires config.Obj? && Truthy(Setting(config, key)) && !Unusable(Setting(config, key))
    ensures var n := ToNumber(Setting(config, key)).value;
      Setting(Checked(config, key, halfSteps), key) == Num(if halfSteps then HalfStep(n) else n)
  {
  }

  /** What a check makes of one setting's value. */
  function CheckedValue(v: JsVal, halfSteps: bool): JsVal
  {
    if Truthy(v) && !Unusable(v) then Num(if halfSteps then HalfStep(ToNumber(v).value) else ToNumber(v).value)
    else v
  }

  /** A check's effect on its own setting depends on that setting's value alone. */
  lemma CheckedOwnSetting(config: JsVal, key: string, halfSteps: bool)
    ensures Setting(Checked(config, key, halfSteps), key) == CheckedValue(Setting(config, key), halfSteps)
  {
  }

  /** A check leaves every other setting as it was. */
  lemma CheckedKeepsOthers(config: JsVal, key: string, halfSteps: bool, other: string)
    requires key != other
    ensures Setting(Checked(config, key, halfSteps), other) == Setting(config, other)
    ensures ErrorOf(Checked(config, key, halfSteps), other) == ErrorOf(config, other)
  {
  }

}

/** `ClimateAccessory.validateConfigOverwrites` and its temperature factors. */
module ClimateAccessories {
  import opened JsValue
  import opened DeviceApi
  import opened TemperatureConfig
  import TargetTemperatureCharacteristic

  /** The parse errors, in the order the settings are checked. */
  function ParseErrors(config: JsVal): seq<string>
  {
    ErrorOf(config, "min_temper") + ErrorOf(config, "max_temper")
    + ErrorOf(config, "target_temperature_factor") + ErrorOf(config, "current_temperature_factor")
  }

  /** The configuration after the four checks, in their order. */
  function Rewritten(config: JsVal): JsVal
  {
    var r1 := Checked(config, "min_temper", true);
    var r2 := Checked(r1, "max_temper", true);
    var r3 := Checked(r2, "target_temperature_factor", false);
    Checked(r3, "current_temperature_factor", false)
  }

  /** `min_temper >= max_temper` on the rewritten configuration, with both truthy. */
  predicate BoundsInverted(result: JsVal)
  {
    var lo := Setting(result, "min_temper");
    var hi := Setting(result, "max_temper");
    Truthy(lo) && Truthy(hi) && lo.Num? && hi.Num? && lo.n >= hi.n
  }

  /** The four checks in order, then, only when all passed, the ordering check. */
  method ValidateConfigOverwrites(config: JsVal) returns (errors: seq<string>, result: JsVal)
    ensures result == Rewritten(config)
    ensures errors == ParseErrors(config) + (if ParseErrors(config) == [] && BoundsInverted(result) then [MinLargerThanMax] else [])
  {
    var r1, r2, r3: JsVal;
    ChecksKeepLaterErrors(config);
    errors, r1 := CheckSetting([], config, "min_temper", true);
    assert errors == ErrorOf(config, "min_temper");
    errors, r2 := CheckSetting(errors, r1, "max_temper", true);
    assert errors == ErrorOf(config, "min_temper") + ErrorOf(config, "max_temper");
    errors, r3 := CheckSetting(errors, r2, "target_temperature_factor", false);
    assert errors == ErrorOf(config, "min_temper") + ErrorOf(config, "max_temper")
                     + ErrorOf(config, "target_temperature_factor");
    errors, result := CheckSetting(errors, r3, "current_temperature_factor", false);
    assert errors == ParseErrors(config);
    if |errors| > 0 {
      return;
    }
    if BoundsInverted(result) {
      errors := errors + [MinLargerThanMax];
    }
  }

  /** Each check leaves the parse error of every later setting as it was in the input. */
  lemma ChecksKeepLaterErrors(config: JsVal)
    ensures var r1 := Checked(config, "min_temper", true);
      var r2 := Checked(r1, "max_temper", true);
      var r3 := Checked(r2, "target_temperature_factor", false);
      && ErrorOf(r1, "max_temper") == ErrorOf(config, "max_temper")
      && ErrorOf(r2, "target_temperature_factor") == ErrorOf(config, "target_temperature_factor")
      && ErrorOf(r3, "current_temperature_factor") == ErrorOf(config, "current_temperature_factor")
  {
    KeysDistinct();
    var r1 := Checked(config, "min_temper", true);
    var r2 := Checked(r1, "max_temper", true);
    CheckedKeepsOthers(config, "min_temper", true, "max_temper");
    CheckedKeepsOthers(config, "min_temper", true, "target_temperature_factor");
    CheckedKeepsOthers(config, "min_temper", true, "current_temperature_factor");
    CheckedKeepsOthers(r1, "max_temper", true, "target_temperature_factor");
    CheckedKeepsOthers(r1, "max_temper", true, "current_temperature_factor");
    CheckedKeepsOthers(r2, "target_temperature_factor", false, "current_temperature_factor");
  }

  /** The four setting names are distinct. */
  lemma KeysDistinct()
    ensures "min_temper" != "max_temper"
    ensures "min_temper" != "target_temperature_factor" && "min_temper" != "current_temperature_factor"
    ensures "max_temper" != "target_temperature_factor" && "max_temper" != "current_temperature_factor"
    ensures "target_temperature_factor" != "current_temperature_factor"
  {
    assert "min_temper"[1] != "max_temper"[1];
    assert |"min_temper"| == 10 && |"target_temperature_factor"| == 25 && |"current_temperature_factor"| == 26;
  }

  /** Each setting ends up as its own check left it: later checks touch other keys only. */
  lemma RewrittenSettings(config: JsVal)
    ensures Setting(Rewritten(config), "min_temper") == Setting(Checked(config, "min_temper", true), "min_temper")
    ensures Setting(Rewritten(config), "max_temper") == Setting(Checked(config, "max_temper", true), "max_temper")
    ensures Setting(Rewritten(config), "target_temperature_factor")
            == Setting(Checked(config, "target_temperature_factor", false), "target_temperature_factor")
    ensures Setting(Rewritten(config), "current_temperature_factor")
            == Setting(Checked(config, "current_temperature_factor", false), "current_temperature_factor")
  {
    KeysDistinct();
    var r1 := Checked(config, "min_temper", true);
    var r2 := Checked(r1, "max_temper", true);
    var r3 := Checked(r2, "target_temperature_factor", false);
    CheckedKeepsOthers(config, "min_temper", true, "max_temper");
    CheckedKeepsOthers(config, "min_temper", true, "target_temperature_factor");
    CheckedKeepsOthers(config, "min_temper", true, "current_temperature_factor");
    CheckedKeepsOthers(r1, "max_temper", true, "target_temperature_factor");
    CheckedKeepsOthers(r1, "max_temper", true, "current_temperature_factor");
    CheckedKeepsOthers(r2, "target_temperature_factor", false, "current_temperature_factor");
    CheckedKeepsOthers(r1, "max_temper", true, "min_temper");
    CheckedKeepsOthers(r2, "target_temperature_factor", false, "min_temper");
    CheckedKeepsOthers(r3, "current_temperature_factor", false, "min_temper");
    CheckedKeepsOthers(r2, "target_temperature_factor", false, "max_temper");
    CheckedKeepsOthers(r3, "current_temperature_factor", false, "max_temper");
    CheckedKeepsOthers(r3, "current_temperature_factor", false, "target_temperature_factor");
    CheckedOwnSetting(config, "max_temper", true);
    CheckedOwnSetting(r1, "max_temper", true);
    CheckedOwnSetting(config, "target_temperature_factor", false);
    CheckedOwnSetting(r2, "target_temperature_factor", false);
    CheckedOwnSetting(config, "current_temperature_factor", false);
    CheckedOwnSetting(r3, "current_temperature_factor", false);
  }

  /** The error list names exactly the settings that failed to parse, each once. */
  lemma ParseErrorsExactly(config: JsVal)
    ensures WrongValue("min_temper") in ParseErrors(config) <==> HasParseError(config, "min_temper")
    ensures WrongValue("max_temper") in ParseErrors(config) <==> HasParseError(config, "max_temper")
    ensures WrongValue("target_temperature_factor") in ParseErrors(config)
            <==> HasParseError(config, "target_temperature_factor")
    ensures WrongValue("current_temperature_factor") in ParseErrors(config)
            <==> HasParseError(config, "current_temperature_factor")
    ensures MinLargerThanMax !in ParseErrors(config)
  {
    MessagesDistinct();
  }

  lemma MessagesDistinct()
    ensures WrongValue("min_temper") != WrongValue("max_temper")
    ensures |WrongValue("min_temper")| == |WrongValue("max_temper")| == 59
    ensures |WrongValue("target_temperature_factor")| == 74 && |WrongValue("current_temperature_factor")| == 75
    ensures |MinLargerThanMax| == 62
  {
    assert WrongValue("min_temper")[29] == 'i';
    assert WrongValue("max_temper")[29] == 'a';
  }

  /** A parse error suppresses the ordering check, however the bounds compare. */
  lemma ParseErrorSkipsOrdering(config: JsVal, errors: seq<string>, result: JsVal)
    requires errors == ParseErrors(config) + (if ParseErrors(config) == [] && BoundsInverted(result) then [MinLargerThanMax] else [])
    requires HasParseError(config, "target_temperature_factor")
    ensures MinLargerThanMax !in errors
  {
    ParseErrorsExactly(config);
  }

  /**
   * With no parse error and both bounds set, the ordering check compares the
   * rounded bounds, and a bound that rounds to 0 turns the check off.
   */
  lemma OrderingOnHalfSteps(config: JsVal)
    requires config.Obj? && ParseErrors(config) == []
    requires Truthy(Setting(config, "min_temper")) && Truthy(Setting(config, "max_temper"))
    ensures var lo := HalfStep(ToNumber(Setting(config, "min_temper")).value);
      var hi := HalfStep(ToNumber(Setting(config, "max_temper")).value);
      BoundsInverted(Rewritten(config)) <==> lo != 0.0 && hi != 0.0 && lo >= hi
  {
    assert |ParseErrors(config)| == 0;
    assert !HasParseError(config, "min_temper") && !HasParseError(config, "max_temper");
    RewrittenSettings(config);
    CheckedReadsBack(config, "min_temper", true);
    CheckedReadsBack(config, "max_temper", true);
  }

  /**
   * The constructor validates the configuration in place before the
   * characteristics read it, so `TargetTemperature`'s bounds come from the
   * rewritten settings: a usable configured bound is its half step, a bound
   * whose half step is 0 is falsy and gives way to the device's own value, and
   * any other setting reads as it did before the rewrite.
   */
  lemma RewrittenTargetProps(device: TuyaDevice, factor: Option<real>)
    ensures var after := device.(config := Rewritten(device.config));
      var props := TargetTemperatureCharacteristic.TargetProps(after, factor);
      && BoundAfterCheck(device, "min_temper", factor, 0.0, props.minValue)
      && BoundAfterCheck(device, "max_temper", factor, 100.0, props.maxValue)
      && props.minStep == 0.5
  {
    var after := device.(config := Rewritten(device.config));
    RewrittenSettings(device.config);
    CheckedOwnSetting(device.config, "min_temper", true);
    CheckedOwnSetting(device.config, "max_temper", true);
    CheckedBound(device, after.config, "min_temper", factor, 0.0);
    CheckedBound(device, after.config, "max_temper", factor, 100.0);
  }

  /** How a bound read after the half-step check relates to the configured value `Setting(device.config, key)`. */
  predicate BoundAfterCheck(device: TuyaDevice, key: string, factor: Option<real>, default: real, b: Option<real>)
  {
    var v := Setting(device.config, key);
    var unconfigured := device.(config := Obj(map[]));
    && (Truthy(v) && !Unusable(v) && HalfStep(ToNumber(v).value) != 0.0 ==> b == Some(HalfStep(ToNumber(v).value)))
    && (Truthy(v) && !Unusable(v) && HalfStep(ToNumber(v).value) == 0.0
        ==> b == TargetTemperatureCharacteristic.Bound(unconfigured, key, factor, default))
    && (!(Truthy(v) && !Unusable(v)) ==> b == TargetTemperatureCharacteristic.Bound(device, key, factor, default))
  }

  lemma CheckedBound(device: TuyaDevice, config: JsVal, key: string, factor: Option<real>, default: real)
    requires Setting(config, key) == CheckedValue(Setting(device.config, key), true)
    ensures BoundAfterCheck(device, key, factor, default,
                            TargetTemperatureCharacteristic.Bound(device.(config := config), key, factor, default))
  {
  }

  /** Bounds of 25 and 20 are reported as inverted; a bound rounded to 0 turns the check off. */
  lemma OrderingExamples()
    ensures BoundsInverted(Obj(map["min_temper" := Num(25.0), "max_temper" := Num(20.0)]))
    ensures !BoundsInverted(Obj(map["min_temper" := Num(0.0), "max_temper" := Num(-5.0)]))
  {
  }

  function TargetTemperatureFactor(config: JsVal): Option<real>
  {
    TemperatureFactor(config, "target_temperature_factor")
  }

  function CurrentTemperatureFactor(config: JsVal): Option<real>
  {
    TemperatureFactor(config, "current_temperature_factor")
  }

  /** Where the check found no error, both factors are usable non-zero numbers. */
  lemma CheckedFactorsAreUsable(config: JsVal)
    requires !HasParseError(config, "target_temperature_factor") && !HasParseError(config, "current_temperature_factor")
    ensures TargetTemperatureFactor(config).Some? && TargetTemperatureFactor(config).value != 0.0
    ensures CurrentTemperatureFactor(config).Some? && CurrentTemperatureFactor(config).value != 0.0
  {
  }

  /** A "20.3" minimum is rounded to the half step 20.5. */
  lemma HalfStepExample()
    ensures HalfStep(20.3) == 20.5 && HalfStep(20.2) == 20.0
  {
  }
}

/** `TemperatureSensorAccessory.validateConfigOverwrites` and its factor. */
module TemperatureSensorAccessories {
  import opened JsValue
  import opened TemperatureConfig

  /** The one numeric check, on `current_temperature_factor`. */
  method ValidateConfigOverwrites(config: JsVal) returns (errors: seq<string>, result: JsVal)
    ensures errors == (if HasParseError(config, "current_temperature_factor")
                       then [WrongValue("current_temperature_factor")] else [])
    ensures result == Checked(config, "current_temperature_factor", false)
  {
    errors, result := CheckSetting([], config, "current_temperature_factor", false);
  }

  function CurrentTemperatureFactor(config: JsVal): Option<real>
  {
    TemperatureFactor(config, "current_temperature_factor")
  }

  /** A missing configuration gives no errors and the factor 1. */
  lemma NoConfig()
    ensures CurrentTemperatureFactor(Undef) == Some(1.0)
    ensures !HasParseError(Undef, "current_temperature_factor")
  {
  }

  /** After the check the getter reads the same number as before it, and that number is not 0. */
  lemma CheckedFactorReadsBack(config: JsVal)
    requires config.Obj? && !HasParseError(config, "current_temperature_factor")
    ensures CurrentTemperatureFactor(Checked(config, "current_temperature_factor", false))
            == CurrentTemperatureFactor(config)
    ensures CurrentTemperatureFactor(config).Some? && CurrentTemperatureFactor(config).value != 0.0
  {
    var v := Setting(config, "current_temperature_factor");
    if Truthy(v) {
      CheckedReadsBack(config, "current_temperature_factor", false);
    }
  }
}
