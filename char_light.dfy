/** `Brightness` of a light or dimmer, mapped between a Tuya range and HomeKit's percentage. */
module BrightnessCharacteristic {
  import opened JsValue
  import opened Errors
  import opened DeviceApi
  import opened MapRanges

  const DefaultValue: real := 100.0

  /** The fixed prefix of the error for a reading that maps to 0 or NaN. */
  const ParseFailure := "Tried to set brightness but failed to parse data."

  predicate IsSupportedByAccessory(device: TuyaDevice)
  {
    Field(device.data, "brightness") != Undef || Get(Field(device.data, "color"), "brightness") != Undef
  }

  /**
   * Brightness lives in the colour object when the discovered `color_mode` is
   * a property name of `COLOR_MODES` ("0", "1" or "length"; not "color")
   * and the colour object has a brightness.
   */
  predicate UsesColorBrightness(device: TuyaDevice)
  {
    var mode := Field(device.data, "color_mode");
    mode != Undef && InArray(mode, ColorModes) && Get(Field(device.data, "color"), "brightness") != Undef
  }

  /**
   * The Tuya range: the configured bounds when both are given (`None` when
   * either is NaN), else [1, 255] for colour brightness, else [10, 100];
   * HomeKit's side is always [0, 100].
   */
  function RangeMapper(device: TuyaDevice): (m: Option<MapRange>)
    ensures m.Some? ==> m.value.homekitStart == 0.0 && m.value.homekitEnd == 100.0
    ensures var lo := Get(device.config, "min_brightness"); var hi := Get(device.config, "max_brightness");
      lo != Undef && hi != Undef ==>
        (m.Some? <==> ToNumber(lo).Some? && ToNumber(hi).Some?)
        && (m.Some? ==> m.value.tuyaStart == ToNumber(lo).value && m.value.tuyaEnd == ToNumber(hi).value)
    ensures var lo := Get(device.config, "min_brightness"); var hi := Get(device.config, "max_brightness");
      !(lo != Undef && hi != Undef) ==>
        m.Some? && m.value.tuyaStart == (if UsesColorBrightness(device) then 1.0 else 10.0)
        && m.value.tuyaEnd == (if UsesColorBrightness(device) then 255.0 else 100.0)
  {
    var lo := Get(device.config, "min_brightness");
    var hi := Get(device.config, "max_brightness");
    if lo != Undef && hi != Undef then
      match (ToNumber(lo), ToNumber(hi))
      case (Some(a), Some(b)) => Some(Tuya(a, b).HomeKit(0.0, 100.0))
      case _ => None
    else if UsesColorBrightness(device) then Some(Tuya(1.0, 255.0).HomeKit(0.0, 100.0))
    else Some(Tuya(10.0, 100.0).HomeKit(0.0, 100.0))
  }

  /** `rangeMapper.homekitToTuya(Number(h))`, unrounded. */
  function TuyaValue(device: TuyaDevice, homekitValue: JsVal): Option<real>
  {
    match (RangeMapper(device), ToNumber(homekitValue))
    case (Some(m), Some(x)) => m.ToTuya(x)
    case _ => None
  }

  /** `rangeMapper.tuyaToHomekit(Number(raw))`. */
  function HomekitValue(device: TuyaDevice, raw: JsVal): Option<real>
  {
    match (RangeMapper(device), ToNumber(raw))
    case (Some(m), Some(x)) => m.ToHomekit(x)
    case _ => None
  }

  /** A write sends `brightnessSet`; the cache gets the value as a string inside `color`, or as `brightness`. */
  function SetRemoteValue(device: TuyaDevice, homekitValue: JsVal): (c: Command)
    ensures c.api == BrightnessSet && c.payload == map["value" := JsNum(TuyaValue(device, homekitValue))]
    ensures UsesColorBrightness(device)
            ==> c.fragment == map["color" := Obj(map["brightness" := Str(ToStr(JsNum(TuyaValue(device, homekitValue))))])]
    ensures !UsesColorBrightness(device) ==> c.fragment == map["brightness" := JsNum(TuyaValue(device, homekitValue))]
  {
    var v := JsNum(TuyaValue(device, homekitValue));
    Command(BrightnessSet, map["value" := v],
            if UsesColorBrightness(device) then map["color" := Obj(map["brightness" := Str(ToStr(v))])]
            else map["brightness" := v])
  }

  /** The raw Tuya brightness of a state bag, from where the device keeps it. */
  function RawBrightness(device: TuyaDevice, data: DeviceState): JsVal
  {
    if UsesColorBrightness(device) then Get(Field(data, "color"), "brightness") else Field(data, "brightness")
  }

  /** The mapped value, out of [0, 100] or not; a mapped 0 or NaN is an error. */
  function UpdateValue(device: TuyaDevice, data: DeviceState): (r: Report<real>)
    ensures r.Reported? || r == Failed(OtherError(ParseFailure))
    ensures r.Reported? <==> HomekitValue(device, RawBrightness(device, data)).Some?
                             && HomekitValue(device, RawBrightness(device, data)).value != 0.0
    ensures r.Reported? ==> r.value == HomekitValue(device, RawBrightness(device, data)).value
  {
    var h := HomekitValue(device, RawBrightness(device, data));
    if h.Some? && h.value != 0.0 then Reported(h.value) else Failed(OtherError(ParseFailure))
  }

  function GetRemoteValue(device: TuyaDevice, o: Outcome): Report<real>
  {
    Read(o, d => UpdateValue(device, d))
  }

  /** "color" and "colour" are values of `COLOR_MODES`, not property names, so they never select colour brightness. */
  lemma ColorWordsUseBrightnessKey(device: TuyaDevice)
    requires Field(device.data, "color_mode") == Str("color") || Field(device.data, "color_mode") == Str("colour")
    ensures !UsesColorBrightness(device)
  {
    ColorWordsAreNotArrayNames(ColorModes);
  }

  /** With no configured range, a plain dimmer maps Tuya 10..100 onto 0..100. */
  lemma DefaultRange(device: TuyaDevice)
    requires Get(device.config, "min_brightness") == Undef
    requires !UsesColorBrightness(device)
    ensures RangeMapper(device) == Some(MapRange(10.0, 100.0, 0.0, 100.0))
  {
  }

  /** The bottom of the Tuya range maps to 0, which is reported as an error rather than as off. */
  lemma RangeStartIsError(device: TuyaDevice, data: DeviceState)
    requires RangeMapper(device).Some? && RangeMapper(device).value.tuyaStart != RangeMapper(device).value.tuyaEnd
    requires ToNumber(RawBrightness(device, data)) == Some(RangeMapper(device).value.tuyaStart)
    ensures UpdateValue(device, data).Failed?
  {
    var m := RangeMapper(device).value;
    StartMapsToZero(m);
    var h := HomekitValue(device, RawBrightness(device, data));
    assert h == m.ToHomekit(m.tuyaStart);
  }

  lemma StartMapsToZero(m: MapRange)
    requires m.homekitStart == 0.0 && m.tuyaStart != m.tuyaEnd
    ensures m.ToHomekit(m.tuyaStart) == Some(0.0)
  {
    TuyaEndpoints(m);
  }

  /** A reading above the Tuya range is reported above 100, not clamped. */
  lemma OutOfRangeIsReported(device: TuyaDevice, data: DeviceState)
    requires Get(device.config, "min_brightness") == Undef && !UsesColorBrightness(device)
    requires Field(data, "brightness") == Num(200.0)
    ensures UpdateValue(device, data).Reported? && UpdateValue(device, data).value > 100.0
  {
    var m := MapRange(10.0, 100.0, 0.0, 100.0);
    assert RangeMapper(device) == Some(m);
    assert RawBrightness(device, data) == Num(200.0);
    assert m.TuyaToHomekit(200.0) == 19000.0 / 90.0;
    var h := HomekitValue(device, Num(200.0));
    assert h == m.ToHomekit(200.0);
    assert h.Some? && h.value > 100.0;
  }

  /**
   * On a device that keeps `brightness` at the top level and has a proper
   * range, a write's fragment reads back as the written value (0 excepted,
   * which reads as an error).
   */
  lemma WriteThenRead(device: TuyaDevice, cached: DeviceState, homekitValue: JsVal)
    requires !UsesColorBrightness(device)
    requires RangeMapper(device).Some? && RangeMapper(device).value.tuyaStart != RangeMapper(device).value.tuyaEnd
    requires ToNumber(homekitValue).Some? && ToNumber(homekitValue).value != 0.0
    ensures UpdateValue(device, cached + SetRemoteValue(device, homekitValue).fragment)
            == Reported(ToNumber(homekitValue).value)
  {
    var m := RangeMapper(device).value;
    var y := ToNumber(homekitValue).value;
    HomekitRoundTrip(m, y);
    var d := cached + SetRemoteValue(device, homekitValue).fragment;
    assert RawBrightness(device, d) == Num(m.HomekitToTuya(y));
    var h := HomekitValue(device, Num(m.HomekitToTuya(y)));
    assert h.Some? && h.value == y;
  }
}

/** `Hue` of a colour light. A write is delegated to the colour accessory. */
module HueCharacteristic {
  import opened JsValue
  import opened DeviceApi

  const DefaultValue: real := 0.0

  predicate IsSupportedByAccessory(device: TuyaDevice)
  {
    Field(device.data, "color_mode") != Undef
  }

  /** The colour component is read only when `color_mode` is a property name of `COLOR_MODES`. */
  predicate ReadsColor(data: DeviceState, component: string)
  {
    var mode := Field(data, "color_mode");
    mode != Undef && InArray(mode, ColorModes) && Truthy(Get(Field(data, "color"), component))
  }

  /** `Number(color.hue)` (possibly NaN, `None`) when the colour is read, else the default 0; never an error. */
  function UpdateValue(data: DeviceState): (r: Report<Option<real>>)
    ensures r.Reported?
    ensures ReadsColor(data, "hue") ==> r.value == ToNumber(Get(Field(data, "color"), "hue"))
    ensures !ReadsColor(data, "hue") ==> r.value == Some(DefaultValue)
  {
    if ReadsColor(data, "hue") then Reported(ToNumber(Get(Field(data, "color"), "hue")))
    else Reported(Some(DefaultValue))
  }

  function GetRemoteValue(o: Outcome): Report<Option<real>>
  {
    Read(o, UpdateValue)
  }

  /** The colour-mode words themselves never select the colour, so such a light always reads hue 0. */
  lemma ColorModeWordsReadDefault(data: DeviceState)
    requires Field(data, "color_mode") == Str("color") || Field(data, "color_mode") == Str("colour")
    ensures UpdateValue(data) == Reported(Some(0.0))
  {
    ColorWordsAreNotArrayNames(ColorModes);
  }

  /** With `color_mode` "0" or "1" a truthy hue is read through `Number`. */
  lemma IndexModesReadHue(data: DeviceState, hue: string)
    requires Field(data, "color_mode") == Str("0") || Field(data, "color_mode") == Str("1")
    requires hue != "" && Get(Field(data, "color"), "hue") == Str(hue)
    ensures UpdateValue(data) == Reported(ParseNumber(hue))
  {
    assert DigitsValue("0") == 0 && DigitsValue("1") == 1;
  }

  /** The evidently intended test: `COLOR_MODES.includes(color_mode)`, membership among the words. */
  predicate IntendedReadsColor(data: DeviceState, component: string)
  {
    var mode := Field(data, "color_mode");
    mode != Undef && Includes(ColorModes, mode) && Truthy(Get(Field(data, "color"), component))
  }

  /** `UpdateValue` with the membership test: a light in colour mode reads its hue. */
  function IntendedUpdateValue(data: DeviceState): (r: Report<Option<real>>)
    ensures r.Reported?
    ensures IntendedReadsColor(data, "hue") ==> r.value == ToNumber(Get(Field(data, "color"), "hue"))
    ensures !IntendedReadsColor(data, "hue") ==> r.value == Some(DefaultValue)
  {
    if IntendedReadsColor(data, "hue") then Reported(ToNumber(Get(Field(data, "color"), "hue")))
    else Reported(Some(DefaultValue))
  }
}

/** `Saturation` of a colour light; it mirrors `Hue` on the `saturation` component. */
module SaturationCharacteristic {
  import opened JsValue
  import opened DeviceApi
  import HueCharacteristic

  const DefaultValue: real := 0.0

  predicate IsSupportedByAccessory(device: TuyaDevice)
  {
    Field(device.data, "color_mode") != Undef
  }

  function UpdateValue(data: DeviceState): (r: Report<Option<real>>)
    ensures r.Reported?
    ensures HueCharacteristic.ReadsColor(data, "saturation") ==> r.value == ToNumber(Get(Field(data, "color"), "saturation"))
    ensures !HueCharacteristic.ReadsColor(data, "saturation") ==> r.value == Some(DefaultValue)
  {
    if HueCharacteristic.ReadsColor(data, "saturation") then Reported(ToNumber(Get(Field(data, "color"), "saturation")))
    else Reported(Some(DefaultValue))
  }

  lemma ColorModeWordsReadDefault(data: DeviceState)
    requires Field(data, "color_mode") == Str("color") || Field(data, "color_mode") == Str("colour")
    ensures UpdateValue(data) == Reported(Some(0.0))
  {
    ColorWordsAreNotArrayNames(ColorModes);
  }

  /** `UpdateValue` with the membership test of `HueCharacteristic.IntendedReadsColor`. */
  function IntendedUpdateValue(data: DeviceState): (r: Report<Option<real>>)
    ensures r.Reported?
    ensures HueCharacteristic.IntendedReadsColor(data, "saturation")
            ==> r.value == ToNumber(Get(Field(data, "color"), "saturation"))
    ensures !HueCharacteristic.IntendedReadsColor(data, "saturation") ==> r.value == Some(DefaultValue)
  {
    if HueCharacteristic.IntendedReadsColor(data, "saturation") then Reported(ToNumber(Get(Field(data, "color"), "saturation")))
    else Reported(Some(DefaultValue))
  }
}

/** `ColorTemperature` of a white-tunable light: Tuya Kelvin against HomeKit mired, inverted. */
module ColorTemperatureCharacteristic {
  import opened JsValue
  import opened Errors
  import opened DeviceApi
  import opened MapRanges

  const MissingColorTemp := "Could not find required property 'color_temp'"

  /** The fixed prefix of the error for a HomeKit value that is not a number. */
  const UnexpectedValue := "Received unexpected temperature value"

  predicate IsSupportedByAccessory(device: TuyaDevice)
  {
    Field(device.data, "color_temp") != Undef
  }

  /** `Number(min_kelvin) || 1000000 / 500`. */
  function MinKelvin(device: TuyaDevice): (k: real)
    ensures k != 0.0
  {
    NumberOr(Get(device.config, "min_kelvin"), 1000000.0 / 500.0)
  }

  /** `Number(max_kelvin) || 1000000 / 140`. */
  function MaxKelvin(device: TuyaDevice): (k: real)
    ensures k != 0.0
  {
    NumberOr(Get(device.config, "max_kelvin"), 1000000.0 / 140.0)
  }

  function MinHomekit(device: TuyaDevice): real { 1000000.0 / MaxKelvin(device) }

  function MaxHomekit(device: TuyaDevice): real { 1000000.0 / MinKelvin(device) }

  /** The Tuya interval runs from the warmest end down: maxKelvin to minKelvin onto minHomekit to maxHomekit. */
  function RangeMapper(device: TuyaDevice): MapRange
  {
    Tuya(MaxKelvin(device), MinKelvin(device)).HomeKit(MinHomekit(device), MaxHomekit(device))
  }

  /** The HomeKit properties: integer mired between the two bounds. */
  datatype Props = Props(minValue: real, maxValue: real)

  function ColorTemperatureProps(device: TuyaDevice): Props
  {
    Props(MinHomekit(device), MaxHomekit(device))
  }

  /** A write is refused before any device call, or sends one command. */
  datatype WriteOutcome = Send(command: Command) | Refuse(error: Error)

  /** `Math.round(rangeMapper.homekitToTuya(h))`; NaN stays NaN. */
  function TuyaValue(device: TuyaDevice, h: Option<real>): Option<real>
  {
    match h
    case None => None
    case Some(x) =>
      match RangeMapper(device).ToTuya(x)
      case None => None
      case Some(t) => Some(JsRound(t) as real)
  }

  /** A non-number is refused; a number sends `colorTemperatureSet` and caches the same value as `color_temp`. */
  function SetRemoteValue(device: TuyaDevice, homekitValue: JsVal): (w: WriteOutcome)
    ensures w.Refuse? <==> !homekitValue.Num? && !homekitValue.NaN?
    ensures w.Refuse? ==> w.error == OtherError(UnexpectedValue)
    ensures w.Send? ==> w.command.api == ColorTemperatureSet
                        && w.command.payload.Keys == {"value"} && w.command.fragment.Keys == {"color_temp"}
                        && w.command.payload["value"] == w.command.fragment["color_temp"]
                        && w.command.payload["value"] == JsNum(TuyaValue(device, ToNumber(homekitValue)))
  {
    match homekitValue
    case Num(x) =>
      var v := JsNum(TuyaValue(device, Some(x)));
      Send(Command(ColorTemperatureSet, map["value" := v], map["color_temp" := v]))
    case NaN =>
      var v := JsNum(TuyaValue(device, None));
      Send(Command(ColorTemperatureSet, map["value" := v], map["color_temp" := v]))
    case _ => Refuse(OtherError(UnexpectedValue))
  }

  /** `Math.round(rangeMapper.tuyaToHomekit(Number(color_temp)))`, unclamped; `None` is NaN. */
  function HomekitValue(device: TuyaDevice, raw: JsVal): Option<int>
  {
    match ToNumber(raw)
    case None => None
    case Some(x) =>
      match RangeMapper(device).ToHomekit(x)
      case None => None
      case Some(y) => Some(JsRound(y))
  }

  function UpdateValue(device: TuyaDevice, data: DeviceState): (r: Report<Option<int>>)
    ensures r.Failed? <==> Field(data, "color_temp") == Undef
    ensures r.Failed? ==> r.error == OtherError(MissingColorTemp)
    ensures r.Reported? ==> r.value == HomekitValue(device, Field(data, "color_temp"))
  {
    if Field(data, "color_temp") != Undef then Reported(HomekitValue(device, Field(data, "color_temp")))
    else Failed(OtherError(MissingColorTemp))
  }

  function GetRemoteValue(device: TuyaDevice, o: Outcome): Report<Option<int>>
  {
    Read(o, d => UpdateValue(device, d))
  }

  /** With no configuration the HomeKit bounds are 140 to 500 mired. */
  lemma DefaultBounds(device: TuyaDevice)
    requires Get(device.config, "min_kelvin") == Undef && Get(device.config, "max_kelvin") == Undef
    ensures MinKelvin(device) == 2000.0 && MinHomekit(device) == 140.0 && MaxHomekit(device) == 500.0
  {
  }

  /** The inversion: the warmest Kelvin lands on the smallest mired and the coolest on the largest. */
  lemma InvertedEndpoints(device: TuyaDevice)
    requires MinKelvin(device) != MaxKelvin(device)
    ensures RangeMapper(device).TuyaToHomekit(MaxKelvin(device)) == MinHomekit(device)
    ensures RangeMapper(device).TuyaToHomekit(MinKelvin(device)) == MaxHomekit(device)
  {
    TuyaEndpoints(RangeMapper(device));
  }

  /** With positive bounds in the usual order, more Kelvin means fewer mired. */
  lemma Decreasing(device: TuyaDevice, k1: real, k2: real)
    requires 0.0 < MinKelvin(device) < MaxKelvin(device)
    requires k1 < k2
    ensures RangeMapper(device).TuyaToHomekit(k1) > RangeMapper(device).TuyaToHomekit(k2)
  {
    var lo := MinKelvin(device);
    var hi := MaxKelvin(device);
    ReciprocalsReverseOrder(lo, hi);
    DecreasingWhenOpposed(RangeMapper(device), k1, k2);
  }

  lemma ReciprocalsReverseOrder(lo: real, hi: real)
    requires 0.0 < lo < hi
    ensures 1000000.0 / hi < 1000000.0 / lo
  {
    var a := 1000000.0 / hi;
    var b := 1000000.0 / lo;
    assert a * hi == 1000000.0 && b * lo == 1000000.0;
    assert b > 0.0;
    assert b * hi > b * lo;
    assert a * hi < b * hi;
  }

  /** A write whose Tuya value needs no rounding reads back as the written mired, rounded. */
  lemma WriteThenRead(device: TuyaDevice, cached: DeviceState, h: real)
    requires MinKelvin(device) != MaxKelvin(device)
    requires RangeMapper(device).ToTuya(h).Some?
    requires (RangeMapper(device).HomekitToTuya(h)).Floor as real == RangeMapper(device).HomekitToTuya(h)
    ensures SetRemoteValue(device, Num(h)).Send?
    ensures UpdateValue(device, cached + SetRemoteValue(device, Num(h)).command.fragment) == Reported(Some(JsRound(h)))
  {
    var m := RangeMapper(device);
    var t := m.HomekitToTuya(h);
    assert JsRound(t) == t.Floor;
    HomekitRoundTrip(m, h);
    var d := cached + SetRemoteValue(device, Num(h)).command.fragment;
    assert Field(d, "color_temp") == Num(t);
    var v := HomekitValue(device, Num(t));
    assert v.Some? && v.value == JsRound(h);
  }
}
