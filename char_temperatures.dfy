/** The arithmetic the two temperature characteristics share. */
module Temperatures {
  import opened JsValue

  /** `Math.round(x * 10) / 10`: the nearest tenth, halves rounded up. */
  function RoundTenth(x: real): (r: real)
    ensures x - 0.05 < r <= x + 0.05
    ensures (r * 10.0).Floor as real == r * 10.0
  {
    JsRound(x * 10.0) as real / 10.0
  }

  /** `n * f` on numbers that may be NaN: NaN on either side gives NaN. */
  function Scale(n: Option<real>, f: Option<real>): (r: Option<real>)
    ensures r.Some? <==> n.Some? && f.Some?
    ensures r.Some? ==> r.value == n.value * f.value
  {
    if n.Some? && f.Some? then Some(n.value * f.value) else None
  }

  /** `n / f`: NaN on either side, or dividing by zero, gives NaN or an infinity, neither of which is a real. */
  function Divide(n: Option<real>, f: Option<real>): (r: Option<real>)
    ensures r.Some? <==> n.Some? && f.Some? && f.value != 0.0
    ensures r.Some? ==> r.value * f.value == n.value
  {
    if n.Some? && f.Some? && f.value != 0.0 then Some(n.value / f.value) else None
  }

  /** `raw ? Number(raw) * factor : undefined`. */
  function ScaledReading(raw: JsVal, factor: Option<real>): (r: Option<real>)
    ensures r.Some? <==> Truthy(raw) && ToNumber(raw).Some? && factor.Some?
    ensures r.Some? ==> r.value == ToNumber(raw).value * factor.value
  {
    if Truthy(raw) then Scale(ToNumber(raw), factor) else None
  }

  /** Scaling a non-zero value divided by the factor gives the value back. */
  lemma ScaleUndoesDivide(t: real, f: real)
    requires f != 0.0 && t != 0.0
    ensures ScaledReading(JsNum(Divide(Some(t), Some(f))), Some(f)) == Some(t)
  {
    var y := t / f;
    assert y * f == t;
    assert Divide(Some(t), Some(f)) == Some(y);
    assert Truthy(Num(y)) && ToNumber(Num(y)) == Some(y);
    var r := Scale(Some(y), Some(f));
    assert r.value == y * f;
  }

  /** A value on HomeKit's half-degree grid is its own nearest tenth. */
  lemma HalfStepsAreTenths(t: real)
    requires (t * 2.0).Floor as real == t * 2.0
    ensures RoundTenth(t) == t
  {
    var k := (t * 2.0).Floor;
    assert t * 10.0 == (5 * k) as real;
    var r := JsRound(t * 10.0);
    assert r == 5 * k;
  }
}

/** `TargetTemperature` of a climate device, scaled by the accessory's `target_temperature_factor`. */
module TargetTemperatureCharacteristic {
  import opened JsValue
  import opened Errors
  import opened DeviceApi
  import opened Temperatures

  const MissingTemperature := "Could not get temperature from data"

  /** The HomeKit properties; a bound that parses to NaN is `None`. */
  datatype Props = Props(minValue: Option<real>, maxValue: Option<real>, minStep: real)

  /**
   * A bound: the configured value as is when truthy, else the device's value
   * times the factor when truthy, else the default.
   */
  function Bound(device: TuyaDevice, key: string, factor: Option<real>, default: real): (b: Option<real>)
    ensures Truthy(Get(device.config, key)) ==> b == ToNumber(Get(device.config, key))
    ensures !Truthy(Get(device.config, key)) && Truthy(Field(device.data, key))
            ==> b == Scale(ToNumber(Field(device.data, key)), factor)
    ensures !Truthy(Get(device.config, key)) && !Truthy(Field(device.data, key)) ==> b == Some(default)
  {
    if Truthy(Get(device.config, key)) then ToNumber(Get(device.config, key))
    else if Truthy(Field(device.data, key)) then Scale(ToNumber(Field(device.data, key)), factor)
    else Some(default)
  }

  function MinTemp(device: TuyaDevice, factor: Option<real>): Option<real>
  {
    Bound(device, "min_temper", factor, 0.0)
  }

  function MaxTemp(device: TuyaDevice, factor: Option<real>): Option<real>
  {
    Bound(device, "max_temper", factor, 100.0)
  }

  function TargetProps(device: TuyaDevice, factor: Option<real>): (p: Props)
    ensures p.minValue == MinTemp(device, factor) && p.maxValue == MaxTemp(device, factor)
    ensures p.minStep == 0.5
  {
    Props(MinTemp(device, factor), MaxTemp(device, factor), 0.5)
  }

  predicate IsSupportedByAccessory(device: TuyaDevice)
  {
    Field(device.data, "temperature") != Undef
  }

  /** The device's `temperature` times the factor, to the nearest tenth; a missing, zero or NaN product is an error. */
  function UpdateValue(data: DeviceState, factor: Option<real>): (r: Report<real>)
    ensures r.Reported? || r == Failed(OtherError(MissingTemperature))
    ensures r.Reported? <==> ScaledReading(Field(data, "temperature"), factor).Some?
                             && ScaledReading(Field(data, "temperature"), factor).value != 0.0
    ensures r.Reported? ==> r.value == RoundTenth(ScaledReading(Field(data, "temperature"), factor).value)
  {
    var t := ScaledReading(Field(data, "temperature"), factor);
    if t.Some? && t.value != 0.0 then Reported(RoundTenth(t.value))
    else Failed(OtherError(MissingTemperature))
  }

  function GetRemoteValue(o: Outcome, factor: Option<real>): Report<real>
  {
    Read(o, d => UpdateValue(d, factor))
  }

  /** A write sends `Number(h)` and caches it divided by the factor, the device's own unit. */
  function SetRemoteValue(homekitValue: JsVal, factor: Option<real>): (c: Command)
    ensures c.api == TemperatureSet
    ensures c.payload == map["value" := JsNum(ToNumber(homekitValue))]
    ensures c.fragment == map["temperature" := JsNum(Divide(ToNumber(homekitValue), factor))]
  {
    var t := ToNumber(homekitValue);
    Command(TemperatureSet, map["value" := JsNum(t)], map["temperature" := JsNum(Divide(t, factor))])
  }

  /** A non-zero write reads back as itself to the nearest tenth: the factor cancels out. */
  lemma WriteThenRead(cached: DeviceState, homekitValue: JsVal, factor: real)
    requires factor != 0.0
    requires ToNumber(homekitValue).Some? && ToNumber(homekitValue).value != 0.0
    ensures UpdateValue(cached + SetRemoteValue(homekitValue, Some(factor)).fragment, Some(factor))
            == Reported(RoundTenth(ToNumber(homekitValue).value))
  {
    var t := ToNumber(homekitValue).value;
    ScaleUndoesDivide(t, factor);
    var d := cached + SetRemoteValue(homekitValue, Some(factor)).fragment;
    assert Field(d, "temperature") == JsNum(Divide(Some(t), Some(factor)));
  }

  /** On HomeKit's half-degree steps the read-back is exact. */
  lemma HalfStepWriteThenRead(cached: DeviceState, homekitValue: JsVal, factor: real)
    requires factor != 0.0
    requires ToNumber(homekitValue).Some? && ToNumber(homekitValue).value != 0.0
    requires (ToNumber(homekitValue).value * 2.0).Floor as real == ToNumber(homekitValue).value * 2.0
    ensures UpdateValue(cached + SetRemoteValue(homekitValue, Some(factor)).fragment, Some(factor))
            == Reported(ToNumber(homekitValue).value)
  {
    WriteThenRead(cached, homekitValue, factor);
    HalfStepsAreTenths(ToNumber(homekitValue).value);
  }

  /**
   * A NaN factor (a setting like "abc", kept after the configuration validation only logged an error)
   * makes every reading fail and every write cache NaN.
   */
  lemma NaNFactor(data: DeviceState, homekitValue: JsVal)
    ensures UpdateValue(data, None) == Failed(OtherError(MissingTemperature))
    ensures SetRemoteValue(homekitValue, None).fragment == map["temperature" := JsNum(None)]
  {
  }

  /** A write of 0 degrees cannot be read back: zero is falsy. */
  lemma ZeroIsUnreadable(cached: DeviceState, factor: Option<real>)
    ensures UpdateValue(cached + SetRemoteValue(Num(0.0), factor).fragment, factor).Failed?
  {
  }
}

/** `CurrentTemperature` of a climate device or a temperature sensor. */
module CurrentTemperatureCharacteristic {
  import opened JsValue
  import opened Errors
  import opened DeviceApi
  import opened Temperatures

  const MissingTemperature := "Could not get temperature from data"

  /** HomeKit accepts readings between the coldest and hottest temperatures on record. */
  const MinValue: real := -100.0
  const MaxValue: real := 150.0

  predicate IsSupportedByAccessory(device: TuyaDevice)
  {
    Field(device.data, "current_temperature") != Undef
  }

  function UpdateValue(data: DeviceState, factor: Option<real>): (r: Report<real>)
    ensures r.Reported? || r == Failed(OtherError(MissingTemperature))
    ensures r.Reported? <==> ScaledReading(Field(data, "current_temperature"), factor).Some?
                             && ScaledReading(Field(data, "current_temperature"), factor).value != 0.0
    ensures r.Reported? ==> r.value == RoundTenth(ScaledReading(Field(data, "current_temperature"), factor).value)
  {
    var t := ScaledReading(Field(data, "current_temperature"), factor);
    if t.Some? && t.value != 0.0 then Reported(RoundTenth(t.value))
    else Failed(OtherError(MissingTemperature))
  }

  function GetRemoteValue(o: Outcome, factor: Option<real>): Report<real>
  {
    Read(o, d => UpdateValue(d, factor))
  }

  /** A NaN factor (a setting like "abc", kept after the configuration validation only logged an error) makes every reading fail. */
  lemma NaNFactorFails(data: DeviceState)
    ensures UpdateValue(data, None) == Failed(OtherError(MissingTemperature))
  {
  }

  /** A reading of "215" with factor 0.1 is 21.5 degrees; a reading of 0 is an error, not 0 degrees. */
  lemma Readings(data: DeviceState)
    ensures UpdateValue(data["current_temperature" := Num(215.0)], Some(0.1)) == Reported(21.5)
    ensures UpdateValue(data["current_temperature" := Num(0.0)], Some(0.1)).Failed?
  {
    HalfStepsAreTenths(21.5);
  }
}
