/** `RotationSpeed` of a fan: Tuya speed levels against HomeKit percentage steps. */
module RotationSpeedCharacteristic {
  import opened JsValue
  import opened Errors
  import opened DeviceApi
  import opened MapRanges

  predicate IsSupportedByAccessory(device: TuyaDevice)
  {
    Field(device.data, "speed_level") != Undef && Field(device.data, "speed") != Undef
  }

  /** `Number(speed_level) || 1`. */
  function MaxSpeedLevel(device: TuyaDevice): (n: real)
    ensures n != 0.0
  {
    NumberOr(Field(device.data, "speed_level"), 1.0)
  }

  /** `Math.floor(100 / maxSpeedLevel)`: the HomeKit percentage per level. */
  function MinStep(device: TuyaDevice): int
  {
    (100.0 / MaxSpeedLevel(device)).Floor
  }

  /** Tuya levels 1..max onto HomeKit minStep..max*minStep. */
  function Range(device: TuyaDevice): MapRange
  {
    Tuya(1.0, MaxSpeedLevel(device)).HomeKit(MinStep(device) as real, MaxSpeedLevel(device) * MinStep(device) as real)
  }

  /** The HomeKit properties: an integer percentage in [0, 100] moving by `minStep`. */
  datatype Props = Props(minValue: int, maxValue: int, minStep: int)

  function SpeedProps(device: TuyaDevice): Props
  {
    Props(0, 100, MinStep(device))
  }

  /**
   * `value < 1 ? 1 : value`, then `value > max ? max : value`: -Infinity fails the
   * second test after becoming 1, +Infinity becomes the maximum, NaN passes both tests.
   */
  function Clamp(v: Quotient, max: real): (c: Option<real>)
    ensures c.Some? <==> !v.NotANumber?
    ensures c.Some? && max >= 1.0 ==> 1.0 <= c.value <= max
    ensures v.Finite? && 1.0 <= v.value <= max ==> c == Some(v.value)
    ensures v.Finite? && v.value < 1.0 && max >= 1.0 ==> c == Some(1.0)
    ensures v.Finite? && v.value > max ==> c == Some(max)
    ensures v == PlusInfinity ==> c == Some(max)
    ensures v == MinusInfinity && max >= 1.0 ==> c == Some(1.0)
  {
    match v
    case NotANumber => None
    case PlusInfinity => Some(max)
    case MinusInfinity => Some(if 1.0 > max then max else 1.0)
    case Finite(x) =>
      var low := if x < 1.0 then 1.0 else x;
      Some(if low > max then max else low)
  }

  /** `range.homekitToTuya(Number(h))`, clamped, unrounded; an infinite quotient is clamped too. */
  function TuyaSpeed(device: TuyaDevice, homekitValue: JsVal): Option<real>
  {
    var raw := match ToNumber(homekitValue)
      case None => NotANumber
      case Some(x) => Range(device).HomekitToTuyaJs(x);
    Clamp(raw, MaxSpeedLevel(device))
  }

  /** A write sends `windSpeedSet` with the clamped level and caches the same level as `speed`. */
  function SetRemoteValue(device: TuyaDevice, homekitValue: JsVal): (c: Command)
    ensures c.api == WindSpeedSet
    ensures c.payload == map["value" := JsNum(TuyaSpeed(device, homekitValue))]
    ensures c.fragment == map["speed" := JsNum(TuyaSpeed(device, homekitValue))]
  {
    var v := JsNum(TuyaSpeed(device, homekitValue));
    Command(WindSpeedSet, map["value" := v], map["speed" := v])
  }

  const UnexpectedSpeed := "Unexpected speed value provided: "

  /** `range.tuyaToHomekit(Number(speed))`, NaN (`None`) included; a missing `speed` is an error. */
  function UpdateValue(device: TuyaDevice, data: DeviceState): (r: Report<Option<real>>)
    ensures r.Failed? <==> Field(data, "speed") == Undef
    ensures r.Failed? ==> r.error == OtherError(UnexpectedSpeed + "undefined")
    ensures r.Reported? && ToNumber(Field(data, "speed")).Some?
            ==> r.value == Range(device).ToHomekit(ToNumber(Field(data, "speed")).value)
    ensures r.Reported? && ToNumber(Field(data, "speed")).None? ==> r.value == None
  {
    var speed := Field(data, "speed");
    if speed != Undef then
      Reported(match ToNumber(speed)
               case None => None
               case Some(x) => Range(device).ToHomekit(x))
    else Failed(OtherError(UnexpectedSpeed + ToStr(speed)))
  }

  function GetRemoteValue(device: TuyaDevice, o: Outcome): Report<Option<real>>
  {
    Read(o, d => UpdateValue(device, d))
  }

  /** Four speed levels: 25 per level, so level 2 reads as 50. */
  lemma FourLevels(device: TuyaDevice, data: DeviceState)
    requires Field(device.data, "speed_level") == Num(4.0)
    requires Field(data, "speed") == Num(2.0)
    ensures MinStep(device) == 25
    ensures UpdateValue(device, data) == Reported(Some(50.0))
  {
    assert MaxSpeedLevel(device) == 4.0;
    assert (100.0 / 4.0).Floor == 25;
    var r := Range(device).ToHomekit(2.0);
    assert r.Some? && r.value == 50.0;
  }

  /** The written level is not rounded: 60% on four levels sends level 2.4. */
  lemma WriteIsNotRounded(device: TuyaDevice)
    requires Field(device.data, "speed_level") == Num(4.0)
    ensures TuyaSpeed(device, Num(60.0)) == Some(2.4)
  {
    assert MaxSpeedLevel(device) == 4.0;
    assert (100.0 / 4.0).Floor == 25;
    var t := Range(device).HomekitToTuyaJs(60.0);
    assert t == Finite(2.4);
    var c := Clamp(t, 4.0);
    assert c.Some? && c.value == 2.4;
  }

  /** With a single level both widths are zero: reads and writes are NaN. */
  lemma SingleLevelIsNaN(device: TuyaDevice, data: DeviceState, homekitValue: JsVal)
    requires MaxSpeedLevel(device) == 1.0
    requires Field(data, "speed") != Undef
    ensures UpdateValue(device, data) == Reported(None)
    ensures TuyaSpeed(device, homekitValue) == None
  {
    assert (100.0 / 1.0).Floor == 100;
    var m := Range(device);
    assert m == MapRange(1.0, 1.0, 100.0, 100.0);
    match ToNumber(Field(data, "speed"))
    case None =>
    case Some(x) => assert m.ToHomekit(x) == None;
    match ToNumber(homekitValue)
    case None =>
    case Some(x) =>
      assert (x - 100.0) * (1.0 - 1.0) == 0.0;
      assert m.HomekitToTuyaJs(x) == NotANumber;
  }

  /**
   * Above 100 levels `minStep` is 0 and the HomeKit interval has zero width: a positive
   * write overflows to +Infinity and is sent as the top level, a negative one as level 1,
   * and a write of 0 is 0/0, NaN.
   */
  lemma ManyLevelsWriteBounds(device: TuyaDevice, h: real)
    requires MaxSpeedLevel(device) > 100.0
    ensures MinStep(device) == 0
    ensures h > 0.0 ==> TuyaSpeed(device, Num(h)) == Some(MaxSpeedLevel(device))
    ensures h < 0.0 ==> TuyaSpeed(device, Num(h)) == Some(1.0)
    ensures h == 0.0 ==> TuyaSpeed(device, Num(h)) == None
  {
    var max := MaxSpeedLevel(device);
    assert 0.0 < 100.0 / max < 1.0;
    assert MinStep(device) == 0;
    var m := Range(device);
    assert m.homekitStart == 0.0 && m.homekitEnd == 0.0;
    assert m.tuyaEnd - m.tuyaStart > 0.0;
    assert ToNumber(Num(h)) == Some(h);
  }

  /**
   * A write whose level lies inside [1, max] reads back as the written
   * percentage, on any fan with more than one level.
   */
  lemma WriteThenRead(device: TuyaDevice, cached: DeviceState, h: real)
    requires MaxSpeedLevel(device) != 1.0 && MinStep(device) != 0
    requires Range(device).ToTuya(h).Some? && 1.0 <= Range(device).ToTuya(h).value <= MaxSpeedLevel(device)
    ensures UpdateValue(device, cached + SetRemoteValue(device, Num(h)).fragment) == Reported(Some(h))
  {
    var m := Range(device);
    var max := MaxSpeedLevel(device);
    var step := MinStep(device) as real;
    assert m.homekitEnd - m.homekitStart == (max - 1.0) * step;
    assert (max - 1.0) * step != 0.0;
    HomekitRoundTrip(m, h);
    var t := m.HomekitToTuya(h);
    assert m.HomekitToTuyaJs(h) == Finite(t);
    assert TuyaSpeed(device, Num(h)) == Some(t);
    var d := cached + SetRemoteValue(device, Num(h)).fragment;
    assert Field(d, "speed") == Num(t);
    var r := m.ToHomekit(t);
    assert r.Some? && r.value == h;
  }
}
