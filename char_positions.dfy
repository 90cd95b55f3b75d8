/** `TargetPosition` and `CurrentPosition` of a window covering, in percent. */
module TargetPositionCharacteristic {
  import opened JsValue
  import opened TuyaBool
  import opened Errors
  import opened DeviceApi
  import opened CoverStates

  /** The HomeKit properties: an integer percentage in [0, 100] moving in steps of 100. */
  datatype Props = Props(minValue: int, maxValue: int, minStep: int)

  const TargetProps := Props(0, 100, 100)

  predicate IsSupportedByAccessory(device: TuyaDevice)
  {
    true
  }

  /** The three positions a covering reports: closed, half way, open. */
  predicate IsPosition(p: int) { p == 0 || p == 50 || p == 100 }

  /**
   * A numeric `state` of Opening gives 100 and Closing 0; any other numeric
   * state reads the target (Opening 100, Stopped 50, else 0); boolean
   * strings give 100 or 0; anything else is an error.
   */
  function UpdateValue(codes: CoverCodes, data: DeviceState): (r: Report<int>)
    ensures r.Reported? ==> IsPosition(r.value)
    ensures r.Failed? <==> !IsNumericState(Field(data, "state")) && !IsBooleanState(Field(data, "state"))
    ensures r.Failed? ==> r.error == OtherError(UnexpectedState(Field(data, "state")))
    ensures IsNumericState(Field(data, "state")) && ToNumber(Field(data, "state")) == Some(codes.opening as real) ==> r == Reported(100)
    ensures (IsNumericState(Field(data, "state")) && ToNumber(Field(data, "state")) == Some(codes.closing as real)
             && codes.opening != codes.closing) ==> r == Reported(0)
    ensures (IsNumericState(Field(data, "state")) && ToNumber(Field(data, "state")) != Some(codes.opening as real)
             && ToNumber(Field(data, "state")) != Some(codes.closing as real))
            ==> r == Reported(TargetReading(codes, Field(data, "target_cover_state")))
    ensures !IsNumericState(Field(data, "state")) && IsBooleanState(Field(data, "state"))
            ==> r == Reported(if TuyaBoolean(Field(data, "state")) then 100 else 0)
  {
    var s := Field(data, "state");
    if IsNumericState(s) then
      var state := ToNumber(s);
      if state == Some(codes.opening as real) then Reported(100)
      else if state == Some(codes.closing as real) then Reported(0)
      else Reported(TargetReading(codes, Field(data, "target_cover_state")))
    else if IsBooleanState(s) then
      Reported(if TuyaBoolean(s) then 100 else 0)
    else Failed(OtherError(UnexpectedState(s)))
  }

  /** The position of a covering that is not moving, from its target (strict equality with the codes). */
  function TargetReading(codes: CoverCodes, target: JsVal): (p: int)
    ensures IsPosition(p)
    ensures p == 100 <==> target == Num(codes.opening as real)
    ensures p == 50 <==> target != Num(codes.opening as real) && target == Num(codes.stopped as real)
  {
    if target == Num(codes.opening as real) then 100
    else if target == Num(codes.stopped as real) then 50
    else 0
  }

  function GetRemoteValue(codes: CoverCodes, o: Outcome): Report<int>
  {
    Read(o, d => UpdateValue(codes, d))
  }

  /** The value a write sends: 0 iff the HomeKit value is exactly the number 0. */
  function WriteValue(homekitValue: JsVal): (v: int)
    ensures v == 0 <==> homekitValue == Num(0.0)
    ensures v == 1 <==> homekitValue != Num(0.0)
  {
    if homekitValue == Num(0.0) then 0 else 1
  }

  /** A write sends `turnOnOff` and caches Closing (value 0) or Opening as both cover keys. */
  function SetRemoteValue(codes: CoverCodes, homekitValue: JsVal): (c: Command)
    ensures c.api == TurnOnOff && c.payload == map["value" := Num(WriteValue(homekitValue) as real)]
    ensures c.fragment.Keys == {"state", "target_cover_state"}
    ensures c.fragment["state"] == c.fragment["target_cover_state"]
          == Num(if WriteValue(homekitValue) == 0 then codes.closing as real else codes.opening as real)
  {
    var value := WriteValue(homekitValue);
    var code := Num(if value == 0 then codes.closing as real else codes.opening as real);
    Command(TurnOnOff, map["value" := Num(value as real)], map["state" := code, "target_cover_state" := code])
  }

  /** A write of 0 reads back as 0, every other write as 100. */
  lemma WriteThenRead(codes: CoverCodes, cached: DeviceState, homekitValue: JsVal)
    requires codes.Distinct()
    ensures UpdateValue(codes, cached + SetRemoteValue(codes, homekitValue).fragment)
            == Reported(if homekitValue == Num(0.0) then 0 else 100)
  {
    CodeReadsBack(codes.opening);
    CodeReadsBack(codes.closing);
  }
}

module CurrentPositionCharacteristic {
  import opened JsValue
  import opened TuyaBool
  import opened Errors
  import opened DeviceApi
  import opened CoverStates
  import TargetPositionCharacteristic
  import HoldPositionCharacteristic

  predicate IsSupportedByAccessory(device: TuyaDevice)
  {
    true
  }

  /**
   * A moving covering (numeric Opening or Closing) is half way; one that is
   * not moving reads its target like `TargetPosition` does.
   */
  function UpdateValue(codes: CoverCodes, data: DeviceState): (r: Report<int>)
    ensures r.Reported? ==> TargetPositionCharacteristic.IsPosition(r.value)
    ensures r.Failed? <==> !IsNumericState(Field(data, "state")) && !IsBooleanState(Field(data, "state"))
    ensures r.Failed? ==> r.error == OtherError(UnexpectedState(Field(data, "state")))
    ensures (IsNumericState(Field(data, "state"))
             && (ToNumber(Field(data, "state")) == Some(codes.opening as real)
                 || ToNumber(Field(data, "state")) == Some(codes.closing as real)))
            ==> r == Reported(50)
    ensures (IsNumericState(Field(data, "state")) && ToNumber(Field(data, "state")) != Some(codes.opening as real)
             && ToNumber(Field(data, "state")) != Some(codes.closing as real))
            ==> r == Reported(TargetPositionCharacteristic.TargetReading(codes, Field(data, "target_cover_state")))
    ensures !IsNumericState(Field(data, "state")) && IsBooleanState(Field(data, "state"))
            ==> r == Reported(if TuyaBoolean(Field(data, "state")) then 100 else 0)
  {
    var s := Field(data, "state");
    if IsNumericState(s) then
      var state := ToNumber(s);
      if state == Some(codes.opening as real) then Reported(50)
      else if state == Some(codes.closing as real) then Reported(50)
      else Reported(TargetPositionCharacteristic.TargetReading(codes, Field(data, "target_cover_state")))
    else if IsBooleanState(s) then
      Reported(if TuyaBoolean(s) then 100 else 0)
    else Failed(OtherError(UnexpectedState(s)))
  }

  function GetRemoteValue(codes: CoverCodes, o: Outcome): Report<int>
  {
    Read(o, d => UpdateValue(codes, d))
  }

  /** Right after a target-position write the covering reads as moving, half way. */
  lemma HalfWayAfterTargetWrite(codes: CoverCodes, cached: DeviceState, homekitValue: JsVal)
    requires codes.Distinct()
    ensures UpdateValue(codes, cached + TargetPositionCharacteristic.SetRemoteValue(codes, homekitValue).fragment)
            == Reported(50)
  {
    CodeReadsBack(codes.opening);
    CodeReadsBack(codes.closing);
  }

  /** After a stop both position readings give 50. */
  lemma HalfWayAfterHold(codes: CoverCodes, cached: DeviceState, homekitValue: JsVal)
    requires codes.Distinct()
    ensures var d := cached + HoldPositionCharacteristic.SetRemoteValue(codes, homekitValue).fragment;
      UpdateValue(codes, d) == Reported(50) && TargetPositionCharacteristic.UpdateValue(codes, d) == Reported(50)
  {
    CodeReadsBack(codes.stopped);
  }

  /** Current and target agree whenever the covering is not moving. */
  lemma AgreeWhenStill(codes: CoverCodes, data: DeviceState)
    requires !(IsNumericState(Field(data, "state"))
               && (ToNumber(Field(data, "state")) == Some(codes.opening as real)
                   || ToNumber(Field(data, "state")) == Some(codes.closing as real)))
    ensures UpdateValue(codes, data) == TargetPositionCharacteristic.UpdateValue(codes, data)
  {
  }
}
