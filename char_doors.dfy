/** `TargetDoorState` of a garage door: what the door was last told to do. */
module TargetDoorStateCharacteristic {
  import opened JsValue
  import opened TuyaBool
  import opened Errors
  import opened DeviceApi
  import opened CoverStates
  import Hap

  predicate IsSupportedByAccessory(device: TuyaDevice)
  {
    true
  }

  /**
   * A numeric `state` is Opening, Closing or something else (Stopped); in the
   * last case a numeric `target_cover_state` equal to the Closing code (as a
   * number, strictly) gives CLOSED. Boolean strings give OPEN or CLOSED by
   * their Tuya truth value; anything else is an error.
   */
  function UpdateValue(codes: CoverCodes, data: DeviceState): (r: Report<Hap.TargetDoor>)
    ensures r.Failed? <==> !IsNumericState(Field(data, "state")) && !IsBooleanState(Field(data, "state"))
    ensures r.Failed? ==> r.error == OtherError(UnexpectedState(Field(data, "state")))
    ensures IsNumericState(Field(data, "state")) && ToNumber(Field(data, "state")) == Some(codes.opening as real)
            ==> r == Reported(Hap.TargetOpen)
    ensures (IsNumericState(Field(data, "state")) && ToNumber(Field(data, "state")) == Some(codes.closing as real)
             && codes.opening != codes.closing) ==> r == Reported(Hap.TargetClosed)
    ensures (IsNumericState(Field(data, "state")) && ToNumber(Field(data, "state")) != Some(codes.opening as real)
             && ToNumber(Field(data, "state")) != Some(codes.closing as real))
            ==> r == Reported(if IsNumericState(Field(data, "target_cover_state"))
                                 && Field(data, "target_cover_state") == Num(codes.closing as real)
                              then Hap.TargetClosed else Hap.TargetOpen)
    ensures !IsNumericState(Field(data, "state")) && IsBooleanState(Field(data, "state"))
            ==> r == Reported(if TuyaBoolean(Field(data, "state")) then Hap.TargetOpen else Hap.TargetClosed)
  {
    var s := Field(data, "state");
    if IsNumericState(s) then
      var state := ToNumber(s);
      if state == Some(codes.opening as real) then Reported(Hap.TargetOpen)
      else if state == Some(codes.closing as real) then Reported(Hap.TargetClosed)
      else
        var target := Field(data, "target_cover_state");
        if IsNumericState(target) then
          Reported(if target == Num(codes.closing as real) then Hap.TargetClosed else Hap.TargetOpen)
        else Reported(Hap.TargetOpen)
    else if IsBooleanState(s) then
      Reported(if TuyaBoolean(s) then Hap.TargetOpen else Hap.TargetClosed)
    else Failed(OtherError(UnexpectedState(s)))
  }

  function GetRemoteValue(codes: CoverCodes, o: Outcome): Report<Hap.TargetDoor>
  {
    Read(o, d => UpdateValue(codes, d))
  }

  /** The value a write sends: 0 for CLOSED, 1 otherwise. */
  function WriteValue(target: Hap.TargetDoor): (v: int)
    ensures v == 0 <==> target == Hap.TargetClosed
    ensures v == 1 <==> target != Hap.TargetClosed
  {
    if target == Hap.TargetClosed then 0 else 1
  }

  /** A write sends `turnOnOff` and caches Closing (value 0) or Opening as both `state` and `target_cover_state`. */
  function SetRemoteValue(codes: CoverCodes, target: Hap.TargetDoor): (c: Command)
    ensures c.api == TurnOnOff && c.payload == map["value" := Num(WriteValue(target) as real)]
    ensures c.fragment.Keys == {"state", "target_cover_state"}
    ensures c.fragment["state"] == c.fragment["target_cover_state"]
          == Num(if WriteValue(target) == 0 then codes.closing as real else codes.opening as real)
  {
    var value := WriteValue(target);
    var code := Num(if value == 0 then codes.closing as real else codes.opening as real);
    Command(TurnOnOff, map["value" := Num(value as real)], map["state" := code, "target_cover_state" := code])
  }

  /** Pushing a write's own fragment back through the translation reports the written target. */
  lemma WriteThenRead(codes: CoverCodes, cached: DeviceState, target: Hap.TargetDoor)
    requires codes.Distinct()
    ensures UpdateValue(codes, cached + SetRemoteValue(codes, target).fragment) == Reported(target)
  {
    CodeReadsBack(codes.opening);
    CodeReadsBack(codes.closing);
  }

  /** A stopped door reads as CLOSED iff its numeric target is the Closing code. */
  lemma StoppedFollowsTarget(codes: CoverCodes, data: DeviceState)
    requires codes.Distinct()
    requires Field(data, "state") == Num(codes.stopped as real)
    requires IsNumericState(Field(data, "target_cover_state"))
    ensures UpdateValue(codes, data) == Reported(Hap.TargetClosed)
            <==> Field(data, "target_cover_state") == Num(codes.closing as real)
  {
    CodeReadsBack(codes.stopped);
  }
}

/** `CurrentDoorState` of a garage door: read-only. */
module CurrentDoorStateCharacteristic {
  import opened JsValue
  import opened TuyaBool
  import opened Errors
  import opened DeviceApi
  import opened CoverStates
  import Hap
  import TargetDoorStateCharacteristic

  predicate IsSupportedByAccessory(device: TuyaDevice)
  {
    true
  }

  /**
   * A numeric `state` of Opening or Closing reports the movement; any other
   * numeric state reads the target: Opening gives OPEN, Stopped gives CLOSED,
   * anything else STOPPED.
   */
  function UpdateValue(codes: CoverCodes, data: DeviceState): (r: Report<Hap.CurrentDoor>)
    ensures r.Failed? <==> !IsNumericState(Field(data, "state")) && !IsBooleanState(Field(data, "state"))
    ensures r.Failed? ==> r.error == OtherError(UnexpectedState(Field(data, "state")))
    ensures IsNumericState(Field(data, "state")) && ToNumber(Field(data, "state")) == Some(codes.opening as real) ==> r == Reported(Hap.Opening)
    ensures (IsNumericState(Field(data, "state")) && ToNumber(Field(data, "state")) == Some(codes.closing as real)
             && codes.opening != codes.closing) ==> r == Reported(Hap.Closing)
    ensures !IsNumericState(Field(data, "state")) && IsBooleanState(Field(data, "state"))
            ==> r == Reported(if TuyaBoolean(Field(data, "state")) then Hap.Open else Hap.Closed)
    ensures (IsNumericState(Field(data, "state")) && ToNumber(Field(data, "state")) != Some(codes.opening as real)
             && ToNumber(Field(data, "state")) != Some(codes.closing as real))
            ==> r == Reported(StoppedReading(codes, Field(data, "target_cover_state")))
  {
    var s := Field(data, "state");
    if IsNumericState(s) then
      var state := ToNumber(s);
      if state == Some(codes.opening as real) then Reported(Hap.Opening)
      else if state == Some(codes.closing as real) then Reported(Hap.Closing)
      else Reported(StoppedReading(codes, Field(data, "target_cover_state")))
    else if IsBooleanState(s) then
      Reported(if TuyaBoolean(s) then Hap.Open else Hap.Closed)
    else Failed(OtherError(UnexpectedState(s)))
  }

  /** The reading of a door that is not moving, from its target (strict equality with the codes). */
  function StoppedReading(codes: CoverCodes, target: JsVal): (d: Hap.CurrentDoor)
    ensures d == Hap.Open <==> target == Num(codes.opening as real)
    ensures d == Hap.Closed <==> target != Num(codes.opening as real) && target == Num(codes.stopped as real)
    ensures d == Hap.Stopped <==> target != Num(codes.opening as real) && target != Num(codes.stopped as real)
  {
    if target == Num(codes.opening as real) then Hap.Open
    else if target == Num(codes.stopped as real) then Hap.Closed
    else Hap.Stopped
  }

  function GetRemoteValue(codes: CoverCodes, o: Outcome): Report<Hap.CurrentDoor>
  {
    Read(o, d => UpdateValue(codes, d))
  }

  /** Right after a target write, the current state reports the matching movement. */
  lemma MovesAfterTargetWrite(codes: CoverCodes, cached: DeviceState, target: Hap.TargetDoor)
    requires codes.Distinct()
    ensures UpdateValue(codes, cached + TargetDoorStateCharacteristic.SetRemoteValue(codes, target).fragment)
            == Reported(if target == Hap.TargetClosed then Hap.Closing else Hap.Opening)
  {
    CodeReadsBack(codes.opening);
    CodeReadsBack(codes.closing);
  }

  /** A numeric report never yields a bare OPEN/CLOSED without looking at the target. */
  lemma MovingIgnoresTarget(codes: CoverCodes, data: DeviceState, t1: JsVal, t2: JsVal)
    requires IsNumericState(Field(data, "state"))
    requires ToNumber(Field(data, "state")) == Some(codes.opening as real)
          || ToNumber(Field(data, "state")) == Some(codes.closing as real)
    ensures UpdateValue(codes, data["target_cover_state" := t1]) == UpdateValue(codes, data["target_cover_state" := t2])
  {
    assert Field(data["target_cover_state" := t1], "state") == Field(data, "state");
    assert Field(data["target_cover_state" := t2], "state") == Field(data, "state");
  }
}
