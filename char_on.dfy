/** The `On` characteristic of lights, switches, outlets and dimmers. */
module OnCharacteristic {
  import opened JsValue
  import opened TuyaBool
  import opened Errors
  import opened DeviceApi

  const MissingState := "Could not find required property 'state'"

  /** Supported when the device reports a `state` at all. */
  predicate IsSupportedByAccessory(device: TuyaDevice)
  {
    Field(device.data, "state") != Undef
  }

  /** A defined `state` is read as a Tuya boolean; a missing one is an error. */
  function UpdateValue(data: DeviceState): (r: Report<bool>)
    ensures Field(data, "state") != Undef ==> r == Reported(TuyaBoolean(Field(data, "state")))
    ensures Field(data, "state") == Undef ==> r == Failed(OtherError(MissingState))
  {
    var state := Field(data, "state");
    if state != Undef then Reported(TuyaBoolean(state)) else Failed(OtherError(MissingState))
  }

  /** A HomeKit read: the shared device-state promise, then `UpdateValue`. */
  function GetRemoteValue(o: Outcome): Report<bool>
  {
    Read(o, UpdateValue)
  }

  /** A write: `turnOnOff` with 1 or 0 by truthiness, and the boolean as the cached `state`. */
  function SetRemoteValue(homekitValue: JsVal): (c: Command)
    ensures c.api == TurnOnOff
    ensures c.payload == map["value" := Num(if Truthy(homekitValue) then 1.0 else 0.0)]
    ensures c.fragment == map["state" := Bool(Truthy(homekitValue))]
  {
    Command(TurnOnOff, map["value" := Num(if Truthy(homekitValue) then 1.0 else 0.0)],
            map["state" := Bool(Truthy(homekitValue))])
  }

  /** After a write's fragment is merged into any cached state, a read reports the written value. */
  lemma WriteThenRead(cached: DeviceState, homekitValue: JsVal)
    ensures UpdateValue(cached + SetRemoteValue(homekitValue).fragment) == Reported(Truthy(homekitValue))
  {
    TuyaBooleanOfBool(Truthy(homekitValue));
  }

  /** A device is supported exactly when its own reported state yields a value. */
  lemma SupportedIffReadable(device: TuyaDevice)
    ensures IsSupportedByAccessory(device) <==> UpdateValue(device.data).Reported?
  {
  }

  /** The cloud's boolean spellings: `true`, `"true"`, `"TRUE"` are on; numbers, `"1"` and `"yes"` are off. */
  lemma ReadsOfSpellings(data: DeviceState, n: real)
    ensures UpdateValue(data["state" := Str("TRUE")]) == Reported(true)
    ensures UpdateValue(data["state" := Num(n)]) == Reported(false)
    ensures UpdateValue(data["state" := Str("yes")]) == Reported(false)
  {
    TuyaBooleanOfString("TRUE");
    TuyaBooleanOfString("yes");
    TuyaBooleanOfNumber(n);
  }
}
