/** The `Active` characteristic of fans. */
module ActiveCharacteristic {
  import opened JsValue
  import opened TuyaBool
  import opened DeviceApi

  predicate IsSupportedByAccessory(device: TuyaDevice)
  {
    Field(device.data, "state") != Undef
  }

  /**
   * A defined `state` is on iff `String(state)` lower-cased is "true"; with no
   * `state` nothing is reported at all, neither a value nor an error.
   */
  function UpdateValue(data: DeviceState): (r: Report<bool>)
    ensures Field(data, "state") == Undef <==> r == NoReport
    ensures r.Reported? ==> r.value == (Lower(ToStr(Field(data, "state"))) == "true")
  {
    var state := Field(data, "state");
    if state != Undef then Reported(Lower(ToStr(state)) == "true") else NoReport
  }

  /** The value a write sends with `turnOnOff`: 1 iff the HomeKit value is truthy. */
  function WriteValue(homekitValue: JsVal): (v: int)
    ensures v == 1 <==> Truthy(homekitValue)
    ensures v == 0 <==> !Truthy(homekitValue)
  {
    if Truthy(homekitValue) then 1 else 0
  }

  /** The inline test is the Tuya boolean: `Active` and `On` read a defined state alike. */
  lemma AgreesWithTuyaBoolean(data: DeviceState)
    requires Field(data, "state") != Undef
    ensures UpdateValue(data) == Reported(TuyaBoolean(Field(data, "state")))
  {
  }

  /** Reading back the boolean that a write stands for gives the write's truthiness. */
  lemma WriteThenRead(cached: DeviceState, homekitValue: JsVal)
    ensures UpdateValue(cached["state" := Bool(WriteValue(homekitValue) == 1)]) == Reported(Truthy(homekitValue))
  {
    TuyaBooleanOfBool(Truthy(homekitValue));
  }
}
