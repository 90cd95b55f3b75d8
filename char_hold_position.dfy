/** `HoldPosition`: the stop button of a window covering. It is write-only. */
module HoldPositionCharacteristic {
  import opened JsValue
  import opened TuyaBool
  import opened DeviceApi
  import opened CoverStates

  predicate IsSupportedByAccessory(device: TuyaDevice)
  {
    TuyaBoolean(Field(device.data, "support_stop"))
  }

  /** Every write, whatever its value, sends `startStop` 0 and caches Stopped for both cover keys. */
  function SetRemoteValue(codes: CoverCodes, homekitValue: JsVal): (c: Command)
    ensures c.api == StartStop && c.payload == map["value" := Num(0.0)]
    ensures c.fragment.Keys == {"state", "target_cover_state"}
    ensures c.fragment["state"] == c.fragment["target_cover_state"] == Num(codes.stopped as real)
  {
    var stopped := Num(codes.stopped as real);
    Command(StartStop, map["value" := Num(0.0)], map["state" := stopped, "target_cover_state" := stopped])
  }

  lemma WriteIgnoresValue(codes: CoverCodes, h1: JsVal, h2: JsVal)
    ensures SetRemoteValue(codes, h1) == SetRemoteValue(codes, h2)
  {
  }
}
