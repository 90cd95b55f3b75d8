/** `MomentaryOn`: a scene trigger exposed as a HomeKit `On` switch that always reads off. */
module MomentaryOnCharacteristic {
  import opened JsValue
  import opened DeviceApi

  predicate IsSupportedByAccessory(device: TuyaDevice)
  {
    true
  }

  /** Whatever the state, the switch reads as 0. */
  function UpdateValue(data: DeviceState): (r: Report<int>)
    ensures r == Reported(0)
  {
    Reported(0)
  }

  /** A read needs no device state: it is `UpdateValue` of an empty bag. */
  function GetRemoteValue(): Report<int>
  {
    UpdateValue(map[])
  }

  /** A falsy write completes with no device call; a truthy one sends `turnOnOff` 1 with an empty fragment. */
  function SetRemoteValue(homekitValue: JsVal): (c: Option<Command>)
    ensures c.None? <==> !Truthy(homekitValue)
    ensures c.Some? ==> c.value == Command(TurnOnOff, map["value" := Num(1.0)], map[])
  {
    if Truthy(homekitValue) then Some(Command(TurnOnOff, map["value" := Num(1.0)], map[])) else None
  }

  /** A trigger leaves the cached state as it was, and the switch still reads off. */
  lemma TriggerKeepsCache(cached: DeviceState, homekitValue: JsVal)
    requires Truthy(homekitValue)
    ensures cached + SetRemoteValue(homekitValue).value.fragment == cached
    ensures UpdateValue(cached + SetRemoteValue(homekitValue).value.fragment) == GetRemoteValue()
  {
  }
}
