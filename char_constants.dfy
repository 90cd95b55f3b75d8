/**
 * The three characteristics whose value never depends on the device:
 * `PositionState` (always STOPPED), `ObstructionDetected` (always false)
 * and `TemperatureDisplayUnits` (always CELSIUS).
 */
module ConstantCharacteristics {
  import opened JsValue
  import opened DeviceApi

  datatype PositionStateValue = Decreasing | Increasing | PositionStopped

  datatype DisplayUnits = Celsius | Fahrenheit

  function PositionStateUpdate(data: DeviceState): (r: Report<PositionStateValue>)
    ensures r == Reported(PositionStopped)
  {
    Reported(PositionStopped)
  }

  function ObstructionDetectedUpdate(data: DeviceState): (r: Report<bool>)
    ensures r == Reported(false)
  {
    Reported(false)
  }

  function TemperatureDisplayUnitsUpdate(data: DeviceState): (r: Report<DisplayUnits>)
    ensures r == Reported(Celsius)
  {
    Reported(Celsius)
  }
}
