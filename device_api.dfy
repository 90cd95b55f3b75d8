/** The errors the device-state engine raises or passes on. */
module Errors {

  datatype Error =
    | DeviceOfflineError
    | RateLimitError(message: string)
    | OtherError(message: string)

  /** The `message` of each error; `DeviceOfflineError` always says "Device Offline". */
  function Message(e: Error): string
  {
    match e
    case DeviceOfflineError => "Device Offline"
    case RateLimitError(m) => m
    case OtherError(m) => m
  }

  /** What a failed upstream call threw: an `Error` instance, or some other value (as its JSON text). */
  datatype Thrown = ThrownError(error: Error) | ThrownValue(json: string)
}

/** HomeKit Accessory Protocol names: characteristic types and their enumerated values. */
module Hap {

  datatype CharacteristicType =
    | On | Brightness | Hue | Saturation | ColorTemperature
    | Active | RotationSpeed
    | CurrentTemperature | TargetTemperature
    | CurrentHeatingCoolingState | TargetHeatingCoolingState | TemperatureDisplayUnits
    | CurrentDoorState | TargetDoorState | ObstructionDetected
    | CurrentPosition | TargetPosition | PositionState | HoldPosition

  datatype TargetHeatingCooling = Off | Heat | Cool | Auto

  datatype CurrentHeatingCooling = CurrentOff | CurrentHeat | CurrentCool

  datatype TargetDoor = TargetOpen | TargetClosed

  datatype CurrentDoor = Open | Closed | Opening | Closing | Stopped
}

/** The shapes exchanged with the Tuya cloud: devices, commands, fetch results. */
module DeviceApi {
  import opened JsValue
  import opened Errors

  datatype TuyaApiMethod =
    | TurnOnOff | BrightnessSet | ColorSet | ColorTemperatureSet
    | WindSpeedSet | TemperatureSet | ModeSet | StartStop

  /** The method names as the cloud API spells them. */
  function MethodName(m: TuyaApiMethod): string
  {
    match m
    case TurnOnOff => "turnOnOff"
    case BrightnessSet => "brightnessSet"
    case ColorSet => "colorSet"
    case ColorTemperatureSet => "colorTemperatureSet"
    case WindSpeedSet => "windSpeedSet"
    case TemperatureSet => "temperatureSet"
    case ModeSet => "modeSet"
    case StartStop => "startStop"
  }

  type Payload = map<string, JsVal>

  /**
   * One write: the API method, its payload, and the fragment merged into the
   * state cache before the call goes out.
   */
  datatype Command = Command(api: TuyaApiMethod, payload: Payload, fragment: DeviceState)

  /** A discovered device with its state bag and its optional per-device configuration overrides. */
  datatype TuyaDevice = TuyaDevice(id: string, name: string, devType: string, data: DeviceState, config: JsVal)

  /** How a device-state promise settles. */
  datatype Outcome = Resolved(state: DeviceState) | Rejected(error: Error)

  /** What the cloud's getDeviceState call gives back. */
  datatype FetchResult = Fetched(state: DeviceState) | FetchFailed(thrown: Thrown)

  /** What an `updateValue` hands to its HomeKit callback: a value, an error, or nothing. */
  datatype Report<T> = Reported(value: T) | Failed(error: Error) | NoReport

  /**
   * A HomeKit read: `getDeviceState()` then `updateValue`; a rejected
   * promise reaches the callback unchanged through `handleError`.
   */
  function Read<T>(o: Outcome, update: DeviceState -> Report<T>): Report<T>
  {
    match o
    case Resolved(d) => update(d)
    case Rejected(e) => Failed(e)
  }

  /** `COLOR_MODES`: the colour-mode names the light characteristics test with `in`. */
  const ColorModes: seq<JsVal> := [Str("color"), Str("colour")]

  /** A rejected read reaches the callback as that error, whatever the translation. */
  lemma ReadPassesRejection<T>(e: Error, update: DeviceState -> Report<T>)
    ensures Read(Rejected(e), update) == Failed(e)
  {
  }
}
