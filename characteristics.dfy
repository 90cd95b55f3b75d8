/**
 * The plugin's characteristic classes as one enumeration, with the HomeKit
 * characteristic each one drives and its capability predicate.
 */
module Characteristics {
  import opened JsValue
  import opened DeviceApi
  import Hap
  import OnCharacteristic
  import ActiveCharacteristic
  import BrightnessCharacteristic
  import HueCharacteristic
  import SaturationCharacteristic
  import ColorTemperatureCharacteristic
  import RotationSpeedCharacteristic
  import CurrentTemperatureCharacteristic
  import TargetTemperatureCharacteristic
  import CurrentHeatingCoolingStateCharacteristic
  import TargetHeatingCoolingStateCharacteristic
  import CurrentDoorStateCharacteristic
  import TargetDoorStateCharacteristic
  import CurrentPositionCharacteristic
  import TargetPositionCharacteristic
  import HoldPositionCharacteristic
  import MomentaryOnCharacteristic

  datatype Kind =
    | OnKind | ActiveKind | BrightnessKind | HueKind | SaturationKind | ColorTemperatureKind
    | RotationSpeedKind | CurrentTemperatureKind | TargetTemperatureKind
    | CurrentHeatingCoolingStateKind | TargetHeatingCoolingStateKind | TemperatureDisplayUnitsKind
    | CurrentDoorStateKind | TargetDoorStateKind | ObstructionDetectedKind
    | CurrentPositionKind | TargetPositionKind | PositionStateKind | HoldPositionKind | MomentaryOnKind

  /** The HomeKit characteristic a class drives; `MomentaryOn` drives `On`. */
  function HomekitCharacteristic(k: Kind): (t: Hap.CharacteristicType)
    ensures t == Hap.On <==> k == OnKind || k == MomentaryOnKind
  {
    match k
    case OnKind => Hap.On
    case ActiveKind => Hap.Active
    case BrightnessKind => Hap.Brightness
    case HueKind => Hap.Hue
    case SaturationKind => Hap.Saturation
    case ColorTemperatureKind => Hap.ColorTemperature
    case RotationSpeedKind => Hap.RotationSpeed
    case CurrentTemperatureKind => Hap.CurrentTemperature
    case TargetTemperatureKind => Hap.TargetTemperature
    case CurrentHeatingCoolingStateKind => Hap.CurrentHeatingCoolingState
    case TargetHeatingCoolingStateKind => Hap.TargetHeatingCoolingState
    case TemperatureDisplayUnitsKind => Hap.TemperatureDisplayUnits
    case CurrentDoorStateKind => Hap.CurrentDoorState
    case TargetDoorStateKind => Hap.TargetDoorState
    case ObstructionDetectedKind => Hap.ObstructionDetected
    case CurrentPositionKind => Hap.CurrentPosition
    case TargetPositionKind => Hap.TargetPosition
    case PositionStateKind => Hap.PositionState
    case HoldPositionKind => Hap.HoldPosition
    case MomentaryOnKind => Hap.On
  }

  /** Each class's static `isSupportedByAccessory`. */
  predicate IsSupportedByAccessory(k: Kind, device: TuyaDevice)
  {
    match k
    case OnKind => OnCharacteristic.IsSupportedByAccessory(device)
    case ActiveKind => ActiveCharacteristic.IsSupportedByAccessory(device)
    case BrightnessKind => BrightnessCharacteristic.IsSupportedByAccessory(device)
    case HueKind => HueCharacteristic.IsSupportedByAccessory(device)
    case SaturationKind => SaturationCharacteristic.IsSupportedByAccessory(device)
    case ColorTemperatureKind => ColorTemperatureCharacteristic.IsSupportedByAccessory(device)
    case RotationSpeedKind => RotationSpeedCharacteristic.IsSupportedByAccessory(device)
    case CurrentTemperatureKind => CurrentTemperatureCharacteristic.IsSupportedByAccessory(device)
    case TargetTemperatureKind => TargetTemperatureCharacteristic.IsSupportedByAccessory(device)
    case CurrentHeatingCoolingStateKind => CurrentHeatingCoolingStateCharacteristic.IsSupportedByAccessory(device)
    case TargetHeatingCoolingStateKind => TargetHeatingCoolingStateCharacteristic.IsSupportedByAccessory(device)
    case TemperatureDisplayUnitsKind => true
    case CurrentDoorStateKind => CurrentDoorStateCharacteristic.IsSupportedByAccessory(device)
    case TargetDoorStateKind => TargetDoorStateCharacteristic.IsSupportedByAccessory(device)
    case ObstructionDetectedKind => true
    case CurrentPositionKind => CurrentPositionCharacteristic.IsSupportedByAccessory(device)
    case TargetPositionKind => TargetPositionCharacteristic.IsSupportedByAccessory(device)
    case PositionStateKind => true
    case HoldPositionKind => HoldPositionCharacteristic.IsSupportedByAccessory(device)
    case MomentaryOnKind => MomentaryOnCharacteristic.IsSupportedByAccessory(device)
  }

  /** Apart from `On` and `MomentaryOn`, no two classes drive the same HomeKit characteristic. */
  lemma HomekitCharacteristicInjective(a: Kind, b: Kind)
    requires HomekitCharacteristic(a) == HomekitCharacteristic(b) && HomekitCharacteristic(a) != Hap.On
    ensures a == b
  {
  }
}
