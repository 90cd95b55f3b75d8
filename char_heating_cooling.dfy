/** `TargetHeatingCoolingState` of a climate device: off, or a mode it is told to run in. */
module TargetHeatingCoolingStateCharacteristic {
  import opened JsValue
  import opened TuyaBool
  import opened DeviceApi
  import opened Hap

  predicate IsSupportedByAccessory(device: TuyaDevice)
  {
    true
  }

  /** A mode can be chosen only on devices that report a truthy `mode`. */
  predicate CanSpecifyTarget(device: TuyaDevice)
  {
    Truthy(Field(device.data, "mode"))
  }

  /** The values offered to HomeKit: OFF and AUTO, then COOL and HEAT when a mode can be chosen. */
  function ValidValues(device: TuyaDevice): (vs: seq<TargetHeatingCooling>)
    ensures Off in vs && Auto in vs
    ensures (Cool in vs) == CanSpecifyTarget(device) && (Heat in vs) == CanSpecifyTarget(device)
  {
    [Off, Auto] + (if CanSpecifyTarget(device) then [Cool, Heat] else [])
  }

  /** The part of the device state a read passes on: `state` and `mode` only. */
  function ReadProjection(data: DeviceState): DeviceState
  {
    map["state" := Field(data, "state"), "mode" := Field(data, "mode")]
  }

  /** The cloud's mode names; any other property name looks up nothing. */
  function ModeOf(name: string): (t: Option<TargetHeatingCooling>)
    ensures t == Some(Auto) <==> name == "auto" || name == "wind"
    ensures t == Some(Heat) <==> name == "hot"
    ensures t == Some(Cool) <==> name == "cold"
    ensures t != Some(Off)
  {
    if name == "auto" || name == "wind" then Some(Auto)
    else if name == "hot" then Some(Heat)
    else if name == "cold" then Some(Cool)
    else None
  }

  /** `data.mode ?? "auto"`, as the property name it looks up. */
  function ModeName(data: DeviceState, default: string): string
  {
    var m := Field(data, "mode");
    if m == Undef || m == Null then default else ToStr(m)
  }

  /** OFF whenever `state` is not Tuya-true; otherwise the mode, a missing one counting as "auto". */
  function UpdateValue(data: DeviceState): (r: Report<Option<TargetHeatingCooling>>)
    ensures r.Reported?
    ensures r.value == Some(Off) <==> !TuyaBoolean(Field(data, "state"))
    ensures TuyaBoolean(Field(data, "state")) ==> r.value == ModeOf(ModeName(data, "auto"))
  {
    if !TuyaBoolean(Field(data, "state")) then Reported(Some(Off))
    else Reported(ModeOf(ModeName(data, "auto")))
  }

  function GetRemoteValue(o: Outcome): Report<Option<TargetHeatingCooling>>
  {
    Read(o, d => UpdateValue(ReadProjection(d)))
  }

  /** The mode name written for each target other than OFF. */
  function ClimateModeName(t: TargetHeatingCooling): string
    requires t != Off
  {
    match t
    case Auto => "auto"
    case Heat => "hot"
    case Cool => "cold"
  }

  /** A write: one command, then a second one that is sent only once the first has succeeded. */
  datatype WritePlan = WritePlan(first: Command, next: Option<Command>)

  /**
   * OFF sends `turnOnOff` 0 alone. Any other target sends `turnOnOff` 1 and,
   * when the device can take a mode, `modeSet` with the mode's name.
   */
  function SetRemoteValue(device: TuyaDevice, target: TargetHeatingCooling): (p: WritePlan)
    ensures target == Off ==> p == WritePlan(Command(TurnOnOff, map["value" := Num(0.0)], map["state" := Bool(false)]), None)
    ensures target != Off ==> p.first == Command(TurnOnOff, map["value" := Num(1.0)], map["state" := Bool(true)])
    ensures target != Off ==> (p.next.Some? <==> CanSpecifyTarget(device))
    ensures target != Off && p.next.Some?
            ==> p.next.value == Command(ModeSet, map["value" := Str(ClimateModeName(target))],
                                        map["mode" := Str(ClimateModeName(target))])
  {
    if target == Off then
      WritePlan(Command(TurnOnOff, map["value" := Num(0.0)], map["state" := Bool(false)]), None)
    else
      var name := Str(ClimateModeName(target));
      WritePlan(Command(TurnOnOff, map["value" := Num(1.0)], map["state" := Bool(true)]),
                if CanSpecifyTarget(device) then Some(Command(ModeSet, map["value" := name], map["mode" := name])) else None)
  }

  /** The cache after a plan has run to the end: each fragment merged in order. */
  function AfterPlan(cached: DeviceState, p: WritePlan): DeviceState
  {
    var d := cached + p.first.fragment;
    if p.next.Some? then d + p.next.value.fragment else d
  }

  /** On a device that can take a mode, a completed write reads back as the written target. */
  lemma WriteThenRead(device: TuyaDevice, cached: DeviceState, target: TargetHeatingCooling)
    requires target == Off || CanSpecifyTarget(device)
    ensures UpdateValue(AfterPlan(cached, SetRemoteValue(device, target))) == Reported(Some(target))
  {
    TuyaBooleanOfBool(true);
    TuyaBooleanOfBool(false);
  }

  /** Every written target is one of the values offered to HomeKit, when the write can be completed. */
  lemma WrittenTargetsAreValid(device: TuyaDevice, target: TargetHeatingCooling)
    requires target == Off || target == Auto || CanSpecifyTarget(device)
    ensures target in ValidValues(device)
  {
  }

  /** Passing only `state` and `mode` loses nothing the translation looks at. */
  lemma ProjectionIsFaithful(data: DeviceState)
    ensures UpdateValue(ReadProjection(data)) == UpdateValue(data)
  {
  }
}

/** `CurrentHeatingCoolingState` of a climate device: read-only, never AUTO. */
module CurrentHeatingCoolingStateCharacteristic {
  import opened JsValue
  import opened TuyaBool
  import opened DeviceApi
  import opened Hap
  import Target = TargetHeatingCoolingStateCharacteristic

  predicate IsSupportedByAccessory(device: TuyaDevice)
  {
    true
  }

  /** OFF and HEAT, then COOL when the device reports a truthy `mode`. */
  function ValidValues(device: TuyaDevice): (vs: seq<CurrentHeatingCooling>)
    ensures CurrentOff in vs && CurrentHeat in vs
    ensures (CurrentCool in vs) == Truthy(Field(device.data, "mode"))
  {
    [CurrentOff, CurrentHeat] + (if Truthy(Field(device.data, "mode")) then [CurrentCool] else [])
  }

  /** "hot" heats; "auto", "wind" and "cold" all cool; other names look up nothing. */
  function ModeOf(name: string): (c: Option<CurrentHeatingCooling>)
    ensures c == Some(CurrentHeat) <==> name == "hot"
    ensures c == Some(CurrentCool) <==> name == "auto" || name == "wind" || name == "cold"
    ensures c != Some(CurrentOff)
  {
    if name == "auto" || name == "wind" || name == "cold" then Some(CurrentCool)
    else if name == "hot" then Some(CurrentHeat)
    else None
  }

  /** OFF whenever `state` is not Tuya-true; otherwise the mode, a missing one counting as "hot". */
  function UpdateValue(data: DeviceState): (r: Report<Option<CurrentHeatingCooling>>)
    ensures r.Reported?
    ensures r.value == Some(CurrentOff) <==> !TuyaBoolean(Field(data, "state"))
    ensures TuyaBoolean(Field(data, "state")) ==> r.value == ModeOf(Target.ModeName(data, "hot"))
  {
    if !TuyaBoolean(Field(data, "state")) then Reported(Some(CurrentOff))
    else Reported(ModeOf(Target.ModeName(data, "hot")))
  }

  function GetRemoteValue(o: Outcome): Report<Option<CurrentHeatingCooling>>
  {
    Read(o, d => UpdateValue(Target.ReadProjection(d)))
  }

  /** Current and target agree on OFF, and on HEAT for every named mode. */
  lemma AgreesWithTarget(data: DeviceState)
    requires Field(data, "mode") in [Str("auto"), Str("wind"), Str("hot"), Str("cold")]
    ensures UpdateValue(data) == Reported(Some(CurrentOff)) <==> Target.UpdateValue(data) == Reported(Some(Off))
    ensures UpdateValue(data) == Reported(Some(CurrentHeat)) <==> Target.UpdateValue(data) == Reported(Some(Heat))
  {
  }

  /** With no `mode` on a running device the two disagree: the target reads AUTO, the current state HEAT. */
  lemma MissingModeDisagrees(data: DeviceState)
    requires TuyaBoolean(Field(data, "state")) && Field(data, "mode") == Undef
    ensures Target.UpdateValue(data) == Reported(Some(Auto))
    ensures UpdateValue(data) == Reported(Some(CurrentHeat))
  {
  }

  lemma ProjectionIsFaithful(data: DeviceState)
    ensures UpdateValue(Target.ReadProjection(data)) == UpdateValue(data)
  {
  }
}
