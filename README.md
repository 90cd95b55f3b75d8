# homebridge-tuya-web: the accessory core in Dafny

The plugin publishes devices from the Tuya cloud to HomeKit. Each device becomes an
accessory that drives a few HomeKit characteristics.

- **Reads.** A HomeKit read asks the accessory for the device state. Every reader that
  asks before the debounce timer fires shares one promise. That promise is settled from
  a fresh cache entry, or from one cloud fetch. A rate-limited fetch falls back to the
  last snapshot. A device whose state says it is not online rejects with "Device Offline".
- **Translations.** Each characteristic translates the Tuya state bag into its HomeKit
  value (`updateValue`). A HomeKit write becomes a Tuya command (`setRemoteValue`). Before
  the command goes out, an optimistic fragment is merged into the cache.
- **Per-accessory rules.** Each accessory type decides which characteristics it drives:
  the required ones, then the optional ones that the device or its configuration supports.
  The climate and temperature-sensor accessories check and rewrite their numeric
  configuration.
- **Helpers.** The model also covers:
  - the cloud session (tokens, expiry, region URL);
  - the device list (id and name lookup);
  - the loose Tuya boolean;
  - the legacy `objectHasKeys`;
  - the affine `MapRange` between a Tuya interval and a HomeKit interval.

## Layout

| file | modules | what |
|---|---|---|
| `js_value.dfy` | `JsValue` | JavaScript values and the conversions the code relies on: truthiness, `String(x)`, `Number(x)`, `Math.round`, `in` on arrays. |
| `tuya_boolean.dfy` | `TuyaBool` | `TuyaBoolean`. |
| `map_range.dfy` | `MapRanges` | `MapRange` and its builder. |
| `session.dfy` | `Sessions` | `Session`. |
| `device_list.dfy` | `DeviceLists` | `DeviceList`. |
| `object_helpers.dfy` | `ObjectHelpers` | `objectHasKeys`. |
| `device_api.dfy` | `Errors`, `Hap`, `DeviceApi` | Errors, HomeKit enumerations, commands, devices, promise outcomes. |
| `state_cache.dfy` | `StateCache` | The device-state cache. |
| `cover_state.dfy` | `CoverStates` | The cover-state codes and the tests applied to `state`. |
| `char_*.dfy` | one module per characteristic | Each characteristic's `isSupportedByAccessory`, `updateValue`, `setRemoteValue`, and its read-back lemmas. |
| `characteristics.dfy` | `Characteristics` | The characteristic classes as one enumeration. |
| `base_accessory.dfy` | `BaseAccessories` | The shared accessory machinery: the debounced read, writes, update callbacks, characteristic selection, the Model name. |
| `color_accessory.dfy` | `ColorAccessories` | The colour accessory's debounced hue and saturation write. |
| `accessories.dfy` | one module per accessory type | The characteristic lists of each accessory type, and configuration validation. |

## Modelling conventions

- **JavaScript values.** They are the datatype `JsValue.JsVal`. Numbers are `real`s. A
  numeric result is an `Option<real>`, where `None` stands for NaN.
  `String(n)` is exact on integers, and the model proves that integers round-trip
  through it. The property test `x in COLOR_MODES` is modelled as written: it asks
  whether `x` is a property name of the array.
- **The clock.** It is a parameter `nowMs: nat`.
  - The cache's epoch is `Math.ceil(ms / 1000)`.
  - The session's epoch is `Math.round(ms / 1000)`.
- **Debounce.** The timer becomes explicit steps:
  - `GetDeviceState` is a request;
  - `ResolveDeviceStateRequest` is the timer firing;
  - `CompleteFetch` is the cloud's answer arriving.

  Promises are numbered. A map records how each one settled, and each settles once.
- **Cloud writes.** They are recorded as `Command` values, together with the outcome
  passed in for the call.
- **`TUYA_DEVICE_TIMEOUT`.** It is a parameter of the cache. It is defined in
  `src/settings.ts`, which is not part of this model.
- **Cover-state codes.** The numeric `CoverState` codes are a parameter `CoverCodes`,
  because their values are defined outside the modelled files. The translations are
  proved for any three distinct codes.
- **Rotation-speed writes.** A rotation-speed write sends the unrounded level (2.4
  for 60 % on a four-level fan); see `RotationSpeedCharacteristic.WriteIsNotRounded`.

## Model

| member | source | states |
|---|---|---|
| TuyaBool.TuyaBooleanOfBool | src/helpers/TuyaBoolean.ts:3-5 | A boolean value is read as itself. |
| TuyaBool.TuyaBooleanOfString | src/helpers/TuyaBoolean.ts:3-5 | A string is true iff it spells "true" in any mix of cases; every other string is false. |
| TuyaBool.TuyaBooleanOfMissing | src/helpers/TuyaBoolean.ts:3-5 | `undefined`, `null`, NaN and every object are false. |
| TuyaBool.TuyaBooleanOfNumber | src/helpers/TuyaBoolean.ts:3-5 | No number is true, 1 included. |
| MapRanges.MapRange.TuyaToHomekit | src/helpers/MapRange.ts:20-26 | The result lies on the line through the two endpoint pairs. |
| MapRanges.MapRange.HomekitToTuya | src/helpers/MapRange.ts:28-34 | The result lies on the same line, read in the other direction. |
| MapRanges.MapRange.ToHomekit | src/helpers/MapRange.ts:20-26 | A value exists exactly when the Tuya interval has non-zero width. When it exists, it is on the line. A zero width is JavaScript's NaN or infinity. |
| MapRanges.MapRange.ToTuya | src/helpers/MapRange.ts:28-34 | A value exists exactly when the HomeKit interval has non-zero width. When it exists, it is on the line. |
| MapRanges.MapRange.HomekitToTuyaJs | src/helpers/MapRange.ts:28-34 | JavaScript's quotient, infinities included. It is finite exactly when `ToTuya` has a value, and then equals it. On a zero-width HomeKit interval it is +Infinity or -Infinity by the sign of the numerator, and NaN when the numerator is 0. |
| MapRanges.BuilderStores | src/helpers/MapRange.ts:9-18 | `tuya(a, b).homeKit(c, d)` stores its four arguments in order. |
| MapRanges.TuyaEndpoints | src/helpers/MapRange.ts:20-26 | The Tuya endpoints map to the HomeKit endpoints. |
| MapRanges.HomekitEndpoints | src/helpers/MapRange.ts:28-34 | The HomeKit endpoints map to the Tuya endpoints. |
| MapRanges.TuyaRoundTrip | src/helpers/MapRange.ts:20-34 | Mapping to HomeKit and back returns the Tuya value. |
| MapRanges.HomekitRoundTrip | src/helpers/MapRange.ts:20-34 | Mapping to Tuya and back returns the HomeKit value. |
| MapRanges.Affine | src/helpers/MapRange.ts:20-26 | A difference of inputs maps to that difference times the slope. |
| MapRanges.IncreasingWhenAligned | src/helpers/MapRange.ts:20-26 | Intervals with the same orientation give a strictly increasing map. |
| MapRanges.DecreasingWhenOpposed | src/helpers/MapRange.ts:20-26 | Intervals with opposite orientations give a strictly decreasing map. |
| MapRanges.SlopeSign | src/helpers/MapRange.ts:20-26 | The slope is positive (negative) exactly when the two widths have the same (opposite) sign. |
| Sessions.CurrentEpoch | src/api/session.ts:55-57 | The rounded second lies within half a second of the clock. |
| Sessions.Session.constructor | src/api/session.ts:5-13 | The new session stores all its parameters. It then runs the area-code setter and `resetToken` on them. |
| Sessions.Session.SetAreaCode | src/api/session.ts:27-35 | It sets the code and the region URL. Nothing else changes. |
| Sessions.Session.ResetToken | src/api/session.ts:37-41 | It sets both tokens and `expiresOn = epoch + expiresIn`. The stored `expiresIn` and the region are unchanged. |
| Sessions.Session.HasValid | src/api/session.ts:51-53 | True iff there is a non-empty access token that has not expired. |
| Sessions.AreaLookup | src/api/session.ts:27-35 | AY maps to the China URL and EU to the Europe URL. Every other code, US included, maps to the US URL. |
| Sessions.UpdatesAreIndependent | src/api/session.ts:27-41 | Setting the area code and resetting the token touch disjoint fields, so the two commute. |
| Sessions.ValidityWindow | src/api/session.ts:37-53 | A token reset at `t0` with lifetime `e` is valid exactly while `nowMs < (epoch(t0) + e) * 1000 + 500`. |
| Sessions.EmptyTokenNeverValid | src/api/session.ts:43-45 | An empty access token is never valid. |
| Sessions.ExpiryIsFinal | src/api/session.ts:47-57 | Once expired, a token stays expired at every later time. |
| Sessions.HalfSecondExample | src/api/session.ts:55-57 | With lifetime 0 and a reset at 10.4 s, the token is valid at 10.499 s and not at 10.5 s. |
| DeviceLists.FirstWithName | src/helpers/DeviceList.ts:21-25 | A returned key is a key whose name matches. None is returned iff no key's name matches. |
| DeviceLists.DeviceList.constructor | src/helpers/DeviceList.ts:6-10 | The record maps each id to the name of its last device, and lists the ids in first-insertion order, each once. |
| DeviceLists.LastNameWins | src/helpers/DeviceList.ts:6-10 | A device's id maps to that device's name when no later device has the same id. |
| DeviceLists.KeysAreIds | src/helpers/DeviceList.ts:33-35 | `all` lists exactly the devices' ids, without repetition, and they are exactly the record's keys. |
| DeviceLists.IdBeatsName | src/helpers/DeviceList.ts:16-19 | A known id resolves to itself, even when it is also another device's name. |
| DeviceLists.NameResolvesToFirst | src/helpers/DeviceList.ts:21-25 | A name that is not an id resolves to the first id, in key order, that carries it. |
| DeviceLists.FirstIndex | src/helpers/DeviceList.ts:22-24 | The `find` over the keys returns the first key whose name matches. |
| DeviceLists.FindResults | src/helpers/DeviceList.ts:16-28 | The result is undefined iff the identifier is neither an id nor a name. Any result is one of `all`. |
| DeviceLists.DuplicateIdExample | src/helpers/DeviceList.ts:6-10 | Two devices with one id are listed once, under the later name, and the earlier name finds nothing. |
| ObjectHelpers.Member | lib/helpers.js:7 | Reading a property the value does not have gives `undefined`. |
| ObjectHelpers.ObjectHasKeys | lib/helpers.js:1-11 | The loop computes the recursive definition `HasKeysFrom` of the walk, throws included. |
| ObjectHelpers.NoKeys | lib/helpers.js:3-10 | With no keys the answer is true. |
| ObjectHelpers.OneKey | lib/helpers.js:3-8 | One key gives `key in target`, and that throws on a primitive target. |
| ObjectHelpers.TwoKeys | lib/helpers.js:3-8 | The first key is looked up in the target and the second in `target[first]`. A primitive `target[first]` throws. |
| ObjectHelpers.ThirdKeyFromTop | lib/helpers.js:7 | The third key is looked up in `target[second]`, read from the top level. |
| ObjectHelpers.StopsAtFalsyKey | lib/helpers.js:3 | A falsy key ends the walk, so the keys after it make no difference. |
| ObjectHelpers.FalsyKeyExample | lib/helpers.js:3 | `""` and `0` are falsy keys, so the answer is true even on a primitive. |
| ObjectHelpers.StrKeys | lib/helpers.js:1 | Each string key becomes a string value, in order. |
| ObjectHelpers.NestedPathThrows | lib/helpers.js:7 | As written, the existing path a.b.c in `{a:{b:{c:{}}}}` throws a TypeError. |
| ObjectHelpers.NestedFindsChain | lib/helpers.js:3-8 | The corrected walk finds every path that exists. |
| ObjectHelpers.AgreeOnShortPaths | lib/helpers.js:3-8 | The written and corrected walks agree on one or two keys, the only lengths used by its callers. |
| ObjectHelpers.NestedPrefixClosed | lib/helpers.js:3-8 | With the corrected walk, a path that is found has every prefix found. |
| DeviceApi.ReadPassesRejection | src/accessories/BaseAccessory.ts:343-355 | A rejected device-state promise reaches the characteristic's callback as that same error. |
| StateCache.Epoch | src/helpers/cache.ts:43-45 | The epoch is the ceiling of the clock in seconds. |
| StateCache.Merged | src/helpers/cache.ts:27-29 | The fragment's keys take the fragment's values, and the other old keys keep theirs. The key set is the union. |
| StateCache.Cache.constructor | src/helpers/cache.ts:5-7 | The new cache holds nothing and has been expired since epoch 0. |
| StateCache.Cache.Restored | src/accessories/BaseAccessory.ts:148-157 | A cache restored from the accessory context holds exactly the persisted value and expiry. |
| StateCache.Cache.Merge | src/helpers/cache.ts:27-29 | The value becomes the merge. The expiry is unchanged. |
| StateCache.Cache.Set | src/helpers/cache.ts:15-18 | The expiry becomes epoch + timeout + 5, then the data is merged in. |
| StateCache.Cache.Renew | src/helpers/cache.ts:20-25 | A stored value is set again, which refreshes its expiry. An empty cache is left alone. |
| StateCache.EmptyHoldsNothing | src/helpers/cache.ts:35-41 | A new cache answers null, with or without `always`. |
| StateCache.FreshnessWindow | src/helpers/cache.ts:9-18 | After `set` at `t`, a plain `get` answers iff `nowMs <= (epoch(t) + timeout + 4) * 1000`. |
| StateCache.SetStoresState | src/helpers/cache.ts:15-18 | Right after `set`, both kinds of `get` return the merged state. |
| StateCache.MergeReplacesNested | src/helpers/cache.ts:27-29 | The merge is shallow: a nested `color` object is replaced whole. |
| StateCache.MergeKeepsExpiry | src/helpers/cache.ts:27-29 | A merge neither refreshes nor expires a stored value. |
| StateCache.AlwaysReturnsValue | src/helpers/cache.ts:35-41 | `get(true)` ignores expiry and returns whatever is stored. |
| StateCache.RenewEmpty | src/helpers/cache.ts:20-25 | Renewing an empty cache changes nothing. |
| StateCache.RenewKeepsValue | src/helpers/cache.ts:20-25 | Renewing keeps the stored value and restarts its full freshness window. |
| CoverStates.CodeReadsBack | src/accessories/characteristics/targetDoorState.ts:57-62 | A code written into the cache passes the numeric test and reads back as itself. |
| CoverStates.NumericStateHasNumber | src/accessories/characteristics/targetDoorState.ts:57-62 | A state that passes the `isNaN(Number(String(v)))` test also converts with `Number`. |
| Characteristics.HomekitCharacteristic | src/accessories/characteristics/momentaryOn.ts:13-15 | Exactly `On` and `MomentaryOn` drive HomeKit's `On`. |
| Characteristics.HomekitCharacteristicInjective | src/accessories/BaseAccessory.ts:203-205 | Apart from `On`, distinct classes drive distinct HomeKit characteristics. |
| OnCharacteristic.UpdateValue | src/accessories/characteristics/on.ts:48-61 | A defined `state` is reported as its Tuya boolean. A missing one fails with the "Could not find required property 'state'" error. |
| OnCharacteristic.SetRemoteValue | src/accessories/characteristics/on.ts:32-46 | The command is `turnOnOff` with 1 or 0 by truthiness, and it caches the boolean as `state`. |
| OnCharacteristic.WriteThenRead | src/accessories/characteristics/on.ts:32-61 | After a write's fragment is merged into any cache, a read reports the written truthiness. |
| OnCharacteristic.SupportedIffReadable | src/accessories/characteristics/on.ts:18-20 | A device is supported iff its own state gives a reading. |
| OnCharacteristic.ReadsOfSpellings | src/accessories/characteristics/on.ts:48-61 | "TRUE" reads as on. Numbers and "yes" read as off. |
| ActiveCharacteristic.UpdateValue | src/accessories/characteristics/active.ts:53-59 | Nothing at all is reported iff `state` is missing. Otherwise the value is whether `String(state)`, lower-cased, is "true". |
| ActiveCharacteristic.WriteValue | src/accessories/characteristics/active.ts:38-41 | It sends 1 iff the HomeKit value is truthy, and 0 otherwise. |
| ActiveCharacteristic.AgreesWithTuyaBoolean | src/accessories/characteristics/active.ts:53-59 | The inline test equals `TuyaBoolean` when the state is defined. |
| ActiveCharacteristic.WriteThenRead | src/accessories/characteristics/active.ts:38-59 | A fact about `UpdateValue`: a `state` of `Bool(value == 1)`, for the `value` a write sends, reads as the write's truthiness. The write itself caches the HomeKit value through `setCachedState` (active.ts:44), so this is not a read-back of the cache. |
| MomentaryOnCharacteristic.UpdateValue | src/accessories/characteristics/momentaryOn.ts:55-57 | The switch always reads 0. |
| MomentaryOnCharacteristic.SetRemoteValue | src/accessories/characteristics/momentaryOn.ts:27-53 | A falsy write makes no device call. A truthy one sends `turnOnOff` 1 with an empty fragment. |
| MomentaryOnCharacteristic.TriggerKeepsCache | src/accessories/characteristics/momentaryOn.ts:21-53 | A trigger leaves the cache unchanged, and the switch still reads as a plain read does. |
| HoldPositionCharacteristic.SetRemoteValue | src/accessories/characteristics/holdPosition.ts:18-33 | `startStop` 0, caching the Stopped code as both `state` and `target_cover_state`. |
| HoldPositionCharacteristic.WriteIgnoresValue | src/accessories/characteristics/holdPosition.ts:18-33 | Every written value gives the same command. |
| ConstantCharacteristics.PositionStateUpdate | src/accessories/characteristics/positionState.ts:25-33 | Always STOPPED. |
| ConstantCharacteristics.ObstructionDetectedUpdate | src/accessories/characteristics/obstructionDetected.ts:21-29 | Always false. |
| ConstantCharacteristics.TemperatureDisplayUnitsUpdate | src/accessories/characteristics/temperatureDisplayUnits.ts:25-30 | Always CELSIUS. |
| TargetDoorStateCharacteristic.UpdateValue | src/accessories/characteristics/targetDoorState.ts:57-99 | It fails iff `state` is neither numeric nor boolean. Opening gives OPEN and Closing gives CLOSED. A boolean string gives OPEN when true. Any other numeric state reads CLOSED iff `target_cover_state` is numeric and strictly the Closing code, and OPEN otherwise. |
| TargetDoorStateCharacteristic.WriteValue | src/accessories/characteristics/targetDoorState.ts:40-42 | It sends 0 iff the target is CLOSED, and 1 otherwise. |
| TargetDoorStateCharacteristic.SetRemoteValue | src/accessories/characteristics/targetDoorState.ts:36-55 | `turnOnOff` with the value. It caches Closing or Opening as both cover keys. |
| TargetDoorStateCharacteristic.WriteThenRead | src/accessories/characteristics/targetDoorState.ts:36-99 | A write's own fragment reads back as the written target. |
| TargetDoorStateCharacteristic.StoppedFollowsTarget | src/accessories/characteristics/targetDoorState.ts:71-77 | A stopped door reads CLOSED iff its numeric target is the Closing code. |
| CurrentDoorStateCharacteristic.UpdateValue | src/accessories/characteristics/currentDoorState.ts:32-77 | It fails iff `state` is neither numeric nor boolean. A boolean gives OPEN or CLOSED. A numeric state equal to the opening code gives OPENING, and one equal to the closing code gives CLOSING (when the codes differ). Any other numeric state is a door that is not moving and reads its target. |
| CurrentDoorStateCharacteristic.StoppedReading | src/accessories/characteristics/currentDoorState.ts:47-55 | Target Opening gives OPEN. Target Stopped gives CLOSED. Anything else gives STOPPED. |
| CurrentDoorStateCharacteristic.MovesAfterTargetWrite | src/accessories/characteristics/currentDoorState.ts:32-46 | Right after a target write, the current state is CLOSING or OPENING to match. |
| CurrentDoorStateCharacteristic.MovingIgnoresTarget | src/accessories/characteristics/currentDoorState.ts:36-46 | While the door moves, the target makes no difference. |
| TargetPositionCharacteristic.UpdateValue | src/accessories/characteristics/targetPosition.ts:65-106 | Values are 0, 50 or 100. It fails iff `state` is neither numeric nor boolean. A boolean gives 100 or 0. A numeric state equal to the opening code gives 100, and one equal to the closing code gives 0 (when the codes differ). Any other numeric state reads `TargetReading` of `target_cover_state`. |
| TargetPositionCharacteristic.TargetReading | src/accessories/characteristics/targetPosition.ts:75-90 | Target Opening gives 100. Target Stopped gives 50. Anything else gives 0. |
| TargetPositionCharacteristic.WriteValue | src/accessories/characteristics/targetPosition.ts:49 | It sends 0 iff the value is exactly the number 0. |
| TargetPositionCharacteristic.SetRemoteValue | src/accessories/characteristics/targetPosition.ts:45-63 | `turnOnOff` with the value. It caches Closing or Opening as both cover keys. |
| TargetPositionCharacteristic.WriteThenRead | src/accessories/characteristics/targetPosition.ts:45-106 | A write of 0 reads back 0. Every other write reads back 100. |
| CurrentPositionCharacteristic.UpdateValue | src/accessories/characteristics/currentPosition.ts:28-71 | It fails iff `state` is neither numeric nor boolean. A moving covering (opening or closing code) reads 50. A still one (any other numeric state) reads `TargetPositionCharacteristic.TargetReading` of `target_cover_state`, and a boolean state gives 100 or 0. |
| CurrentPositionCharacteristic.HalfWayAfterTargetWrite | src/accessories/characteristics/currentPosition.ts:28-45 | Right after a target-position write, the covering reads 50. |
| CurrentPositionCharacteristic.HalfWayAfterHold | src/accessories/characteristics/holdPosition.ts:18-33 | After a stop, both position readings are 50. |
| CurrentPositionCharacteristic.AgreeWhenStill | src/accessories/characteristics/currentPosition.ts:28-71 | Whenever the covering is not moving, the current and target positions agree. |
| TargetHeatingCoolingStateCharacteristic.ValidValues | src/accessories/characteristics/targetHeatingCoolingState.ts:24-38 | OFF and AUTO always. COOL and HEAT iff the device reports a truthy `mode`. |
| TargetHeatingCoolingStateCharacteristic.ModeOf | src/accessories/characteristics/targetHeatingCoolingState.ts:115-121 | "auto" and "wind" give AUTO, "hot" gives HEAT, "cold" gives COOL. No name gives OFF. |
| TargetHeatingCoolingStateCharacteristic.UpdateValue | src/accessories/characteristics/targetHeatingCoolingState.ts:103-135 | OFF iff `state` is not Tuya-true. Otherwise the mode, where a missing mode counts as "auto". |
| TargetHeatingCoolingStateCharacteristic.SetRemoteValue | src/accessories/characteristics/targetHeatingCoolingState.ts:63-101 | OFF sends `turnOnOff` 0 alone. Any other target sends `turnOnOff` 1, then `modeSet` with its name iff a mode can be chosen. |
| TargetHeatingCoolingStateCharacteristic.WriteThenRead | src/accessories/characteristics/targetHeatingCoolingState.ts:63-135 | When the device can take a mode, a completed write reads back as the written target. |
| TargetHeatingCoolingStateCharacteristic.WrittenTargetsAreValid | src/accessories/characteristics/targetHeatingCoolingState.ts:24-43 | Every target that can be written is among the values offered to HomeKit. |
| TargetHeatingCoolingStateCharacteristic.ProjectionIsFaithful | src/accessories/characteristics/targetHeatingCoolingState.ts:45-57 | Passing only `state` and `mode` on a read changes no reading. |
| CurrentHeatingCoolingStateCharacteristic.ValidValues | src/accessories/characteristics/currentHeatingCoolingState.ts:18-30 | OFF and HEAT always. COOL iff `mode` is truthy. |
| CurrentHeatingCoolingStateCharacteristic.ModeOf | src/accessories/characteristics/currentHeatingCoolingState.ts:62-68 | "hot" gives HEAT. "auto", "wind" and "cold" give COOL. No name gives OFF. |
| CurrentHeatingCoolingStateCharacteristic.UpdateValue | src/accessories/characteristics/currentHeatingCoolingState.ts:50-78 | OFF iff `state` is not Tuya-true. Otherwise the mode, where a missing mode counts as "hot". |
| CurrentHeatingCoolingStateCharacteristic.AgreesWithTarget | src/accessories/characteristics/currentHeatingCoolingState.ts:50-78 | For a named mode, the current and target readings agree on OFF and on HEAT. |
| CurrentHeatingCoolingStateCharacteristic.MissingModeDisagrees | src/accessories/characteristics/currentHeatingCoolingState.ts:62-75 | A running device with no mode reads target AUTO but current HEAT. |
| CurrentHeatingCoolingStateCharacteristic.ProjectionIsFaithful | src/accessories/characteristics/currentHeatingCoolingState.ts:32-44 | The projection on a read changes no reading. |
| TargetTemperatureCharacteristic.Bound | src/accessories/characteristics/targetTemperature.ts:19-33 | A truthy configured bound is used as is. Otherwise the device's value times the factor when truthy. Otherwise the default. |
| TargetTemperatureCharacteristic.TargetProps | src/accessories/characteristics/targetTemperature.ts:51-57 | The bounds as computed, and a step of 0.5. |
| TargetTemperatureCharacteristic.UpdateValue | src/accessories/characteristics/targetTemperature.ts:96-113 | Reported iff `temperature` times the factor is a non-zero number, then rounded to a tenth. A NaN factor makes the product NaN. Otherwise "Could not get temperature from data". |
| TargetTemperatureCharacteristic.SetRemoteValue | src/accessories/characteristics/targetTemperature.ts:73-94 | `temperatureSet` with the number, and the cache gets the number divided by the factor. The cached value is NaN when the factor is NaN or 0. |
| TargetTemperatureCharacteristic.WriteThenRead | src/accessories/characteristics/targetTemperature.ts:73-113 | A non-zero write reads back as itself to the nearest tenth, because the factor cancels out. |
| TargetTemperatureCharacteristic.HalfStepWriteThenRead | src/accessories/characteristics/targetTemperature.ts:51-113 | A write on the 0.5 step reads back exactly. |
| TargetTemperatureCharacteristic.NaNFactor | src/accessories/BaseAccessory.ts:82-84 | A NaN `target_temperature_factor` is only logged by the configuration validation, so every reading fails with "Could not get temperature from data" and every write caches NaN. |
| TargetTemperatureCharacteristic.ZeroIsUnreadable | src/accessories/characteristics/targetTemperature.ts:96-113 | A write of 0 degrees reads back as an error. |
| CurrentTemperatureCharacteristic.UpdateValue | src/accessories/characteristics/currentTemperature.ts:36-53 | Reported iff `current_temperature` times the factor is a non-zero number, then rounded to a tenth. A NaN factor makes the product NaN. |
| CurrentTemperatureCharacteristic.NaNFactorFails | src/accessories/BaseAccessory.ts:82-84 | A NaN `current_temperature_factor` is only logged by the configuration validation, so every reading fails with "Could not get temperature from data". |
| CurrentTemperatureCharacteristic.Readings | src/accessories/characteristics/currentTemperature.ts:36-53 | 215 with factor 0.1 reads 21.5. A reading of 0 is an error. |
| RotationSpeedCharacteristic.MaxSpeedLevel | src/accessories/characteristics/rotationSpeed.ts:43-46 | `Number(speed_level) \|\| 1` is never 0. |
| RotationSpeedCharacteristic.Clamp | src/accessories/characteristics/rotationSpeed.ts:62-80 | NaN stays NaN. Otherwise the result lies in [1, max] and a value already there is unchanged. A value below 1 becomes 1 (when max is at least 1), and a value above max becomes max. +Infinity becomes max, and -Infinity becomes 1 (when max is at least 1). |
| RotationSpeedCharacteristic.SetRemoteValue | src/accessories/characteristics/rotationSpeed.ts:62-80 | `windSpeedSet` with the clamped level, also cached as `speed`. The level is `homekitToTuya` of the number with JavaScript's infinities, clamped. |
| RotationSpeedCharacteristic.UpdateValue | src/accessories/characteristics/rotationSpeed.ts:82-94 | It fails iff `speed` is missing. A numeric level is mapped onto percent, and a non-numeric one reads NaN. |
| RotationSpeedCharacteristic.FourLevels | src/accessories/characteristics/rotationSpeed.ts:21-50 | With four levels the step is 25, and level 2 reads 50. |
| RotationSpeedCharacteristic.WriteIsNotRounded | src/accessories/characteristics/rotationSpeed.ts:62-80 | 60 % on four levels sends level 2.4. |
| RotationSpeedCharacteristic.SingleLevelIsNaN | src/accessories/characteristics/rotationSpeed.ts:21-24 | With one level, reads and writes are NaN. |
| RotationSpeedCharacteristic.ManyLevelsWriteBounds | src/accessories/characteristics/rotationSpeed.ts:21-80 | Above 100 levels `minStep` is 0. A positive write then overflows to +Infinity and sends the top level, a negative one sends level 1, and a write of 0 is NaN. |
| RotationSpeedCharacteristic.WriteThenRead | src/accessories/characteristics/rotationSpeed.ts:62-94 | A write whose level lies in [1, max] reads back as the written percentage. |
| BrightnessCharacteristic.RangeMapper | src/accessories/characteristics/brightness.ts:39-54 | The configured bounds when both are given; NaN when either is. Otherwise 1..255 for colour brightness, else 10..100. HomeKit's side is 0..100. |
| BrightnessCharacteristic.SetRemoteValue | src/accessories/characteristics/brightness.ts:66-85 | `brightnessSet` with the mapped value. The value is cached as text inside `color`, or as `brightness`. |
| BrightnessCharacteristic.UpdateValue | src/accessories/characteristics/brightness.ts:87-128 | The mapped raw brightness, unclamped. A mapped 0 or NaN fails. |
| BrightnessCharacteristic.ColorWordsUseBrightnessKey | src/accessories/characteristics/brightness.ts:30-37 | A `color_mode` of "color" or "colour" never selects colour brightness. |
| BrightnessCharacteristic.DefaultRange | src/accessories/characteristics/brightness.ts:39-54 | With no configuration, a plain light maps 10..100 onto 0..100. |
| BrightnessCharacteristic.RangeStartIsError | src/accessories/characteristics/brightness.ts:87-128 | The bottom of the Tuya range maps to 0, which is reported as an error. |
| BrightnessCharacteristic.OutOfRangeIsReported | src/accessories/characteristics/brightness.ts:87-128 | A reading of 200 is reported above 100. |
| BrightnessCharacteristic.WriteThenRead | src/accessories/characteristics/brightness.ts:66-128 | A non-zero write reads back as itself on a light with a proper range. |
| HueCharacteristic.UpdateValue | src/accessories/characteristics/hue.ts:52-68 | `Number(color.hue)` when `color_mode` is a property name of `COLOR_MODES` and the hue is truthy. Otherwise 0. It never fails. |
| HueCharacteristic.ColorModeWordsReadDefault | src/accessories/characteristics/hue.ts:56 | With mode "color" or "colour", the hue always reads 0. |
| HueCharacteristic.IndexModesReadHue | src/accessories/characteristics/hue.ts:54-59 | With mode "0" or "1", a truthy hue is read through `Number`. |
| HueCharacteristic.IntendedUpdateValue | src/accessories/characteristics/hue.ts:52-68 | As `UpdateValue`, but with membership in `COLOR_MODES` instead of the property test. |
| SaturationCharacteristic.UpdateValue | src/accessories/characteristics/saturation.ts:54-62 | The same as hue, on `saturation`. |
| SaturationCharacteristic.ColorModeWordsReadDefault | src/accessories/characteristics/saturation.ts:56 | With mode "color" or "colour", the saturation always reads 0. |
| SaturationCharacteristic.IntendedUpdateValue | src/accessories/characteristics/saturation.ts:54-62 | As `UpdateValue`, with the membership test. |
| ColorTemperatureCharacteristic.MinKelvin | src/accessories/characteristics/colorTemperature.ts:35-38 | `Number(min_kelvin) \|\| 2000` is never 0. |
| ColorTemperatureCharacteristic.MaxKelvin | src/accessories/characteristics/colorTemperature.ts:40-43 | `Number(max_kelvin) \|\| 1000000/140` is never 0. |
| ColorTemperatureCharacteristic.SetRemoteValue | src/accessories/characteristics/colorTemperature.ts:68-91 | It refuses iff the value is not a number. Otherwise it sends `colorTemperatureSet` with the value mapped onto the Kelvin range and rounded, and caches that value as `color_temp`. |
| ColorTemperatureCharacteristic.UpdateValue | src/accessories/characteristics/colorTemperature.ts:93-127 | It fails iff `color_temp` is missing. Otherwise it reports the rounded, unclamped mired. |
| ColorTemperatureCharacteristic.DefaultBounds | src/accessories/characteristics/colorTemperature.ts:35-51 | With no configuration the HomeKit bounds are 140 to 500 mired. |
| ColorTemperatureCharacteristic.InvertedEndpoints | src/accessories/characteristics/colorTemperature.ts:53-56 | The warmest Kelvin lands on the smallest mired, and the coolest on the largest. |
| ColorTemperatureCharacteristic.Decreasing | src/accessories/characteristics/colorTemperature.ts:53-56 | More Kelvin means fewer mired. |
| ColorTemperatureCharacteristic.WriteThenRead | src/accessories/characteristics/colorTemperature.ts:68-127 | A write needing no rounding on the Tuya side reads back as the written mired, rounded. |
| BaseAccessories.OnlineOutcome | src/accessories/BaseAccessory.ts:302-306 | It resolves with the state iff `online` is Tuya-true. Otherwise it rejects with DeviceOfflineError. |
| BaseAccessories.FromCache | src/accessories/BaseAccessory.ts:298-307 | It serves iff the cache is valid, by the online rule. |
| BaseAccessories.SameOnlineRule | src/accessories/BaseAccessory.ts:298-319 | A cache hit and a fetch of the same state settle the same way. |
| BaseAccessories.FetchedIsCached | src/accessories/BaseAccessory.ts:309-319 | A fetched state is cached before the online check, even when the device is offline. |
| BaseAccessories.RateLimitServesSnapshot | src/accessories/BaseAccessory.ts:321-333 | On a rate limit, an online snapshot, however stale, is renewed and served. |
| BaseAccessories.RateLimitWithoutSnapshot | src/accessories/BaseAccessory.ts:321-328 | On a rate limit with no snapshot, or an offline one, the promise rejects with DeviceOfflineError and the cache is unchanged. |
| BaseAccessories.OtherFailurePassesThrough | src/accessories/BaseAccessory.ts:335-339 | Other failures reject with the thrown error, or with an Error holding its JSON. The cache is unchanged. |
| BaseAccessories.RateLimitNeverEscapes | src/accessories/BaseAccessory.ts:320-340 | No reader ever receives a RateLimitError. |
| BaseAccessories.CallbackList.Set | src/accessories/BaseAccessory.ts:430-435 | A new key goes last and an existing key keeps its place. The entry is replaced, and the table stays consistent. |
| BaseAccessories.DispatchOnce | src/accessories/BaseAccessory.ts:421-428 | `updateState` invokes each registered callback exactly once, with the new state, and no other. |
| BaseAccessories.NotifyOnlyThatKey | src/accessories/BaseAccessory.ts:254-262 | At most the key's own callback runs, and none when the key has no callback. |
| BaseAccessories.RegisterReplaces | src/accessories/BaseAccessory.ts:430-435 | A second registration replaces the first, which never runs again. |
| BaseAccessories.Registered | src/accessories/BaseAccessory.ts:196-201 | Every initialised class has a callback under its HomeKit characteristic. |
| BaseAccessories.DeviceSupportedCharacteristics | src/accessories/BaseAccessory.ts:60-64 | A class is selected iff it is supported, not required, and possible on the device. |
| BaseAccessories.SelectionIsSublist | src/accessories/BaseAccessory.ts:60-64 | The selection keeps the order of the accessory's list. |
| BaseAccessories.InitialHasNoDuplicates | src/accessories/BaseAccessory.ts:196-201 | Required plus selected repeats no class. |
| BaseAccessories.ModelNameByCharacter | src/accessories/BaseAccessory.ts:409-415 | The Model name has the length of `dev_type`. Each `_` becomes a space, and the first character of each part is upper-cased. |
| BaseAccessories.ModelNameExample | src/accessories/BaseAccessory.ts:409-415 | "ha_light" gives "Ha Light". |
| BaseAccessories.BaseAccessory.constructor | src/accessories/BaseAccessory.ts:196-201 | The context's cache is empty when none was persisted and holds the persisted fields otherwise. There is no promise, and one callback is registered per initialised class. |
| BaseAccessories.BaseAccessory.CachedValue | src/accessories/BaseAccessory.ts:277-279 | It is `Lookup` of the cache's state. With `always`, whatever is stored. Otherwise a value is returned iff the cache is valid at that time, and it is the stored one. |
| BaseAccessories.BaseAccessory.GetDeviceState | src/accessories/BaseAccessory.ts:343-355 | A reader joins the pending promise, or opens a new one. Nothing else changes. |
| BaseAccessories.BaseAccessory.ResolveDeviceStateRequest | src/accessories/BaseAccessory.ts:289-307 | With nothing pending it does nothing. Otherwise it clears the slot, then settles from a live cache or starts one fetch. |
| BaseAccessories.BaseAccessory.CompleteFetch | src/accessories/BaseAccessory.ts:309-340 | It settles the promise and updates the cache as `FetchOutcome` says. |
| BaseAccessories.BaseAccessory.SetDeviceState | src/accessories/BaseAccessory.ts:363-378 | It merges the fragment before the command is recorded, and passes on the call's outcome. |
| BaseAccessories.BaseAccessory.UpdateState | src/accessories/BaseAccessory.ts:421-428 | It sets the cache, then invokes every callback in insertion order. |
| BaseAccessories.InvokeAll | src/accessories/BaseAccessory.ts:423-427 | The loop over the callback map yields one invocation per registered key, in insertion order, each with the callback registered under that key and the new state. |
| BaseAccessories.BaseAccessory.AddUpdateCallback | src/accessories/BaseAccessory.ts:430-435 | It is the table's `set`. |
| BaseAccessories.BaseAccessory.SetTuyaCharacteristic | src/accessories/BaseAccessory.ts:254-262 | It invokes only that key's callback and keeps the accessory valid. |
| BaseAccessories.CoalescedReads | src/accessories/BaseAccessory.ts:343-355 | Two readers before a fire share a promise. After the fire, a new reader gets a new one. A second fire does nothing. There is at most one fetch. |
| ColorAccessories.Coalesce | src/accessories/ColorAccessory.ts:49-52 | `a ?? b`. |
| ColorAccessories.ColorAccessory.constructor | src/accessories/ColorAccessory.ts:59-61 | No remembered colour and no pending send. |
| ColorAccessories.ColorAccessory.SetColor | src/accessories/ColorAccessory.ts:63-76 | It remembers the given components and keeps the others. It joins the pending send or opens one. |
| ColorAccessories.ColorAccessory.SetHue | src/accessories/characteristics/hue.ts:36-50 | It delegates to `setColor({hue})`. The saturation is unchanged. |
| ColorAccessories.ColorAccessory.SetSaturation | src/accessories/characteristics/saturation.ts:39-52 | It delegates to `setColor({saturation})`. The hue is unchanged. |
| ColorAccessories.ColorAccessory.FireColor | src/accessories/ColorAccessory.ts:45-57 | It clears the slot and sends one `colorSet` from the remembered colour, which stays remembered. It settles the promise with the write's outcome. It merges the command's fragment into the cache and keeps both objects' invariants. The base accessory's promises, fetches, callbacks and invocations are unchanged. |
| ColorAccessories.NeverSetIsZero | src/accessories/ColorAccessory.ts:49-52 | A component never set is sent as 0. |
| ColorAccessories.PayloadScalesSaturation | src/accessories/ColorAccessory.ts:26-30 | The payload carries the hue as given and the saturation divided by 100. |
| ColorAccessories.PayloadBrightness | src/accessories/ColorAccessory.ts:20-25 | The brightness comes from any snapshot, stale or not. With none it is 100. |
| ColorAccessories.MissingBrightnessIsNaN | src/accessories/ColorAccessory.ts:20-25 | A snapshot without brightness sends NaN. |
| ColorAccessories.FragmentIsUnscaledText | src/accessories/ColorAccessory.ts:35-41 | The fragment holds the unscaled components as text, and mode "color". |
| ColorAccessories.WrittenColorReadsDefault | src/accessories/ColorAccessory.ts:35-41 | As written, after a colour write the hue and the saturation read 0. |
| ColorAccessories.IntendedColorReadsBack | src/accessories/ColorAccessory.ts:35-41 | With the membership test, whole-number hue and saturation read back. |
| ColorAccessories.HueThenSaturation | src/accessories/ColorAccessory.ts:63-76 | Hue, saturation, then hue again share one send, which carries the last hue and the saturation. |
| LightAccessories.ConfiguredSelection | src/accessories/LightAccessory.ts:38-61 | Each configured word selects its classes; "Color" selects both hue and saturation. The order is fixed and `On` is never selected. |
| LightAccessories.ConfigIgnoresDevice | src/accessories/LightAccessory.ts:38-61 | A configured list ignores the device, and the order and repetition of its words. |
| LightAccessories.InitialList | src/accessories/LightAccessory.ts:24-61 | `On` comes first and no class repeats. |
| FanAccessories.SelectionIsSpeedAtMost | src/accessories/FanAccessory.ts:28-42 | At most RotationSpeed is selected. A configured list selects it iff the list holds "Speed". |
| DimmerAccessories.Selected | src/accessories/DimmerAccessory.ts:28-44 | Without a configuration, the capability selection applies. |
| DimmerAccessories.EmptyConfigSelectsNothing | src/accessories/DimmerAccessory.ts:28-44 | A configuration that lacks `dimmer_characteristics` selects nothing. |
| DimmerAccessories.ConfiguredList | src/accessories/DimmerAccessory.ts:28-44 | Brightness is selected iff the list holds "Brightness". |
| DimmerAccessories.UnconfiguredFollowsCapability | src/accessories/DimmerAccessory.ts:28-44 | Without a configuration, Brightness follows the capability test. |
| DimmerAccessories.NumberListThrows | src/accessories/DimmerAccessory.ts:28-44 | A number in place of the list throws. |
| WindowAccessories.SelectionIsHoldAtMost | src/accessories/WindowAccessory.ts:39-53 | At most HoldPosition is selected. A configured list chooses it iff it holds "Stop"; otherwise the capability test decides. |
| FixedAccessories.AllRequiredSelectsNothing | src/accessories/BaseAccessory.ts:60-64 | With equal supported and required lists, nothing is added. |
| FixedAccessories.FixedListsAreDistinct | src/accessories/ClimateAccessory.ts:105-123 | No fixed list repeats a class. |
| TemperatureConfig.HalfStep | src/accessories/ClimateAccessory.ts:49-50 | The result is a multiple of 0.5 within 0.25 of the input. |
| TemperatureConfig.WithSetting | src/accessories/ClimateAccessory.ts:50 | The assignment changes that key of an object configuration. |
| TemperatureConfig.TemperatureFactor | src/accessories/ClimateAccessory.ts:24-38 | `Number(value)` when truthy, else 1. |
| TemperatureConfig.CheckSetting | src/accessories/ClimateAccessory.ts:42-52 | It appends the "wrong value" error to the list iff the value is truthy but 0 or NaN, and otherwise leaves the list alone. The returned configuration is the one with a usable value rewritten. |
| TemperatureConfig.CheckedReadsBack | src/accessories/ClimateAccessory.ts:48-51 | After the check, a usable setting reads as its number, rounded to the half step where asked. |
| TemperatureConfig.CheckedKeepsOthers | src/accessories/ClimateAccessory.ts:42-86 | A check leaves every other setting alone. |
| ClimateAccessories.ValidateConfigOverwrites | src/accessories/ClimateAccessory.ts:40-103 | The errors are the parse errors in order, then the ordering error only when there was no parse error. The result is the four rewrites. |
| ClimateAccessories.RewrittenSettings | src/accessories/ClimateAccessory.ts:42-86 | Each setting ends as its own check left it. |
| ClimateAccessories.RewrittenTargetProps | src/accessories/BaseAccessory.ts:82-84 | After the in-place rewrite, `TargetTemperature`'s minimum and maximum are the half steps of usable configured bounds. A bound whose half step is 0 gives way to the device's value, and any other setting reads as before. The step stays 0.5. |
| ClimateAccessories.ParseErrorsExactly | src/accessories/ClimateAccessory.ts:42-86 | The list names exactly the failed settings, and never the ordering error. |
| ClimateAccessories.MessagesDistinct | src/accessories/ClimateAccessory.ts:46-99 | The messages are distinct. |
| ClimateAccessories.ParseErrorSkipsOrdering | src/accessories/ClimateAccessory.ts:88-91 | A parse error suppresses the ordering check. |
| ClimateAccessories.OrderingOnHalfSteps | src/accessories/ClimateAccessory.ts:93-101 | The check compares the rounded bounds. A bound that rounds to 0 turns it off. |
| ClimateAccessories.OrderingExamples | src/accessories/ClimateAccessory.ts:93-101 | Bounds 25 and 20 are inverted. A bound of 0 is not checked. |
| ClimateAccessories.CheckedFactorsAreUsable | src/accessories/ClimateAccessory.ts:24-38 | Where the check passed, both factors are non-zero numbers. |
| ClimateAccessories.HalfStepExample | src/accessories/ClimateAccessory.ts:49-50 | 20.3 rounds to 20.5 and 20.2 to 20. |
| TemperatureSensorAccessories.ValidateConfigOverwrites | src/accessories/TemperatureSensorAccessory.ts:28-43 | An error iff the factor is truthy but 0 or NaN. Otherwise the factor is rewritten. |
| TemperatureSensorAccessories.NoConfig | src/accessories/TemperatureSensorAccessory.ts:20-26 | No configuration gives factor 1 and no error. |
| TemperatureSensorAccessories.CheckedFactorReadsBack | src/accessories/TemperatureSensorAccessory.ts:20-40 | After the check the getter reads the same non-zero factor. |

## Left out

- Timers. The 500 ms debounce and its 1500 ms maximum wait are replaced by explicit request, fire and answer steps. The same holds for the colour accessory's own debounce and the momentary switch's reset timer.
- The network, the cloud API client, logging, and the wiring to HomeKit services are left out. Calls to the cloud are recorded as commands whose outcome is a parameter. Pushes of a value to HomeKit without a callback are not recorded.
- `setProps` is modelled as the property values it computes. The HomeKit objects it changes are left out.
- The older `getRemoteValue` of `Active` and `Saturation` reads a per-characteristic cache through `getCachedState`, `setCachedState` and `invalidateCache`. Those methods are not part of this model. Their `updateValue` and writes are modelled.
- HoldPosition has no `updateValue` in the source, so the model has none either.
- TargetTemperatureCharacteristic.SetRemoteValue: a factor of 0 (a truthy "0", which the configuration validation only logs) caches `temperature / 0`. That is ±Infinity in JavaScript for a non-zero write, and the model caches NaN. Reads agree, because a cached ±Infinity times 0 is NaN and fails like the model's NaN.
- Number parsing of hexadecimal, octal and binary literals and of "Infinity" is left out. Those strings are NaN here. Signed decimals with an optional exponent are parsed.
- `String` of a non-integer uses a fixed decimal form, not JavaScript's shortest round-trip form.
- Property names inherited from `Object.prototype` (`toString`, `constructor`, …) are not seen by `in`, by lookups or by the session's region table. Such names are treated as absent.
- DeviceLists: JavaScript lists integer-like keys of a plain object before the other keys. The model keeps insertion order throughout.
- ObjectHelpers.ObjectHasKeys: the source loop assigns an undeclared global `key`. That global is not modelled. `in` on a primitive throws, and reading a property of a primitive gives `undefined`.
- BaseAccessories.BaseAccessory.constructor: it takes the device configuration as already validated. Running `validateConfigOverwrites` in place first is modelled separately, by `ClimateAccessories.ValidateConfigOverwrites` and `TemperatureSensorAccessories.ValidateConfigOverwrites`. `ClimateAccessories.RewrittenTargetProps` states how `TargetTemperature`'s bounds read the rewritten configuration. The composition into one constructor step is not modelled.
- BrightnessCharacteristic.UpdateValue: the readings of the model have no infinities. With `min_brightness` equal to `max_brightness`, the mapping divides by zero. JavaScript then reports ±Infinity (a truthy value) for any reading off the range start. The model reports the parse failure instead. A reading at the range start is NaN and fails in both.
- JsValue.Lower: case mapping covers the ASCII letters only, while JavaScript's `toLowerCase` and `toUpperCase` follow Unicode. So `BaseAccessories.ModelName` differs from the source on a non-ASCII `dev_type`: "ß" upper-cases to "SS" in JavaScript. The word tests against "true", "false" and the colour words need only ASCII.
- JsValue.IsArrayPropertyName: names inherited from `Array.prototype` (`map`, `includes`, `push`, …) are not seen. In JavaScript `color_mode in COLOR_MODES` is also true for these names, so a light whose `color_mode` is such a name would read its colour. The model reads the default.
- Error messages are kept as their fixed text. The brightness parse error also carries `inspect(data)`, which is not modelled. The colour-temperature refusal also carries the value's JSON text and its `typeof`, which are not modelled either. These are `BrightnessCharacteristic.ParseFailure` and `ColorTemperatureCharacteristic.UnexpectedValue`.
- BaseAccessories.BaseAccessory.UpdateState: the `callback !== null` test is not modelled, because every registered callback is a function.
- The platform's discovery loop is outside this model. So are the cloud client's polling and `inspect` and JSON formatting of logged values.

## Findings

| source | as written | input that shows it | evidently intended | confidence | as-written member | corrected member |
|---|---|---|---|---|---|---|
| src/accessories/characteristics/hue.ts:56 | `data.color_mode in COLOR_MODES` tests whether the mode is a property name of the array ("0", "1", "length"). The same test is at saturation.ts:56 and brightness.ts:34. | A colour write caches `color_mode: "color"`. Hue and saturation then read the default 0, not the written colour. | Membership: `COLOR_MODES.includes(color_mode)`, so a light in colour mode reads its colour back. | medium, not executed | ColorAccessories.WrittenColorReadsDefault | ColorAccessories.IntendedColorReadsBack |
| lib/helpers.js:7 | `t = target[key]` reads each next level from the top-level target. | `objectHasKeys({a:{b:{c:{}}}}, "a", "b", "c")` throws a TypeError, because `target.b` is undefined. | `t = t[key]`: the walk follows the nested path. | medium, not executed | ObjectHelpers.NestedPathThrows | ObjectHelpers.NestedFindsChain |

The rest of the model keeps both pieces of code as written. The corrected readings are
`HueCharacteristic.IntendedUpdateValue`, `SaturationCharacteristic.IntendedUpdateValue`
and `ObjectHelpers.NestedHasKeys`. `ObjectHelpers.AgreeOnShortPaths` shows that the
corrected walk gives the same answers for the one- and two-key calls that its callers
make.
