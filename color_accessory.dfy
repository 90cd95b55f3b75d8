/**
 * The colour accessory: HomeKit writes hue and saturation separately, the
 * accessory remembers both and sends them together in one `colorSet` when
 * its own debounce timer fires. As with the device-state request, the timer
 * becomes an explicit `FireColor` step and promises are numbered.
 */
module ColorAccessories {
  import opened JsValue
  import opened Errors
  import opened DeviceApi
  import opened StateCache
  import opened BaseAccessories
  import BrightnessCharacteristic
  import HueCharacteristic
  import SaturationCharacteristic

  /** `a ?? b`. */
  function Coalesce(a: JsVal, b: JsVal): (r: JsVal)
    ensures (a == Undef || a == Null) ==> r == b
    ensures !(a == Undef || a == Null) ==> r == a
  {
    if a == Undef || a == Null then b else a
  }

  /** The brightness `setRemoteColor` sends: the snapshot's, however stale, else the default 100. */
  function ColorBrightness(snapshot: Option<DeviceState>): Option<real>
  {
    if snapshot.Some? then ToNumber(Field(snapshot.value, "brightness"))
    else Some(BrightnessCharacteristic.DefaultValue)
  }

  /** `setRemoteColor({hue, saturation})`: one `colorSet` command. */
  function ColorCommand(snapshot: Option<DeviceState>, hue: Option<real>, saturation: Option<real>): Command
  {
    var scaled := if saturation.Some? then Some(saturation.value / 100.0) else None;
    Command(
      ColorSet,
      map["color" := Obj(map["hue" := JsNum(hue), "saturation" := JsNum(scaled),
                             "brightness" := JsNum(ColorBrightness(snapshot))])],
      map["color" := Obj(map["hue" := Str(ToStr(JsNum(hue))), "saturation" := Str(ToStr(JsNum(saturation)))]),
          "color_mode" := ColorModes[0]])
  }

  /** The numbers the debounced body hands to `setRemoteColor`: a never-set component is 0. */
  function SendValue(remembered: JsVal, default: real): Option<real>
  {
    ToNumber(Coalesce(remembered, Num(default)))
  }

  class ColorAccessory {
    const base: BaseAccessory
    /** The remembered components; `Undef` until first set. */
    var hue: JsVal
    var saturation: JsVal
    /** `debouncePromise`: shared by every `setColor` before the next send. */
    var pending: Option<nat>
    var nextPromise: nat
    /** How each send promise settled: `None` resolved, `Some(e)` rejected with `e`. */
    var settled: map<nat, Option<Error>>

    predicate Valid()
      reads this
    {
      && (pending.Some? ==> pending.value < nextPromise && pending.value !in settled)
      && (forall p :: p in settled ==> p < nextPromise)
    }

    constructor(base: BaseAccessory)
      ensures Valid()
      ensures this.base == base && hue == Undef && saturation == Undef && pending == None && settled == map[]
    {
      this.base := base;
      hue := Undef;
      saturation := Undef;
      pending := None;
      nextPromise := 0;
      settled := map[];
    }

    /** `setColor(color)`: remember what is given, keep the rest, and join the pending send. */
    method SetColor(newHue: JsVal, newSaturation: JsVal) returns (p: nat)
      requires Valid()
      modifies this
      ensures Valid()
      ensures hue == Coalesce(newHue, old(hue)) && saturation == Coalesce(newSaturation, old(saturation))
      ensures old(pending).Some? ==> p == old(pending).value
      ensures old(pending).None? ==> p == old(nextPromise)
      ensures pending == Some(p) && settled == old(settled)
    {
      if pending.None? {
        pending := Some(nextPromise);
        nextPromise := nextPromise + 1;
      }
      hue := Coalesce(newHue, hue);
      saturation := Coalesce(newSaturation, saturation);
      p := pending.value;
    }

    /** `HueCharacteristic.setRemoteValue`: delegate to `setColor({hue: value})`. */
    method SetHue(value: JsVal) returns (p: nat)
      requires Valid()
      modifies this
      ensures Valid()
      ensures hue == Coalesce(value, old(hue)) && saturation == old(saturation)
      ensures old(pending).Some? ==> p == old(pending).value
      ensures pending == Some(p) && settled == old(settled)
    {
      p := SetColor(value, Undef);
    }

    /** `SaturationCharacteristic`'s write: delegate to `setColor({saturation: value})`. */
    method SetSaturation(value: JsVal) returns (p: nat)
      requires Valid()
      modifies this
      ensures Valid()
      ensures saturation == Coalesce(value, old(saturation)) && hue == old(hue)
      ensures old(pending).Some? ==> p == old(pending).value
      ensures pending == Some(p) && settled == old(settled)
    {
      p := SetColor(Undef, value);
    }

    /**
     * The debounced body: take the pending promise and clear the slot, send
     * the remembered colour (never cleared), and settle the promise with the
     * outcome of the write; `upstream` is how the cloud call ends.
     */
    method FireColor(nowMs: nat, upstream: Option<Error>) returns (p: nat)
      requires Valid() && pending.Some? && base.Valid()
      modifies this, base, base.cache
      ensures Valid() && base.Valid()
      ensures p == old(pending).value && pending == None && nextPromise == old(nextPromise)
      ensures settled == old(settled)[p := upstream]
      ensures hue == old(hue) && saturation == old(saturation)
      ensures var command := ColorCommand(old(base.CachedValue(true, nowMs)),
                                          SendValue(old(hue), HueCharacteristic.DefaultValue),
                                          SendValue(old(saturation), SaturationCharacteristic.DefaultValue));
        base.upstreamWrites == old(base.upstreamWrites) + [command]
        && base.cache.State() == AfterMerge(old(base.cache.State()), command.fragment)
      ensures base.pending == old(base.pending) && base.nextPromise == old(base.nextPromise)
      ensures base.fetching == old(base.fetching) && base.settled == old(base.settled)
      ensures base.fetchCount == old(base.fetchCount) && base.updateCallbacks == old(base.updateCallbacks)
      ensures base.invocations == old(base.invocations)
    {
      p := pending.value;
      pending := None;
      var h := SendValue(hue, HueCharacteristic.DefaultValue);
      var s := SendValue(saturation, SaturationCharacteristic.DefaultValue);
      var snapshot := base.CachedValue(true, nowMs);
      var failure := base.SetDeviceState(ColorCommand(snapshot, h, s), upstream);
      settled := settled[p := failure];
    }
  }

  // ---------------------------------------------------------------------
  // Properties of the send

  /** A component that was never set is sent as 0. */
  lemma NeverSetIsZero()
    ensures SendValue(Undef, HueCharacteristic.DefaultValue) == Some(0.0)
    ensures SendValue(Undef, SaturationCharacteristic.DefaultValue) == Some(0.0)
  {
  }

  /** The payload carries the hue as given and the saturation divided by 100. */
  lemma PayloadScalesSaturation(snapshot: Option<DeviceState>, h: real, s: real)
    ensures var color := ColorCommand(snapshot, Some(h), Some(s)).payload["color"];
      Get(color, "hue") == Num(h) && Get(color, "saturation") == Num(s / 100.0)
  {
  }

  /** The brightness comes from any snapshot, even a stale one; with none it is 100. */
  lemma PayloadBrightness(snapshot: Option<DeviceState>, h: Option<real>, s: Option<real>)
    ensures var b := Get(ColorCommand(snapshot, h, s).payload["color"], "brightness");
      (snapshot.None? ==> b == Num(100.0))
      && (snapshot.Some? ==> b == JsNum(ToNumber(Field(snapshot.value, "brightness"))))
  {
  }

  /** A snapshot without a brightness sends NaN, since `Number(undefined)` is NaN. */
  lemma MissingBrightnessIsNaN(snapshot: DeviceState, h: Option<real>, s: Option<real>)
    requires "brightness" !in snapshot
    ensures Get(ColorCommand(Some(snapshot), h, s).payload["color"], "brightness") == NaN
  {
  }

  /** The cache fragment keeps the unscaled saturation, as text, and marks the mode "color". */
  lemma FragmentIsUnscaledText(snapshot: Option<DeviceState>, h: real, s: real)
    ensures var f := ColorCommand(snapshot, Some(h), Some(s)).fragment;
      f.Keys == {"color", "color_mode"}
      && f["color"] == Obj(map["hue" := Str(FormatNumber(h)), "saturation" := Str(FormatNumber(s))])
      && f["color_mode"] == Str("color")
  {
  }

  /**
   * The written colour does not read back: the fragment's `color_mode` is
   * "color", which is not a property name of `COLOR_MODES`, so after the
   * merge both hue and saturation read as their default 0.
   */
  lemma WrittenColorReadsDefault(cached: DeviceState, snapshot: Option<DeviceState>, h: real, s: real)
    ensures var after := cached + ColorCommand(snapshot, Some(h), Some(s)).fragment;
      HueCharacteristic.UpdateValue(after) == Reported(Some(0.0))
      && SaturationCharacteristic.UpdateValue(after) == Reported(Some(0.0))
  {
    var after := cached + ColorCommand(snapshot, Some(h), Some(s)).fragment;
    assert Field(after, "color_mode") == Str("color");
    HueCharacteristic.ColorModeWordsReadDefault(after);
    SaturationCharacteristic.ColorModeWordsReadDefault(after);
  }

  /**
   * With the membership test, a colour write reads back: whole-number hue
   * and saturation survive the text round trip of the cache fragment.
   */
  lemma IntendedColorReadsBack(cached: DeviceState, snapshot: Option<DeviceState>, h: int, s: int)
    ensures var after := cached + ColorCommand(snapshot, Some(h as real), Some(s as real)).fragment;
      HueCharacteristic.IntendedUpdateValue(after) == Reported(Some(h as real))
      && SaturationCharacteristic.IntendedUpdateValue(after) == Reported(Some(s as real))
  {
    MergedFragment(cached, snapshot, h as real, s as real);
    WholeNumberText(h);
    WholeNumberText(s);
    assert Includes(ColorModes, Str("color"));
  }

  /** After the merge the state holds the fragment's mode and its components as text. */
  lemma MergedFragment(cached: DeviceState, snapshot: Option<DeviceState>, h: real, s: real)
    ensures var after := cached + ColorCommand(snapshot, Some(h), Some(s)).fragment;
      Field(after, "color_mode") == Str("color")
      && Get(Field(after, "color"), "hue") == Str(FormatNumber(h))
      && Get(Field(after, "color"), "saturation") == Str(FormatNumber(s))
  {
  }

  /** The text of a whole number is truthy and converts back to that number. */
  lemma WholeNumberText(k: int)
    ensures Truthy(Str(FormatNumber(k as real)))
    ensures ToNumber(Str(FormatNumber(k as real))) == Some(k as real)
  {
    FormatNumberStart(k as real);
    IntegerRoundTrip(k);
  }

  /** Two hue writes before one send: the last hue and the earlier saturation go out together. */
  method HueThenSaturation(a: ColorAccessory, h1: real, h2: real, s: real, nowMs: nat) returns (p1: nat, p2: nat, p3: nat)
    requires a.Valid() && a.pending.None? && a.base.Valid()
    modifies a, a.base, a.base.cache
    ensures a.base.Valid()
    ensures p1 == p2 && p2 == p3
    ensures a.hue == Num(h2) && a.saturation == Num(s)
    ensures |a.base.upstreamWrites| > 0
    ensures a.base.upstreamWrites[|a.base.upstreamWrites| - 1]
            == ColorCommand(old(a.base.CachedValue(true, nowMs)), Some(h2), Some(s))
  {
    p1 := a.SetHue(Num(h1));
    p2 := a.SetSaturation(Num(s));
    var q := a.SetHue(Num(h2));
    assert q == p1;
    assert a.base.cache.State() == old(a.base.cache.State());
    p3 := a.FireColor(nowMs, None);
  }
}
