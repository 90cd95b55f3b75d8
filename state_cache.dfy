/**
 * The per-accessory device-state cache: the last state bag and the epoch
 * second until which it counts as fresh.
 */
module StateCache {
  import opened JsValue

  /** The cache's clock: `Math.ceil(ms / 1000)`. */
  function Epoch(nowMs: nat): (e: nat)
    ensures (e as int - 1) * 1000 < nowMs <= e * 1000
  {
    (nowMs + 999) / 1000
  }

  /** How long past a `set` the cache stays fresh, in seconds, besides the device timeout. */
  const Grace: nat := 5

  datatype CacheState = CacheState(value: Option<DeviceState>, validUntil: int)

  /** A new cache: nothing stored, expired since epoch 0. */
  const Empty := CacheState(None, 0)

  /** `{ ...old, ...data }`: the fragment's keys win; the rest keep the old values. */
  function Merged(prev: Option<DeviceState>, data: DeviceState): (m: DeviceState)
    ensures forall k :: k in data ==> k in m && m[k] == data[k]
    ensures prev.Some? ==> forall k :: k in prev.value && k !in data ==> k in m && m[k] == prev.value[k]
    ensures m.Keys == data.Keys + (if prev.Some? then prev.value.Keys else {})
  {
    if prev.None? then data else prev.value + data
  }

  /** `valid`: fresh and holding something. */
  predicate IsValid(c: CacheState, nowMs: nat)
  {
    c.validUntil > Epoch(nowMs) && c.value.Some?
  }

  /** `get(always)`. */
  function Lookup(c: CacheState, always: bool, nowMs: nat): Option<DeviceState>
  {
    if !always && !IsValid(c, nowMs) then None else c.value
  }

  function AfterMerge(c: CacheState, data: DeviceState): CacheState
  {
    CacheState(Some(Merged(c.value, data)), c.validUntil)
  }

  function AfterSet(c: CacheState, data: DeviceState, nowMs: nat, timeout: nat): CacheState
  {
    AfterMerge(CacheState(c.value, Epoch(nowMs) + timeout + Grace), data)
  }

  function AfterRenew(c: CacheState, nowMs: nat, timeout: nat): CacheState
  {
    match Lookup(c, true, nowMs)
    case None => c
    case Some(d) => AfterSet(c, d, nowMs, timeout)
  }

  /** The mutable cache of one accessory. */
  class Cache {
    var value: Option<DeviceState>
    var validUntil: int
    /** `TUYA_DEVICE_TIMEOUT`, in seconds. */
    const deviceTimeout: nat

    function State(): CacheState
      reads this
    {
      CacheState(value, validUntil)
    }

    constructor(deviceTimeout: nat)
      ensures State() == Empty && this.deviceTimeout == deviceTimeout
    {
      value := None;
      validUntil := 0;
      this.deviceTimeout := deviceTimeout;
    }

    /** `Object.assign(new Cache(), context.cache)`: a persisted cache's fields over a fresh one. */
    constructor Restored(deviceTimeout: nat, persisted: CacheState)
      ensures State() == persisted && this.deviceTimeout == deviceTimeout
    {
      value := persisted.value;
      validUntil := persisted.validUntil;
      this.deviceTimeout := deviceTimeout;
    }

    function Get(always: bool, nowMs: nat): Option<DeviceState>
      reads this
    {
      Lookup(State(), always, nowMs)
    }

    method Merge(data: DeviceState)
      modifies this
      ensures State() == AfterMerge(old(State()), data)
    {
      value := Some(Merged(value, data));
    }

    method Set(data: DeviceState, nowMs: nat)
      modifies this
      ensures State() == AfterSet(old(State()), data, nowMs, deviceTimeout)
    {
      validUntil := Epoch(nowMs) + deviceTimeout + Grace;
      Merge(data);
    }

    method Renew(nowMs: nat)
      modifies this
      ensures State() == AfterRenew(old(State()), nowMs, deviceTimeout)
    {
      var data := Get(true, nowMs);
      if data.Some? {
        Set(data.value, nowMs);
      }
    }
  }

  // ---------------------------------------------------------------------
  // Properties

  /** A new cache holds nothing, fresh or not. */
  lemma EmptyHoldsNothing(always: bool, nowMs: nat)
    ensures Lookup(Empty, always, nowMs) == None
  {
  }

  /**
   * After `set` at time t, a plain `get` answers until the epoch reaches
   * `Epoch(t) + timeout + 5`: at every instant up to 1000 ms before that
   * second ends, and at none from then on.
   */
  lemma FreshnessWindow(c: CacheState, data: DeviceState, t: nat, timeout: nat, nowMs: nat)
    ensures Lookup(AfterSet(c, data, t, timeout), false, nowMs).Some?
            <==> nowMs <= (Epoch(t) + timeout + Grace - 1) * 1000
  {
    var e := Epoch(nowMs);
    var bound := Epoch(t) + timeout + Grace;
    if nowMs <= (bound - 1) * 1000 {
      assert e <= bound - 1;
    } else {
      assert (e - 1) * 1000 < nowMs;
      assert e >= bound;
    }
  }

  /** A set stores the state it is given on top of whatever was there. */
  lemma SetStoresState(c: CacheState, data: DeviceState, t: nat, timeout: nat)
    ensures Lookup(AfterSet(c, data, t, timeout), true, t) == Some(Merged(c.value, data))
    ensures Lookup(AfterSet(c, data, t, timeout), false, t) == Some(Merged(c.value, data))
  {
    FreshnessWindow(c, data, t, timeout, t);
  }

  /** A merge is shallow: a nested object such as `color` is replaced whole. */
  lemma MergeReplacesNested(c: CacheState, inner: map<string, JsVal>)
    requires c.value.Some? && "color" in c.value.value && c.value.value["color"].Obj?
    ensures AfterMerge(c, map["color" := Obj(inner)]).value.value["color"] == Obj(inner)
  {
  }

  /** A merge never makes the cache fresher or staler. */
  lemma MergeKeepsExpiry(c: CacheState, data: DeviceState, nowMs: nat)
    ensures AfterMerge(c, data).validUntil == c.validUntil
    ensures c.value.Some? ==> (IsValid(AfterMerge(c, data), nowMs) <==> IsValid(c, nowMs))
  {
  }

  /** `get(true)` ignores expiry and is empty only when nothing was ever stored. */
  lemma AlwaysReturnsValue(c: CacheState, nowMs: nat)
    ensures Lookup(c, true, nowMs) == c.value
  {
  }

  /** A renew of an empty cache changes nothing. */
  lemma RenewEmpty(c: CacheState, nowMs: nat, timeout: nat)
    requires c.value.None?
    ensures AfterRenew(c, nowMs, timeout) == c
  {
  }

  /** A renew of a stored state keeps it and makes it fresh again for the full window. */
  lemma RenewKeepsValue(c: CacheState, nowMs: nat, timeout: nat)
    requires c.value.Some?
    ensures AfterRenew(c, nowMs, timeout) == CacheState(c.value, Epoch(nowMs) + timeout + Grace)
  {
    var d := c.value.value;
    assert d + d == d;
  }
}
