/**
 * The device-state engine every accessory shares: one state cache, one
 * pending device-state promise that all readers before the next debounced
 * fire share, the table of characteristic update callbacks, and the
 * characteristic selection and Model-name rules.
 *
 * The debounce timer is replaced by explicit steps: `GetDeviceState` is a
 * request, `ResolveDeviceStateRequest` is the timer firing, and
 * `CompleteFetch` is the upstream call's answer arriving. Promises are
 * numbered; `settled` records how each one settled.
 */
module BaseAccessories {
  import opened JsValue
  import opened Errors
  import opened DeviceApi
  import opened TuyaBool
  import opened StateCache
  import Hap
  import opened Characteristics

  // ---------------------------------------------------------------------
  // Resolving a device-state request

  /** The common rule of both paths: resolve with the state iff it says it is online. */
  function OnlineOutcome(d: DeviceState): (o: Outcome)
    ensures o.Resolved? <==> TuyaBoolean(Field(d, "online"))
    ensures o.Resolved? ==> o.state == d
    ensures o.Rejected? ==> o.error == DeviceOfflineError
  {
    if !TuyaBoolean(Field(d, "online")) then Rejected(DeviceOfflineError) else Resolved(d)
  }

  /** The outcome of serving from a live cache, or `None` when a fetch is needed. */
  function FromCache(c: CacheState, nowMs: nat): (r: Option<Outcome>)
    ensures r.Some? <==> IsValid(c, nowMs)
    ensures r.Some? ==> r.value == OnlineOutcome(c.value.value)
  {
    match Lookup(c, false, nowMs)
    case Some(cached) => Some(OnlineOutcome(cached))
    case None => None
  }

  /** How a promise settles after a fetch, and the cache that results. */
  datatype Resolution = Resolution(outcome: Outcome, cache: CacheState)

  /** `reject(error)` for an `Error`, `reject(new Error(JSON.stringify(error)))` otherwise. */
  function Rejection(t: Thrown): Error
  {
    match t
    case ThrownError(e) => e
    case ThrownValue(json) => OtherError(json)
  }

  /** The part of `resolveDeviceStateRequest` after `await getDeviceState`. */
  function FetchOutcome(c: CacheState, r: FetchResult, nowMs: nat, timeout: nat): Resolution
  {
    match r
    case Fetched(data) =>
      Resolution(OnlineOutcome(data), AfterSet(c, data, nowMs, timeout))
    case FetchFailed(t) =>
      if t.ThrownError? && t.error.RateLimitError? then
        var data := Lookup(c, true, nowMs);
        var online := if data.Some? then Field(data.value, "online") else Undef;
        if !TuyaBoolean(online) then Resolution(Rejected(DeviceOfflineError), c)
        else if data.Some? then Resolution(Resolved(data.value), AfterRenew(c, nowMs, timeout))
        else Resolution(Rejected(Rejection(t)), c)
      else
        Resolution(Rejected(Rejection(t)), c)
  }

  /** The cache-hit path and the fetch path settle a promise by the same rule. */
  lemma SameOnlineRule(c: CacheState, d: DeviceState, nowMs: nat, timeout: nat)
    requires IsValid(c, nowMs) && c.value == Some(d)
    ensures FromCache(c, nowMs) == Some(FetchOutcome(c, Fetched(d), nowMs, timeout).outcome)
  {
  }

  /** A successful fetch is written to the cache first, even when the device is offline. */
  lemma FetchedIsCached(c: CacheState, d: DeviceState, nowMs: nat, timeout: nat)
    ensures var res := FetchOutcome(c, Fetched(d), nowMs, timeout);
      res.cache == AfterSet(c, d, nowMs, timeout)
      && res.cache.value == Some(Merged(c.value, d))
      && (res.outcome.Resolved? <==> TuyaBoolean(Field(d, "online")))
  {
  }

  /** On a rate limit, an online snapshot, however stale, is renewed and served. */
  lemma RateLimitServesSnapshot(c: CacheState, m: string, nowMs: nat, timeout: nat)
    requires c.value.Some? && TuyaBoolean(Field(c.value.value, "online"))
    ensures var res := FetchOutcome(c, FetchFailed(ThrownError(RateLimitError(m))), nowMs, timeout);
      res.outcome == Resolved(c.value.value)
      && res.cache == CacheState(c.value, Epoch(nowMs) + timeout + Grace)
  {
    RenewKeepsValue(c, nowMs, timeout);
  }

  /** On a rate limit with no snapshot, or an offline one, the device is reported offline. */
  lemma RateLimitWithoutSnapshot(c: CacheState, m: string, nowMs: nat, timeout: nat)
    requires c.value.None? || !TuyaBoolean(Field(c.value.value, "online"))
    ensures FetchOutcome(c, FetchFailed(ThrownError(RateLimitError(m))), nowMs, timeout)
            == Resolution(Rejected(DeviceOfflineError), c)
  {
    TuyaBooleanOfMissing();
  }

  /** Any other failure rejects with what was thrown and leaves the cache alone. */
  lemma OtherFailurePassesThrough(c: CacheState, t: Thrown, nowMs: nat, timeout: nat)
    requires !(t.ThrownError? && t.error.RateLimitError?)
    ensures FetchOutcome(c, FetchFailed(t), nowMs, timeout) == Resolution(Rejected(Rejection(t)), c)
    ensures t.ThrownValue? ==> Rejection(t) == OtherError(t.json)
  {
  }

  /**
   * No reader ever sees a `RateLimitError`: the final fall-through of the
   * rate-limit branch, which would pass it on, cannot be reached.
   */
  lemma RateLimitNeverEscapes(c: CacheState, r: FetchResult, nowMs: nat, timeout: nat)
    ensures !FetchOutcome(c, r, nowMs, timeout).outcome.Rejected?
            || !FetchOutcome(c, r, nowMs, timeout).outcome.error.RateLimitError?
  {
    if r.FetchFailed? && r.thrown.ThrownError? && r.thrown.error.RateLimitError? {
      TuyaBooleanOfMissing();
    }
  }

  // ---------------------------------------------------------------------
  // The update-callback table: a JavaScript `Map`, which iterates in insertion order

  /** Which characteristic's `updateValue` was invoked, for which key, with which state. */
  datatype Invocation = Invocation(key: Hap.CharacteristicType, kind: Kind, data: DeviceState)

  predicate NoDuplicates<T(==)>(s: seq<T>)
  {
    forall i, j :: 0 <= i < j < |s| ==> s[i] != s[j]
  }

  datatype CallbackList = CallbackList(keys: seq<Hap.CharacteristicType>, entries: map<Hap.CharacteristicType, Kind>)
  {
    /** The insertion order lists each key of the map exactly once. */
    predicate Valid()
    {
      NoDuplicates(keys) && (forall k :: k in entries <==> k in keys)
    }

    /** `map.set(key, callback)`: a new key goes last; an existing key keeps its place. */
    function Set(key: Hap.CharacteristicType, kind: Kind): (r: CallbackList)
      requires Valid()
      ensures r.Valid()
      ensures r.entries == entries[key := kind]
      ensures key in entries ==> r.keys == keys
      ensures key !in entries ==> r.keys == keys + [key]
    {
      CallbackList(if key in entries then keys else keys + [key], entries[key := kind])
    }
  }

  const NoCallbacks := CallbackList([], map[])

  /** The invocations `updateState` makes: one per key, in insertion order. */
  function Dispatch(keys: seq<Hap.CharacteristicType>, entries: map<Hap.CharacteristicType, Kind>, data: DeviceState): seq<Invocation>
    requires forall k :: k in keys ==> k in entries
  {
    if keys == [] then []
    else
      var last := keys[|keys| - 1];
      Dispatch(keys[..|keys| - 1], entries, data) + [Invocation(last, entries[last], data)]
  }

  /** The invocations made for one key. */
  function InvocationsOf(invs: seq<Invocation>, key: Hap.CharacteristicType): (r: seq<Invocation>)
    ensures forall i :: 0 <= i < |r| ==> r[i] in invs && r[i].key == key
  {
    if invs == [] then []
    else
      var rest := InvocationsOf(invs[..|invs| - 1], key);
      if invs[|invs| - 1].key == key then rest + [invs[|invs| - 1]] else rest
  }

  /** The loop of `updateState`: invoke each callback in turn, in insertion order. */
  method InvokeAll(callbacks: CallbackList, data: DeviceState) returns (log: seq<Invocation>)
    requires callbacks.Valid()
    ensures log == Dispatch(callbacks.keys, callbacks.entries, data)
  {
    var keys := callbacks.keys;
    log := [];
    for i := 0 to |keys|
      invariant log == Dispatch(keys[..i], callbacks.entries, data)
    {
      assert keys[..i + 1][..i] == keys[..i];
      log := log + [Invocation(keys[i], callbacks.entries[keys[i]], data)];
    }
    assert keys[..|keys|] == keys;
  }

  /** `updateState` invokes every registered callback exactly once, with the new state, and nothing else. */
  lemma {:induction false} DispatchOnce(keys: seq<Hap.CharacteristicType>, entries: map<Hap.CharacteristicType, Kind>,
                                        data: DeviceState, key: Hap.CharacteristicType)
    requires NoDuplicates(keys) && forall k :: k in keys ==> k in entries
    ensures InvocationsOf(Dispatch(keys, entries, data), key)
            == if key in keys then [Invocation(key, entries[key], data)] else []
  {
    if keys != [] {
      var init := keys[..|keys| - 1];
      var last := keys[|keys| - 1];
      assert NoDuplicates(init) by {
        forall i, j | 0 <= i < j < |init| ensures init[i] != init[j] {
          assert init[i] == keys[i] && init[j] == keys[j];
        }
      }
      assert forall k :: k in init ==> k in keys;
      DispatchOnce(init, entries, data, key);
      var d := Dispatch(keys, entries, data);
      assert d == Dispatch(init, entries, data) + [Invocation(last, entries[last], data)];
      assert d[..|d| - 1] == Dispatch(init, entries, data);
      assert d[|d| - 1].key == last;
      assert key in keys <==> key in init || key == last;
      if key == last {
        assert key !in init by {
          forall i | 0 <= i < |init| ensures init[i] != last {
            assert keys[i] != keys[|keys| - 1];
          }
        }
      }
    }
  }

  /** The invocation `setTuyaCharacteristic` makes: the callback of that key, if there is one. */
  function Notify(cbs: CallbackList, key: Hap.CharacteristicType, data: DeviceState): seq<Invocation>
  {
    if key in cbs.entries then [Invocation(key, cbs.entries[key], data)] else []
  }

  /** At most the one callback for the key is invoked, and none when the key is absent. */
  lemma NotifyOnlyThatKey(cbs: CallbackList, key: Hap.CharacteristicType, data: DeviceState)
    ensures |Notify(cbs, key, data)| <= 1
    ensures Notify(cbs, key, data) == [] <==> key !in cbs.entries
    ensures forall inv :: inv in Notify(cbs, key, data) ==> inv.key == key && inv.data == data
  {
  }

  /** A second registration for a key replaces the first, which is never invoked again. */
  lemma RegisterReplaces(cbs: CallbackList, key: Hap.CharacteristicType, first: Kind, second: Kind, data: DeviceState)
    requires cbs.Valid()
    ensures cbs.Set(key, first).Set(key, second) == cbs.Set(key, second)
    ensures Notify(cbs.Set(key, first).Set(key, second), key, data) == [Invocation(key, second, data)]
  {
  }

  /** The table `initializeCharacteristics` builds: one `addUpdateCallback` per class, in order. */
  function Registered(chars: seq<Kind>): (r: CallbackList)
    ensures r.Valid()
    ensures forall k :: k in chars ==> HomekitCharacteristic(k) in r.entries
    ensures |r.keys| <= |chars|
  {
    if chars == [] then NoCallbacks
    else
      var k := chars[|chars| - 1];
      Registered(chars[..|chars| - 1]).Set(HomekitCharacteristic(k), k)
  }

  // ---------------------------------------------------------------------
  // Characteristic selection

  /** `Array.prototype.filter`. */
  function Filter(s: seq<Kind>, p: Kind -> bool): (r: seq<Kind>)
    ensures forall x :: x in r <==> x in s && p(x)
    ensures |r| <= |s|
  {
    if s == [] then []
    else if p(s[0]) then [s[0]] + Filter(s[1..], p)
    else Filter(s[1..], p)
  }

  /** A filter that rejects every element leaves nothing. */
  lemma {:induction false} FilterNone(s: seq<Kind>, p: Kind -> bool)
    requires forall x :: x in s ==> !p(x)
    ensures Filter(s, p) == []
  {
    if s != [] {
      assert s[0] in s;
      FilterNone(s[1..], p);
    }
  }

  /** `a` is `b` with some elements dropped, the rest in their order. */
  predicate Sublist<T(==)>(a: seq<T>, b: seq<T>)
    decreases |b|
  {
    if a == [] then true
    else if b == [] then false
    else if a[0] == b[0] then Sublist(a[1..], b[1..])
    else Sublist(a, b[1..])
  }

  lemma {:induction false} FilterIsSublist(s: seq<Kind>, p: Kind -> bool)
    ensures Sublist(Filter(s, p), s)
  {
    if s != [] {
      FilterIsSublist(s[1..], p);
      var t := Filter(s[1..], p);
      if !p(s[0]) && t != [] {
        assert p(t[0]);
      }
    }
  }

  /** Two filters in a row are one filter by both tests. */
  lemma {:induction false} FilterTwice(s: seq<Kind>, p: Kind -> bool, q: Kind -> bool)
    ensures Filter(Filter(s, p), q) == Filter(s, (k: Kind) => p(k) && q(k))
  {
    if s != [] {
      FilterTwice(s[1..], p, q);
    }
  }

  lemma {:induction false} FilterKeepsDistinct(s: seq<Kind>, p: Kind -> bool)
    requires NoDuplicates(s)
    ensures NoDuplicates(Filter(s, p))
  {
    if s != [] {
      assert NoDuplicates(s[1..]) by {
        forall i, j | 0 <= i < j < |s[1..]| ensures s[1..][i] != s[1..][j] {
          assert s[1..][i] == s[i + 1] && s[1..][j] == s[j + 1];
        }
      }
      FilterKeepsDistinct(s[1..], p);
      if p(s[0]) {
        var r := Filter(s, p);
        var t := Filter(s[1..], p);
        assert s[0] !in s[1..] by {
          forall i | 0 <= i < |s[1..]| ensures s[1..][i] != s[0] {
            assert s[1..][i] == s[i + 1];
          }
        }
        assert s[0] !in t;
        forall i, j | 0 <= i < j < |r| ensures r[i] != r[j] {
          if i == 0 {
            assert r[j] == t[j - 1];
          } else {
            assert r[i] == t[i - 1] && r[j] == t[j - 1];
          }
        }
      }
    }
  }

  /** The base `deviceSupportedCharacteristics`: the optional classes this device can drive. */
  function DeviceSupportedCharacteristics(supported: seq<Kind>, required: seq<Kind>, device: TuyaDevice): (r: seq<Kind>)
    ensures forall k :: k in r <==> k in supported && k !in required && IsSupportedByAccessory(k, device)
  {
    Filter(Filter(supported, (k: Kind) => k !in required), (k: Kind) => IsSupportedByAccessory(k, device))
  }

  /** The selection keeps the order of the accessory's list. */
  lemma SelectionIsSublist(supported: seq<Kind>, required: seq<Kind>, device: TuyaDevice)
    ensures Sublist(DeviceSupportedCharacteristics(supported, required, device), supported)
  {
    var notRequired := (k: Kind) => k !in required;
    var canDrive := (k: Kind) => IsSupportedByAccessory(k, device);
    FilterTwice(supported, notRequired, canDrive);
    FilterIsSublist(supported, (k: Kind) => notRequired(k) && canDrive(k));
  }

  /** `initializeCharacteristics`: the required classes, then the selected ones. */
  function InitialCharacteristics(required: seq<Kind>, selected: seq<Kind>): seq<Kind>
  {
    required + selected
  }

  /** Two lists without repeats and without common elements concatenate to a list without repeats. */
  lemma ConcatDistinct<T>(a: seq<T>, b: seq<T>)
    requires NoDuplicates(a) && NoDuplicates(b)
    requires forall x :: x in b ==> x !in a
    ensures NoDuplicates(a + b)
  {
    var all := a + b;
    forall i, j | 0 <= i < j < |all| ensures all[i] != all[j] {
      if j < |a| {
        assert all[i] == a[i] && all[j] == a[j];
      } else if i >= |a| {
        assert all[i] == b[i - |a|] && all[j] == b[j - |a|];
      } else {
        assert all[i] == a[i] && a[i] in a;
        assert all[j] == b[j - |a|] && b[j - |a|] in b;
      }
    }
  }

  /** The initialised list repeats no class when the accessory's own lists repeat none. */
  lemma InitialHasNoDuplicates(supported: seq<Kind>, required: seq<Kind>, device: TuyaDevice)
    requires NoDuplicates(supported) && NoDuplicates(required)
    ensures NoDuplicates(InitialCharacteristics(required, DeviceSupportedCharacteristics(supported, required, device)))
  {
    var notRequired := (k: Kind) => k !in required;
    var first := Filter(supported, notRequired);
    FilterKeepsDistinct(supported, notRequired);
    FilterKeepsDistinct(first, (k: Kind) => IsSupportedByAccessory(k, device));
    ConcatDistinct(required, DeviceSupportedCharacteristics(supported, required, device));
  }

  // ---------------------------------------------------------------------
  // The Model name

  /** `s.split("_")`. */
  function Split(s: string): (parts: seq<string>)
    ensures |parts| >= 1
  {
    if s == [] then [""]
    else if s[0] == '_' then [""] + Split(s[1..])
    else
      var rest := Split(s[1..]);
      [[s[0]] + rest[0]] + rest[1..]
  }

  /** `part.charAt(0).toUpperCase() + part.slice(1)`. */
  function Capitalize(part: string): string
  {
    if part == [] then [] else [UpperChar(part[0])] + part[1..]
  }

  function CapitalizeAll(parts: seq<string>): (r: seq<string>)
    ensures |r| == |parts|
  {
    if parts == [] then [] else [Capitalize(parts[0])] + CapitalizeAll(parts[1..])
  }

  /** `parts.join(" ")`. */
  function JoinWithSpace(parts: seq<string>): string
    requires |parts| >= 1
  {
    if |parts| == 1 then parts[0] else parts[0] + " " + JoinWithSpace(parts[1..])
  }

  /** The Model characteristic `updateAccessory` derives from `dev_type`. */
  function ModelName(devType: string): string
  {
    JoinWithSpace(CapitalizeAll(Split(devType)))
  }

  /**
   * The reference definition, character by character: every `_` becomes a
   * space, the first character of each part is upper-cased (`atStart` says
   * whether the first character of `s` begins a part), the rest is copied.
   */
  function Titled(s: string, atStart: bool): (r: string)
    ensures |r| == |s|
  {
    if s == [] then []
    else [if s[0] == '_' then ' ' else if atStart then UpperChar(s[0]) else s[0]] + Titled(s[1..], s[0] == '_')
  }

  lemma {:induction false} TitledByCharacter(s: string, atStart: bool, i: nat)
    requires i < |s|
    ensures Titled(s, atStart)[i]
            == (if s[i] == '_' then ' '
                else if (i == 0 && atStart) || (i > 0 && s[i - 1] == '_') then UpperChar(s[i])
                else s[i])
  {
    if i > 0 {
      TitledByCharacter(s[1..], s[0] == '_', i - 1);
      assert Titled(s, atStart)[i] == Titled(s[1..], s[0] == '_')[i - 1];
      if i > 1 {
        assert s[1..][i - 2] == s[i - 1];
      }
    }
  }

  lemma {:induction false} SplitJoin(s: string)
    ensures JoinWithSpace(CapitalizeAll(Split(s))) == Titled(s, true)
    ensures JoinWithSpace([Split(s)[0]] + CapitalizeAll(Split(s)[1..])) == Titled(s, false)
  {
    if s != [] {
      SplitJoin(s[1..]);
      var rest := Split(s[1..]);
      var parts := Split(s);
      if s[0] == '_' {
        UnderscorePart(s);
      } else {
        assert parts == [[s[0]] + rest[0]] + rest[1..];
        assert parts[0] == [s[0]] + rest[0] && parts[1..] == rest[1..];
        assert Capitalize(parts[0]) == [UpperChar(s[0])] + rest[0];
        assert CapitalizeAll(parts) == [Capitalize(parts[0])] + CapitalizeAll(rest[1..]);
        JoinPrefix([UpperChar(s[0])], rest[0], CapitalizeAll(rest[1..]));
        JoinPrefix([s[0]], rest[0], CapitalizeAll(rest[1..]));
        assert [rest[0]] + CapitalizeAll(rest[1..]) == [rest[0]] + CapitalizeAll(rest[1..]);
      }
    }
  }

  /** A leading `_` closes an empty part, which the join turns into a space. */
  lemma UnderscorePart(s: string)
    requires s != [] && s[0] == '_'
    ensures JoinWithSpace(CapitalizeAll(Split(s))) == " " + JoinWithSpace(CapitalizeAll(Split(s[1..])))
    ensures JoinWithSpace([Split(s)[0]] + CapitalizeAll(Split(s)[1..])) == " " + JoinWithSpace(CapitalizeAll(Split(s[1..])))
  {
    var rest := Split(s[1..]);
    assert Split(s) == [""] + rest;
    assert (Split(s))[1..] == rest;
    var c := CapitalizeAll(Split(s));
    assert c == [""] + CapitalizeAll(rest);
    assert c[1..] == CapitalizeAll(rest);
  }

  lemma JoinPrefix(x: string, y: string, t: seq<string>)
    ensures JoinWithSpace([x + y] + t) == x + JoinWithSpace([y] + t)
  {
    if t != [] {
      assert ([x + y] + t)[1..] == t;
      assert ([y] + t)[1..] == t;
    }
  }

  /** The Model name keeps the length of `dev_type`, spaces its underscores and capitalises each part. */
  lemma ModelNameByCharacter(devType: string, i: nat)
    requires i < |devType|
    ensures |ModelName(devType)| == |devType|
    ensures ModelName(devType)[i] == (if devType[i] == '_' then ' '
                                      else if i == 0 || devType[i - 1] == '_' then UpperChar(devType[i])
                                      else devType[i])
  {
    SplitJoin(devType);
    TitledByCharacter(devType, true, i);
  }

  lemma ModelNameExample(devType: string)
    requires devType == "ha_light"
    ensures ModelName(devType) == "Ha Light"
  {
    ModelNameByCharacter(devType, 0);
    var name := ModelName(devType);
    forall i | 0 <= i < |devType| ensures name[i] == "Ha Light"[i] {
      ModelNameByCharacter(devType, i);
    }
  }



  // ---------------------------------------------------------------------
  // The accessory

  /** What one debounced fire did. */
  datatype FireResult =
    | NothingPending
    | ServedFromCache(promise: nat)
    | FetchStarted(promise: nat)

  class BaseAccessory {
    const device: TuyaDevice
    const cache: Cache
    /** `debouncedDeviceStateRequestPromise`: the promise every reader before the next fire shares. */
    var pending: Option<nat>
    var nextPromise: nat
    /** Promises whose fetch is in flight. */
    var fetching: set<nat>
    var settled: map<nat, Outcome>
    /** How many times the cloud's getDeviceState was called. */
    var fetchCount: nat
    var updateCallbacks: CallbackList
    /** Every update callback invocation, in order. */
    var invocations: seq<Invocation>
    /** Every write sent upstream, in order. */
    var upstreamWrites: seq<Command>

    /** Each promise is pending, in flight or settled, and settles once. */
    predicate Valid()
      reads this
    {
      && (pending.Some? ==> pending.value < nextPromise && pending.value !in fetching && pending.value !in settled)
      && (forall p :: p in fetching ==> p < nextPromise && p !in settled)
      && (forall p :: p in settled ==> p < nextPromise)
      && updateCallbacks.Valid()
    }

    /**
     * The constructor: the accessory context's cache is a new one when `persisted` is None
     * (no cache in the context) and the persisted fields otherwise; then
     * `initializeCharacteristics` has each class register its update callback.
     */
    constructor(device: TuyaDevice, deviceTimeout: nat, persisted: Option<CacheState>, characteristics: seq<Kind>)
      ensures Valid()
      ensures this.device == device && cache.deviceTimeout == deviceTimeout
      ensures persisted.None? ==> cache.State() == Empty
      ensures persisted.Some? ==> cache.State() == persisted.value
      ensures pending == None && fetching == {} && settled == map[] && fetchCount == 0
      ensures updateCallbacks == Registered(characteristics)
      ensures invocations == [] && upstreamWrites == []
      ensures fresh(cache)
    {
      this.device := device;
      if persisted.Some? {
        cache := new Cache.Restored(deviceTimeout, persisted.value);
      } else {
        cache := new Cache(deviceTimeout);
      }
      pending := None;
      nextPromise := 0;
      fetching := {};
      settled := map[];
      fetchCount := 0;
      invocations := [];
      upstreamWrites := [];
      var table := NoCallbacks;
      for i := 0 to |characteristics|
        invariant table == Registered(characteristics[..i])
      {
        assert characteristics[..i + 1][..i] == characteristics[..i];
        table := table.Set(HomekitCharacteristic(characteristics[i]), characteristics[i]);
      }
      assert characteristics[..|characteristics|] == characteristics;
      updateCallbacks := table;
    }

    /** `cachedValue(always)`. */
    function CachedValue(always: bool, nowMs: nat): (r: Option<DeviceState>)
      reads this, cache
      ensures r == Lookup(cache.State(), always, nowMs)
      ensures r.Some? ==> r == cache.value
      ensures always ==> r == cache.value
      ensures !always ==> (r.Some? <==> IsValid(cache.State(), nowMs))
    {
      cache.Get(always, nowMs)
    }

    /** `getDeviceState`: join the pending promise, or open one. */
    method GetDeviceState() returns (p: nat)
      requires Valid()
      modifies this
      ensures Valid()
      ensures old(pending).Some? ==> p == old(pending).value && nextPromise == old(nextPromise)
      ensures old(pending).None? ==> p == old(nextPromise) && nextPromise == old(nextPromise) + 1
      ensures pending == Some(p) && p !in settled
      ensures fetching == old(fetching) && settled == old(settled) && fetchCount == old(fetchCount)
      ensures updateCallbacks == old(updateCallbacks) && invocations == old(invocations)
      ensures upstreamWrites == old(upstreamWrites)
    {
      if pending.None? {
        pending := Some(nextPromise);
        nextPromise := nextPromise + 1;
      }
      p := pending.value;
    }

    /** `resolveDeviceStateRequest`, as the debounce timer fires. */
    method ResolveDeviceStateRequest(nowMs: nat) returns (r: FireResult)
      requires Valid()
      modifies this
      ensures Valid()
      ensures cache.State() == old(cache.State())
      ensures old(pending).None? ==>
        (r == NothingPending && pending == None
         && fetching == old(fetching) && settled == old(settled) && fetchCount == old(fetchCount))
      ensures old(pending).Some? ==> pending == None
      ensures (old(pending).Some? && FromCache(old(cache.State()), nowMs).Some?) ==>
        (r == ServedFromCache(old(pending).value)
         && settled == old(settled)[old(pending).value := FromCache(old(cache.State()), nowMs).value]
         && fetching == old(fetching) && fetchCount == old(fetchCount))
      ensures (old(pending).Some? && FromCache(old(cache.State()), nowMs).None?) ==>
        (r == FetchStarted(old(pending).value) && settled == old(settled)
         && fetching == old(fetching) + {old(pending).value} && fetchCount == old(fetchCount) + 1)
      ensures nextPromise == old(nextPromise) && updateCallbacks == old(updateCallbacks)
      ensures invocations == old(invocations) && upstreamWrites == old(upstreamWrites)
    {
      if pending.None? {
        return NothingPending;
      }
      var p := pending.value;
      pending := None;
      var hit := FromCache(cache.State(), nowMs);
      if hit.Some? {
        settled := settled[p := hit.value];
        r := ServedFromCache(p);
      } else {
        fetching := fetching + {p};
        fetchCount := fetchCount + 1;
        r := FetchStarted(p);
      }
    }

    /** The upstream answer to the fetch of promise `p` arrives. */
    method CompleteFetch(p: nat, result: FetchResult, nowMs: nat)
      requires Valid() && p in fetching
      modifies this, cache
      ensures Valid()
      ensures var res := FetchOutcome(old(cache.State()), result, nowMs, cache.deviceTimeout);
        cache.State() == res.cache && settled == old(settled)[p := res.outcome]
      ensures fetching == old(fetching) - {p}
      ensures pending == old(pending) && nextPromise == old(nextPromise) && fetchCount == old(fetchCount)
      ensures updateCallbacks == old(updateCallbacks) && invocations == old(invocations)
      ensures upstreamWrites == old(upstreamWrites)
    {
      var outcome: Outcome;
      match result {
        case Fetched(data) =>
          cache.Set(data, nowMs);
          outcome := OnlineOutcome(data);
        case FetchFailed(t) =>
          outcome := Rejected(Rejection(t));
          if t.ThrownError? && t.error.RateLimitError? {
            var data := cache.Get(true, nowMs);
            var online := if data.Some? then Field(data.value, "online") else Undef;
            if !TuyaBoolean(online) {
              outcome := Rejected(DeviceOfflineError);
            } else if data.Some? {
              cache.Renew(nowMs);
              outcome := Resolved(data.value);
            }
          }
      }
      settled := settled[p := outcome];
      fetching := fetching - {p};
    }

    /** `setDeviceState`: merge the optimistic fragment, then send; `upstream` is how the call ends. */
    method SetDeviceState(command: Command, upstream: Option<Error>) returns (failure: Option<Error>)
      modifies this, cache
      ensures cache.State() == AfterMerge(old(cache.State()), command.fragment)
      ensures upstreamWrites == old(upstreamWrites) + [command]
      ensures failure == upstream
      ensures pending == old(pending) && nextPromise == old(nextPromise) && fetching == old(fetching)
      ensures settled == old(settled) && fetchCount == old(fetchCount)
      ensures updateCallbacks == old(updateCallbacks) && invocations == old(invocations)
    {
      cache.Merge(command.fragment);
      upstreamWrites := upstreamWrites + [command];
      failure := upstream;
    }

    /** `updateState`: store the polled state, then hand it to every callback. */
    method UpdateState(data: DeviceState, nowMs: nat)
      requires Valid()
      modifies this, cache
      ensures Valid()
      ensures cache.State() == AfterSet(old(cache.State()), data, nowMs, cache.deviceTimeout)
      ensures invocations == old(invocations) + Dispatch(updateCallbacks.keys, updateCallbacks.entries, data)
      ensures pending == old(pending) && nextPromise == old(nextPromise) && fetching == old(fetching)
      ensures settled == old(settled) && fetchCount == old(fetchCount)
      ensures updateCallbacks == old(updateCallbacks) && upstreamWrites == old(upstreamWrites)
    {
      cache.Set(data, nowMs);
      var made := InvokeAll(updateCallbacks, data);
      invocations := invocations + made;
    }

    /** `addUpdateCallback`. */
    method AddUpdateCallback(key: Hap.CharacteristicType, kind: Kind)
      requires Valid()
      modifies this
      ensures Valid()
      ensures updateCallbacks == old(updateCallbacks).Set(key, kind)
      ensures pending == old(pending) && nextPromise == old(nextPromise) && fetching == old(fetching)
      ensures settled == old(settled) && fetchCount == old(fetchCount)
      ensures invocations == old(invocations) && upstreamWrites == old(upstreamWrites)
    {
      updateCallbacks := updateCallbacks.Set(key, kind);
    }

    /** `setTuyaCharacteristic`: run the one callback registered for the key. */
    method SetTuyaCharacteristic(key: Hap.CharacteristicType, data: DeviceState)
      requires Valid()
      modifies this
      ensures Valid()
      ensures invocations == old(invocations) + Notify(updateCallbacks, key, data)
      ensures pending == old(pending) && nextPromise == old(nextPromise) && fetching == old(fetching)
      ensures settled == old(settled) && fetchCount == old(fetchCount)
      ensures updateCallbacks == old(updateCallbacks) && upstreamWrites == old(upstreamWrites)
    {
      if key in updateCallbacks.entries {
        invocations := invocations + [Invocation(key, updateCallbacks.entries[key], data)];
      }
    }
  }

  /**
   * Readers that ask before the fire share one promise; the fire clears the
   * slot, so the next reader gets a new one, and a second fire does nothing.
   */
  method CoalescedReads(a: BaseAccessory, nowMs: nat) returns (p1: nat, p2: nat, p3: nat)
    requires a.Valid() && a.pending.None?
    modifies a
    ensures p1 == p2 && p3 != p1
    ensures p1 in a.settled || p1 in a.fetching
    ensures a.fetchCount <= old(a.fetchCount) + 1
  {
    p1 := a.GetDeviceState();
    p2 := a.GetDeviceState();
    var fired := a.ResolveDeviceStateRequest(nowMs);
    var again := a.ResolveDeviceStateRequest(nowMs);
    assert again == NothingPending;
    p3 := a.GetDeviceState();
  }
}
