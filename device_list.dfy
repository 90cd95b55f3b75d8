/**
 * The list of discovered devices, used to resolve a configured identifier
 * (an id or a name) to a device id. The id-to-name record is a map together
 * with the order in which its keys were first inserted, which is the order
 * `Object.keys` reports them in.
 */
module DeviceLists {
  import opened JsValue
  import opened DeviceApi

  ghost predicate Distinct(s: seq<string>)
  {
    forall i, j :: 0 <= i < j < |s| ==> s[i] != s[j]
  }

  /** The record the constructor builds: each device writes its name under its id, so the last one wins. */
  function NamesOf(devices: seq<TuyaDevice>): map<string, string>
  {
    if devices == [] then map[]
    else NamesOf(devices[..|devices| - 1])[devices[|devices| - 1].id := devices[|devices| - 1].name]
  }

  /** The record's key order: each id where it first appears. */
  function KeysOf(devices: seq<TuyaDevice>): seq<string>
  {
    if devices == [] then []
    else
      var keys := KeysOf(devices[..|devices| - 1]);
      if devices[|devices| - 1].id in keys then keys else keys + [devices[|devices| - 1].id]
  }

  /** `Object.keys(idNameMap).find(key => idNameMap[key] === name)`. */
  function FirstWithName(names: map<string, string>, keys: seq<string>, name: string): (r: Option<string>)
    requires forall k :: k in keys ==> k in names
    ensures r.Some? ==> r.value in keys && names[r.value] == name
    ensures r.None? <==> forall k :: k in keys ==> names[k] != name
  {
    if keys == [] then None
    else if names[keys[0]] == name then Some(keys[0])
    else FirstWithName(names, keys[1..], name)
  }

  /** `find(identifier)`: the identifier itself when it is an id, else the first id carrying it as its name. */
  function Find(names: map<string, string>, keys: seq<string>, identifier: string): Option<string>
    requires forall k :: k in keys ==> k in names
  {
    if identifier in names then Some(identifier)
    else FirstWithName(names, keys, identifier)
  }

  class DeviceList {
    var idNameMap: map<string, string>
    /** `Object.keys(idNameMap)`, in insertion order. */
    var keys: seq<string>

    ghost predicate Valid()
      reads this
    {
      Distinct(keys) && (forall k :: k in keys <==> k in idNameMap)
    }

    constructor(devices: seq<TuyaDevice>)
      ensures Valid()
      ensures idNameMap == NamesOf(devices) && keys == KeysOf(devices)
    {
      var names: map<string, string> := map[];
      var order: seq<string> := [];
      for i := 0 to |devices|
        invariant names == NamesOf(devices[..i]) && order == KeysOf(devices[..i])
        invariant Distinct(order) && (forall k :: k in order <==> k in names)
      {
        assert devices[..i + 1][..i] == devices[..i];
        if devices[i].id !in order {
          order := order + [devices[i].id];
        }
        names := names[devices[i].id := devices[i].name];
      }
      assert devices[..|devices|] == devices;
      idNameMap := names;
      keys := order;
    }

    /** `find(identifier)` on this list. */
    function FindId(identifier: string): Option<string>
      reads this
      requires Valid()
    {
      Find(idNameMap, keys, identifier)
    }

    /** The `all` getter. */
    function All(): seq<string>
      reads this
    {
      keys
    }
  }

  // ---------------------------------------------------------------------
  // Properties

  /** Every device's id is a key, and its name is that of the last device with the same id. */
  lemma {:induction false} LastNameWins(devices: seq<TuyaDevice>, i: nat)
    requires i < |devices|
    requires forall j :: i < j < |devices| ==> devices[j].id != devices[i].id
    ensures devices[i].id in NamesOf(devices) && NamesOf(devices)[devices[i].id] == devices[i].name
  {
    if i < |devices| - 1 {
      LastNameWins(devices[..|devices| - 1], i);
    }
  }

  /** The keys are exactly the ids of the devices, each once. */
  lemma {:induction false} KeysAreIds(devices: seq<TuyaDevice>)
    ensures Distinct(KeysOf(devices))
    ensures forall k :: k in KeysOf(devices) <==> k in NamesOf(devices)
    ensures forall k :: k in KeysOf(devices) <==> exists d :: d in devices && d.id == k
  {
    if devices != [] {
      var init := devices[..|devices| - 1];
      KeysAreIds(init);
      assert devices == init + [devices[|devices| - 1]];
    }
  }

  /** A known id is its own answer, even when it is also another device's name. */
  lemma IdBeatsName(names: map<string, string>, keys: seq<string>, identifier: string)
    requires forall k :: k in keys ==> k in names
    requires identifier in names
    ensures Find(names, keys, identifier) == Some(identifier)
  {
  }

  /** A name that is not an id resolves to the first id, in key order, with that name. */
  lemma NameResolvesToFirst(names: map<string, string>, keys: seq<string>, identifier: string, i: nat)
    requires forall k :: k in keys ==> k in names
    requires identifier !in names
    requires i < |keys| && names[keys[i]] == identifier
    requires forall j :: 0 <= j < i ==> names[keys[j]] != identifier
    ensures Find(names, keys, identifier) == Some(keys[i])
  {
    FirstIndex(names, keys, identifier, i);
  }

  lemma {:induction false} FirstIndex(names: map<string, string>, keys: seq<string>, name: string, i: nat)
    requires forall k :: k in keys ==> k in names
    requires i < |keys| && names[keys[i]] == name
    requires forall j :: 0 <= j < i ==> names[keys[j]] != name
    ensures FirstWithName(names, keys, name) == Some(keys[i])
  {
    if i > 0 {
      FirstIndex(names, keys[1..], name, i - 1);
    }
  }

  /** An identifier that is neither an id nor a name resolves to nothing; any answer is one of `all`. */
  lemma FindResults(names: map<string, string>, keys: seq<string>, identifier: string)
    requires forall k :: k in keys <==> k in names
    ensures Find(names, keys, identifier).None?
            <==> identifier !in names && forall k :: k in names ==> names[k] != identifier
    ensures Find(names, keys, identifier).Some? ==> Find(names, keys, identifier).value in keys
  {
  }

  /** Two devices with one id: the id is listed once and carries the second name. */
  lemma DuplicateIdExample()
    ensures var devices := [TuyaDevice("a", "Lamp", "light", map[], Undef), TuyaDevice("a", "Desk", "light", map[], Undef)];
      KeysOf(devices) == ["a"] && NamesOf(devices) == map["a" := "Desk"]
      && Find(NamesOf(devices), KeysOf(devices), "Lamp") == None
  {
    var devices := [TuyaDevice("a", "Lamp", "light", map[], Undef), TuyaDevice("a", "Desk", "light", map[], Undef)];
    assert devices[..1] == [devices[0]];
    assert devices[..1][..0] == [];
  }
}
