/**
 * The legacy `objectHasKeys(target, ...keys)` helper: it walks the keys in
 * order, checking each with `key in t`, and stops at the first key that is
 * falsy. After each key, `t` becomes `target[key]`, read from the top-level
 * target and not from the current `t`.
 */
module ObjectHelpers {
  import opened JsValue

  /** How a call ends: with a boolean, or with the `TypeError` that `in` throws on a primitive. */
  datatype KeysResult = Returns(b: bool) | Throws

  /** `in` needs an object on its right: a plain object or an array. */
  predicate IsObject(t: JsVal)
  {
    t.Obj? || t.Arr?
  }

  /** `name in t` for an object `t`: its own property names. */
  predicate HasProperty(t: JsVal, name: string)
    requires IsObject(t)
  {
    if t.Obj? then name in t.props else IsArrayPropertyName(name, |t.items|)
  }

  /** `t[name]`: an own property's value, `undefined` otherwise. */
  function Member(t: JsVal, name: string): (r: JsVal)
    ensures !(IsObject(t) && HasProperty(t, name)) ==> r == Undef
  {
    match t
    case Obj(p) => if name in p then p[name] else Undef
    case Arr(a) =>
      if name == "length" then Num(|a| as real)
      else if IsArrayPropertyName(name, |a|) then a[DigitsValue(name)]
      else Undef
    case _ => Undef
  }

  /** The helper as written, with the object `t` currently searched and the keys not yet shifted. */
  function HasKeysFrom(target: JsVal, t: JsVal, keys: seq<JsVal>): KeysResult
    decreases |keys|
  {
    if keys == [] || !Truthy(keys[0]) then Returns(true)
    else if !IsObject(t) then Throws
    else if !HasProperty(t, ToStr(keys[0])) then Returns(false)
    else HasKeysFrom(target, Member(target, ToStr(keys[0])), keys[1..])
  }

  /** The `while (key = keys.shift())` loop. */
  method ObjectHasKeys(target: JsVal, keys: seq<JsVal>) returns (r: KeysResult)
    ensures r == HasKeysFrom(target, target, keys)
  {
    var rest := keys;
    var t := target;
    while rest != [] && Truthy(rest[0])
      invariant HasKeysFrom(target, t, rest) == HasKeysFrom(target, target, keys)
      decreases |rest|
    {
      var key := rest[0];
      rest := rest[1..];
      if !IsObject(t) {
        return Throws;
      }
      if !HasProperty(t, ToStr(key)) {
        return Returns(false);
      }
      t := Member(target, ToStr(key));
    }
    return Returns(true);
  }

  // ---------------------------------------------------------------------
  // Properties of the helper as written

  /** With no keys the answer is true, whatever the target. */
  lemma NoKeys(target: JsVal)
    ensures HasKeysFrom(target, target, []) == Returns(true)
  {
  }

  /** One key: `key in target`, which throws on a primitive target. */
  lemma OneKey(target: JsVal, key: string)
    requires key != ""
    ensures IsObject(target) ==> HasKeysFrom(target, target, [Str(key)]) == Returns(HasProperty(target, key))
    ensures !IsObject(target) ==> HasKeysFrom(target, target, [Str(key)]) == Throws
  {
  }

  /** Two keys: the first in the target, the second in `target[first]`. */
  lemma TwoKeys(props: map<string, JsVal>, k1: string, k2: string)
    requires k1 != "" && k2 != ""
    ensures var target := Obj(props);
      HasKeysFrom(target, target, [Str(k1), Str(k2)]) == (
        if k1 !in props then Returns(false)
        else if !IsObject(props[k1]) then Throws
        else Returns(HasProperty(props[k1], k2)))
  {
    var target := Obj(props);
    var keys := [Str(k1), Str(k2)];
    assert keys[1..] == [Str(k2)];
    assert [Str(k2)][1..] == [];
    if k1 in props {
      assert HasKeysFrom(target, target, keys) == HasKeysFrom(target, props[k1], [Str(k2)]);
      if IsObject(props[k1]) && HasProperty(props[k1], k2) {
        assert HasKeysFrom(target, props[k1], [Str(k2)]) == HasKeysFrom(target, Member(target, k2), []);
      }
    }
  }

  /** The third key is sought in `target[second]`, from the top level, not in `target[first][second]`. */
  lemma ThirdKeyFromTop(props: map<string, JsVal>, k1: string, k2: string, k3: string)
    requires k1 != "" && k2 != "" && k3 != ""
    requires k1 in props && IsObject(props[k1]) && HasProperty(props[k1], k2)
    ensures var target := Obj(props);
      HasKeysFrom(target, target, [Str(k1), Str(k2), Str(k3)])
      == HasKeysFrom(target, Member(target, k2), [Str(k3)])
  {
    var target := Obj(props);
    assert [Str(k1), Str(k2), Str(k3)][1..] == [Str(k2), Str(k3)];
    assert [Str(k2), Str(k3)][1..] == [Str(k3)];
  }

  /** A falsy key ends the walk with true: nothing after it is looked at. */
  lemma {:induction false} StopsAtFalsyKey(target: JsVal, t: JsVal, before: seq<JsVal>, falsy: JsVal, after1: seq<JsVal>, after2: seq<JsVal>)
    requires !Truthy(falsy)
    ensures HasKeysFrom(target, t, before + [falsy] + after1) == HasKeysFrom(target, t, before + [falsy] + after2)
    decreases |before|
  {
    if before == [] {
      assert (before + [falsy] + after1)[0] == falsy;
      assert (before + [falsy] + after2)[0] == falsy;
    } else {
      assert (before + [falsy] + after1)[1..] == before[1..] + [falsy] + after1;
      assert (before + [falsy] + after2)[1..] == before[1..] + [falsy] + after2;
      if Truthy(before[0]) && IsObject(t) && HasProperty(t, ToStr(before[0])) {
        StopsAtFalsyKey(target, Member(target, ToStr(before[0])), before[1..], falsy, after1, after2);
      }
    }
  }

  /** The empty string and 0 are falsy keys, so `objectHasKeys(x, "")` is true even for a primitive `x`. */
  lemma FalsyKeyExample(x: JsVal)
    ensures HasKeysFrom(x, x, [Str("")]) == Returns(true)
    ensures HasKeysFrom(x, x, [Num(0.0), Str("missing")]) == Returns(true)
  {
  }

  // ---------------------------------------------------------------------
  // The walk along the nested path

  /** `{k0: {k1: ... {}}}`: an object holding the path `keys`. */
  function Chain(keys: seq<string>): JsVal
    decreases |keys|
  {
    if keys == [] then Obj(map[]) else Obj(map[keys[0] := Chain(keys[1..])])
  }

  function StrKeys(keys: seq<string>): (r: seq<JsVal>)
    ensures |r| == |keys| && forall i :: 0 <= i < |keys| ==> r[i] == Str(keys[i])
  {
    if keys == [] then [] else [Str(keys[0])] + StrKeys(keys[1..])
  }

  /** A three-key path that exists is reported as a `TypeError` by the helper as written. */
  lemma NestedPathThrows()
    ensures HasKeysFrom(Chain(["a", "b", "c"]), Chain(["a", "b", "c"]), StrKeys(["a", "b", "c"])) == Throws
  {
    var target := Chain(["a", "b", "c"]);
    assert ["a", "b", "c"][1..] == ["b", "c"];
    assert ["b", "c"][1..] == ["c"];
    assert target == Obj(map["a" := Chain(["b", "c"])]);
    assert StrKeys(["a", "b", "c"]) == [Str("a"), Str("b"), Str("c")];
    assert Member(target, "b") == Undef;
    assert [Str("a"), Str("b"), Str("c")][1..] == [Str("b"), Str("c")];
  }

  /** The evidently intended walk: each key is sought in the value reached by the keys before it. */
  function NestedHasKeys(t: JsVal, keys: seq<JsVal>): KeysResult
    decreases |keys|
  {
    if keys == [] || !Truthy(keys[0]) then Returns(true)
    else if !IsObject(t) then Throws
    else if !HasProperty(t, ToStr(keys[0])) then Returns(false)
    else NestedHasKeys(Member(t, ToStr(keys[0])), keys[1..])
  }

  /** The nested walk finds every path that exists. */
  lemma {:induction false} NestedFindsChain(keys: seq<string>)
    requires forall i :: 0 <= i < |keys| ==> keys[i] != ""
    ensures NestedHasKeys(Chain(keys), StrKeys(keys)) == Returns(true)
    decreases |keys|
  {
    if keys != [] {
      var ks := StrKeys(keys);
      assert ks[0] == Str(keys[0]);
      assert ks[1..] == StrKeys(keys[1..]);
      NestedFindsChain(keys[1..]);
    }
  }

  /** The two walks agree on one and two keys, the only calls the legacy light accessory makes. */
  lemma AgreeOnShortPaths(target: JsVal, keys: seq<JsVal>)
    requires |keys| <= 2
    ensures NestedHasKeys(target, keys) == HasKeysFrom(target, target, keys)
  {
    if |keys| == 2 && Truthy(keys[0]) && IsObject(target) && HasProperty(target, ToStr(keys[0])) {
      var t1 := Member(target, ToStr(keys[0]));
      assert keys[1..][1..] == [];
      assert HasKeysFrom(target, t1, keys[1..]) == NestedHasKeys(t1, keys[1..]);
    }
  }

  /** A path reported present by the nested walk has every prefix present too. */
  lemma {:induction false} NestedPrefixClosed(t: JsVal, keys: seq<JsVal>, more: seq<JsVal>)
    requires NestedHasKeys(t, keys + more) == Returns(true)
    ensures NestedHasKeys(t, keys) == Returns(true)
    decreases |keys|
  {
    if keys != [] {
      assert (keys + more)[0] == keys[0];
      assert (keys + more)[1..] == keys[1..] + more;
      if Truthy(keys[0]) {
        NestedPrefixClosed(Member(t, ToStr(keys[0])), keys[1..], more);
      }
    }
  }
}
