/**
 * `normalizeHeaders`: re-keys an object by the normalised form of each of its
 * keys, visiting the keys in `Object.keys` order and assigning into a fresh
 * accumulator object, so that of two keys with the same normalised form the
 * later one's value remains. A value that is not an object comes back as it is.
 *
 * The fold is stated for any renaming callback; `normalizeHeaders` passes
 * `NormalizeHeader`.
 */
module HeaderMaps {

  import opened JsValues
  import opened HeaderCase

  predicate KeysPresent(keys: seq<string>, props: Fields)
  {
    forall i :: 0 <= i < |keys| ==> keys[i] in props
  }

  /** The accumulator after the `reduce` callback has run on every key of `keys`, in order. */
  function Rekey(keys: seq<string>, props: Fields, rename: string -> string): JsObject
    requires KeysPresent(keys, props)
  {
    if keys == [] then EmptyObject
    else
      var last := keys[|keys| - 1];
      Assign(Rekey(keys[..|keys| - 1], props, rename), rename(last), props[last])
  }

  /** The re-keyed object is a proper JavaScript object. */
  lemma {:induction false} RekeyWellFormed(keys: seq<string>, props: Fields, rename: string -> string)
    requires KeysPresent(keys, props)
    ensures WellFormed(Rekey(keys, props, rename))
  {
    if keys != [] {
      RekeyWellFormed(keys[..|keys| - 1], props, rename);
    }
  }

  /**
   * The new name of the key at position `i` is a name of the re-keyed object,
   * unless it is `__proto__` assigned while the accumulator still reached the
   * inherited setter.
   */
  lemma {:induction false} RekeyHasName(keys: seq<string>, props: Fields, rename: string -> string, i: nat)
    requires KeysPresent(keys, props)
    requires i < |keys|
    requires rename(keys[i]) != ProtoKey || !Rekey(keys[..i], props, rename).protoSetter
    ensures rename(keys[i]) in Rekey(keys, props, rename).props
  {
    var n := |keys| - 1;
    var init := keys[..n];
    assert Rekey(keys, props, rename) == Assign(Rekey(init, props, rename), rename(keys[n]), props[keys[n]]);
    if i < n {
      assert init[i] == keys[i] && init[..i] == keys[..i];
      RekeyHasName(init, props, rename, i);
    } else {
      assert keys[..i] == init;
    }
  }

  /** The new name of every key is a name of the re-keyed object, unless it is `__proto__`. */
  lemma RekeyHasNames(keys: seq<string>, props: Fields, rename: string -> string)
    requires KeysPresent(keys, props)
    ensures forall i :: 0 <= i < |keys| && rename(keys[i]) != ProtoKey ==>
      rename(keys[i]) in Rekey(keys, props, rename).props
  {
    forall i | 0 <= i < |keys| && rename(keys[i]) != ProtoKey
      ensures rename(keys[i]) in Rekey(keys, props, rename).props
    {
      RekeyHasName(keys, props, rename, i);
    }
  }

  /**
   * Every name of the re-keyed object is the new name of some key; it is
   * `__proto__` only once the accumulator no longer reaches the setter.
   */
  lemma {:induction false} RekeyOnlyNames(keys: seq<string>, props: Fields, rename: string -> string, name: string)
    requires KeysPresent(keys, props)
    requires name in Rekey(keys, props, rename).props
    ensures name == ProtoKey ==> !Rekey(keys, props, rename).protoSetter
    ensures exists i :: 0 <= i < |keys| && rename(keys[i]) == name
  {
    RekeyNoProto(keys, props, rename);
    var n := |keys| - 1;
    var init := keys[..n];
    assert Rekey(keys, props, rename) == Assign(Rekey(init, props, rename), rename(keys[n]), props[keys[n]]);
    if name != rename(keys[n]) {
      RekeyOnlyNames(init, props, rename, name);
      var i :| 0 <= i < |init| && rename(init[i]) == name;
      assert keys[i] == init[i];
    }
  }

  /**
   * While the accumulator reaches the inherited setter, `__proto__` is not one
   * of its keys, whatever the callback returns.
   */
  lemma {:induction false} RekeyNoProto(keys: seq<string>, props: Fields, rename: string -> string)
    requires KeysPresent(keys, props)
    ensures Rekey(keys, props, rename).protoSetter ==> ProtoKey !in Rekey(keys, props, rename).props
  {
    if keys != [] {
      var n := |keys| - 1;
      RekeyNoProto(keys[..n], props, rename);
    }
  }

  /**
   * The accumulator, which starts as `{}`, still reaches the inherited setter
   * exactly when no key renamed to `__proto__` carried a value that cuts it
   * off (`null`, or an object without that accessor).
   */
  lemma {:induction false} RekeyProtoSetter(keys: seq<string>, props: Fields, rename: string -> string)
    requires KeysPresent(keys, props)
    ensures Rekey(keys, props, rename).protoSetter <==>
      forall i :: 0 <= i < |keys| && rename(keys[i]) == ProtoKey ==> KeepsProtoSetter(props[keys[i]])
  {
    if keys != [] {
      var n := |keys| - 1;
      var init := keys[..n];
      assert Rekey(keys, props, rename) == Assign(Rekey(init, props, rename), rename(keys[n]), props[keys[n]]);
      RekeyProtoSetter(init, props, rename);
      RekeyNoProto(init, props, rename);
      assert forall i :: 0 <= i < n ==> init[i] == keys[i];
    }
  }

  /** No key after position `i` is renamed to the same name as `keys[i]`. */
  predicate LastOfItsName(keys: seq<string>, rename: string -> string, i: nat)
    requires i < |keys|
  {
    forall j :: i < j < |keys| ==> rename(keys[j]) != rename(keys[i])
  }

  /** Each name holds the value of the last key, in iteration order, that is renamed to it. */
  lemma {:induction false} RekeyLaterWins(keys: seq<string>, props: Fields, rename: string -> string, i: nat)
    requires KeysPresent(keys, props)
    requires i < |keys| && LastOfItsName(keys, rename, i)
    requires rename(keys[i]) != ProtoKey || !Rekey(keys[..i], props, rename).protoSetter
    ensures rename(keys[i]) in Rekey(keys, props, rename).props
    ensures Rekey(keys, props, rename).props[rename(keys[i])] == props[keys[i]]
  {
    var n := |keys| - 1;
    var init := keys[..n];
    assert Rekey(keys, props, rename) == Assign(Rekey(init, props, rename), rename(keys[n]), props[keys[n]]);
    if i < n {
      assert init[i] == keys[i] && init[..i] == keys[..i];
      assert LastOfItsName(init, rename, i) by {
        forall j | i < j < |init| ensures rename(init[j]) != rename(init[i]) {
          assert init[j] == keys[j];
        }
      }
      RekeyLaterWins(init, props, rename, i);
    } else {
      assert keys[..i] == init;
    }
  }

  /**
   * Own keys `__proto__: null` then `__PROTO__: v`: both normalise to
   * `__proto__`. The first assignment runs the inherited setter and gives the
   * accumulator a `null` prototype; the second then creates an own
   * `__proto__` key holding `v`.
   */
  lemma ProtoAfterNullExample(v: JsValue)
    ensures Rekey(["__proto__", "__PROTO__"], map["__proto__" := Null, "__PROTO__" := v], NormalizeHeader)
            == JsObject([ProtoKey], map[ProtoKey := v], false)
  {
    ProtoNamesExample();
    var keys := ["__proto__", "__PROTO__"];
    var props := map["__proto__" := Null, "__PROTO__" := v];
    assert keys[..1][..0] == [];
    assert Rekey(keys[..1], props, NormalizeHeader) == JsObject([], map[], false);
  }

  /**
   * What `normalizeHeaders(obj)` returns: a value that is not an object comes
   * back as it is, an object is re-keyed by `NormalizeHeader`.
   */
  function Normalized(obj: JsValue): (r: JsValue)
    requires obj.Object? ==> WellFormed(obj.obj)
    ensures !obj.Object? ==> r == obj
    ensures obj.Object? ==> r.Object? && WellFormed(r.obj)
    ensures obj.Object? ==> forall i :: 0 <= i < |obj.obj.keys| && NormalizeHeader(obj.obj.keys[i]) != ProtoKey ==>
      NormalizeHeader(obj.obj.keys[i]) in r.obj.props
  {
    if obj.Object? then
      assert KeysPresent(obj.obj.keys, obj.obj.props);
      RekeyWellFormed(obj.obj.keys, obj.obj.props, NormalizeHeader);
      RekeyHasNames(obj.obj.keys, obj.obj.props, NormalizeHeader);
      Object(Rekey(obj.obj.keys, obj.obj.props, NormalizeHeader))
    else obj
  }

  /**
   * `normalizeHeaders(obj)`. The source's `Object.keys(obj).reduce(...)` is the
   * loop; the accumulator starts as `{}`.
   */
  method NormalizeHeaders(obj: JsValue) returns (r: JsValue)
    requires obj.Object? ==> WellFormed(obj.obj)
    ensures !obj.Object? ==> r == obj
    ensures obj.Object? ==> r == Object(Rekey(obj.obj.keys, obj.obj.props, NormalizeHeader))
    ensures r == Normalized(obj)
  {
    if !obj.Object? {
      return obj;
    }
    var keys := obj.obj.keys;
    var props := obj.obj.props;
    var result := EmptyObject;
    var i := 0;
    assert KeysPresent(keys, props);
    while i < |keys|
      invariant 0 <= i <= |keys|
      invariant KeysPresent(keys, props)
      invariant KeysPresent(keys[..i], props)
      invariant result == Rekey(keys[..i], props, NormalizeHeader)
    {
      ghost var next := keys[..i + 1];
      assert next[..i] == keys[..i] && next[i] == keys[i];
      assert KeysPresent(next, props);
      result := Assign(result, NormalizeHeader(keys[i]), props[keys[i]]);
      assert result == Rekey(next, props, NormalizeHeader);
      i := i + 1;
    }
    assert keys[..i] == keys;
    r := Object(result);
  }
}
