/** Key names: the synthetic `$` prefix of array-forwarding keys
    (`String.arrayKVO`, ArrayKVO.swift) and the rewrite that turns a
    property wrapper's storage name into its owner key path
    (`initWrappers`, PropertyWrappers.swift). */
module KeyPaths {

  /** `String.arrayKVO`: the marker that starts a synthetic key. */
  const ArrayKvo: string := "$"

  /** `key.hasPrefix(String.arrayKVO)` */
  predicate HasArrayPrefix(key: string) {
    |ArrayKvo| <= |key| && key[..|ArrayKvo|] == ArrayKvo
  }

  /** `String(key.dropFirst(prefix.count))`: the real key a synthetic key
      stands for. */
  function DropArrayPrefix(key: string): (realKey: string)
    requires HasArrayPrefix(key)
    ensures ArrayKvo + realKey == key
    ensures |realKey| == |key| - 1
  {
    key[|ArrayKvo|..]
  }

  /** `.arrayKVO + key`: the synthetic key that forwards `key` per element. */
  function SyntheticKey(key: string): (synthetic: string)
    ensures HasArrayPrefix(synthetic)
    ensures DropArrayPrefix(synthetic) == key
  {
    ArrayKvo + key
  }

  /** A synthetic key is exactly the marker followed by its real key. */
  lemma SyntheticKeyRoundTrip(key: string)
    requires HasArrayPrefix(key)
    ensures SyntheticKey(DropArrayPrefix(key)) == key
  {
  }

  /** Two distinct real keys never share a synthetic key. */
  lemma SyntheticKeyInjective(a: string, b: string)
    requires SyntheticKey(a) == SyntheticKey(b)
    ensures a == b
  {
    assert a == DropArrayPrefix(SyntheticKey(a));
  }

  /** `key.replacingOccurrences(of: "_", with: "")`: the key path under which
      a wrapper is registered; Swift names a wrapper's storage `_name`. */
  function WrapperKeyPath(storage: string): (keyPath: string)
    ensures '_' !in keyPath
    ensures |keyPath| <= |storage|
    ensures forall c :: c in keyPath ==> c in storage
  {
    if storage == [] then []
    else if storage[0] == '_' then WrapperKeyPath(storage[1..])
    else [storage[0]] + WrapperKeyPath(storage[1..])
  }

  /** The rewrite works character by character: it distributes over
      concatenation. */
  lemma {:induction false} WrapperKeyPathAppend(a: string, b: string)
    ensures WrapperKeyPath(a + b) == WrapperKeyPath(a) + WrapperKeyPath(b)
  {
    if a != [] {
      assert (a + b)[1..] == a[1..] + b;
      WrapperKeyPathAppend(a[1..], b);
    } else {
      assert a + b == b;
    }
  }

  /** A storage without underscores is its own key path. */
  lemma {:induction false} WrapperKeyPathKeepsPlainLabel(storage: string)
    requires '_' !in storage
    ensures WrapperKeyPath(storage) == storage
  {
    if storage != [] {
      assert '_' !in storage[1..] by {
        forall c | c in storage[1..] ensures c != '_' {
          assert c in storage;
        }
      }
      WrapperKeyPathKeepsPlainLabel(storage[1..]);
    }
  }

  /** The backing storage `_name` of a wrapped property `name` is
      registered under `name`. */
  lemma StorageLabelKeyPath(name: string)
    requires '_' !in name
    ensures WrapperKeyPath("_" + name) == name
  {
    WrapperKeyPathAppend("_", name);
    WrapperKeyPathKeepsPlainLabel(name);
  }

  /** Rewriting twice is rewriting once. */
  lemma WrapperKeyPathIdempotent(storage: string)
    ensures WrapperKeyPath(WrapperKeyPath(storage)) == WrapperKeyPath(storage)
  {
    WrapperKeyPathKeepsPlainLabel(WrapperKeyPath(storage));
  }
}
