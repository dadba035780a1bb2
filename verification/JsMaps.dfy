/** The insertion-ordered `Map` of JavaScript, and the two shared wrappers.
    Setting a key that is already present keeps its position in the iteration order. */
module JsMaps {

  datatype Option<+T> = None | Some(value: T)

  /** Source exceptions: `Err` leaves the state as it was. */
  datatype Result<+T> = Ok(value: T) | Err

  ghost predicate Distinct<T>(s: seq<T>) {
    forall i, j :: 0 <= i < j < |s| ==> s[i] != s[j]
  }

  datatype Entries<K(!new), V> = Entries(keys: seq<K>, vals: map<K, V>) {
    ghost predicate Ordered() {
      Distinct(keys) && forall k :: k in keys <==> k in vals
    }
  }

  type JsMap<K(!new), V> = m: Entries<K, V> | m.Ordered() witness Entries([], map[])

  function EmptyMap<K(!new), V>(): JsMap<K, V> {
    Entries([], map[])
  }

  /** `s` with `x` removed; the others keep their order. */
  function Without<T(==, !new)>(s: seq<T>, x: T): (r: seq<T>)
    ensures forall y :: y in r <==> y in s && y != x
    ensures Distinct(s) ==> Distinct(r)
    ensures x !in s ==> r == s
    ensures |r| <= |s|
  {
    if s == [] then []
    else
      var rest := Without(s[1..], x);
      assert s == [s[0]] + s[1..];
      assert Distinct(s) ==> Distinct(s[1..]) && s[0] !in s[1..];
      if s[0] == x then rest
      else
        var r := [s[0]] + rest;
        assert forall i :: 0 < i < |r| ==> r[i] == rest[i - 1] && r[i] in rest;
        r
  }

  function Put<K(==, !new), V>(m: JsMap<K, V>, k: K, v: V): (r: JsMap<K, V>)
    ensures r.vals == m.vals[k := v]
  {
    Entries(if k in m.vals then m.keys else m.keys + [k], m.vals[k := v])
  }

  function Delete<K(==, !new), V>(m: JsMap<K, V>, k: K): (r: JsMap<K, V>)
    ensures r.vals == m.vals - {k}
  {
    Entries(Without(m.keys, k), m.vals - {k})
  }

  lemma EmptyKeys<K(!new), V>(m: JsMap<K, V>)
    ensures m.keys == [] <==> m.vals == map[]
    ensures m.keys == [] <==> |m.keys| == 0
  {
    if m.keys != [] {
      assert m.keys[0] in m.vals;
    } else {
      assert m.vals.Keys == {};
    }
  }
}
