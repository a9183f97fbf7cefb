/** The middleware stack of the second API generation: a `Map` from names
    (strings or symbols) to middleware, in insertion order. */
module CoreMiddleware {
  import opened Wrappers
  import opened Text
  import opened Records

  /** A `Map` key: a string, or a symbol (told apart by a number). */
  datatype Key = Str(name: string) | Sym(id: nat)

  /** A middleware function `(req, next) => …`; the stack only stores and
      compares them, so an object stands for the function's identity. */
  class Handler {
    constructor()
    {
    }
  }

  /** The key `use` generates when no name is given: the current size of the map. */
  function AutoKey(size: nat): Key {
    Str("maingo-middleware-key-" + IntToString(size))
  }

  /** The key `use(fn, name)` stores under. */
  function UseKey(entries: Record<Key, Handler>, name: Option<Key>): Key {
    match name
    case Some(n) => n
    case None => AutoKey(|entries|)
  }

  class MiddlewareStack {
    var entries: Record<Key, Handler>

    ghost predicate Valid()
      reads this
    {
      UniqueKeys(entries)
    }

    constructor()
      ensures Valid() && entries == []
    {
      entries := [];
    }

    /** The `middleware` getter: the stored functions in key-insertion order. */
    function Middleware(): (ms: seq<Handler>)
      reads this
      ensures |ms| == |entries|
      ensures forall i | 0 <= i < |entries| :: ms[i] == entries[i].1
    {
      Values(entries)
    }

    /** `has(name)`. */
    function Has(name: Key): (b: bool)
      reads this
      ensures b <==> name in Keys(entries)
    {
      Get(entries, name).Some?
    }

    /** `get(name)`: the function stored under `name`, or undefined. */
    function GetMiddleware(name: Key): (m: Option<Handler>)
      reads this
      requires Valid()
      ensures m.Some? <==> name in Keys(entries)
      ensures m.Some? ==> exists i | 0 <= i < |entries| :: entries[i] == (name, m.value)
      ensures forall i | 0 <= i < |entries| && entries[i].0 == name :: m == Some(entries[i].1)
    {
      GetEntry(entries, name);
      Get(entries, name)
    }

    /** `use(fn, name)`: stores `fn` under `name` (or under the generated
        key), replacing in place an entry already stored under that key,
        and returns the key. */
    method Use(fn: Handler, name: Option<Key>) returns (key: Key)
      requires Valid()
      modifies this
      ensures Valid()
      ensures name.Some? ==> key == name.value
      ensures name.None? ==> key == AutoKey(|old(entries)|)
      ensures entries == Set(old(entries), key, fn)
      ensures forall j :: Get(entries, j) == if j == key then Some(fn) else Get(old(entries), j)
      ensures Keys(entries) == if key in Keys(old(entries)) then Keys(old(entries)) else Keys(old(entries)) + [key]
    {
      key := UseKey(entries, name);
      SetUniqueKeys(entries, key, fn);
      KeysSet(entries, key, fn);
      forall j ensures Get(Set(entries, key, fn), j) == if j == key then Some(fn) else Get(entries, j) {
        GetSet(entries, key, fn, j);
      }
      entries := Set(entries, key, fn);
    }

    /** `remove(key)`: deletes the entry and reports whether there was one. */
    method Remove(key: Key) returns (removed: bool)
      requires Valid()
      modifies this
      ensures Valid()
      ensures removed <==> key in Keys(old(entries))
      ensures entries == Delete(old(entries), key)
      ensures key !in Keys(entries)
      ensures forall j | j != key :: Get(entries, j) == Get(old(entries), j)
    {
      removed := Get(entries, key).Some?;
      DeleteUniqueKeys(entries, key);
      forall j ensures Get(Delete(entries, key), j) == if j == key then None else Get(entries, j) {
        GetDelete(entries, key, j);
      }
      entries := Delete(entries, key);
    }
  }

  /** In a map with distinct keys, the stored value is the one in the entry with that key. */
  lemma {:induction false} GetEntry<V>(r: Record<Key, V>, k: Key)
    requires UniqueKeys(r)
    ensures Get(r, k).Some? ==> exists i | 0 <= i < |r| :: r[i] == (k, Get(r, k).value)
    ensures forall i | 0 <= i < |r| && r[i].0 == k :: Get(r, k) == Some(r[i].1)
    decreases |r|
  {
    if r != [] {
      GetEntry(r[1..], k);
      if r[0].0 != k {
        if Get(r, k).Some? {
          var i :| 0 <= i < |r[1..]| && r[1..][i] == (k, Get(r, k).value);
          assert r[i + 1] == r[1..][i];
        }
        forall i | 0 <= i < |r| && r[i].0 == k ensures Get(r, k) == Some(r[i].1) {
          assert r[i] == r[1..][i - 1];
        }
      } else {
      }
    }
  }

  /** Replacing an existing key keeps the number of entries and their order;
      only the value at that key's position changes. */
  lemma {:induction false} ReplaceInPlace<V>(r: Record<Key, V>, p: nat, v: V)
    requires UniqueKeys(r) && p < |r|
    ensures Set(r, r[p].0, v) == r[..p] + [(r[p].0, v)] + r[p + 1..]
    decreases |r|
  {
    if p > 0 {
      ReplaceInPlace(r[1..], p - 1, v);
      assert r[1..][..p - 1] == r[1..p];
      assert r[1..][p - 1 + 1..] == r[p + 1..];
    }
  }

  /** Removing a key keeps all other entries in their order. */
  lemma RemoveKeepsOrder<V>(r: Record<Key, V>, p: nat)
    requires UniqueKeys(r) && p < |r|
    ensures Delete(r, r[p].0) == r[..p] + r[p + 1..]
  {
    DeleteAt(r, p);
  }

  // ---------------------------------------------------------------------
  // The generated key can name a live entry.

  /** Using `a` and `b` without names, removing the first and using `c`
      without a name gives `c` the key "maingo-middleware-key-1", which is
      `b`'s: `b` is silently replaced and the stack holds one entry. */
  lemma AutoKeyCollision(a: Handler, b: Handler, c: Handler)
    ensures
      var e1 := Set([], UseKey([], None), a);
      var e2 := Set(e1, UseKey(e1, None), b);
      var e3 := Delete(e2, UseKey([], None));
      var e4 := Set(e3, UseKey(e3, None), c);
      Get(e2, UseKey(e1, None)) == Some(b) && |e2| == 2 &&
      UseKey(e3, None) == UseKey(e1, None) && Get(e4, UseKey(e1, None)) == Some(c) && |e4| == 1
  {
    var k0 := AutoKey(0);
    var k1 := AutoKey(1);
    assert IntToString(0) == "0" && IntToString(1) == "1";
    assert k0.name[22] == '0' && k1.name[22] == '1';
    var e1 := Set([], k0, a);
    assert e1 == [(k0, a)];
    assert k0 != k1;
    var e2 := Set(e1, k1, b);
    assert e1[1..] == [];
    assert e2 == [(k0, a)] + Set([], k1, b);
    assert e2 == [(k0, a), (k1, b)];
    var e3 := Delete(e2, k0);
    assert e2[1..] == [(k1, b)];
    assert e3 == Delete([(k1, b)], k0);
    assert e3 == [(k1, b)];
    assert UseKey(e3, None) == k1;
  }

  /** A number above every symbol's in use. */
  function SymBound<V>(entries: Record<Key, V>): (n: nat)
    ensures forall i | 0 <= i < |entries| && entries[i].0.Sym? :: entries[i].0.id < n
    decreases |entries|
  {
    if entries == [] then 0
    else
      var rest := SymBound(entries[1..]);
      var here := if entries[0].0.Sym? then entries[0].0.id + 1 else 0;
      assert forall i | 1 <= i < |entries| :: entries[i] == entries[1..][i - 1];
      if here > rest then here else rest
  }

  /** The key `use` was meant to generate (a fresh symbol): no key in use. */
  function FreshKey(entries: Record<Key, Handler>): (k: Key)
    ensures k !in Keys(entries)
  {
    Sym(SymBound(entries))
  }

  /** `use` with the fresh key never replaces a live entry: the new entry
      goes last and every earlier entry stays. */
  lemma UseFreshKeyAppends(entries: Record<Key, Handler>, fn: Handler)
    ensures Set(entries, FreshKey(entries), fn) == entries + [(FreshKey(entries), fn)]
  {
    SetAbsent(entries, FreshKey(entries), fn);
  }

  lemma {:induction false} SetAbsent<V>(r: Record<Key, V>, k: Key, v: V)
    requires k !in Keys(r)
    ensures Set(r, k, v) == r + [(k, v)]
    decreases |r|
  {
    if r != [] {
      assert Keys(r) == [r[0].0] + Keys(r[1..]);
      SetAbsent(r[1..], k, v);
    }
  }
}
