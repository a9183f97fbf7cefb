/** The URL helpers: `normalizeHostname`, and `formatSearchParamPHP`, which
    appends one parameter to a URL's search parameters in the PHP
    `key[i]=value` form; plus the mutable URL object they append into. */
module Url {
  import opened Wrappers
  import opened Text
  import opened JsValues
  import opened Http

  /** A `URL` object; only its search parameters are ever changed. */
  class UrlObject {
    var location: Location

    constructor(l: Location)
      ensures location == l
    {
      location := l;
    }

    /** `url.searchParams.append(name, value)`. */
    method Append(name: string, value: string)
      modifies this
      ensures location == old(location).(query := old(location.query) + [(name, value)])
    {
      location := location.(query := location.query + [(name, value)]);
    }
  }

  /** Appending pairs to a query in two steps appends their concatenation. */
  lemma QueryExtend(l: Location, a: seq<(string, string)>, b: seq<(string, string)>)
    ensures var l1 := l.(query := l.query + a); l1.(query := l1.query + b) == l.(query := l.query + (a + b))
  {
    assert l.query + a + b == l.query + (a + b);
  }

  /** `normalizeHostname`: a trailing "/" is added unless one is there
      (the empty hostname becomes "/"). */
  function NormalizeHostname(hostname: string): (r: string)
    ensures |r| > 0 && r[|r| - 1] == '/'
    ensures |hostname| <= |r| <= |hostname| + 1 && r[..|hostname|] == hostname
    ensures |hostname| > 0 && hostname[|hostname| - 1] == '/' ==> r == hostname
  {
    if |hostname| > 0 && hostname[|hostname| - 1] == '/' then hostname else hostname + "/"
  }

  lemma NormalizeHostnameIdempotent(hostname: string)
    ensures NormalizeHostname(NormalizeHostname(hostname)) == NormalizeHostname(hostname)
  {
  }

  // ---------------------------------------------------------------------
  // What appending a parameter produces.

  /** The pairs an append step adds, and the error it stops with, if any. */
  datatype Appended = Appended(pairs: seq<(string, string)>, error: Option<string>)

  /** `${key}[${i}]`. */
  function IndexedName(key: string, i: nat): string {
    key + "[" + IntToString(i) + "]"
  }

  /** Position of the first null or undefined item. */
  function FirstNil(items: seq<Value>): (r: Option<nat>)
    ensures r.Some? ==> r.value < |items| && IsNil(items[r.value])
    ensures r.Some? ==> forall j | 0 <= j < r.value :: !IsNil(items[j])
    ensures r.None? ==> forall j | 0 <= j < |items| :: !IsNil(items[j])
    decreases |items|
  {
    if items == [] then None
    else if IsNil(items[0]) then Some(0)
    else match FirstNil(items[1..])
      case None => None
      case Some(p) => Some(p + 1)
  }

  /** The pairs `key[j] = items[j].toString()` for `j < n`. */
  function ArrayPairs(key: string, items: seq<Value>, n: nat): (r: seq<(string, string)>)
    requires n <= |items| && forall j | 0 <= j < n :: !IsNil(items[j])
    ensures |r| == n
  {
    seq(n, j requires 0 <= j < n => (IndexedName(key, j), ToString(items[j])))
  }

  /** An array appended item by item: every item up to the first null or
      undefined one, which stops the append with the error `fail` gives it. */
  function ArrayAppended(key: string, items: seq<Value>, fail: Value -> string): (r: Appended)
    ensures r.error.None? ==> |r.pairs| == |items|
    ensures r.error.Some? <==> exists j | 0 <= j < |items| :: IsNil(items[j])
  {
    match FirstNil(items)
    case None => Appended(ArrayPairs(key, items, |items|), None)
    case Some(p) => Appended(ArrayPairs(key, items, p), Some(fail(items[p])))
  }

  /** The `TypeError` raised by calling `toString` on null or undefined. */
  function ToStringTypeError(v: Value): string {
    "TypeError: Cannot read properties of " + Interpolate(v) + " (reading 'toString')"
  }

  /** What `formatSearchParamPHP(key, value, url)` appends. */
  function PhpAppended(key: string, value: Value): Appended {
    match value
    case VArray(items) => ArrayAppended(key, items, ToStringTypeError)
    case VBool(b) => Appended([(key, if b then "1" else "0")], None)
    case _ =>
      if IsNil(value) then Appended([], Some(ToStringTypeError(value)))
      else Appended([(key, ToString(value))], None)
  }

  /** `items.forEach((item, i) => url.searchParams.append(`${key}[${i}]`, …))`
      where a null or undefined item throws the error `fail` gives it, after
      the items before it have been appended. */
  method AppendArray(key: string, items: seq<Value>, fail: Value -> string, url: UrlObject) returns (error: Option<string>)
    modifies url
    ensures url.location == old(url.location).(query := old(url.location.query) + ArrayAppended(key, items, fail).pairs)
    ensures error == ArrayAppended(key, items, fail).error
  {
    ghost var start := url.location;
    ghost var added: seq<(string, string)> := [];
    var i := 0;
    while i < |items|
      invariant 0 <= i <= |items|
      invariant forall j | 0 <= j < i :: !IsNil(items[j])
      invariant added == ArrayPairs(key, items, i)
      invariant url.location == start.(query := start.query + added)
    {
      if IsNil(items[i]) {
        FirstNilAt(items, i);
        return Some(fail(items[i]));
      }
      var name, text := IndexedName(key, i), ToString(items[i]);
      url.Append(name, text);
      QueryExtend(start, added, [(name, text)]);
      ArrayPairsSnoc(key, items, i);
      added := added + [(name, text)];
      i := i + 1;
    }
    return None;
  }

  /** One more item of an array. */
  lemma ArrayPairsSnoc(key: string, items: seq<Value>, i: nat)
    requires i < |items| && forall j | 0 <= j <= i :: !IsNil(items[j])
    ensures ArrayPairs(key, items, i + 1) == ArrayPairs(key, items, i) + [(IndexedName(key, i), ToString(items[i]))]
  {
  }

  /** `formatSearchParamPHP`: appends `key[i]` pairs for an array, "1"/"0"
      for a boolean, `toString()` otherwise. An array item that is null or
      undefined raises a `TypeError` after the items before it have been
      appended. */
  method FormatSearchParamPhp(key: string, value: Value, url: UrlObject) returns (error: Option<string>)
    modifies url
    ensures url.location == old(url.location).(query := old(url.location.query) + PhpAppended(key, value).pairs)
    ensures error == PhpAppended(key, value).error
  {
    error := None;
    if value.VArray? {
      error := AppendArray(key, value.items, ToStringTypeError, url);
    } else if value.VBool? {
      url.Append(key, if value.b then "1" else "0");
    } else if IsNil(value) {
      error := Some(ToStringTypeError(value));
    } else {
      url.Append(key, ToString(value));
    }
  }

  /** An item that is nil while every item before it is not is the first nil item. */
  lemma FirstNilAt(items: seq<Value>, i: nat)
    requires i < |items| && IsNil(items[i])
    requires forall j | 0 <= j < i :: !IsNil(items[j])
    ensures FirstNil(items) == Some(i)
  {
    var r := FirstNil(items);
    assert r.Some?;
  }

  /** Appending a list of entries one step at a time, in order, stopping at
      the first step that throws (whatever it appended before throwing stays). */
  function AppendAll(entries: seq<(string, Value)>, step: (string, Value) -> Appended): Appended
    decreases |entries|
  {
    if entries == [] then Appended([], None)
    else
      var done := AppendAll(entries[..|entries| - 1], step);
      if done.error.Some? then done
      else
        var last := entries[|entries| - 1];
        var e := step(last.0, last.1);
        Appended(done.pairs + e.pairs, e.error)
  }

  /** One more entry, when none before it has thrown. */
  lemma AppendAllStep(entries: seq<(string, Value)>, i: nat, step: (string, Value) -> Appended)
    requires i < |entries| && AppendAll(entries[..i], step).error.None?
    ensures AppendAll(entries[..i + 1], step) ==
      Appended(AppendAll(entries[..i], step).pairs + step(entries[i].0, entries[i].1).pairs,
               step(entries[i].0, entries[i].1).error)
  {
    assert entries[..i + 1][..i] == entries[..i];
  }

  /** Once an entry has thrown, the later entries add nothing. */
  lemma {:induction false} AppendAllStops(entries: seq<(string, Value)>, n: nat, step: (string, Value) -> Appended)
    requires n <= |entries| && AppendAll(entries[..n], step).error.Some?
    ensures AppendAll(entries, step) == AppendAll(entries[..n], step)
    decreases |entries| - n
  {
    if n < |entries| {
      var m := |entries| - 1;
      assert entries[..m][..n] == entries[..n];
      AppendAllStops(entries[..m], n, step);
    } else {
      assert entries[..n] == entries;
    }
  }

  /** The fold throws exactly when some step throws and every step before it did not. */
  lemma {:induction false} AppendAllError(entries: seq<(string, Value)>, step: (string, Value) -> Appended)
    ensures AppendAll(entries, step).error.Some? <==>
      exists i | 0 <= i < |entries| :: step(entries[i].0, entries[i].1).error.Some?
    ensures AppendAll(entries, step).error.Some? ==>
      exists i | 0 <= i < |entries| :: AppendAll(entries, step).error == step(entries[i].0, entries[i].1).error
    decreases |entries|
  {
    if entries != [] {
      var init := entries[..|entries| - 1];
      AppendAllError(init, step);
      if exists i | 0 <= i < |init| :: step(init[i].0, init[i].1).error.Some? {
        var i :| 0 <= i < |init| && step(init[i].0, init[i].1).error.Some?;
        assert init[i] == entries[i];
      }
      if AppendAll(init, step).error.Some? {
        var i :| 0 <= i < |init| && AppendAll(init, step).error == step(init[i].0, init[i].1).error;
        assert init[i] == entries[i];
      }
    }
  }

  /** The documented forms: an array of n items gives `key[0]` … `key[n-1]`
      in index order with each item's `toString()`. */
  lemma PhpArrayForm(key: string, items: seq<Value>)
    requires forall j | 0 <= j < |items| :: !IsNil(items[j])
    ensures PhpAppended(key, VArray(items)).error.None?
    ensures |PhpAppended(key, VArray(items)).pairs| == |items|
    ensures forall j | 0 <= j < |items| ::
      PhpAppended(key, VArray(items)).pairs[j] == (key + "[" + IntToString(j) + "]", ToString(items[j]))
  {
    assert FirstNil(items).None?;
  }
}
