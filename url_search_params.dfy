/** `appendParamsDelimited` and `appendParamsIndexed`: the two ways a
    request's `params` object is appended to a URL's search parameters. */
module UrlSearchParams {
  import opened Wrappers
  import opened Records
  import opened JsValues
  import opened Url

  // ---------------------------------------------------------------------
  // Delimited.

  /** The pairs `appendParamsDelimited` appends for these entries: one
      `(key, value.toString())` per entry whose value is not null or
      undefined, in entry order (an array comes out comma-joined). */
  function DelimitedPairs(entries: Record<string, Value>): seq<(string, string)>
    decreases |entries|
  {
    if entries == [] then []
    else
      var last := entries[|entries| - 1];
      DelimitedPairs(entries[..|entries| - 1]) + (if IsNil(last.1) then [] else [(last.0, ToString(last.1))])
  }

  /** `appendParamsDelimited(url, params)`: never throws, only appends. */
  method AppendParamsDelimited(url: UrlObject, params: Value)
    modifies url
    ensures url.location == old(url.location).(query := old(url.location.query) + DelimitedPairs(OwnEntries(params)))
  {
    var entries := OwnEntries(params);
    ghost var start := url.location;
    ghost var added: seq<(string, string)> := [];
    var i := 0;
    while i < |entries|
      invariant 0 <= i <= |entries|
      invariant added == DelimitedPairs(entries[..i])
      invariant url.location == start.(query := start.query + added)
    {
      var (key, value) := entries[i];
      DelimitedStep(entries, i);
      if IsNil(value) {
        i := i + 1;
        continue;
      }
      url.Append(key, ToString(value));
      QueryExtend(start, added, [(key, ToString(value))]);
      added := added + [(key, ToString(value))];
      i := i + 1;
    }
    assert entries[..i] == entries;
  }

  /** One more entry of the delimited form. */
  lemma DelimitedStep(entries: Record<string, Value>, i: nat)
    requires i < |entries|
    ensures DelimitedPairs(entries[..i + 1]) ==
      DelimitedPairs(entries[..i]) + (if IsNil(entries[i].1) then [] else [(entries[i].0, ToString(entries[i].1))])
  {
    assert entries[..i + 1][..i] == entries[..i];
  }

  /** Entries are processed independently, in order. */
  lemma {:induction false} DelimitedConcat(a: Record<string, Value>, b: Record<string, Value>)
    ensures DelimitedPairs(a + b) == DelimitedPairs(a) + DelimitedPairs(b)
    decreases |b|
  {
    if b == [] {
      assert a + b == a;
    } else {
      var n := |b| - 1;
      assert (a + b)[..|a + b| - 1] == a + b[..n];
      DelimitedConcat(a, b[..n]);
    }
  }

  /** An entry whose value is null or undefined is skipped; any other entry
      gives exactly the pair of its key and its value's `toString()`. */
  lemma DelimitedSingle(key: string, value: Value)
    ensures DelimitedPairs([(key, value)]) == if IsNil(value) then [] else [(key, ToString(value))]
  {
    assert [(key, value)][..0] == [];
  }

  /** With no null or undefined values every entry gives its pair, at its position. */
  lemma {:induction false} DelimitedAllPresent(entries: Record<string, Value>)
    requires forall i | 0 <= i < |entries| :: !IsNil(entries[i].1)
    ensures |DelimitedPairs(entries)| == |entries|
    ensures forall i | 0 <= i < |entries| :: DelimitedPairs(entries)[i] == (entries[i].0, ToString(entries[i].1))
    decreases |entries|
  {
    if entries != [] {
      DelimitedAllPresent(entries[..|entries| - 1]);
    }
  }

  // ---------------------------------------------------------------------
  // Indexed.

  /** The error `appendParamsIndexed` throws for a null or undefined array item. */
  function ItemTypeError(item: Value): string {
    "Invalid array item type. Found: \"" + Interpolate(item) + "\""
  }

  /** What `appendParamsIndexed` does with one entry: skip a null or
      undefined value, index an array's items, "1"/"0" for a boolean,
      `toString()` otherwise. */
  function IndexedEntry(key: string, value: Value): Appended {
    if IsNil(value) then Appended([], None)
    else match value
      case VArray(items) => ArrayAppended(key, items, ItemTypeError)
      case VBool(b) => Appended([(key, if b then "1" else "0")], None)
      case _ => Appended([(key, ToString(value))], None)
  }

  /** What `appendParamsIndexed` appends for these entries, in order, up to
      and including the entry whose array throws. */
  function Indexed(entries: Record<string, Value>): Appended {
    AppendAll(entries, IndexedEntry)
  }

  /** One iteration of `appendParamsIndexed`'s loop. */
  method AppendEntryIndexed(key: string, value: Value, url: UrlObject) returns (error: Option<string>)
    modifies url
    ensures url.location == old(url.location).(query := old(url.location.query) + IndexedEntry(key, value).pairs)
    ensures error == IndexedEntry(key, value).error
  {
    error := None;
    if IsNil(value) {
      return;
    }
    if value.VArray? {
      error := AppendArray(key, value.items, ItemTypeError, url);
    } else if value.VBool? {
      url.Append(key, if value.b then "1" else "0");
    } else {
      url.Append(key, ToString(value));
    }
  }

  /** `appendParamsIndexed(url, params)`: pairs appended before a throw stay
      on the URL. */
  method AppendParamsIndexed(url: UrlObject, params: Value) returns (error: Option<string>)
    modifies url
    ensures url.location == old(url.location).(query := old(url.location.query) + Indexed(OwnEntries(params)).pairs)
    ensures error == Indexed(OwnEntries(params)).error
  {
    var entries := OwnEntries(params);
    ghost var start := url.location;
    ghost var added: seq<(string, string)> := [];
    var i := 0;
    while i < |entries|
      invariant 0 <= i <= |entries|
      invariant Indexed(entries[..i]) == Appended(added, None)
      invariant url.location == start.(query := start.query + added)
    {
      ghost var step := IndexedEntry(entries[i].0, entries[i].1);
      AppendAllStep(entries, i, IndexedEntry);
      assert Indexed(entries[..i + 1]) == Appended(added + step.pairs, step.error);
      error := AppendEntryIndexed(entries[i].0, entries[i].1, url);
      QueryExtend(start, added, step.pairs);
      added := added + step.pairs;
      if error.Some? {
        AppendAllStops(entries, i + 1, IndexedEntry);
        assert Indexed(entries) == Indexed(entries[..i + 1]);
        return;
      }
      i := i + 1;
    }
    assert entries[..i] == entries;
    return None;
  }

  /** A top-level value that is null or undefined is skipped, never an error. */
  lemma IndexedSkipsNil(entries: Record<string, Value>, key: string, value: Value)
    requires IsNil(value)
    ensures Indexed(entries + [(key, value)]) == Indexed(entries)
  {
    assert (entries + [(key, value)])[..|entries|] == entries;
  }

  /** For every value that is not null or undefined, the indexed form appends
      exactly what `formatSearchParamPHP` appends, and throws exactly when it
      throws (only the message differs). */
  lemma IndexedAgreesWithPhp(key: string, value: Value)
    requires !IsNil(value)
    ensures IndexedEntry(key, value).pairs == PhpAppended(key, value).pairs
    ensures IndexedEntry(key, value).error.Some? <==> PhpAppended(key, value).error.Some?
  {
  }

  /** Values that are neither arrays nor booleans give the same pairs in
      both formats, and the indexed form then never throws. */
  lemma {:induction false} IndexedIsDelimitedOnScalars(entries: Record<string, Value>)
    requires forall i | 0 <= i < |entries| :: !entries[i].1.VArray? && !entries[i].1.VBool?
    ensures Indexed(entries) == Appended(DelimitedPairs(entries), None)
    decreases |entries|
  {
    if entries != [] {
      IndexedIsDelimitedOnScalars(entries[..|entries| - 1]);
    }
  }

  /** The indexed form throws exactly when some array value holds a null or
      undefined item, and then with the message naming that item. */
  lemma IndexedThrows(entries: Record<string, Value>)
    ensures Indexed(entries).error.Some? <==>
      exists i, j | 0 <= i < |entries| && entries[i].1.VArray? && 0 <= j < |entries[i].1.items| ::
        IsNil(entries[i].1.items[j])
    ensures Indexed(entries).error.Some? ==>
      exists it | IsNil(it) :: Indexed(entries).error == Some(ItemTypeError(it))
  {
    AppendAllError(entries, IndexedEntry);
    if Indexed(entries).error.Some? {
      var i :| 0 <= i < |entries| && Indexed(entries).error == IndexedEntry(entries[i].0, entries[i].1).error;
      var items := entries[i].1.items;
      var p := FirstNil(items).value;
      assert Indexed(entries).error == Some(ItemTypeError(items[p]));
    }
  }
}
