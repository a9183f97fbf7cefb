/** The middleware stack of the first API generation: four ordered sets of
    callbacks (request taps, response taps, request maps, response maps),
    the removers `tap` and `push` hand back, and the folds that run them. */
module Middleware {
  import opened Wrappers
  import opened Text
  import opened Http
  import Functional

  // ---------------------------------------------------------------------
  // Ordered sets (`Set` keeps insertion order and ignores a second add).

  function Add<T(==)>(s: seq<T>, x: T): (r: seq<T>)
    ensures x in r
    ensures x in s ==> r == s
    ensures x !in s ==> r == s + [x]
  {
    if x in s then s else s + [x]
  }

  /** `set.delete(x)`: every other element stays, in order. */
  function Without<T(==)>(s: seq<T>, x: T): (r: seq<T>)
    ensures x !in r
    ensures forall i | 0 <= i < |r| :: r[i] in s && r[i] != x
    ensures forall i | 0 <= i < |s| && s[i] != x :: s[i] in r
    ensures |r| <= |s|
    decreases |s|
  {
    if s == [] then []
    else if s[0] == x then Without(s[1..], x)
    else [s[0]] + Without(s[1..], x)
  }

  predicate Distinct<T(==)>(s: seq<T>) {
    forall i, j | 0 <= i < j < |s| :: s[i] != s[j]
  }

  lemma AddDistinct<T>(s: seq<T>, x: T)
    requires Distinct(s)
    ensures Distinct(Add(s, x))
  {
  }

  lemma {:induction false} WithoutDistinct<T>(s: seq<T>, x: T)
    requires Distinct(s)
    ensures Distinct(Without(s, x))
    decreases |s|
  {
    if s != [] {
      WithoutDistinct(s[1..], x);
      if s[0] != x {
        var r := Without(s[1..], x);
        assert s[0] !in r by {
          assert s[0] !in s[1..];
        }
        forall i, j | 0 <= i < j < |[s[0]] + r| ensures ([s[0]] + r)[i] != ([s[0]] + r)[j] {
          if i == 0 {
            assert ([s[0]] + r)[j] in r;
          }
        }
      }
    }
  }

  /** Deleting an element that is not there changes nothing (a remover
      called twice does nothing the second time). */
  lemma {:induction false} WithoutAbsent<T>(s: seq<T>, x: T)
    requires x !in s
    ensures Without(s, x) == s
    decreases |s|
  {
    if s != [] {
      WithoutAbsent(s[1..], x);
    }
  }

  /** Deleting a just-added element restores the set as it was. */
  lemma {:induction false} WithoutAdd<T>(s: seq<T>, x: T)
    requires x !in s
    ensures Without(Add(s, x), x) == s
    decreases |s|
  {
    if s == [] {
      assert Add(s, x) == [x];
      assert [x][1..] == [];
    } else {
      assert (s + [x])[1..] == s[1..] + [x];
      WithoutAdd(s[1..], x);
    }
  }

  /** Deleting keeps the relative order of the other elements: deleting from
      a concatenation deletes from each part. */
  lemma {:induction false} WithoutConcat<T>(a: seq<T>, b: seq<T>, x: T)
    ensures Without(a + b, x) == Without(a, x) + Without(b, x)
    decreases |a|
  {
    if a == [] {
      assert a + b == b;
    } else {
      assert (a + b)[1..] == a[1..] + b;
      WithoutConcat(a[1..], b, x);
    }
  }

  // ---------------------------------------------------------------------
  // The callbacks.

  /** A request tap. It is handed the continuation (first) and a copy of the
      request; it may only log, so it is described by what it logs before
      calling the continuation, whether it calls it, and what it logs
      after. Object identity is function identity. */
  class RequestTapFn {
    const callsNext: bool
    const before: seq<string>
    const after: seq<string>

    constructor(callsNext: bool, before: seq<string>, after: seq<string>)
      ensures this.callsNext == callsNext && this.before == before && this.after == after
    {
      this.callsNext := callsNext;
      this.before := before;
      this.after := after;
    }
  }

  /** A response tap: what it logs when handed copies of the response and request. */
  class ResponseTapFn {
    const log: (Response, Request) -> seq<string>

    constructor(log: (Response, Request) -> seq<string>)
      ensures this.log == log
    {
      this.log := log;
    }
  }

  /** A request map `(next) => …`: its result as a function of what `next()` returns. */
  class RequestMapFn {
    const f: Components -> Components

    constructor(f: Components -> Components)
      ensures this.f == f
    {
      this.f := f;
    }
  }

  /** A response map `(next, request) => …`: its result as a function of
      what `next()` returns and of the request. */
  class ResponseMapFn {
    const f: (Response, Request) -> Response

    constructor(f: (Response, Request) -> Response)
      ensures this.f == f
    {
      this.f := f;
    }
  }

  /** The closure `tap` or `push` returns: it deletes its function from the
      set it was added to. */
  datatype Remover =
    | RemoveRequestTap(requestTap: RequestTapFn)
    | RemoveResponseTap(responseTap: ResponseTapFn)
    | RemoveRequestMap(requestMap: RequestMapFn)
    | RemoveResponseMap(responseMap: ResponseMapFn)

  // ---------------------------------------------------------------------
  // Running the request taps.

  /** The log of a run and the final values of `wasInvoked` and `lastInvokedStep`. */
  datatype TapRun = TapRun(events: seq<string>, invoked: bool, steps: int)

  /** Calling the k-th function of the `reduce` in `applyRequestTap`: the
      0-th is the caller's `next` (which logs `inner`); the k-th sets
      `wasInvoked` to false and enters tap k-1 with a continuation that sets
      `wasInvoked` to true, decrements `lastInvokedStep` and calls the
      (k-1)-th function. */
  function Chain(taps: seq<RequestTapFn>, k: nat, inner: seq<string>, invoked: bool, steps: int): TapRun
    requires k <= |taps|
    decreases k
  {
    if k == 0 then TapRun(inner, invoked, steps)
    else
      var t := taps[k - 1];
      if t.callsNext then
        var sub := Chain(taps, k - 1, inner, true, steps - 1);
        TapRun(t.before + sub.events + t.after, sub.invoked, sub.steps)
      else TapRun(t.before + t.after, false, steps)
  }

  /** The error `applyRequestTap` throws. */
  function TapError(step: int): string {
    "Request tap " + IntToString(step) + " failed to call next() before returning."
  }

  /** The highest position below k whose tap does not call its continuation. */
  function LastSkipper(taps: seq<RequestTapFn>, k: nat): (r: Option<nat>)
    requires k <= |taps|
    ensures r.Some? ==> r.value < k && !taps[r.value].callsNext
    ensures r.Some? ==> forall i | r.value < i < k :: taps[i].callsNext
    ensures r.None? ==> forall i | 0 <= i < k :: taps[i].callsNext
    decreases k
  {
    if k == 0 then None
    else if !taps[k - 1].callsNext then Some(k - 1)
    else LastSkipper(taps, k - 1)
  }

  /** The last tap that skips its continuation is the one at `j` when all
      the later ones call theirs. */
  lemma SkipperAt(taps: seq<RequestTapFn>, j: nat)
    requires j < |taps| && !taps[j].callsNext
    requires forall i | j < i < |taps| :: taps[i].callsNext
    ensures LastSkipper(taps, |taps|) == Some(j)
  {
    var r := LastSkipper(taps, |taps|);
    if r.None? {
      assert false;
    }
  }

  /** No tap skips when all of them call their continuation. */
  lemma NoSkipper(taps: seq<RequestTapFn>)
    requires forall i | 0 <= i < |taps| :: taps[i].callsNext
    ensures LastSkipper(taps, |taps|).None?
  {
    var r := LastSkipper(taps, |taps|);
    if r.Some? {
      assert false;
    }
  }

  /** The `before` logs of taps `hi-1` down to `lo`. */
  function Befores(taps: seq<RequestTapFn>, lo: nat, hi: nat): seq<string>
    requires lo <= hi <= |taps|
    decreases hi - lo
  {
    if lo == hi then [] else taps[hi - 1].before + Befores(taps, lo, hi - 1)
  }

  /** The `after` logs of taps `lo` up to `hi-1`. */
  function Afters(taps: seq<RequestTapFn>, lo: nat, hi: nat): seq<string>
    requires lo <= hi <= |taps|
    decreases hi - lo
  {
    if lo == hi then [] else Afters(taps, lo, hi - 1) + taps[hi - 1].after
  }

  /** Unwinding: the taps return from the deepest one entered outwards,
      each appending its `after` log. */
  method Unwind(taps: seq<RequestTapFn>, deepest: nat, entered: seq<string>) returns (events: seq<string>)
    requires deepest <= |taps|
    ensures events == entered + Afters(taps, deepest, |taps|)
  {
    events := entered;
    var j := deepest;
    while j < |taps|
      invariant deepest <= j <= |taps|
      invariant events == entered + Afters(taps, deepest, j)
    {
      events := events + taps[j].after;
      j := j + 1;
    }
  }

  lemma {:induction false} BeforesLow(taps: seq<RequestTapFn>, lo: nat, hi: nat)
    requires lo < hi <= |taps|
    ensures Befores(taps, lo, hi) == Befores(taps, lo + 1, hi) + taps[lo].before
    decreases hi - lo
  {
    if lo + 1 < hi {
      BeforesLow(taps, lo, hi - 1);
    }
  }

  /** The nested calls in closed form: the taps are entered from the last
      added down to the first one that does not call its continuation (or
      down to `next`), and they finish in the opposite order; when a tap
      skips, `wasInvoked` ends false and `lastInvokedStep` is that tap's
      1-based position. */
  lemma {:induction false} ChainClosedForm(taps: seq<RequestTapFn>, k: nat, inner: seq<string>, invoked: bool, steps: int)
    requires k <= |taps|
    ensures LastSkipper(taps, k).None? ==>
      Chain(taps, k, inner, invoked, steps) ==
        TapRun(Befores(taps, 0, k) + inner + Afters(taps, 0, k), if k == 0 then invoked else true, steps - k)
    ensures LastSkipper(taps, k).Some? ==>
      var j := LastSkipper(taps, k).value;
      Chain(taps, k, inner, invoked, steps) ==
        TapRun(Befores(taps, j, k) + Afters(taps, j, k), false, steps - (k - 1 - j))
    decreases k
  {
    if k > 0 {
      var t := taps[k - 1];
      if t.callsNext {
        ChainClosedForm(taps, k - 1, inner, true, steps - 1);
        assert LastSkipper(taps, k) == LastSkipper(taps, k - 1);
        if LastSkipper(taps, k - 1).Some? {
          var j := LastSkipper(taps, k - 1).value;
          Wrap(t.before, Befores(taps, j, k - 1), Afters(taps, j, k - 1), t.after);
        } else {
          WrapAround(t.before, Befores(taps, 0, k - 1), inner, Afters(taps, 0, k - 1), t.after);
        }
      } else {
        assert Befores(taps, k - 1, k) == t.before;
        assert Afters(taps, k - 1, k) == t.after;
      }
    }
  }

  /** A tap's logs around the logs of the taps it calls. */
  lemma Wrap<T>(a: seq<T>, b: seq<T>, c: seq<T>, d: seq<T>)
    ensures a + (b + c) + d == (a + b) + (c + d)
  {
  }

  lemma WrapAround<T>(a: seq<T>, b: seq<T>, m: seq<T>, c: seq<T>, d: seq<T>)
    ensures a + (b + m + c) + d == (a + b) + m + (c + d)
  {
  }

  /** The documented example: three taps that each call `next()` and then
      log their number log 1, 2, 3 (the first added finishes first). */
  lemma TapOrderExample(t1: RequestTapFn, t2: RequestTapFn, t3: RequestTapFn)
    requires t1.callsNext && t2.callsNext && t3.callsNext
    requires t1.before == [] && t2.before == [] && t3.before == []
    requires t1.after == ["1"] && t2.after == ["2"] && t3.after == ["3"]
    ensures Chain([t1, t2, t3], 3, [], true, 3) == TapRun(["1", "2", "3"], true, 0)
  {
  }

  // ---------------------------------------------------------------------
  // Response taps and maps.

  /** The logs of the response taps, each called once, in insertion order. */
  function ResponseTapEvents(taps: seq<ResponseTapFn>, response: Response, request: Request): seq<string>
    decreases |taps|
  {
    if taps == [] then []
    else ResponseTapEvents(taps[..|taps| - 1], response, request) + taps[|taps| - 1].log(response, request)
  }

  /** The `reduce` in `applyRequestMap`: the 0-th function returns the
      components; the k-th runs map k-1 over the (k-1)-th. */
  function RequestRollup(maps: seq<RequestMapFn>, request: Components): Components
    decreases |maps|
  {
    if maps == [] then request
    else maps[|maps| - 1].f(RequestRollup(maps[..|maps| - 1], request))
  }

  /** The `reduce` in `applyResponseMap`: every map receives the same request. */
  function ResponseRollup(maps: seq<ResponseMapFn>, request: Request, response: Response): Response
    decreases |maps|
  {
    if maps == [] then response
    else maps[|maps| - 1].f(ResponseRollup(maps[..|maps| - 1], request, response), request)
  }

  function MapFunctions(maps: seq<RequestMapFn>): (fs: seq<Components -> Components>)
    ensures |fs| == |maps| && forall i | 0 <= i < |maps| :: fs[i] == maps[i].f
  {
    seq(|maps|, i requires 0 <= i < |maps| => maps[i].f)
  }

  /** Running the request maps is piping the components through them in
      push order: the first pushed runs nearest the components, the last
      pushed outermost. */
  lemma {:induction false} RequestRollupIsPipe(maps: seq<RequestMapFn>, request: Components)
    ensures RequestRollup(maps, request) == Functional.RunPipe(MapFunctions(maps), request)
    decreases |maps|
  {
    if maps != [] {
      var init := maps[..|maps| - 1];
      var last := maps[|maps| - 1];
      RequestRollupIsPipe(init, request);
      assert MapFunctions(maps) == MapFunctions(init) + [last.f];
      Functional.PipeSnoc(MapFunctions(init), last.f, request);
    }
  }

  // ---------------------------------------------------------------------
  // The stack.

  class MiddlewareStack {
    var requestTaps: seq<RequestTapFn>
    var responseTaps: seq<ResponseTapFn>
    var requestMaps: seq<RequestMapFn>
    var responseMaps: seq<ResponseMapFn>

    ghost predicate Valid()
      reads this
    {
      Distinct(requestTaps) && Distinct(responseTaps) && Distinct(requestMaps) && Distinct(responseMaps)
    }

    constructor()
      ensures Valid()
      ensures requestTaps == [] && responseTaps == [] && requestMaps == [] && responseMaps == []
    {
      requestTaps := [];
      responseTaps := [];
      requestMaps := [];
      responseMaps := [];
    }

    /** `tap("request", fn)`. */
    method TapRequest(fn: RequestTapFn) returns (remove: Remover)
      requires Valid()
      modifies this
      ensures Valid()
      ensures requestTaps == Add(old(requestTaps), fn)
      ensures responseTaps == old(responseTaps) && requestMaps == old(requestMaps) && responseMaps == old(responseMaps)
      ensures remove == RemoveRequestTap(fn)
    {
      AddDistinct(requestTaps, fn);
      requestTaps := Add(requestTaps, fn);
      remove := RemoveRequestTap(fn);
    }

    /** `tap("response", fn)`. */
    method TapResponse(fn: ResponseTapFn) returns (remove: Remover)
      requires Valid()
      modifies this
      ensures Valid()
      ensures responseTaps == Add(old(responseTaps), fn)
      ensures requestTaps == old(requestTaps) && requestMaps == old(requestMaps) && responseMaps == old(responseMaps)
      ensures remove == RemoveResponseTap(fn)
    {
      AddDistinct(responseTaps, fn);
      responseTaps := Add(responseTaps, fn);
      remove := RemoveResponseTap(fn);
    }

    /** `push("request", fn)`. */
    method PushRequest(fn: RequestMapFn) returns (remove: Remover)
      requires Valid()
      modifies this
      ensures Valid()
      ensures requestMaps == Add(old(requestMaps), fn)
      ensures requestTaps == old(requestTaps) && responseTaps == old(responseTaps) && responseMaps == old(responseMaps)
      ensures remove == RemoveRequestMap(fn)
    {
      AddDistinct(requestMaps, fn);
      requestMaps := Add(requestMaps, fn);
      remove := RemoveRequestMap(fn);
    }

    /** `push("response", fn)`. */
    method PushResponse(fn: ResponseMapFn) returns (remove: Remover)
      requires Valid()
      modifies this
      ensures Valid()
      ensures responseMaps == Add(old(responseMaps), fn)
      ensures requestTaps == old(requestTaps) && responseTaps == old(responseTaps) && requestMaps == old(requestMaps)
      ensures remove == RemoveResponseMap(fn)
    {
      AddDistinct(responseMaps, fn);
      responseMaps := Add(responseMaps, fn);
      remove := RemoveResponseMap(fn);
    }

    /** Calling a remover: `targetSet.delete(fn)`, which reports whether
        the function was there. */
    method Remove(r: Remover) returns (removed: bool)
      requires Valid()
      modifies this
      ensures Valid()
      ensures requestTaps == (if r.RemoveRequestTap? then Without(old(requestTaps), r.requestTap) else old(requestTaps))
      ensures responseTaps == (if r.RemoveResponseTap? then Without(old(responseTaps), r.responseTap) else old(responseTaps))
      ensures requestMaps == (if r.RemoveRequestMap? then Without(old(requestMaps), r.requestMap) else old(requestMaps))
      ensures responseMaps == (if r.RemoveResponseMap? then Without(old(responseMaps), r.responseMap) else old(responseMaps))
      ensures removed == match r
        case RemoveRequestTap(fn) => fn in old(requestTaps)
        case RemoveResponseTap(fn) => fn in old(responseTaps)
        case RemoveRequestMap(fn) => fn in old(requestMaps)
        case RemoveResponseMap(fn) => fn in old(responseMaps)
    {
      match r
      case RemoveRequestTap(fn) =>
        removed := fn in requestTaps;
        WithoutDistinct(requestTaps, fn);
        requestTaps := Without(requestTaps, fn);
      case RemoveResponseTap(fn) =>
        removed := fn in responseTaps;
        WithoutDistinct(responseTaps, fn);
        responseTaps := Without(responseTaps, fn);
      case RemoveRequestMap(fn) =>
        removed := fn in requestMaps;
        WithoutDistinct(requestMaps, fn);
        requestMaps := Without(requestMaps, fn);
      case RemoveResponseMap(fn) =>
        removed := fn in responseMaps;
        WithoutDistinct(responseMaps, fn);
        responseMaps := Without(responseMaps, fn);
    }

    /** `applyRequestTap(request, next)`, where `next` logs `inner`: the
        nested calls of the `reduce`, run with the two local variables, and
        the error thrown when `wasInvoked` ends false. */
    method ApplyRequestTap(inner: seq<string>) returns (events: seq<string>, error: Option<string>)
      ensures var run := Chain(requestTaps, |requestTaps|, inner, true, |requestTaps|);
        events == run.events && error == (if run.invoked then None else Some(TapError(run.steps)))
    {
      var taps := requestTaps;
      var n := |taps|;
      var wasInvoked := true;
      var lastInvokedStep := n;
      // Entering: each function of the reduce enters its tap, whose
      // continuation enters the next one down.
      events := [];
      var k := n;
      var stopped := false;
      while k > 0 && !stopped
        invariant 0 <= k <= n
        invariant forall i | k <= i < n :: taps[i].callsNext
        invariant !stopped ==> events == Befores(taps, k, n) && wasInvoked && lastInvokedStep == k
        invariant stopped ==> 0 < k && !taps[k - 1].callsNext && events == Befores(taps, k - 1, n)
        invariant stopped ==> !wasInvoked && lastInvokedStep == k
        decreases k, if stopped then 0 else 1
      {
        wasInvoked := false;
        BeforesLow(taps, k - 1, n);
        events := events + taps[k - 1].before;
        if taps[k - 1].callsNext {
          wasInvoked := true;
          lastInvokedStep := lastInvokedStep - 1;
          k := k - 1;
        } else {
          stopped := true;
        }
      }
      var deepest: nat;
      if stopped {
        deepest := k - 1;
      } else {
        events := events + inner;
        deepest := 0;
      }
      events := Unwind(taps, deepest, events);
      ChainClosedForm(taps, n, inner, true, n);
      if stopped {
        SkipperAt(taps, k - 1);
        assert events == Befores(taps, k - 1, n) + Afters(taps, k - 1, n);
      } else {
        NoSkipper(taps);
        assert events == Befores(taps, 0, n) + inner + Afters(taps, 0, n);
      }
      if !wasInvoked {
        error := Some(TapError(lastInvokedStep));
      } else {
        error := None;
      }
    }

    /** `applyResponseTap(response, request)`. */
    method ApplyResponseTap(response: Response, request: Request) returns (events: seq<string>)
      ensures events == ResponseTapEvents(responseTaps, response, request)
    {
      var taps := responseTaps;
      events := [];
      var i := 0;
      while i < |taps|
        invariant 0 <= i <= |taps|
        invariant events == ResponseTapEvents(taps[..i], response, request)
      {
        assert taps[..i + 1][..i] == taps[..i];
        events := events + taps[i].log(response, request);
        i := i + 1;
      }
      assert taps[..i] == taps;
    }

    /** `applyRequestMap(request)`. */
    function ApplyRequestMap(request: Components): (r: Components)
      reads this
      ensures r == Functional.RunPipe(MapFunctions(requestMaps), request)
    {
      RequestRollupIsPipe(requestMaps, request);
      RequestRollup(requestMaps, request)
    }

    /** `applyResponseMap(request, response)`. */
    function ApplyResponseMap(request: Request, response: Response): Response
      reads this
    {
      ResponseRollup(responseMaps, request, response)
    }
  }

  /** The most recently pushed request map runs outermost, over the result
      of all the maps pushed before it. */
  lemma RequestRollupPush(maps: seq<RequestMapFn>, m: RequestMapFn, request: Components)
    requires m !in maps
    ensures RequestRollup(Add(maps, m), request) == m.f(RequestRollup(maps, request))
  {
    assert (maps + [m])[..|maps|] == maps;
  }

  /** Likewise for response maps, each of which sees the same request. */
  lemma ResponseRollupPush(maps: seq<ResponseMapFn>, m: ResponseMapFn, request: Request, response: Response)
    requires m !in maps
    ensures ResponseRollup(Add(maps, m), request, response) == m.f(ResponseRollup(maps, request, response), request)
  {
    assert (maps + [m])[..|maps|] == maps;
  }

  /** A response tap added to the set is called last. */
  lemma ResponseTapAdd(taps: seq<ResponseTapFn>, t: ResponseTapFn, response: Response, request: Request)
    requires t !in taps
    ensures ResponseTapEvents(Add(taps, t), response, request) == ResponseTapEvents(taps, response, request) + t.log(response, request)
  {
    assert (taps + [t])[..|taps|] == taps;
  }
}
