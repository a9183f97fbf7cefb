/** `pipe`, `compose` and `identity` over lists of unary functions. */
module Functional {

  /** `fns.reduce((result, fn) => fn(result), arg)`: the functions applied
      left to right. */
  function RunPipe<T>(fns: seq<T -> T>, arg: T): T
    decreases |fns|
  {
    if fns == [] then arg else RunPipe(fns[1..], fns[0](arg))
  }

  /** `fns.reduceRight((result, fn) => fn(result), arg)`: the functions
      applied right to left. */
  function RunCompose<T>(fns: seq<T -> T>, arg: T): T
    decreases |fns|
  {
    if fns == [] then arg else RunCompose(fns[..|fns| - 1], fns[|fns| - 1](arg))
  }

  /** `pipe(...fns)`. */
  function Pipe<T>(fns: seq<T -> T>): T -> T {
    arg => RunPipe(fns, arg)
  }

  /** `compose(...fns)`. */
  function Compose<T>(fns: seq<T -> T>): T -> T {
    arg => RunCompose(fns, arg)
  }

  function Identity<T>(arg: T): T {
    arg
  }

  function Reverse<T>(s: seq<T>): (r: seq<T>)
    ensures |r| == |s|
    ensures forall i | 0 <= i < |s| :: r[i] == s[|s| - 1 - i]
    decreases |s|
  {
    if s == [] then [] else Reverse(s[1..]) + [s[0]]
  }

  /** Piping `f + g` is piping `f` and then `g`. */
  lemma {:induction false} PipeAppend<T>(f: seq<T -> T>, g: seq<T -> T>, arg: T)
    ensures RunPipe(f + g, arg) == RunPipe(g, RunPipe(f, arg))
    decreases |f|
  {
    if f != [] {
      assert (f + g)[1..] == f[1..] + g;
      PipeAppend(f[1..], g, f[0](arg));
    } else {
      assert f + g == g;
    }
  }

  /** The last function piped is applied last. */
  lemma PipeSnoc<T>(f: seq<T -> T>, h: T -> T, arg: T)
    ensures RunPipe(f + [h], arg) == h(RunPipe(f, arg))
  {
    PipeAppend(f, [h], arg);
  }

  /** `compose(f1, …, fn)` is `pipe(fn, …, f1)`. */
  lemma {:induction false} ComposeIsReversedPipe<T>(fns: seq<T -> T>, arg: T)
    ensures Compose(fns)(arg) == Pipe(Reverse(fns))(arg)
    decreases |fns|
  {
    if fns != [] {
      var n := |fns|;
      var init := fns[..n - 1];
      ComposeIsReversedPipe(init, fns[n - 1](arg));
      assert Reverse(fns) == [fns[n - 1]] + Reverse(init);
    }
  }

  /** With no functions both are the identity. */
  lemma EmptyIsIdentity<T>(arg: T)
    ensures Pipe<T>([])(arg) == Identity(arg)
    ensures Compose<T>([])(arg) == Identity(arg)
  {
  }

  /** `identity` is a neutral element of the pipeline. */
  lemma {:induction false} IdentityNeutral<T>(f: seq<T -> T>, g: seq<T -> T>, arg: T)
    ensures RunPipe(f + [Identity] + g, arg) == RunPipe(f + g, arg)
  {
    PipeAppend(f + [Identity], g, arg);
    PipeAppend(f, [Identity], arg);
    PipeAppend(f, g, arg);
  }

  /** The documented examples: `pipe(add, double)(2)` and
      `compose(double, add)(2)` are both 6. */
  lemma DocumentedExamples()
    ensures Pipe<int>([x => x + 1, x => x * 2])(2) == 6
    ensures Compose<int>([x => x * 2, x => x + 1])(2) == 6
  {
    var add: int -> int := x => x + 1;
    var double: int -> int := x => x * 2;
    assert [add, double][1..] == [double];
    assert [double, add][..1] == [double];
  }
}
