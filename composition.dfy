/**
 * Right-to-left composition of single-argument wrappers, as the dispatch
 * engine uses it for both tiers of middleware.
 *
 * `compose(f1, ..., fn)` returns a function; this model writes its
 * application to a terminal `x` as `Compose([f1, ..., fn], x)`.
 */
module Composition {

  /** The documented meaning of composition: `Nest([f1, ..., fn], x) == f1(f2(...fn(x)...))`. */
  function Nest<H>(fs: seq<H -> H>, x: H): H
  {
    if fs == [] then x else fs[0](Nest(fs[1..], x))
  }

  /**
   * `fs.reduceRight((composed, f) => f(composed), acc)`: visits `fs` from
   * the last element to the first, wrapping the accumulator each time.
   */
  function ReduceRight<H>(fs: seq<H -> H>, acc: H): H
  {
    if fs == [] then acc else ReduceRight(fs[..|fs| - 1], fs[|fs| - 1](acc))
  }

  /**
   * `compose(...fs)(x)` as written: the identity when `fs` is empty, else the
   * last function applied to `x` and the rest folded around it from the right.
   * It is the nested application `fs[0](fs[1](...fs[n-1](x)...))`.
   */
  function Compose<H>(fs: seq<H -> H>, x: H): (r: H)
    ensures r == Nest(fs, x)
  {
    if |fs| == 0 then
      x
    else
      var last := fs[|fs| - 1];
      var rest := fs[..|fs| - 1];
      ReduceRightIsNest(rest, last(x));
      NestSnoc(fs, x);
      ReduceRight(rest, last(x))
  }

  /** Peeling the innermost wrapper: `Nest(fs, x) == Nest(init(fs), last(fs)(x))`. */
  lemma {:induction false} NestSnoc<H>(fs: seq<H -> H>, x: H)
    requires fs != []
    ensures Nest(fs, x) == Nest(fs[..|fs| - 1], fs[|fs| - 1](x))
  {
    if |fs| > 1 {
      var tail := fs[1..];
      NestSnoc(tail, x);
      assert tail[..|tail| - 1] == fs[..|fs| - 1][1..];
      assert tail[|tail| - 1] == fs[|fs| - 1];
    }
  }

  /** The fold the source writes produces the documented nesting. */
  lemma {:induction false} ReduceRightIsNest<H>(fs: seq<H -> H>, acc: H)
    ensures ReduceRight(fs, acc) == Nest(fs, acc)
  {
    if fs != [] {
      ReduceRightIsNest(fs[..|fs| - 1], fs[|fs| - 1](acc));
      NestSnoc(fs, acc);
    }
  }

  /** Composing zero functions is the identity. */
  lemma ComposeEmpty<H>(x: H)
    ensures Compose([], x) == x
  {
  }

  /** Composing one function is applying it. */
  lemma ComposeSingle<H>(f: H -> H, x: H)
    ensures Compose([f], x) == f(x)
  {
  }

  /** The leftmost wrapper is outermost and the rightmost sits next to the terminal. */
  lemma ComposeOutermostInnermost<H>(fs: seq<H -> H>, x: H)
    requires fs != []
    ensures Compose(fs, x) == fs[0](Compose(fs[1..], x))
    ensures Compose(fs, x) == Compose(fs[..|fs| - 1], fs[|fs| - 1](x))
  {
  }

  /** Composition is associative: composing a list in two groups is composing it once. */
  lemma {:induction false} ComposeAppend<H>(fs: seq<H -> H>, gs: seq<H -> H>, x: H)
    ensures Compose(fs + gs, x) == Compose(fs, Compose(gs, x))
  {
    if fs != [] {
      ComposeAppend(fs[1..], gs, x);
      assert (fs + gs)[1..] == fs[1..] + gs;
      assert (fs + gs)[0] == fs[0];
    } else {
      assert fs + gs == gs;
    }
  }
}
