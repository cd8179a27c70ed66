/** Repeated passes over a list, each of which stops at the first entry that it cannot treat. */
module Passes {
  import opened Base

  function OnePass<T>(f: T -> Option<T>, xs: seq<T>): (ys: seq<T>)
    ensures |ys| == |xs|
  {
    if xs == [] then []
    else match f(xs[0])
         case None => xs
         case Some(y) => [y] + OnePass(f, xs[1..])
  }

  function Times<T>(f: T -> Option<T>, xs: seq<T>, n: nat): seq<T>
    decreases n
  {
    if n == 0 then xs else Times(f, OnePass(f, xs), n - 1)
  }

  /** Entries up to the first untreatable one are `p`-close to rest; those behind it are never reached. */
  predicate Close<T>(f: T -> Option<T>, p: (T, nat) -> bool, xs: seq<T>, n: nat) {
    xs == [] || f(xs[0]).None? || (p(xs[0], n) && Close(f, p, xs[1..], n))
  }

  /** Each pass brings an entry one step closer, and at distance zero it rests. */
  ghost predicate Descends<T(!new)>(f: T -> Option<T>, p: (T, nat) -> bool) {
    && (forall x, n: nat :: p(x, n) && n > 0 && f(x).Some? ==> p(f(x).value, n - 1))
    && (forall x :: p(x, 0) && f(x).Some? ==> f(x) == Some(x))
  }

  lemma {:induction false} PassIsCloser<T(!new)>(f: T -> Option<T>, p: (T, nat) -> bool, xs: seq<T>, n: nat)
    requires Descends(f, p) && Close(f, p, xs, n) && n > 0
    ensures Close(f, p, OnePass(f, xs), n - 1)
    decreases |xs|
  {
    if xs != [] && f(xs[0]).Some? {
      PassIsCloser(f, p, xs[1..], n);
      assert OnePass(f, xs)[1..] == OnePass(f, xs[1..]);
    }
  }

  lemma {:induction false} RestStays<T(!new)>(f: T -> Option<T>, p: (T, nat) -> bool, xs: seq<T>)
    requires Descends(f, p) && Close(f, p, xs, 0)
    ensures OnePass(f, xs) == xs
    decreases |xs|
  {
    if xs != [] && f(xs[0]).Some? {
      RestStays(f, p, xs[1..]);
    }
  }

  lemma {:induction false} PassesSettle<T(!new)>(f: T -> Option<T>, p: (T, nat) -> bool, xs: seq<T>, n: nat)
    requires Descends(f, p) && Close(f, p, xs, n)
    ensures OnePass(f, Times(f, xs, n)) == Times(f, xs, n)
    decreases n
  {
    if n == 0 {
      RestStays(f, p, xs);
    } else {
      PassIsCloser(f, p, xs, n);
      PassesSettle(f, p, OnePass(f, xs), n - 1);
    }
  }

  /** When treating any entry of a list leaves it close to rest, one pass makes the list close to rest. */
  lemma {:induction false} FirstPass<T(!new)>(f: T -> Option<T>, p: (T, nat) -> bool, xs: seq<T>, n: nat)
    requires forall i :: 0 <= i < |xs| && f(xs[i]).Some? ==> p(f(xs[i]).value, n)
    ensures Close(f, p, OnePass(f, xs), n)
    decreases |xs|
  {
    if xs != [] && f(xs[0]).Some? {
      FirstPass(f, p, xs[1..], n);
      assert OnePass(f, xs)[1..] == OnePass(f, xs[1..]);
    }
  }
}
