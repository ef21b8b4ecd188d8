/** The two `packToArray` adapters that turn a sampling function into one returning an array. */
module Functions {

  /** Wraps a single-result function: every call yields a one-element array holding its result. */
  function PackToArray<T(!new), R>(f: T -> R): (g: T -> seq<R>)
    ensures forall x :: |g(x)| == 1 && g(x)[0] == f(x)
  {
    x => [f(x)]
  }

  /** Wraps a pair-result function: every call yields the pair's components, in order. */
  function PackPairToArray<T(!new), R>(f: T -> (R, R)): (g: T -> seq<R>)
    ensures forall x :: |g(x)| == 2 && g(x)[0] == f(x).0 && g(x)[1] == f(x).1
  {
    x => var result := f(x); [result.0, result.1]
  }
}
