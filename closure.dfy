/** Callbacks of fakes and the tags saying which calling mode a callback was
    written for. */
module Closures {
  import opened Failures
  import opened Outcomes
  import opened Arguments

  /** A callback run by a fake: it sees the positioned arguments and returns,
      throws, or aborts. Side effects of user callbacks are not modelled. */
  type Callback<V> = seq<Argument> -> Outcome<V>

  /** A callback of a non-throwing mode: it never throws. */
  type NonThrowingCallback<V> = f: Callback<V> | forall args :: !f(args).Threw?
    witness (args: seq<Argument>) => Fatal(NilValue)

  /** The four calling modes of a synchronous fake's callback. */
  datatype Closure<V> =
    | Normal(normal: NonThrowingCallback<V>)
    | Throwing(throwing: Callback<V>)
    | Async(async: NonThrowingCallback<V>)
    | AsyncThrowing(asyncThrowing: Callback<V>)

  /** The name of a mode, as fatal mismatch failures print it. */
  function Description<V>(c: Closure<V>): (s: string)
    ensures c.Normal? ==> s == "Normal"
    ensures c.Throwing? ==> s == "Throwing"
    ensures c.Async? ==> s == "Async"
    ensures c.AsyncThrowing? ==> s == "AsyncThrowing"
  {
    match c
    case Normal(_) => "Normal"
    case Throwing(_) => "Throwing"
    case Async(_) => "Async"
    case AsyncThrowing(_) => "AsyncThrowing"
  }

  /** The description names the mode unambiguously and ignores the callback. */
  lemma DescriptionDistinguishesModes<V>(c: Closure<V>, d: Closure<V>)
    ensures Description(c) == Description(d) <==>
              (c.Normal? && d.Normal?) || (c.Throwing? && d.Throwing?)
              || (c.Async? && d.Async?) || (c.AsyncThrowing? && d.AsyncThrowing?)
  {
  }

  /** The two modes of an asynchronous fake's callback. */
  datatype AsyncClosure<V> =
    | AsyncNormal(normal: NonThrowingCallback<V>)
    | AsyncThrowingClosure(throwing: Callback<V>)

  function AsyncDescription<V>(c: AsyncClosure<V>): (s: string)
    ensures c.AsyncNormal? ==> s == "Normal"
    ensures c.AsyncThrowingClosure? ==> s == "Throwing"
  {
    match c
    case AsyncNormal(_) => "Normal"
    case AsyncThrowingClosure(_) => "Throwing"
  }

  lemma AsyncDescriptionDistinguishesModes<V>(c: AsyncClosure<V>, d: AsyncClosure<V>)
    ensures AsyncDescription(c) == AsyncDescription(d) <==> (c.AsyncNormal? <==> d.AsyncNormal?)
  {
  }
}
