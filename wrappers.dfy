/** Failure-compatible wrappers shared by the backend and scraper models. */
module Wrappers {

  /** A value that may be absent: TypeScript's `undefined`/`null`, SQL's "no row". */
  datatype Option<+T> = None | Some(value: T)

  /** The outcome of a call that may fail with an error of type E. */
  datatype Result<+T, +E> = Success(value: T) | Failure(error: E)
  {
    predicate IsFailure()
    {
      Failure?
    }

    function PropagateFailure<U>(): Result<U, E>
      requires Failure?
    {
      Failure(error)
    }

    function Extract(): T
      requires Success?
    {
      value
    }
  }

  /** `f` applied to each element in order; the first failure is the result. */
  function MapAll<A, B, E>(s: seq<A>, f: A -> Result<B, E>): (r: Result<seq<B>, E>)
    ensures r.Success? ==> |r.value| == |s|
  {
    if s == [] then Success([])
    else
      match MapAll(s[..|s| - 1], f)
      case Failure(e) => Failure(e)
      case Success(init) =>
        match f(s[|s| - 1])
        case Failure(e) => Failure(e)
        case Success(last) => Success(init + [last])
  }

  /** Once a prefix fails, the whole list fails with the same error. */
  lemma {:induction false} MapAllFailurePersists<A, B, E>(s: seq<A>, k: nat, f: A -> Result<B, E>)
    requires k <= |s|
    requires MapAll(s[..k], f).Failure?
    ensures MapAll(s, f) == MapAll(s[..k], f)
    decreases |s| - k
  {
    if k < |s| {
      assert s[..k + 1][..k] == s[..k];
      MapAllFailurePersists(s, k + 1, f);
    } else {
      assert s[..k] == s;
    }
  }

  /** MapAll succeeds exactly when `f` succeeds on every element, and then
      holds `f`'s result for each element at its position. */
  lemma {:induction false} MapAllPerElement<A, B, E>(s: seq<A>, f: A -> Result<B, E>)
    ensures MapAll(s, f).Success? <==> forall i :: 0 <= i < |s| ==> f(s[i]).Success?
    ensures MapAll(s, f).Success? ==> forall i :: 0 <= i < |s| ==> MapAll(s, f).value[i] == f(s[i]).value
  {
    if s != [] {
      var init := s[..|s| - 1];
      MapAllPerElement(init, f);
      assert forall i :: 0 <= i < |init| ==> init[i] == s[i];
    }
  }
}
