/** Optional values and error-or-value results, standing for Go's nil pointers
    and `(T, error)` return pairs. */
module Wrappers {

  /** A Go pointer that may be nil (`*string`, `*time.Time`, ...). */
  datatype Option<+T> = None | Some(value: T)

  /** A Go `(value, error)` pair: exactly one of the two is meaningful. */
  datatype Result<+T> = Ok(value: T) | Err(message: string)

  /** `f` applied to each element in order, stopping at the first error: a Go
      loop that appends each step's value and returns on the first failure. */
  function CollectOk<A, B>(xs: seq<A>, f: A -> Result<B>): (r: Result<seq<B>>)
    ensures r.Ok? <==> forall k :: 0 <= k < |xs| ==> f(xs[k]).Ok?
    ensures r.Ok? ==> |r.value| == |xs|
    ensures r.Ok? ==> forall k :: 0 <= k < |xs| ==> f(xs[k]) == Ok(r.value[k])
    ensures r.Err? ==>
      exists j :: 0 <= j < |xs| && f(xs[j]) == Err(r.message) && forall k :: 0 <= k < j ==> f(xs[k]).Ok?
  {
    if xs == [] then Ok([])
    else
      var init := xs[..|xs| - 1];
      assert forall k :: 0 <= k < |init| ==> init[k] == xs[k];
      match CollectOk(init, f)
      case Err(e) => Err(e)
      case Ok(prefix) =>
        match f(xs[|xs| - 1])
        case Err(e) => Err(e)
        case Ok(y) => Ok(prefix + [y])
  }

  /** The loop returns the error of the first failing step: a prefix that
      succeeds, then a step that fails with `e`, makes the whole run fail with `e`. */
  lemma CollectOkFirstErr<A, B>(xs: seq<A>, f: A -> Result<B>, i: nat, e: string)
    requires i < |xs| && CollectOk(xs[..i], f).Ok? && f(xs[i]) == Err(e)
    ensures CollectOk(xs, f) == Err(e)
  {
    assert forall k :: 0 <= k < i ==> xs[..i][k] == xs[k];
    var r := CollectOk(xs, f);
    var j :| 0 <= j < |xs| && f(xs[j]) == Err(r.message) && forall k :: 0 <= k < j ==> f(xs[k]).Ok?;
    assert j == i;
  }
}
