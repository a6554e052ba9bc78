/** Option and Result values standing for Python's missing values and raised exceptions. */
module Outcomes {

  datatype Option<+T> = None | Some(value: T)

  datatype Result<+T, +E> = Ok(value: T) | Err(error: E)

  /**
   * Applies `f` to every element in order, stopping at the first failure: the shape of a
   * Python loop whose body may raise. On success the results are in element order; on
   * failure the error is that of the first element `f` fails on.
   */
  function CollectAll<X, T(==), E(==)>(xs: seq<X>, f: X -> Result<T, E>): (r: Result<seq<T>, E>)
    ensures r.Ok? <==> forall i :: 0 <= i < |xs| ==> f(xs[i]).Ok?
    ensures r.Ok? ==> |r.value| == |xs| && forall i :: 0 <= i < |xs| ==> f(xs[i]) == Ok(r.value[i])
    ensures r.Err? ==> exists i :: 0 <= i < |xs| && f(xs[i]) == Err(r.error) &&
                                   forall j :: 0 <= j < i ==> f(xs[j]).Ok?
    decreases |xs|
  {
    if |xs| == 0 then Ok([])
    else
      var init := xs[..|xs| - 1];
      assert forall i :: 0 <= i < |init| ==> init[i] == xs[i];
      match CollectAll(init, f)
      case Err(e) => Err(e)
      case Ok(ts) =>
        match f(xs[|xs| - 1])
        case Err(e) =>
          assert 0 <= |xs| - 1 < |xs| && f(xs[|xs| - 1]) == Err(e);
          Err(e)
        case Ok(t) => Ok(ts + [t])
  }
}
