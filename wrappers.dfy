/** Option and Result values shared by every module of the model. */
module Wrappers {

  datatype Option<+T> = None | Some(value: T) {
    function GetOr(default: T): T {
      match this
      case Some(v) => v
      case None => default
    }
  }

  /** The outcome of a Python call that either returns a value or raises. */
  datatype Result<+T, +E> = Ok(value: T) | Err(error: E)

  /** Applying a call that may raise to each element in turn: every result,
      or the first exception, as a list comprehension over it gives. */
  function CollectAll<T, V, E>(f: T -> Result<V, E>, xs: seq<T>): (r: Result<seq<V>, E>)
    ensures r.Ok? <==> forall i | 0 <= i < |xs| :: f(xs[i]).Ok?
    ensures r.Ok? ==> |r.value| == |xs| && forall i | 0 <= i < |xs| :: r.value[i] == f(xs[i]).value
    ensures r.Err? ==> exists i | 0 <= i < |xs| :: f(xs[i]) == Err(r.error) && forall j | 0 <= j < i :: f(xs[j]).Ok?
  {
    if xs == [] then Ok([])
    else
      match f(xs[0])
      case Err(e) => Err(e)
      case Ok(t) =>
        match CollectAll(f, xs[1..])
        case Err(e) =>
          FirstFailureShifts(f, xs, e);
          Err(e)
        case Ok(ts) =>
          assert forall i | 0 <= i < |xs| - 1 :: xs[1..][i] == xs[i + 1];
          Ok([t] + ts)
  }

  /** The exception of the first element that fails is the exception of the
      whole walk. */
  lemma CollectAllFirstFailure<T, V, E>(f: T -> Result<V, E>, xs: seq<T>, k: nat)
    requires k < |xs| && f(xs[k]).Err?
    requires forall j | 0 <= j < k :: f(xs[j]).Ok?
    ensures CollectAll(f, xs) == Err(f(xs[k]).error)
  {
    var r := CollectAll(f, xs);
    var i :| 0 <= i < |xs| && f(xs[i]) == Err(r.error) && forall j | 0 <= j < i :: f(xs[j]).Ok?;
    assert !(i < k) && !(k < i);
  }

  /** A first failure in the tail is a first failure of the whole list when
      the head succeeds. */
  lemma FirstFailureShifts<T, V, E>(f: T -> Result<V, E>, xs: seq<T>, e: E)
    requires xs != [] && f(xs[0]).Ok?
    requires exists i | 0 <= i < |xs| - 1 :: f(xs[1..][i]) == Err(e) && forall j | 0 <= j < i :: f(xs[1..][j]).Ok?
    ensures exists i | 0 <= i < |xs| :: f(xs[i]) == Err(e) && forall j | 0 <= j < i :: f(xs[j]).Ok?
  {
    var i :| 0 <= i < |xs| - 1 && f(xs[1..][i]) == Err(e) && forall j | 0 <= j < i :: f(xs[1..][j]).Ok?;
    assert xs[i + 1] == xs[1..][i];
    forall j | 0 <= j < i + 1 ensures f(xs[j]).Ok? {
      if j > 0 { assert xs[j] == xs[1..][j - 1]; }
    }
  }
}
