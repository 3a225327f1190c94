/** Outcomes shared by the whole model: Python's None, the exceptions the
    modelled code raises, and a value-or-exception result. */
module Results {

  datatype Option<+T> = None | Some(value: T)

  /** The Python exceptions that the modelled operations can raise. */
  datatype Error =
    | AttributeError   // an unset query attribute, or `.lower()` on a non-string
    | KeyError         // a missing dictionary key or an unregistered style
    | TypeError        // an operation applied to a value of the wrong type
    | ValueError       // a string that does not convert, or an ambiguous truth value
    | ImportError      // a style whose implementation failed to load

  datatype Result<+T> = Ok(value: T) | Err(error: Error)

  /** `[f(x) for x in xs]`: applies `f` in order and stops at the first
      element that raises, whose exception becomes the result. */
  function MapAll<A, B>(f: A -> Result<B>, xs: seq<A>): (r: Result<seq<B>>)
    ensures r.Ok? <==> forall i :: 0 <= i < |xs| ==> f(xs[i]).Ok?
    ensures r.Ok? ==> |r.value| == |xs| && forall i :: 0 <= i < |xs| ==> f(xs[i]) == Ok(r.value[i])
    ensures r.Err? ==> exists i :: 0 <= i < |xs| && f(xs[i]) == Err(r.error) &&
                                  forall j :: 0 <= j < i ==> f(xs[j]).Ok?
  {
    if xs == [] then Ok([])
    else
      match f(xs[0])
      case Err(e) => Err(e)
      case Ok(y) =>
        match MapAll(f, xs[1..])
        case Err(e) =>
          assert exists i :: 0 <= i < |xs| - 1 && f(xs[1..][i]) == Err(e) &&
                             forall j :: 0 <= j < i ==> f(xs[1..][j]).Ok?;
          var i :| 0 <= i < |xs| - 1 && f(xs[1..][i]) == Err(e) &&
                   forall j :: 0 <= j < i ==> f(xs[1..][j]).Ok?;
          assert forall j :: 1 <= j < i + 1 ==> f(xs[j]) == f(xs[1..][j - 1]);
          Err(e)
        case Ok(ys) => Ok([y] + ys)
  }
}
