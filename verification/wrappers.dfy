/** Failure-compatible wrappers shared by every module of the model, and the
    Python exception classes the modelled code raises. */
module Wrappers {

  datatype Option<+T> = None | Some(value: T) {
    function GetOr(default: T): T {
      match this
      case Some(v) => v
      case None => default
    }
  }

  /** The exceptions the modelled code can raise.  Callers of the modelled
      code either catch every exception alike or let it propagate, so only the
      class (and, for a missing key, the key) is kept. */
  datatype Exc =
    | KeyError(key: string)
    | TypeError
    | AttributeError
    | ValueError(msg: string)
    | IndexError
    | FileNotFoundError
    | FileExistsError
    | ValidationError
    | BackendError

  /** A value or the exception that was raised instead of producing it. */
  datatype Result<+T> = Ok(value: T) | Err(error: Exc) {
    predicate IsFailure() {
      Err?
    }

    function PropagateFailure<U>(): Result<U>
      requires Err?
    {
      Err(error)
    }

    function Extract(): T
      requires Ok?
    {
      value
    }
  }

  /** The values of steps that may each raise, taken in order: the first
      step that raises ends the run with its exception. */
  function AllOk<T>(rs: seq<Result<T>>): (r: Result<seq<T>>)
    ensures r.Ok? ==> |r.value| == |rs|
    decreases |rs|
  {
    if |rs| == 0 then Ok([])
    else
      match AllOk(rs[..|rs| - 1])
      case Err(e) => Err(e)
      case Ok(vs) =>
        if rs[|rs| - 1].Err? then Err(rs[|rs| - 1].error) else Ok(vs + [rs[|rs| - 1].value])
  }

  /** One more step: it runs only when the earlier ones all succeeded. */
  lemma AllOkSnoc<T>(rs: seq<Result<T>>, i: nat)
    requires i < |rs|
    ensures AllOk(rs[..i + 1]) ==
      match AllOk(rs[..i])
      case Err(e) => Err(e)
      case Ok(vs) => if rs[i].Err? then Err(rs[i].error) else Ok(vs + [rs[i].value])
  {
    var l := rs[..i + 1];
    assert l[..|l| - 1] == rs[..i];
  }

  /** Once a step raised, the later ones change nothing. */
  lemma {:induction false} AllOkStopped<T>(rs: seq<Result<T>>, k: nat)
    requires k <= |rs| && AllOk(rs[..k]).Err?
    ensures AllOk(rs) == AllOk(rs[..k])
    decreases |rs| - k
  {
    if k < |rs| {
      var init := rs[..|rs| - 1];
      assert init[..k] == rs[..k];
      AllOkStopped(init, k);
    } else {
      assert rs[..k] == rs;
    }
  }

  /** When no step raised, the `i`-th value is the `i`-th step's. */
  lemma {:induction false} AllOkIndex<T>(rs: seq<Result<T>>, i: nat)
    requires AllOk(rs).Ok? && i < |rs|
    ensures rs[i] == Ok(AllOk(rs).value[i])
    decreases |rs|
  {
    var init := rs[..|rs| - 1];
    if i < |init| {
      AllOkIndex(init, i);
      assert init[i] == rs[i];
    }
  }

  /** The run raises exactly when some step raises, and then with the
      exception of the first step that does. */
  lemma {:induction false} AllOkFirstError<T>(rs: seq<Result<T>>)
    ensures AllOk(rs).Ok? <==> forall i :: 0 <= i < |rs| ==> rs[i].Ok?
    ensures AllOk(rs).Err? ==>
      exists i :: 0 <= i < |rs| && rs[i] == Err(AllOk(rs).error) && forall j :: 0 <= j < i ==> rs[j].Ok?
    decreases |rs|
  {
    if |rs| > 0 {
      var init := rs[..|rs| - 1];
      AllOkFirstError(init);
      assert forall j :: 0 <= j < |init| ==> init[j] == rs[j];
    }
  }
}
