/** Option and Result, plus the list combinator that every `Select(...).ToList()`
    of the object model reduces to once decoding an element may fail. */
module Wrappers {

  datatype Option<+T> = None | Some(value: T) {
    function GetOr(default: T): T {
      match this
      case Some(v) => v
      case None => default
    }
  }

  /** A decoder either yields a value or the exception the constructor would raise. */
  datatype Result<+T, +E> = Ok(value: T) | Err(error: E) {
    predicate IsFailure() {
      Err?
    }

    function PropagateFailure<U>(): Result<U, E>
      requires Err?
    {
      Err(error)
    }

    function Extract(): T
      requires Ok?
    {
      value
    }

    function Map<U>(f: T -> U): (r: Result<U, E>)
      ensures r.Ok? <==> Ok?
      ensures r.Ok? ==> r.value == f(value)
      ensures r.Err? ==> r.error == error
    {
      match this
      case Ok(v) => Ok(f(v))
      case Err(e) => Err(e)
    }
  }

  /** The index of the first failing result, if any. */
  function FirstErr<T, E>(rs: seq<Result<T, E>>): (k: nat)
    ensures k <= |rs|
    ensures forall j :: 0 <= j < k ==> rs[j].Ok?
    ensures k < |rs| ==> rs[k].Err?
  {
    if |rs| == 0 then 0
    else if rs[0].Err? then 0
    else 1 + FirstErr(rs[1..])
  }

  /** Evaluates a list of results in order, as `ToList()` forces a lazy `Select`:
      the first failure wins, otherwise every value is kept in place. */
  function Collect<T, E>(rs: seq<Result<T, E>>): (r: Result<seq<T>, E>)
    ensures r.Ok? <==> forall j :: 0 <= j < |rs| ==> rs[j].Ok?
    ensures r.Ok? ==> |r.value| == |rs| && forall j :: 0 <= j < |rs| ==> r.value[j] == rs[j].value
    ensures r.Err? ==> FirstErr(rs) < |rs| && r.error == rs[FirstErr(rs)].error
  {
    if |rs| == 0 then Ok([])
    else
      match rs[0]
      case Err(e) => Err(e)
      case Ok(v) =>
        match Collect(rs[1..])
        case Err(e) => Err(e)
        case Ok(vs) => Ok([v] + vs)
  }

  /** Collecting one more result: the values so far plus its value, or the
      first error. */
  lemma CollectSnoc<T, E>(rs: seq<Result<T, E>>, r: Result<T, E>)
    requires Collect(rs).Ok?
    ensures r.Ok? ==> Collect(rs + [r]) == Ok(Collect(rs).value + [r.value])
    ensures r.Err? ==> Collect(rs + [r]) == Err(r.error)
  {
    var xs := rs + [r];
    assert forall j :: 0 <= j < |rs| ==> xs[j] == rs[j];
    if r.Ok? {
      assert Collect(xs).value == Collect(rs).value + [r.value];
    } else {
      assert xs[|rs|] == r;
      assert FirstErr(xs) == |rs|;
    }
  }

  /** An error among the first `k` results is the error of the whole sequence. */
  lemma CollectPrefixErr<T, E>(rs: seq<Result<T, E>>, k: nat)
    requires k <= |rs| && Collect(rs[..k]).Err?
    ensures Collect(rs) == Collect(rs[..k])
  {
    var f := FirstErr(rs[..k]);
    assert rs[..k][f] == rs[f];
    assert forall j :: 0 <= j < f ==> rs[..k][j] == rs[j];
    assert FirstErr(rs) == f;
  }

  /** One step of collecting from left to right: the prefix grows by the next
      value, or the first error found is the error of the whole sequence. */
  lemma CollectStep<T, E>(rs: seq<Result<T, E>>, i: nat)
    requires i < |rs| && Collect(rs[..i]).Ok?
    ensures rs[i].Ok? ==> Collect(rs[..i + 1]) == Ok(Collect(rs[..i]).value + [rs[i].value])
    ensures rs[i].Err? ==> Collect(rs) == Err(rs[i].error)
  {
    assert rs[..i + 1] == rs[..i] + [rs[i]];
    CollectSnoc(rs[..i], rs[i]);
    if rs[i].Err? {
      CollectPrefixErr(rs, i + 1);
    }
  }
}
