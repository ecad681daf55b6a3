/** Failure-compatible wrappers. Python's `None` becomes `Option.None`; a call
    that either returns a value or raises an exception becomes a `Result`. */
module Wrappers {

  datatype Option<+T> = None | Some(value: T) {
    /** `dict.get(key, default)`-style read of an optional value. */
    function GetOr(default: T): T {
      if Some? then value else default
    }
  }

  datatype Result<+T, +E> = Ok(value: T) | Err(error: E) {
    predicate IsFailure() {
      Err?
    }

    function PropagateFailure<U>(): Result<U, E>
      requires Err?
    {
      Err(error)
    }

    function Extract(): T
      requires Ok?
    {
      value
    }
  }

  /** The values of the successful entries of `rs`, in their original order. */
  function Oks<T, E>(rs: seq<Result<T, E>>): (vs: seq<T>)
    ensures |vs| <= |rs|
  {
    if rs == [] then []
    else Oks(rs[..|rs| - 1]) + (if rs[|rs| - 1].Ok? then [rs[|rs| - 1].value] else [])
  }

  /** Appending one outcome appends its value exactly when it is a success. */
  lemma OksSnoc<T, E>(rs: seq<Result<T, E>>, x: Result<T, E>)
    ensures Oks(rs + [x]) == Oks(rs) + (if x.Ok? then [x.value] else [])
  {
    assert (rs + [x])[..|rs|] == rs;
  }

  /** Prepending one outcome prepends its value exactly when it is a success. */
  lemma {:induction false} OksCons<T, E>(x: Result<T, E>, rs: seq<Result<T, E>>)
    ensures Oks([x] + rs) == (if x.Ok? then [x.value] else []) + Oks(rs)
  {
    if rs != [] {
      var init := rs[..|rs| - 1];
      assert ([x] + rs)[..|rs|] == [x] + init;
      OksCons(x, init);
    } else {
      assert ([x] + rs)[..0] == [];
    }
  }

  /** When every outcome is a success, nothing is dropped. */
  lemma {:induction false} OksAllOk<T, E>(rs: seq<Result<T, E>>)
    requires forall i :: 0 <= i < |rs| ==> rs[i].Ok?
    ensures |Oks(rs)| == |rs|
    ensures forall i :: 0 <= i < |rs| ==> Oks(rs)[i] == rs[i].value
  {
    if rs != [] {
      OksAllOk(rs[..|rs| - 1]);
    }
  }

  /** When every outcome is a failure, nothing is kept. */
  lemma {:induction false} OksAllErr<T, E>(rs: seq<Result<T, E>>)
    requires forall i :: 0 <= i < |rs| ==> rs[i].Err?
    ensures Oks(rs) == []
  {
    if rs != [] {
      OksAllErr(rs[..|rs| - 1]);
    }
  }

  function Min(a: real, b: real): (m: real)
    ensures m <= a && m <= b && (m == a || m == b)
  {
    if a <= b then a else b
  }

  function MinInt(a: int, b: int): int {
    if a <= b then a else b
  }

  function MaxInt(a: int, b: int): int {
    if a >= b then a else b
  }
}
