/** Failure-compatible wrappers used across the model for Python's `None`
    values and raised exceptions. */
module Wrappers {

  datatype Option<+T> = None | Some(value: T) {
    function GetOr(default: T): T {
      match this
      case Some(v) => v
      case None => default
    }
  }

  datatype Result<+T, +E> = Ok(value: T) | Err(error: E) {
    predicate IsFailure() {
      Err?
    }
  }

  /** `f` applied to every element, in order; `None` as soon as one
      application fails (a loop whose body may raise). */
  function MapAll<A, B>(xs: seq<A>, f: A -> Option<B>): (r: Option<seq<B>>)
    ensures r.Some? ==> |r.value| == |xs| && forall i :: 0 <= i < |xs| ==> f(xs[i]) == Some(r.value[i])
  {
    if xs == [] then Some([])
    else
      var init := xs[..|xs| - 1];
      match MapAll(init, f)
      case None => None
      case Some(ys) =>
        match f(xs[|xs| - 1])
        case None => None
        case Some(y) =>
          assert forall i :: 0 <= i < |init| ==> xs[i] == init[i];
          Some(ys + [y])
  }

  lemma MapAllSnoc<A, B>(xs: seq<A>, x: A, f: A -> Option<B>)
    ensures MapAll(xs + [x], f) ==
              match MapAll(xs, f)
              case None => None
              case Some(ys) => match f(x) case None => None case Some(y) => Some(ys + [y])
  {
    assert (xs + [x])[..|xs|] == xs;
  }

  /** A failure on a prefix is a failure of the whole. */
  lemma {:induction false} MapAllFailed<A, B>(xs: seq<A>, n: nat, f: A -> Option<B>)
    requires n <= |xs| && MapAll(xs[..n], f).None?
    ensures MapAll(xs, f).None?
    decreases |xs| - n
  {
    if n < |xs| {
      assert xs[..n + 1][..n] == xs[..n];
      MapAllFailed(xs, n + 1, f);
    } else {
      assert xs[..n] == xs;
    }
  }

  /** The whole succeeds exactly when every application does. */
  lemma {:induction false} MapAllIff<A, B>(xs: seq<A>, f: A -> Option<B>)
    ensures MapAll(xs, f).Some? <==> forall i :: 0 <= i < |xs| ==> f(xs[i]).Some?
  {
    if xs != [] {
      var init := xs[..|xs| - 1];
      MapAllIff(init, f);
      assert forall i :: 0 <= i < |init| ==> init[i] == xs[i];
    }
  }

  /** The concatenation of `f` over every element, in order (a loop that
      extends one list). */
  function Gather<A, B>(xs: seq<A>, f: A -> seq<B>): seq<B> {
    if xs == [] then [] else Gather(xs[..|xs| - 1], f) + f(xs[|xs| - 1])
  }

  lemma {:induction false} GatherAppend<A, B>(xs: seq<A>, ys: seq<A>, f: A -> seq<B>)
    ensures Gather(xs + ys, f) == Gather(xs, f) + Gather(ys, f)
    decreases |ys|
  {
    if ys == [] {
      assert xs + ys == xs;
    } else {
      var init := ys[..|ys| - 1];
      assert (xs + ys)[..|xs + ys| - 1] == xs + init;
      assert (xs + ys)[|xs + ys| - 1] == ys[|ys| - 1];
      GatherAppend(xs, init, f);
    }
  }

  lemma GatherSnoc<A, B>(xs: seq<A>, x: A, f: A -> seq<B>)
    ensures Gather(xs + [x], f) == Gather(xs, f) + f(x)
  {
    assert (xs + [x])[..|xs|] == xs;
  }

  /** Elements `f` maps to nothing add nothing. */
  lemma {:induction false} GatherNothing<A, B>(xs: seq<A>, f: A -> seq<B>)
    requires forall i :: 0 <= i < |xs| ==> f(xs[i]) == []
    ensures Gather(xs, f) == []
  {
    if xs != [] {
      var init := xs[..|xs| - 1];
      assert forall i :: 0 <= i < |init| ==> init[i] == xs[i];
      GatherNothing(init, f);
    }
  }
}
