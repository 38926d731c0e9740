/** Small failure-carrying datatypes shared by every module of the model. */
module Wrappers {

  datatype Option<+T> = None | Some(value: T)

  /** The result of a piece of Python code that either runs to its end with a
      value, or raises an exception that nothing around it catches. */
  datatype Outcome<+T> = Done(value: T) | Crashed

  /** Applies `f` to every element from left to right, stopping at the first
      element on which `f` raises. This is the shape of every loop in the
      source that builds a list of rows from payload records. */
  function MapAll<A, B>(xs: seq<A>, f: A -> Outcome<B>): (r: Outcome<seq<B>>)
    ensures r.Done? ==> |r.value| == |xs|
    ensures r.Done? ==> forall i :: 0 <= i < |xs| ==> f(xs[i]) == Done(r.value[i])
    ensures r.Done? <==> forall i :: 0 <= i < |xs| ==> f(xs[i]).Done?
    decreases |xs|
  {
    if xs == [] then Done([])
    else
      match MapAll(xs[..|xs| - 1], f)
      case Crashed => Crashed
      case Done(ys) =>
        match f(xs[|xs| - 1])
        case Crashed => Crashed
        case Done(y) => Done(ys + [y])
  }

  /** Applies `f` to every element from left to right and concatenates the
      results, stopping at the first element on which `f` raises. This is
      the shape of a loop that appends zero or more items per element. */
  function FlatMap<A, B>(xs: seq<A>, f: A -> Outcome<seq<B>>): (r: Outcome<seq<B>>)
    ensures r.Done? <==> forall i :: 0 <= i < |xs| ==> f(xs[i]).Done?
    decreases |xs|
  {
    if xs == [] then Done([])
    else
      match FlatMap(xs[..|xs| - 1], f)
      case Crashed => Crashed
      case Done(ys) =>
        match f(xs[|xs| - 1])
        case Crashed => Crashed
        case Done(zs) => Done(ys + zs)
  }

  /** One more element processed by the loop of `FlatMap`. */
  lemma FlatMapSnoc<A, B>(xs: seq<A>, i: nat, f: A -> Outcome<seq<B>>)
    requires i < |xs|
    ensures FlatMap(xs[..i + 1], f) ==
      match FlatMap(xs[..i], f)
      case Crashed => Crashed
      case Done(ys) => (match f(xs[i]) case Crashed => Crashed case Done(zs) => Done(ys + zs))
  {
    assert xs[..i + 1][..i] == xs[..i];
  }
  /** One step of a loop that appends `f` of each element to `pre`: a
      crashing element crashes the whole run, and otherwise the
      accumulator grows by that element's piece. */
  lemma FlatMapStep<A, B>(xs: seq<A>, i: nat, f: A -> Outcome<seq<B>>, pre: seq<B>, acc: seq<B>, piece: Outcome<seq<B>>)
    requires i < |xs| && piece == f(xs[i])
    requires FlatMap(xs[..i], f).Done? && acc == pre + FlatMap(xs[..i], f).value
    ensures piece.Crashed? ==> FlatMap(xs, f).Crashed?
    ensures piece.Done? ==> (FlatMap(xs[..i + 1], f).Done? &&
      acc + piece.value == pre + FlatMap(xs[..i + 1], f).value)
  {
    FlatMapSnoc(xs, i, f);
  }


  /** Every item of a `FlatMap` result comes from the result of `f` on one
      of the elements. */
  lemma {:induction false} FlatMapMembers<A, B>(xs: seq<A>, f: A -> Outcome<seq<B>>, y: B)
    requires FlatMap(xs, f).Done? && y in FlatMap(xs, f).value
    ensures exists i :: 0 <= i < |xs| && f(xs[i]).Done? && y in f(xs[i]).value
    decreases |xs|
  {
    var init := xs[..|xs| - 1];
    var ys := FlatMap(init, f).value;
    if y in ys {
      FlatMapMembers(init, f, y);
      var i :| 0 <= i < |init| && f(init[i]).Done? && y in f(init[i]).value;
      assert init[i] == xs[i];
    }
  }

  /** `le` holds between every earlier and every later item. */
  ghost predicate SortedBy<B>(ys: seq<B>, le: (B, B) -> bool)
  {
    forall i, j :: 0 <= i < j < |ys| ==> le(ys[i], ys[j])
  }

  /** A `FlatMap` result is ordered by `le` when each piece is, and every
      item of an earlier piece is `le` every item of a later one. */
  lemma {:induction false} FlatMapSorted<A, B>(xs: seq<A>, f: A -> Outcome<seq<B>>, le: (B, B) -> bool)
    requires FlatMap(xs, f).Done?
    requires forall i :: 0 <= i < |xs| ==> SortedBy(f(xs[i]).value, le)
    requires forall i, j, y, z :: 0 <= i < j < |xs| && y in f(xs[i]).value && z in f(xs[j]).value ==> le(y, z)
    ensures SortedBy(FlatMap(xs, f).value, le)
    decreases |xs|
  {
    if xs != [] {
      var n := |xs| - 1;
      var init := xs[..n];
      assert forall i :: 0 <= i < n ==> init[i] == xs[i];
      FlatMapSorted(init, f, le);
      var ys, zs := FlatMap(init, f).value, f(xs[n]).value;
      forall a, b | 0 <= a < b < |ys + zs| ensures le((ys + zs)[a], (ys + zs)[b]) {
        if b >= |ys| && a < |ys| {
          FlatMapMembers(init, f, ys[a]);
          var i :| 0 <= i < |init| && f(init[i]).Done? && ys[a] in f(init[i]).value;
          assert zs[b - |ys|] in f(xs[n]).value;
        } else if a >= |ys| {
          assert (ys + zs)[a] == zs[a - |ys|] && (ys + zs)[b] == zs[b - |ys|];
        }
      }
    }
  }

  /** Every item `f` yields for an element is in the `FlatMap` result. */
  lemma {:induction false} FlatMapIncludes<A, B>(xs: seq<A>, f: A -> Outcome<seq<B>>, i: nat, y: B)
    requires FlatMap(xs, f).Done? && i < |xs| && y in f(xs[i]).value
    ensures y in FlatMap(xs, f).value
    decreases |xs|
  {
    var n := |xs| - 1;
    if i < n {
      assert xs[..n][i] == xs[i];
      FlatMapIncludes(xs[..n], f, i, y);
    }
  }
}
