/** Lists without repetition, rearrangements, and the random sort the services use. */
module Lists {

  predicate Distinct<T(==)>(xs: seq<T>)
  {
    forall i, j :: 0 <= i < j < |xs| ==> xs[i] != xs[j]
  }

  lemma Prepend<T>(x: T, xs: seq<T>)
    requires Distinct(xs) && x !in xs
    ensures Distinct([x] + xs)
  {
  }

  lemma CountTwice<T>(xs: seq<T>, i: nat, j: nat)
    requires i < j < |xs| && xs[i] == xs[j]
    ensures multiset(xs)[xs[i]] >= 2
  {
    assert xs == xs[..j] + [xs[j]] + xs[j + 1..];
    assert xs[..j][i] == xs[i];
  }

  lemma {:induction false} CountOnce<T>(xs: seq<T>, x: T)
    requires Distinct(xs)
    ensures multiset(xs)[x] <= 1
  {
    if xs != [] {
      CountOnce(xs[1..], x);
      assert xs == [xs[0]] + xs[1..];
      if xs[0] == x { assert x !in xs[1..]; }
    }
  }

  /** Rearranging a list without repetition and cutting it off introduces none. */
  lemma RearrangedDistinct<T>(all: seq<T>, chosen: seq<T>, rest: seq<T>)
    requires Distinct(all) && multiset(chosen + rest) == multiset(all)
    ensures Distinct(chosen) && forall x :: x in chosen ==> x in all
  {
    forall x | x in chosen ensures x in all {
      assert x in multiset(chosen + rest);
    }
    forall i, j | 0 <= i < j < |chosen| ensures chosen[i] != chosen[j] {
      CountOnce(all, chosen[i]);
      if chosen[i] == chosen[j] { CountTwice(chosen + rest, i, j); }
    }
  }

  lemma SameSize<T>(xs: seq<T>, ys: seq<T>)
    requires multiset(ys) == multiset(xs)
    ensures |ys| == |xs|
  {
    assert |multiset(xs)| == |xs| && |multiset(ys)| == |ys|;
  }

  /** `sort` with a comparator that orders nothing: some rearrangement of the list. */
  method Shuffle<T>(xs: seq<T>) returns (ys: seq<T>)
    ensures multiset(ys) == multiset(xs) && |ys| == |xs|
  {
    ys := [];
    var left := xs;
    while left != []
      invariant multiset(ys) + multiset(left) == multiset(xs)
      decreases |left|
    {
      var k :| 0 <= k < |left|;
      assert left == left[..k] + [left[k]] + left[k + 1..];
      ys := ys + [left[k]];
      left := left[..k] + left[k + 1..];
    }
    SameSize(xs, ys);
  }

  /** The elements that pass a test, in order. */
  function Where<T>(xs: seq<T>, keep: T -> bool): seq<T>
  {
    if xs == [] then [] else (if keep(xs[0]) then [xs[0]] else []) + Where(xs[1..], keep)
  }

  /** `out` is what stands in `xs` at the increasing positions `at`. */
  predicate Picks<T(==)>(at: seq<nat>, xs: seq<T>, out: seq<T>)
  {
    && |at| == |out|
    && (forall j :: 0 <= j < |at| ==> at[j] < |xs| && out[j] == xs[at[j]])
    && forall i, j :: 0 <= i < j < |at| ==> at[i] < at[j]
  }

  function Shift(at: seq<nat>): (out: seq<nat>)
    ensures |out| == |at| && forall j :: 0 <= j < |at| ==> out[j] == at[j] + 1
  {
    seq(|at|, j requires 0 <= j < |at| => at[j] + 1)
  }

  lemma InShift(at: seq<nat>, i: nat)
    ensures i in Shift(at) <==> i > 0 && i - 1 in at
  {
    if i > 0 && i - 1 in at {
      var j :| 0 <= j < |at| && at[j] == i - 1;
      assert Shift(at)[j] == i;
    }
  }

  lemma PicksShifted<T>(at: seq<nat>, xs: seq<T>, out: seq<T>)
    requires xs != [] && Picks(at, xs[1..], out)
    ensures Picks(Shift(at), xs, out)
    ensures Picks([0] + Shift(at), xs, [xs[0]] + out)
  {
    var more, longer := [0] + Shift(at), [xs[0]] + out;
    forall j | 0 <= j < |more| ensures more[j] < |xs| && longer[j] == xs[more[j]] {
      if j > 0 { assert xs[1..][at[j - 1]] == out[j - 1]; }
    }
  }

  /** The positions of the elements that pass. */
  function Positions<T>(xs: seq<T>, keep: T -> bool): seq<nat>
  {
    if xs == [] then [] else (if keep(xs[0]) then [0] else []) + Shift(Positions(xs[1..], keep))
  }

  lemma {:induction false} PositionsPick<T>(xs: seq<T>, keep: T -> bool)
    ensures Picks(Positions(xs, keep), xs, Where(xs, keep))
  {
    if xs != [] {
      PositionsPick(xs[1..], keep);
      var rest, out := Positions(xs[1..], keep), Where(xs[1..], keep);
      PicksShifted(rest, xs, out);
      if !keep(xs[0]) {
        assert Positions(xs, keep) == Shift(rest) && Where(xs, keep) == out;
      }
    }
  }

  lemma {:induction false} InPositions<T>(xs: seq<T>, keep: T -> bool, i: nat)
    requires i < |xs|
    ensures i in Positions(xs, keep) <==> keep(xs[i])
  {
    InShift(Positions(xs[1..], keep), i);
    if i > 0 { InPositions(xs[1..], keep, i - 1); }
  }

  /** The list keeps exactly the elements that pass, each where it stood, in order. */
  lemma WherePicks<T>(xs: seq<T>, keep: T -> bool) returns (at: seq<nat>)
    ensures Picks(at, xs, Where(xs, keep))
    ensures forall i :: 0 <= i < |xs| ==> (i in at <==> keep(xs[i]))
  {
    at := Positions(xs, keep);
    PositionsPick(xs, keep);
    forall i | 0 <= i < |xs| { InPositions(xs, keep, i); }
  }
}
