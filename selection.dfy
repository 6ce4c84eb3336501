/** Order-preserving selection of elements by position. */
module Selection {

  /**
   * `out` lists the elements of `xs` at the positions `idx`, which are
   * strictly increasing: `out` is a subsequence of `xs` picked at `idx`.
   */
  ghost predicate SelectsAt<T>(out: seq<T>, xs: seq<T>, idx: seq<nat>) {
    && |idx| == |out|
    && (forall j :: 0 <= j < |idx| ==> idx[j] < |xs| && out[j] == xs[idx[j]])
    && (forall j, k :: 0 <= j < k < |idx| ==> idx[j] < idx[k])
  }

  /** Picking one more element, at a position after all picked so far, keeps a selection a selection. */
  lemma SelectsAtSnoc<T>(out: seq<T>, xs: seq<T>, idx: seq<nat>, i: nat)
    requires SelectsAt(out, xs, idx)
    requires i < |xs|
    requires forall j :: 0 <= j < |idx| ==> idx[j] < i
    ensures SelectsAt(out + [xs[i]], xs, idx + [i])
  {
    var out', idx' := out + [xs[i]], idx + [i];
    forall j | 0 <= j < |idx'|
      ensures idx'[j] < |xs| && out'[j] == xs[idx'[j]]
    {
      if j < |idx| {
        assert idx'[j] == idx[j] && out'[j] == out[j];
      }
    }
  }

  /** The lists of `xss` concatenated in order. */
  function Flatten<T>(xss: seq<seq<T>>): seq<T> {
    if xss == [] then [] else xss[0] + Flatten(xss[1..])
  }

  lemma {:induction false} FlattenSnoc<T>(xss: seq<seq<T>>, xs: seq<T>)
    ensures Flatten(xss + [xs]) == Flatten(xss) + xs
  {
    if xss == [] {
      assert [] + [xs] == [xs];
      assert Flatten([xs]) == xs + Flatten([]);
    } else {
      assert (xss + [xs])[0] == xss[0] && (xss + [xs])[1..] == xss[1..] + [xs];
      FlattenSnoc(xss[1..], xs);
    }
  }

  /** Every position moved up by `n`. */
  function Shift(idx: seq<nat>, n: nat): (r: seq<nat>)
    ensures |r| == |idx|
    ensures forall j :: 0 <= j < |idx| ==> r[j] == idx[j] + n
  {
    if idx == [] then [] else [idx[0] + n] + Shift(idx[1..], n)
  }

  /** Selections from two lists concatenate to a selection from the concatenated lists. */
  lemma SelectsAtAppend<T>(o1: seq<T>, x1: seq<T>, i1: seq<nat>, o2: seq<T>, x2: seq<T>, i2: seq<nat>)
    requires SelectsAt(o1, x1, i1) && SelectsAt(o2, x2, i2)
    ensures SelectsAt(o1 + o2, x1 + x2, i1 + Shift(i2, |x1|))
  {
    var o, x, sh := o1 + o2, x1 + x2, Shift(i2, |x1|);
    var idx := i1 + sh;
    forall j | 0 <= j < |idx|
      ensures idx[j] < |x| && o[j] == x[idx[j]]
    {
      if j < |i1| {
        assert idx[j] == i1[j] && o[j] == o1[j];
      } else {
        var k := j - |i1|;
        assert idx[j] == sh[k] == i2[k] + |x1| && o[j] == o2[k];
      }
    }
    forall j, k | 0 <= j < k < |idx|
      ensures idx[j] < idx[k]
    {
      if k < |i1| {
        assert idx[j] == i1[j] && idx[k] == i1[k];
      } else if j < |i1| {
        assert idx[j] == i1[j] && idx[k] == sh[k - |i1|];
      } else {
        assert idx[j] == sh[j - |i1|] && idx[k] == sh[k - |i1|];
      }
    }
  }
}
