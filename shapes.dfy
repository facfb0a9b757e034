/** Shape algebra of the framework operations the layers use.  A tensor is
    represented only by its runtime shape, one size per axis; an operation
    returns `None` where the framework raises a shape error. */
module Shapes {
  import opened Wrappers

  type Shape = seq<nat>

  /** Number of elements of a tensor of shape `s`. */
  function Product(s: Shape): nat
  {
    if s == [] then 1 else s[0] * Product(s[1..])
  }

  lemma Product1(a: nat)
    ensures Product([a]) == a
  {
    assert [a][1..] == [];
  }

  lemma Product2(a: nat, b: nat)
    ensures Product([a, b]) == a * b
  {
    assert [a, b][1..] == [b];
    Product1(b);
  }

  lemma Product3(a: nat, b: nat, c: nat)
    ensures Product([a, b, c]) == a * b * c
  {
    assert [a, b, c][1..] == [b, c];
    Product2(b, c);
  }

  // ---------------------------------------------------------------------
  // tf.reshape

  /** One entry of a reshape target: a fixed size, or -1 (to be inferred). */
  datatype Dim = Known(n: nat) | Infer

  function InferCount(t: seq<Dim>): nat
  {
    if t == [] then 0 else (if t[0].Infer? then 1 else 0) + InferCount(t[1..])
  }

  function KnownProduct(t: seq<Dim>): nat
  {
    if t == [] then 1 else (if t[0].Known? then t[0].n else 1) * KnownProduct(t[1..])
  }

  /** The target with every -1 replaced by `v`. */
  function Fill(t: seq<Dim>, v: nat): (r: Shape)
    ensures |r| == |t|
    ensures forall i :: 0 <= i < |t| ==> r[i] == (if t[i].Known? then t[i].n else v)
  {
    if t == [] then [] else [if t[0].Known? then t[0].n else v] + Fill(t[1..], v)
  }

  /** A target with no -1. */
  function Knowns(s: Shape): (t: seq<Dim>)
    ensures |t| == |s| && forall i :: 0 <= i < |s| ==> t[i] == Known(s[i])
  {
    seq(|s|, i requires 0 <= i < |s| => Known(s[i]))
  }

  /** `tf.reshape(x, t)`: at most one -1; with a -1 the fixed sizes must have a
      nonzero product that divides the element count, without one the fixed
      sizes must multiply to the element count. */
  function Reshape(s: Shape, t: seq<Dim>): Option<Shape>
  {
    var count := Product(s);
    if InferCount(t) == 0 then
      if KnownProduct(t) == count then Some(Fill(t, 0)) else None
    else if InferCount(t) == 1 then
      var k := KnownProduct(t);
      if k > 0 && count % k == 0 then Some(Fill(t, count / k)) else None
    else None
  }

  lemma {:induction false} FillProduct(t: seq<Dim>, v: nat)
    requires InferCount(t) <= 1
    ensures Product(Fill(t, v)) == KnownProduct(t) * (if InferCount(t) == 1 then v else 1)
  {
    if t != [] {
      FillProduct(t[1..], v);
      assert Fill(t, v)[1..] == Fill(t[1..], v);
      var m := if InferCount(t[1..]) == 1 then v else 1;
      if t[0].Known? {
        calc {
          Product(Fill(t, v));
          t[0].n * Product(Fill(t[1..], v));
          t[0].n * (KnownProduct(t[1..]) * m);
          (t[0].n * KnownProduct(t[1..])) * m;
        }
      } else {
        assert InferCount(t[1..]) == 0;
        calc {
          Product(Fill(t, v));
          v * Product(Fill(t[1..], v));
          v * KnownProduct(t[1..]);
        }
      }
    }
  }

  /** A successful reshape keeps the element count and every fixed size. */
  lemma ReshapeKeepsCount(s: Shape, t: seq<Dim>)
    requires Reshape(s, t).Some?
    ensures Product(Reshape(s, t).value) == Product(s)
    ensures |Reshape(s, t).value| == |t|
    ensures forall i :: 0 <= i < |t| && t[i].Known? ==> Reshape(s, t).value[i] == t[i].n
  {
    var count := Product(s);
    if InferCount(t) == 0 {
      FillProduct(t, 0);
    } else {
      var k := KnownProduct(t);
      FillProduct(t, count / k);
      assert k * (count / k) == count;
    }
  }

  lemma {:induction false} KnownsFacts(s: Shape)
    ensures InferCount(Knowns(s)) == 0
    ensures KnownProduct(Knowns(s)) == Product(s)
  {
    if s != [] {
      assert Knowns(s)[1..] == Knowns(s[1..]);
      KnownsFacts(s[1..]);
    }
  }

  /** The reshape target `[-1] + rest`, the only form the layers use. */
  function Lead(rest: Shape): seq<Dim>
  {
    [Infer] + Knowns(rest)
  }

  /** Reshape to `[-1] + rest` succeeds exactly when the fixed sizes have a
      nonzero product dividing the element count; the leading axis is then
      the quotient. */
  lemma ReshapeLead(s: Shape, rest: Shape)
    ensures Reshape(s, Lead(rest)) ==
            if Product(rest) > 0 && Product(s) % Product(rest) == 0
            then Some([Product(s) / Product(rest)] + rest) else None
  {
    var t := Lead(rest);
    assert t[1..] == Knowns(rest);
    KnownsFacts(rest);
    assert InferCount(t) == 1;
    assert KnownProduct(t) == Product(rest);
    if Product(rest) > 0 && Product(s) % Product(rest) == 0 {
      assert Fill(t, Product(s) / Product(rest)) == [Product(s) / Product(rest)] + rest;
    }
  }

  lemma MulMono(d: int, k: int)
    requires k >= 0
    ensures d >= 1 ==> d * k >= k
    ensures d <= -1 ==> d * k <= -k
  {
    if d >= 1 {
      assert d * k == (d - 1) * k + k;
    } else if d <= -1 {
      assert d * k == (d + 1) * k - k;
    }
  }

  lemma MulPos(a: int, b: int)
    requires a >= 1 && b >= 1
    ensures a * b >= 1
  {
    MulMono(a, b);
  }

  lemma MulLeftStrict(a: int, x: int, y: int)
    requires a >= 1 && x < y
    ensures a * x < a * y
  {
    assert a * y - a * x == (y - x) * a;
    MulMono(y - x, a);
  }

  lemma MulCancel(a: int, x: int, y: int)
    requires a >= 1 && a * x == a * y
    ensures x == y
  {
    assert (x - y) * a == a * x - a * y;
    MulMono(x - y, a);
  }

  /** Exact division of a multiple. */
  lemma MulDiv(a: nat, k: nat)
    requires k > 0
    ensures (a * k) % k == 0 && (a * k) / k == a
  {
    var q, r := (a * k) / k, (a * k) % k;
    assert (a - q) * k == r by {
      assert q * k + r == a * k;
      assert (a - q) * k == a * k - q * k;
    }
    MulMono(a - q, k);
  }

  /** `tf.reshape(x, [-1])` flattens any tensor to its element count. */
  lemma FlattenAll(s: Shape)
    ensures Reshape(s, [Infer]) == Some([Product(s)])
  {
    ReshapeLead(s, []);
    assert Knowns([]) == [];
    assert Lead([]) == [Infer];
    assert Product([]) == 1;
    assert [Product(s) / Product([])] + [] == [Product(s)];
  }

  /** Reshaping `[b] + rest ...` style counts: a count that is `b` times the
      fixed product gives leading axis `b`. */
  lemma ReshapeLeadExact(s: Shape, rest: Shape, b: nat)
    requires Product(rest) > 0 && Product(s) == b * Product(rest)
    ensures Reshape(s, Lead(rest)) == Some([b] + rest)
  {
    ReshapeLead(s, rest);
    MulDiv(b, Product(rest));
  }

  // ---------------------------------------------------------------------
  // Broadcasting element-wise operations (multiply, add, subtract)

  predicate Compatible(x: nat, y: nat)
  {
    x == y || x == 1 || y == 1
  }

  function Join(x: nat, y: nat): nat
  {
    if x == 1 then y else x
  }

  /** numpy broadcasting: shapes aligned on the right, each pair of sizes
      equal or one of them 1; the missing leading axes count as 1. */
  function Broadcast(a: Shape, b: Shape): Option<Shape>
    decreases |a| + |b|
  {
    if a == [] then Some(b)
    else if b == [] then Some(a)
    else
      var x, y := a[|a| - 1], b[|b| - 1];
      if Compatible(x, y) then
        var r :- Broadcast(a[..|a| - 1], b[..|b| - 1]);
        Some(r + [Join(x, y)])
      else None
  }

  /** Broadcasting one more trailing axis on both sides. */
  lemma BroadcastSnoc(a: Shape, x: nat, b: Shape, y: nat)
    ensures Broadcast(a + [x], b + [y]) ==
            if Compatible(x, y) && Broadcast(a, b).Some?
            then Some(Broadcast(a, b).value + [Join(x, y)]) else None
  {
    assert (a + [x])[..|a|] == a;
    assert (b + [y])[..|b|] == b;
  }

  lemma Broadcast1(a0: nat, b0: nat)
    ensures Broadcast([a0], [b0]) == if Compatible(a0, b0) then Some([Join(a0, b0)]) else None
  {
    assert [a0][..0] == [] && [b0][..0] == [];
    assert Broadcast([], []) == Some([]);
    assert [] + [Join(a0, b0)] == [Join(a0, b0)];
  }

  lemma Broadcast2(a0: nat, a1: nat, b0: nat, b1: nat)
    ensures Broadcast([a0, a1], [b0, b1]) ==
            if Compatible(a0, b0) && Compatible(a1, b1)
            then Some([Join(a0, b0), Join(a1, b1)]) else None
  {
    Broadcast1(a0, b0);
    assert [a0, a1][..1] == [a0] && [b0, b1][..1] == [b0];
    assert [Join(a0, b0)] + [Join(a1, b1)] == [Join(a0, b0), Join(a1, b1)];
  }

  lemma Broadcast3(a0: nat, a1: nat, a2: nat, b0: nat, b1: nat, b2: nat)
    ensures Broadcast([a0, a1, a2], [b0, b1, b2]) ==
            if Compatible(a0, b0) && Compatible(a1, b1) && Compatible(a2, b2)
            then Some([Join(a0, b0), Join(a1, b1), Join(a2, b2)]) else None
  {
    Broadcast2(a0, a1, b0, b1);
    BroadcastSnoc([a0, a1], a2, [b0, b1], b2);
    assert [a0, a1] + [a2] == [a0, a1, a2] && [b0, b1] + [b2] == [b0, b1, b2];
    assert [Join(a0, b0), Join(a1, b1)] + [Join(a2, b2)] == [Join(a0, b0), Join(a1, b1), Join(a2, b2)];
  }

  /** A shape broadcasts against itself to itself. */
  lemma {:induction false} BroadcastSelf(a: Shape)
    ensures Broadcast(a, a) == Some(a)
    decreases |a|
  {
    if a != [] {
      BroadcastSelf(a[..|a| - 1]);
      assert a[..|a| - 1] + [a[|a| - 1]] == a;
    }
  }

  // ---------------------------------------------------------------------
  // Keras layers and tf ops

  /** `tf.keras.layers.Dense(units)`: needs rank >= 2 (its input spec) and
      replaces the last axis. */
  function Dense(s: Shape, units: nat): (r: Option<Shape>)
    ensures r.Some? <==> |s| >= 2
    ensures r.Some? ==> |r.value| == |s| && r.value[|s| - 1] == units &&
                        forall i :: 0 <= i < |s| - 1 ==> r.value[i] == s[i]
  {
    if |s| >= 2 then Some(s[|s| - 1 := units]) else None
  }

  /** Two tensors whose last axes have the same size: what a built `Dense`
      demands of every input after the first. */
  predicate SameLastAxis(a: Shape, b: Shape)
  {
    |a| >= 1 && |b| >= 1 && a[|a| - 1] == b[|b| - 1]
  }

  lemma Dense3(a: nat, b: nat, c: nat, u: nat)
    ensures Dense([a, b, c], u) == Some([a, b, u])
  {
    assert [a, b, c][2 := u] == [a, b, u];
  }

  lemma Dense2(a: nat, b: nat, u: nat)
    ensures Dense([a, b], u) == Some([a, u])
  {
    assert [a, b][1 := u] == [a, u];
  }

  /** A Python-style axis (possibly negative) on a tensor of rank `rank`. */
  function NormAxis(axis: int, rank: nat): (r: Option<nat>)
    ensures r.Some? <==> 0 <= axis + rank && axis < rank
    ensures r.Some? ==> r.value < rank && (r.value == axis || r.value == axis + rank)
  {
    if 0 <= axis + rank && axis < rank then Some(if axis < 0 then axis + rank else axis) else None
  }

  /** `tf.reduce_sum/mean/max(x, axis, keepdims)`. */
  function Reduce(s: Shape, axis: int, keepdims: bool): (r: Option<Shape>)
    ensures r.Some? <==> 0 <= axis + |s| && axis < |s|
  {
    var k :- NormAxis(axis, |s|);
    if keepdims then Some(s[k := 1]) else Some(s[..k] + s[k + 1..])
  }

  lemma ReduceAxis1(a: nat, b: nat, c: nat)
    ensures Reduce([a, b, c], 1, false) == Some([a, c])
    ensures Reduce([a, b, c], -2, true) == Some([a, 1, c])
  {
    assert NormAxis(1, 3) == Some(1);
    assert NormAxis(-2, 3) == Some(1);
    assert [a, b, c][..1] + [a, b, c][2..] == [a, c];
    assert [a, b, c][1 := 1] == [a, 1, c];
  }

  /** Softmax and l2-normalisation along an axis keep the shape. */
  function AlongAxis(s: Shape, axis: int): (r: Option<Shape>)
    ensures r.Some? <==> 0 <= axis + |s| && axis < |s|
    ensures r.Some? ==> r.value == s
  {
    var _ :- NormAxis(axis, |s|);
    Some(s)
  }

  /** Width of the axis a softmax normalises over. */
  function AxisWidth(s: Shape, axis: int): nat
  {
    match NormAxis(axis, |s|)
    case Some(k) => s[k]
    case None => 0
  }

  /** `tf.expand_dims(x, axis)`. */
  function ExpandDims(s: Shape, axis: int): (r: Option<Shape>)
    ensures r.Some? <==> 0 <= axis + |s| + 1 && axis <= |s|
  {
    var k :- NormAxis(axis, |s| + 1);
    Some(s[..k] + [1] + s[k..])
  }

  lemma ExpandLast1(a: nat)
    ensures ExpandDims([a], -1) == Some([a, 1])
  {
    assert NormAxis(-1, 2) == Some(1);
    assert [a][..1] + [1] + [a][1..] == [a, 1];
  }

  lemma ExpandLast2(a: nat, b: nat)
    ensures ExpandDims([a, b], -1) == Some([a, b, 1])
  {
    assert NormAxis(-1, 3) == Some(2);
    assert [a, b][..2] + [1] + [a, b][2..] == [a, b, 1];
  }

  /** `tf.concat([a, b], axis)`: same rank, equal sizes except along `axis`. */
  function Concat2(a: Shape, b: Shape, axis: int): Option<Shape>
  {
    if |a| != |b| then None
    else
      var k :- NormAxis(axis, |a|);
      if forall i | 0 <= i < |a| && i != k :: a[i] == b[i] then Some(a[k := a[k] + b[k]]) else None
  }

  /** `tf.concat(inputs, axis)` of a non-empty list, folded pairwise.  A
      single tensor is returned as it is, without checking the axis against
      its rank, as `tf.concat` does for a one-element list. */
  function Concat(ss: seq<Shape>, axis: int): Option<Shape>
    decreases |ss|
  {
    if |ss| == 0 then None
    else if |ss| == 1 then Some(ss[0])
    else
      var left :- Concat(ss[..|ss| - 1], axis);
      Concat2(left, ss[|ss| - 1], axis)
  }

  lemma ConcatPair2(b: nat, x: nat, y: nat)
    ensures Concat([[b, x], [b, y]], 1) == Some([b, x + y])
  {
    var ss := [[b, x], [b, y]];
    assert ss[..1] == [[b, x]];
    assert NormAxis(1, 2) == Some(1);
    assert Concat([[b, x]], 1) == Some([b, x]);
    assert [b, x][1 := x + y] == [b, x + y];
  }

  lemma ConcatPair3(b: nat, x: nat, y: nat, h: nat)
    ensures Concat([[b, x, h], [b, y, h]], 1) == Some([b, x + y, h])
  {
    var ss := [[b, x, h], [b, y, h]];
    assert ss[..1] == [[b, x, h]];
    assert NormAxis(1, 3) == Some(1);
    assert Concat([[b, x, h]], 1) == Some([b, x, h]);
    assert forall i | 0 <= i < 3 && i != 1 :: [b, x, h][i] == [b, y, h][i];
    assert [b, x, h][1 := x + y] == [b, x + y, h];
  }

  /** Row-vector shapes [b, w] for each width in `ws`. */
  function Rows(b: nat, ws: seq<nat>): (r: seq<Shape>)
    ensures |r| == |ws| && forall i :: 0 <= i < |ws| ==> r[i] == [b, ws[i]]
  {
    seq(|ws|, i requires 0 <= i < |ws| => [b, ws[i]])
  }

  function Sum(ws: seq<nat>): nat
  {
    if ws == [] then 0 else Sum(ws[..|ws| - 1]) + ws[|ws| - 1]
  }

  /** Concatenating row-vector shapes on axis 1 adds their widths. */
  lemma {:induction false} ConcatRows(b: nat, ws: seq<nat>)
    requires |ws| >= 1
    ensures Concat(Rows(b, ws), 1) == Some([b, Sum(ws)])
  {
    var ss := Rows(b, ws);
    assert NormAxis(1, 2) == Some(1);
    if |ws| == 1 {
      assert ws[..0] == [];
    } else {
      var front := ws[..|ws| - 1];
      ConcatRows(b, front);
      assert ss[..|ss| - 1] == Rows(b, front);
      var last := ws[|ws| - 1];
      assert forall i | 0 <= i < 2 && i != 1 :: [b, Sum(front)][i] == [b, last][i];
      assert [b, Sum(front)][1 := Sum(front) + last] == [b, Sum(ws)];
    }
  }

  /** `tf.stack(ss, axis)`: all shapes equal; a new axis of size |ss|. */
  function Stack(ss: seq<Shape>, axis: int): Option<Shape>
  {
    if |ss| == 0 then None
    else if forall i | 0 <= i < |ss| :: ss[i] == ss[0] then
      var k :- NormAxis(axis, |ss[0]| + 1);
      Some(ss[0][..k] + [|ss|] + ss[0][k..])
    else None
  }

  /** `k` equal shapes stacked on axis 1. */
  lemma StackCopies(s: Shape, k: nat)
    requires |s| == 2 && k >= 1
    ensures Stack(seq(k, _ => s), 1) == Some([s[0], k, s[1]])
  {
    assert s[..1] + [k] + s[1..] == [s[0], k, s[1]];
  }

  predicate IsPermutation(perm: seq<nat>, n: nat)
  {
    |perm| == n &&
    (forall i :: 0 <= i < n ==> perm[i] < n) &&
    (forall i, j :: 0 <= i < j < n ==> perm[i] != perm[j])
  }

  /** `tf.transpose(x, perm)`: axis i of the result is axis perm[i] of x. */
  function Transpose(s: Shape, perm: seq<nat>): (r: Option<Shape>)
    ensures r.Some? <==> IsPermutation(perm, |s|)
    ensures r.Some? ==> |r.value| == |s| && forall i :: 0 <= i < |s| ==> r.value[i] == s[perm[i]]
  {
    if IsPermutation(perm, |s|) then Some(seq(|s|, i requires 0 <= i < |s| => s[perm[i]])) else None
  }

  lemma TransposeSwap12(a: nat, b: nat, c: nat)
    ensures Transpose([a, b, c], [0, 2, 1]) == Some([a, c, b])
  {
    assert IsPermutation([0, 2, 1], 3);
    var r := Transpose([a, b, c], [0, 2, 1]).value;
    assert r[0] == a && r[1] == c && r[2] == b;
    assert r == [a, c, b];
  }

  /** `tf.matmul` of rank-3 operands: [b, m, k] x [b', k, n] -> [b'', m, n],
      with the batch sizes broadcast against each other. */
  function MatMul(a: Shape, b: Shape): (r: Option<Shape>)
    ensures r.Some? <==> |a| == 3 && |b| == 3 && a[2] == b[1] && Compatible(a[0], b[0])
    ensures r.Some? ==> r.value == [Join(a[0], b[0]), a[1], b[2]]
  {
    if |a| == 3 && |b| == 3 && a[2] == b[1] && Compatible(a[0], b[0])
    then Some([Join(a[0], b[0]), a[1], b[2]]) else None
  }

  /** `tf.squeeze(x)` without an axis: every size-1 axis is dropped. */
  function Squeeze(s: Shape): (r: Shape)
    ensures |r| <= |s|
    ensures forall i :: 0 <= i < |r| ==> r[i] != 1
  {
    if s == [] then [] else (if s[0] == 1 then [] else [s[0]]) + Squeeze(s[1..])
  }

  lemma {:induction false} SqueezeKeepsOthers(s: Shape)
    requires forall i :: 0 <= i < |s| ==> s[i] != 1
    ensures Squeeze(s) == s
  {
    if s != [] {
      SqueezeKeepsOthers(s[1..]);
    }
  }

  lemma SqueezeRank3(a: nat, b: nat)
    ensures Squeeze([a, b, 1]) ==
            (if a == 1 then [] else [a]) + (if b == 1 then [] else [b])
  {
    assert [a, b, 1][1..] == [b, 1];
    assert [b, 1][1..] == [1];
    assert [1][1..] == [];
    assert Squeeze([1]) == [] + Squeeze([]);
    assert Squeeze([b, 1]) == (if b == 1 then [] else [b]) + Squeeze([1]);
    assert Squeeze([a, b, 1]) == (if a == 1 then [] else [a]) + Squeeze([b, 1]);
  }

  /** `x[:, 0]`: drop axis 1 by taking its first entry (it must exist). */
  function TakeFirst1(s: Shape): Option<Shape>
  {
    if |s| >= 2 && s[1] > 0 then Some(s[..1] + s[2..]) else None
  }

  /** `x[:, :n]`: keep at most the first n entries of axis 1. */
  function Crop1(s: Shape, n: nat): Option<Shape>
  {
    if |s| >= 2 then Some(s[1 := if n < s[1] then n else s[1]]) else None
  }

  /** `tf.sequence_mask(lengths, maxlen)`: one more axis of size maxlen. */
  function SequenceMaskShape(lengths: Shape, maxlen: nat): Shape
  {
    lengths + [maxlen]
  }
}
