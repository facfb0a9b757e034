/** The frame-pooling and fusion layers of `cqrmodel.py` (NeXtVLAD, SoftDBoF,
    NextSoftDBoF, SENet, ConcatDenseSE), as functions from input shapes to
    output shapes.  The NeXtVLAD copies in `model_pair_mix_rank.py` and
    `model_pair_add_tf.py` are the same code and share this model. */
module Pooling {
  import opened Wrappers
  import opened Shapes

  /** What a pooling call produces besides its output: the width of the axis
      its softmax normalises, and the width of the pooled descriptor that its
      final dense layer `fc` receives. */
  datatype Pooled = Pooled(softmaxWidth: nat, descriptorWidth: nat, output: Shape)

  /** Frames beyond each video's frame count are zeroed by a [B, N, 1] mask
      built from the counts; without counts the frames pass unchanged. */
  function MaskFrames(x: Shape, numSegments: nat, mask: Option<Shape>): Option<Shape>
  {
    match mask
    case None => Some(x)
    case Some(m) =>
      var m3 :- ExpandDims(SequenceMaskShape(m, numSegments), -1);
      Broadcast(x, m3)
  }

  /** With no mask, or one count per video, masking keeps the frame shape. */
  lemma MaskFramesKeeps(b: nat, n: nat, d: nat, mask: Option<Shape>)
    requires mask == None || mask == Some([b])
    ensures MaskFrames([b, n, d], n, mask) == Some([b, n, d])
  {
    if mask.Some? {
      assert SequenceMaskShape([b], n) == [b, n];
      ExpandLast2(b, n);
      Broadcast3(b, n, d, b, n, 1);
    }
  }

  // ---------------------------------------------------------------------
  // NeXtVLAD

  const DefaultOutputSize: nat := 1024
  const DefaultExpansion: nat := 2
  const DefaultGroups: nat := 8

  /** A constructed NeXtVLAD layer: its configuration and the derived
      `new_feature_size`, the width of one group of the expanded features. */
  datatype NeXtVLAD = NeXtVLAD(featureSize: nat, clusterSize: nat, outputSize: nat,
                               expansion: nat, groups: nat, newFeatureSize: nat)

  /** The constructor: `new_feature_size` is `expansion * feature_size`
      floor-divided by `groups`, which raises when `groups` is 0. */
  function NewNeXtVLAD(featureSize: nat, clusterSize: nat, outputSize: nat,
                       expansion: nat, groups: nat): (r: Option<NeXtVLAD>)
    ensures r.Some? <==> groups != 0
    ensures r.Some? ==>
              r.value.featureSize == featureSize && r.value.clusterSize == clusterSize &&
              r.value.outputSize == outputSize && r.value.expansion == expansion &&
              r.value.groups == groups &&
              r.value.newFeatureSize * groups <= expansion * featureSize &&
              expansion * featureSize < (r.value.newFeatureSize + 1) * groups
    ensures r.Some? ==> NeXtVLADValid(r.value)
  {
    if groups == 0 then None
    else Some(NeXtVLAD(featureSize, clusterSize, outputSize, expansion, groups,
                       expansion * featureSize / groups))
  }

  /** What the constructor guarantees about a layer. */
  predicate NeXtVLADValid(v: NeXtVLAD)
  {
    v.groups != 0 && v.newFeatureSize == v.expansion * v.featureSize / v.groups
  }

  /** The intermediate tensors of the first half of the call: the expanded
      frames, the group attention and the cluster assignments. */
  datatype Assigned = Assigned(inputs: Shape, attention: Shape, activation: Shape)

  /** Lines 37-52: mask, expand, group attention, and cluster assignments
      regrouped to [B, N*G, C] and normalised over each group's C clusters.
      Batch normalisation keeps the shape and is not spelled out. */
  function NeXtVLADAssign(v: NeXtVLAD, x: Shape, n: nat, mask: Option<Shape>): Option<Assigned>
  {
    var g, c := v.groups, v.clusterSize;
    var w := v.expansion * v.featureSize;
    var masked :- MaskFrames(x, n, mask);
    var inputs :- Dense(masked, w);                  // expand_dense
    var att0 :- Dense(inputs, g);                    // attention_dense
    var attention :- Reshape(att0, Lead([n * g, 1]));
    var flat :- Reshape(inputs, Lead([w]));
    var act0 :- Dense(flat, g * c);                  // cluster_dense1
    var act1 :- Reshape(act0, Lead([n * g, c]));
    var act2 :- AlongAxis(act1, -1);                 // softmax
    Some(Assigned(inputs, attention, act2))
  }

  /** Lines 53-64: weight the assignments by the attention, subtract the
      cluster centres `a`, and aggregate the regrouped features into the VLAD
      tensor [B, F', C]. */
  function NeXtVLADAggregate(v: NeXtVLAD, n: nat, s: Assigned): Option<Shape>
  {
    var g, c, f := v.groups, v.clusterSize, v.newFeatureSize;
    var act3 :- Broadcast(s.activation, s.attention);
    var aSum :- Reduce(act3, -2, true);
    var a :- Broadcast(aSum, [1, f, c]);             // times cluster_weights2
    var actT :- Transpose(act3, [0, 2, 1]);
    var grouped :- Reshape(s.inputs, Lead([n * g, f]));
    var vlad0 :- MatMul(actT, grouped);
    var vlad1 :- Transpose(vlad0, [0, 2, 1]);
    Broadcast(vlad1, a)
  }

  /** The forward pass on frames `x` = [B, N, D] and optional frame counts;
      lines 65-68 normalise, flatten and project the VLAD tensor.  Dropout
      keeps the shape and is not spelled out. */
  function NeXtVLADCall(v: NeXtVLAD, x: Shape, mask: Option<Shape>): Option<Pooled>
  {
    if |x| != 3 then None
    else
      var s :- NeXtVLADAssign(v, x, x[1], mask);
      var vlad0 :- NeXtVLADAggregate(v, x[1], s);
      var vlad2 :- NeXtVLADFlatten(v, vlad0);
      var out :- Dense(vlad2, v.outputSize);           // fc
      Some(Pooled(AxisWidth(s.activation, -1), AxisWidth(vlad2, -1), out))
  }

  /** Lines 65-66: the VLAD tensor normalised and flattened to one
      descriptor per video. */
  function NeXtVLADFlatten(v: NeXtVLAD, vlad0: Shape): Option<Shape>
  {
    var vlad1 :- AlongAxis(vlad0, 1);                  // l2_normalize
    Reshape(vlad1, Lead([v.clusterSize * v.newFeatureSize]))
  }

  /** When `groups` does not divide the expanded width, a successful
      regrouping reshape invents a batch axis larger than the real one, and
      that only for batches larger than `new_feature_size` (so never for a
      batch of one). */
  lemma RegroupOverflow(b: nat, n: nat, w: nat, g: nat, f: nat)
    requires b >= 1 && n >= 1 && g >= 1 && f >= 1
    requires f == w / g && w % g != 0
    requires (b * n * w) % (n * g * f) == 0
    ensures b > f && (b * n * w) / (n * g * f) > b
  {
    var m := g * f;
    var k := n * g * f;
    var q := (b * n * w) / k;
    assert m < w < m + g by {
      assert w == g * f + w % g;
    }
    assert k == n * m;
    MulPos(n, m);
    assert q * k == b * n * w;
    assert q * m == b * w by {
      assert n * (q * m) == q * k;
      assert b * n * w == n * (b * w);
      MulCancel(n, q * m, b * w);
    }
    MulLeftStrict(b, m, w);
    assert q > b by {
      assert (q - b) * m == q * m - b * m;
      MulMono(q - b, m);
    }
    assert q * m >= b * m + m by {
      assert (q - b) * m == q * m - b * m;
      MulMono(q - b, m);
    }
    MulLeftStrict(b, w, m + g);
    assert b * (m + g) == b * m + b * g;
    assert g * f < g * b;
    assert (b - f) * g == g * b - g * f;
    MulMono(b - f, g);
  }

  lemma NeXtVLADAssignAccepts(v: NeXtVLAD, b: nat, n: nat, d: nat, mask: Option<Shape>)
    requires NeXtVLADValid(v)
    requires mask == None || mask == Some([b])
    requires n >= 1 && v.clusterSize >= 1 && v.expansion * v.featureSize >= 1
    ensures NeXtVLADAssign(v, [b, n, d], n, mask) ==
            Some(Assigned([b, n, v.expansion * v.featureSize], [b, n * v.groups, 1],
                          [b, n * v.groups, v.clusterSize]))
  {
    var g, c := v.groups, v.clusterSize;
    var w := v.expansion * v.featureSize;
    MaskFramesKeeps(b, n, d, mask);
    Dense3(b, n, d, w);
    Dense3(b, n, w, g);
    AttentionRegroup(b, n, g);
    FrameRows(b, n, w);
    Dense2(b * n, w, g * c);
    AssignmentRegroup(b, n, g, c);
  }

  /** The attention [B, N, G] regrouped to [B, N*G, 1]. */
  lemma AttentionRegroup(b: nat, n: nat, g: nat)
    requires n >= 1 && g >= 1
    ensures Reshape([b, n, g], Lead([n * g, 1])) == Some([b, n * g, 1])
  {
    MulPos(n, g);
    Product3(b, n, g);
    Product2(n * g, 1);
    ReshapeLeadExact([b, n, g], [n * g, 1], b);
    assert [b] + [n * g, 1] == [b, n * g, 1];
  }

  /** The expanded frames [B, N, W] as rows [B*N, W]. */
  lemma FrameRows(b: nat, n: nat, w: nat)
    requires w >= 1
    ensures Reshape([b, n, w], Lead([w])) == Some([b * n, w])
  {
    Product3(b, n, w);
    Product1(w);
    ReshapeLeadExact([b, n, w], [w], b * n);
    assert [b * n] + [w] == [b * n, w];
  }

  /** The assignments [B*N, G*C] regrouped to [B, N*G, C]. */
  lemma AssignmentRegroup(b: nat, n: nat, g: nat, c: nat)
    requires n >= 1 && g >= 1 && c >= 1
    ensures Reshape([b * n, g * c], Lead([n * g, c])) == Some([b, n * g, c])
  {
    MulPos(n, g);
    MulPos(n * g, c);
    Product2(b * n, g * c);
    Product2(n * g, c);
    assert b * n * (g * c) == b * (n * g * c);
    ReshapeLeadExact([b * n, g * c], [n * g, c], b);
    assert [b] + [n * g, c] == [b, n * g, c];
  }

  lemma NeXtVLADAggregateAccepts(v: NeXtVLAD, b: nat, n: nat)
    requires NeXtVLADValid(v)
    requires n >= 1 && v.clusterSize >= 1 && v.newFeatureSize >= 1
    requires (v.expansion * v.featureSize) % v.groups == 0
    ensures NeXtVLADAggregate(v, n, Assigned([b, n, v.expansion * v.featureSize], [b, n * v.groups, 1],
                                             [b, n * v.groups, v.clusterSize])) ==
            Some([b, v.newFeatureSize, v.clusterSize])
  {
    var g, c, f := v.groups, v.clusterSize, v.newFeatureSize;
    var w := v.expansion * v.featureSize;
    assert w == g * f;
    Broadcast3(b, n * g, c, b, n * g, 1);
    ReduceAxis1(b, n * g, c);
    Broadcast3(b, 1, c, 1, f, c);
    TransposeSwap12(b, n * g, c);
    RegroupDivides(b, n, w, g);
    assert MatMul([b, c, n * g], [b, n * g, f]) == Some([b, c, f]);
    TransposeSwap12(b, c, f);
    Broadcast3(b, f, c, b, f, c);
  }

  /** The shapes a NeXtVLAD call goes through when it succeeds: attention
      [B, N*G, 1], cluster assignments [B, N*G, C] normalised over the C
      clusters of each group, the VLAD tensor [B, F', C], flattened to
      C*F', and the output [B, output_size]. */
  lemma NeXtVLADAccepts(v: NeXtVLAD, b: nat, n: nat, d: nat, mask: Option<Shape>)
    requires NeXtVLADValid(v)
    requires mask == None || mask == Some([b])
    requires n >= 1 && v.clusterSize >= 1 && v.newFeatureSize >= 1
    requires (v.expansion * v.featureSize) % v.groups == 0
    ensures NeXtVLADCall(v, [b, n, d], mask) ==
            Some(Pooled(v.clusterSize, v.clusterSize * v.newFeatureSize, [b, v.outputSize]))
  {
    var c, f := v.clusterSize, v.newFeatureSize;
    var x := [b, n, d];
    MulPos(v.groups, f);
    MulPos(c, f);
    NeXtVLADAssignAccepts(v, b, n, d, mask);
    var s := Assigned([b, n, v.expansion * v.featureSize], [b, n * v.groups, 1], [b, n * v.groups, c]);
    assert NeXtVLADAssign(v, x, x[1], mask) == Some(s);
    NeXtVLADAggregateAccepts(v, b, n);
    assert NeXtVLADAggregate(v, x[1], s) == Some([b, f, c]);
    assert AlongAxis([b, f, c], 1) == Some([b, f, c]);
    VladFlatten(b, f, c, v.outputSize);
    assert AxisWidth(s.activation, -1) == c;
    assert AxisWidth([b, c * f], -1) == c * f;
  }

  lemma VladFlatten(b: nat, f: nat, c: nat, o: nat)
    requires c * f >= 1
    ensures Reshape([b, f, c], Lead([c * f])) == Some([b, c * f])
    ensures Dense([b, c * f], o) == Some([b, o])
  {
    Product3(b, f, c);
    Product1(c * f);
    assert b * f * c == b * (c * f);
    ReshapeLeadExact([b, f, c], [c * f], b);
    assert [b] + [c * f] == [b, c * f];
    Dense2(b, c * f, o);
  }

  lemma NeXtVLADAssignRejects(v: NeXtVLAD, b: nat, n: nat, d: nat, mask: Option<Shape>)
    requires NeXtVLADValid(v)
    requires mask == None || mask == Some([b])
    requires n == 0 || v.clusterSize == 0 || v.expansion * v.featureSize == 0
    ensures NeXtVLADAssign(v, [b, n, d], n, mask) == None
  {
    var g, c := v.groups, v.clusterSize;
    var w := v.expansion * v.featureSize;
    MaskFramesKeeps(b, n, d, mask);
    Dense3(b, n, d, w);
    Dense3(b, n, w, g);
    if n == 0 {
      Product2(n * g, 1);
      ReshapeLead([b, n, g], [n * g, 1]);
    } else {
      AttentionRegroup(b, n, g);
      if w == 0 {
        Product1(w);
        ReshapeLead([b, n, w], [w]);
      } else {
        FrameRows(b, n, w);
        Dense2(b * n, w, g * c);
        Product2(n * g, c);
        ReshapeLead([b * n, g * c], [n * g, c]);
      }
    }
  }

  lemma NeXtVLADAggregateRejects(v: NeXtVLAD, b: nat, n: nat)
    requires NeXtVLADValid(v)
    requires b >= 1 && n >= 1 && v.clusterSize >= 1
    requires v.newFeatureSize == 0 || (v.expansion * v.featureSize) % v.groups != 0
    ensures NeXtVLADAggregate(v, n, Assigned([b, n, v.expansion * v.featureSize], [b, n * v.groups, 1],
                                             [b, n * v.groups, v.clusterSize])) == None
  {
    var g, c, f := v.groups, v.clusterSize, v.newFeatureSize;
    var w := v.expansion * v.featureSize;
    MulPos(n, g);
    Broadcast3(b, n * g, c, b, n * g, 1);
    ReduceAxis1(b, n * g, c);
    Broadcast3(b, 1, c, 1, f, c);
    TransposeSwap12(b, n * g, c);
    Product3(b, n, w);
    Product2(n * g, f);
    ReshapeLead([b, n, w], [n * g, f]);
    if f >= 1 && (b * n * w) % (n * g * f) == 0 {
      RegroupOverflow(b, n, w, g, f);
      var q := (b * n * w) / (n * g * f);
      assert [q] + [n * g, f] == [q, n * g, f];
      assert MatMul([b, c, n * g], [q, n * g, f]) == None;
    }
  }

  /** A NeXtVLAD call on a non-empty batch fails exactly when one of the
      conditions the code keeps implicitly is broken: no frames, no
      clusters, a zero `new_feature_size`, or `groups` not dividing
      `expansion * feature_size` (the regrouping reshape at line 59). */
  lemma NeXtVLADRejects(v: NeXtVLAD, b: nat, n: nat, d: nat, mask: Option<Shape>)
    requires NeXtVLADValid(v)
    requires b >= 1
    requires mask == None || mask == Some([b])
    requires !(n >= 1 && v.clusterSize >= 1 && v.newFeatureSize >= 1 &&
               (v.expansion * v.featureSize) % v.groups == 0)
    ensures NeXtVLADCall(v, [b, n, d], mask) == None
  {
    var x := [b, n, d];
    if n == 0 || v.clusterSize == 0 || v.expansion * v.featureSize == 0 {
      NeXtVLADAssignRejects(v, b, n, d, mask);
      assert NeXtVLADAssign(v, x, x[1], mask) == None;
    } else {
      NeXtVLADAssignAccepts(v, b, n, d, mask);
      var s := Assigned([b, n, v.expansion * v.featureSize], [b, n * v.groups, 1],
                        [b, n * v.groups, v.clusterSize]);
      assert NeXtVLADAssign(v, x, x[1], mask) == Some(s);
      NeXtVLADAggregateRejects(v, b, n);
      assert NeXtVLADAggregate(v, x[1], s) == None;
    }
  }

  /** The two directions together: for a non-empty batch, NeXtVLAD yields
      [B, output_size] exactly under those conditions, with softmax width C
      and descriptor width C * new_feature_size. */
  lemma NeXtVLADShape(v: NeXtVLAD, b: nat, n: nat, d: nat, mask: Option<Shape>)
    requires NeXtVLADValid(v)
    requires b >= 1
    requires mask == None || mask == Some([b])
    ensures NeXtVLADCall(v, [b, n, d], mask) ==
            if n >= 1 && v.clusterSize >= 1 && v.newFeatureSize >= 1 &&
               (v.expansion * v.featureSize) % v.groups == 0
            then Some(Pooled(v.clusterSize, v.clusterSize * v.newFeatureSize, [b, v.outputSize]))
            else None
  {
    if n >= 1 && v.clusterSize >= 1 && v.newFeatureSize >= 1 &&
       (v.expansion * v.featureSize) % v.groups == 0 {
      NeXtVLADAccepts(v, b, n, d, mask);
    } else {
      NeXtVLADRejects(v, b, n, d, mask);
    }
  }

  /** The regrouping reshape of line 59 keeps the batch size exactly when
      `groups` divides `expansion * feature_size`. */
  lemma RegroupKeepsBatch(b: nat, n: nat, w: nat, g: nat)
    requires b >= 1 && n >= 1 && g >= 1 && w / g >= 1
    ensures Reshape([b, n, w], Lead([n * g, w / g])) == Some([b, n * g, w / g]) <==> w % g == 0
  {
    if w % g == 0 {
      RegroupDivides(b, n, w, g);
    } else {
      RegroupMisses(b, n, w, g);
    }
  }

  lemma RegroupDivides(b: nat, n: nat, w: nat, g: nat)
    requires n >= 1 && g >= 1 && w / g >= 1 && w % g == 0
    ensures Reshape([b, n, w], Lead([n * g, w / g])) == Some([b, n * g, w / g])
  {
    var f := w / g;
    MulPos(n, g);
    MulPos(n * g, f);
    Product3(b, n, w);
    Product2(n * g, f);
    assert w == g * f;
    assert b * n * w == b * (n * g * f);
    ReshapeLeadExact([b, n, w], [n * g, f], b);
    assert [b] + [n * g, f] == [b, n * g, f];
  }

  lemma RegroupMisses(b: nat, n: nat, w: nat, g: nat)
    requires b >= 1 && n >= 1 && g >= 1 && w / g >= 1 && w % g != 0
    ensures Reshape([b, n, w], Lead([n * g, w / g])) != Some([b, n * g, w / g])
  {
    var f := w / g;
    MulPos(n, g);
    MulPos(n * g, f);
    Product3(b, n, w);
    Product2(n * g, f);
    ReshapeLead([b, n, w], [n * g, f]);
    if (b * n * w) % (n * g * f) == 0 {
      RegroupOverflow(b, n, w, g, f);
    }
  }

  // ---------------------------------------------------------------------
  // SoftDBoF

  /** A SoftDBoF layer.  Its `cluster_weights2` of shape (2, F, C) is built
      but never read by the call, so it is not part of this record. */
  datatype SoftDBoF = SoftDBoF(featureSize: nat, clusterSize: nat, outputSize: nat)

  /** Lines 98-103: project frames to F and softly assign each frame to C
      clusters.  Batch normalisation keeps the shape. */
  function SoftDBoFAssign(p: SoftDBoF, x: Shape, n: nat, mask: Option<Shape>): Option<Shape>
  {
    var masked :- MaskFrames(x, n, mask);
    var e :- Dense(masked, p.featureSize);           // dense
    var flat :- Reshape(e, Lead([p.featureSize]));
    var act0 :- Dense(flat, p.clusterSize);          // cluster_dense1
    AlongAxis(act0, -1)                              // softmax
  }

  /** Lines 91-112: the assignments regrouped per video, sum-pooled and
      max-pooled over frames, and the two concatenated.  Dropout keeps the
      shape. */
  function SoftDBoFCall(p: SoftDBoF, x: Shape, mask: Option<Shape>): Option<Pooled>
  {
    if |x| != 3 then None
    else
      var act1 :- SoftDBoFAssign(p, x, x[1], mask);
      var act2 :- Reshape(act1, Lead([x[1], p.clusterSize]));
      var sum0 :- Reduce(act2, 1, false);
      var sum1 :- AlongAxis(sum0, 1);                  // l2_normalize
      var max0 :- Reduce(act2, 1, false);
      var max1 :- AlongAxis(max0, 1);                  // l2_normalize
      var pooled :- Concat([sum1, max1], 1);
      var out :- Dense(pooled, p.outputSize);          // fc
      Some(Pooled(AxisWidth(act1, -1), AxisWidth(pooled, -1), out))
  }

  lemma Reduce3(a: nat, b: nat, c: nat)
    ensures Reduce([a, b, c], 1, false) == Some([a, c])
    ensures AlongAxis([a, c], 1) == Some([a, c])
  {
    ReduceAxis1(a, b, c);
  }

  lemma SoftDBoFAssignShape(p: SoftDBoF, b: nat, n: nat, d: nat, mask: Option<Shape>)
    requires mask == None || mask == Some([b])
    ensures SoftDBoFAssign(p, [b, n, d], n, mask) ==
            if p.featureSize >= 1 then Some([b * n, p.clusterSize]) else None
  {
    var f, c := p.featureSize, p.clusterSize;
    MaskFramesKeeps(b, n, d, mask);
    Dense3(b, n, d, f);
    Product3(b, n, f);
    Product1(f);
    if f == 0 {
      ReshapeLead([b, n, f], [f]);
    } else {
      ReshapeLeadExact([b, n, f], [f], b * n);
      assert [b * n] + [f] == [b * n, f];
      Dense2(b * n, f, c);
      assert AlongAxis([b * n, c], -1) == Some([b * n, c]);
    }
  }

  /** SoftDBoF yields [B, output_size] exactly when it has features, frames
      and clusters; it normalises over the C clusters and its pooled
      descriptor (sum-pool next to max-pool) has width 2 * C. */
  lemma SoftDBoFShape(p: SoftDBoF, b: nat, n: nat, d: nat, mask: Option<Shape>)
    requires mask == None || mask == Some([b])
    ensures SoftDBoFCall(p, [b, n, d], mask) ==
            if p.featureSize >= 1 && n >= 1 && p.clusterSize >= 1
            then Some(Pooled(p.clusterSize, 2 * p.clusterSize, [b, p.outputSize]))
            else None
  {
    var c := p.clusterSize;
    var x := [b, n, d];
    if p.featureSize >= 1 && n >= 1 && c >= 1 {
      SoftDBoFAccepts(p, b, n, d, mask);
    } else {
      SoftDBoFAssignShape(p, b, n, d, mask);
      assert SoftDBoFAssign(p, x, x[1], mask) == SoftDBoFAssign(p, [b, n, d], n, mask);
      if p.featureSize >= 1 {
        Product2(b * n, c);
        Product2(n, c);
        ReshapeLead([b * n, c], [n, c]);
      }
    }
  }

  lemma SoftDBoFAccepts(p: SoftDBoF, b: nat, n: nat, d: nat, mask: Option<Shape>)
    requires mask == None || mask == Some([b])
    requires p.featureSize >= 1 && n >= 1 && p.clusterSize >= 1
    ensures SoftDBoFCall(p, [b, n, d], mask) == Some(Pooled(p.clusterSize, 2 * p.clusterSize, [b, p.outputSize]))
  {
    var c := p.clusterSize;
    var x := [b, n, d];
    SoftDBoFAssignShape(p, b, n, d, mask);
    assert SoftDBoFAssign(p, x, x[1], mask) == Some([b * n, c]);
    Product2(b * n, c);
    Product2(n, c);
    MulPos(n, c);
    assert b * n * c == b * (n * c);
    ReshapeLeadExact([b * n, c], [n, c], b);
    assert [b] + [n, c] == [b, n, c];
    Reduce3(b, n, c);
    ConcatPair2(b, c, c);
    Dense2(b, c + c, p.outputSize);
    assert AxisWidth([b * n, c], -1) == c;
    assert AxisWidth([b, c + c], -1) == 2 * c;
  }

  // ---------------------------------------------------------------------
  // NextSoftDBoF

  /** A NextSoftDBoF layer; `groups` defaults to 4 and `expansion` to 2. */
  datatype NextSoftDBoF = NextSoftDBoF(featureSize: nat, clusterSize: nat, outputSize: nat,
                                       groups: nat, expansion: nat)

  /** Lines 146-147: one attention weight per frame and group, laid out as
      [B, N*G, 1]. */
  function GroupAttention(e: Shape, n: nat, g: nat): Option<Shape>
  {
    var att0 :- Dense(e, g);                         // attention_dense
    Reshape(att0, Lead([n * g, 1]))
  }

  lemma GroupAttentionShape(b: nat, n: nat, w: nat, g: nat)
    ensures GroupAttention([b, n, w], n, g) ==
            if n >= 1 && g >= 1 then Some([b, n * g, 1]) else None
  {
    Dense3(b, n, w, g);
    Product3(b, n, g);
    Product2(n * g, 1);
    if n == 0 || g == 0 {
      ReshapeLead([b, n, g], [n * g, 1]);
    } else {
      MulPos(n, g);
      ReshapeLeadExact([b, n, g], [n * g, 1], b);
      assert [b] + [n * g, 1] == [b, n * g, 1];
    }
  }

  /** Lines 143-151: expand frames, compute the group attention
      [B, N*G, 1], and softly assign each frame to G*C group-clusters; the
      softmax runs over all G*C columns, before any regrouping.  Batch
      normalisation keeps the shape. */
  function NextSoftDBoFAttend(p: NextSoftDBoF, x: Shape, n: nat, mask: Option<Shape>): Option<Assigned>
  {
    var g := p.groups;
    var w := p.expansion * p.featureSize;
    var masked :- MaskFrames(x, n, mask);
    var e :- Dense(masked, w);                       // expand_dense
    var flat :- Reshape(e, Lead([w]));
    var attention :- GroupAttention(e, n, g);
    var act0 :- Dense(flat, g * p.clusterSize);      // cluster_dense1
    var act1 :- AlongAxis(act0, -1);                 // softmax
    Some(Assigned(flat, attention, act1))
  }

  /** Lines 153-156: the assignments regrouped to [B, N*G, C], weighted by
      the attention and sum-pooled over frames and groups into the
      descriptor, then normalised. */
  function NextSoftDBoFPool(p: NextSoftDBoF, s: Assigned, n: nat): Option<Shape>
  {
    var act2 :- Reshape(s.activation, Lead([n * p.groups, p.clusterSize]));
    var act3 :- Broadcast(act2, s.attention);
    var sum0 :- Reduce(act3, 1, false);
    AlongAxis(sum0, 1)                               // l2_normalize
  }

  /** Lines 136-163: attention and soft assignment, pooling, and the final
      projection.  Dropout keeps the shape. */
  function NextSoftDBoFCall(p: NextSoftDBoF, x: Shape, mask: Option<Shape>): Option<Pooled>
  {
    if |x| != 3 then None
    else
      var s :- NextSoftDBoFAttend(p, x, x[1], mask);
      var sum1 :- NextSoftDBoFPool(p, s, x[1]);
      var out :- Dense(sum1, p.outputSize);            // fc
      Some(Pooled(AxisWidth(s.activation, -1), AxisWidth(sum1, -1), out))
  }

  lemma NextSoftDBoFPoolShape(p: NextSoftDBoF, b: nat, n: nat, w: nat)
    requires n >= 1 && p.groups >= 1
    ensures NextSoftDBoFPool(p, Assigned([b * n, w], [b, n * p.groups, 1],
                                         [b * n, p.groups * p.clusterSize]), n) ==
            if p.clusterSize >= 1 then Some([b, p.clusterSize]) else None
  {
    var g, c := p.groups, p.clusterSize;
    Product2(b * n, g * c);
    Product2(n * g, c);
    if c == 0 {
      ReshapeLead([b * n, g * c], [n * g, c]);
    } else {
      MulPos(n, g);
      MulPos(n * g, c);
      assert b * n * (g * c) == b * (n * g * c);
      ReshapeLeadExact([b * n, g * c], [n * g, c], b);
      assert [b] + [n * g, c] == [b, n * g, c];
      Broadcast3(b, n * g, c, b, n * g, 1);
      Reduce3(b, n * g, c);
    }
  }

  lemma NextSoftDBoFAttendShape(p: NextSoftDBoF, b: nat, n: nat, d: nat, mask: Option<Shape>)
    requires mask == None || mask == Some([b])
    ensures NextSoftDBoFAttend(p, [b, n, d], n, mask) ==
            if p.expansion * p.featureSize >= 1 && n >= 1 && p.groups >= 1
            then Some(Assigned([b * n, p.expansion * p.featureSize], [b, n * p.groups, 1],
                               [b * n, p.groups * p.clusterSize]))
            else None
  {
    var w := p.expansion * p.featureSize;
    if w == 0 {
      MaskFramesKeeps(b, n, d, mask);
      Dense3(b, n, d, w);
      Product3(b, n, w);
      Product1(w);
      ReshapeLead([b, n, w], [w]);
    } else {
      NextSoftDBoFAttendWide(p, b, n, d, mask);
    }
  }

  lemma NextSoftDBoFAttendWide(p: NextSoftDBoF, b: nat, n: nat, d: nat, mask: Option<Shape>)
    requires mask == None || mask == Some([b])
    requires p.expansion * p.featureSize >= 1
    ensures NextSoftDBoFAttend(p, [b, n, d], n, mask) ==
            if n >= 1 && p.groups >= 1
            then Some(Assigned([b * n, p.expansion * p.featureSize], [b, n * p.groups, 1],
                               [b * n, p.groups * p.clusterSize]))
            else None
  {
    var g, c := p.groups, p.clusterSize;
    var w := p.expansion * p.featureSize;
    MaskFramesKeeps(b, n, d, mask);
    Dense3(b, n, d, w);
    Product3(b, n, w);
    Product1(w);
    ReshapeLeadExact([b, n, w], [w], b * n);
    assert [b * n] + [w] == [b * n, w];
    GroupAttentionShape(b, n, w, g);
    if n >= 1 && g >= 1 {
      Dense2(b * n, w, g * c);
      assert AlongAxis([b * n, g * c], -1) == Some([b * n, g * c]);
    }
  }

  /** NextSoftDBoF yields [B, output_size] exactly when the expanded width,
      the frames, the groups and the clusters are all non-empty; unlike
      NeXtVLAD its softmax runs over G * C columns and its pooled width is C. */
  lemma NextSoftDBoFShape(p: NextSoftDBoF, b: nat, n: nat, d: nat, mask: Option<Shape>)
    requires mask == None || mask == Some([b])
    ensures NextSoftDBoFCall(p, [b, n, d], mask) ==
            if p.expansion * p.featureSize >= 1 && n >= 1 && p.groups >= 1 && p.clusterSize >= 1
            then Some(Pooled(p.groups * p.clusterSize, p.clusterSize, [b, p.outputSize]))
            else None
  {
    var g, c := p.groups, p.clusterSize;
    var w := p.expansion * p.featureSize;
    var x := [b, n, d];
    NextSoftDBoFAttendShape(p, b, n, d, mask);
    assert NextSoftDBoFAttend(p, x, x[1], mask) == NextSoftDBoFAttend(p, [b, n, d], n, mask);
    if w >= 1 && n >= 1 && g >= 1 {
      NextSoftDBoFPoolShape(p, b, n, w);
      if c >= 1 {
        Dense2(b, c, p.outputSize);
        assert AxisWidth([b * n, g * c], -1) == g * c;
        assert AxisWidth([b, c], -1) == c;
      }
    }
  }

  // ---------------------------------------------------------------------
  // SENet and ConcatDenseSE

  /** A constructed SENet: `channels` and the squeezed width
      `channels // ratio` of its first dense layer. */
  datatype SENet = SENet(channels: nat, squeezed: nat)

  /** Lines 182-187: the squeezed width is the floor of channels / ratio;
      a ratio of 0 raises. */
  function NewSENet(channels: nat, ratio: nat): (r: Option<SENet>)
    ensures r.Some? <==> ratio != 0
    ensures r.Some? ==> r.value.channels == channels &&
                        r.value.squeezed * ratio <= channels < (r.value.squeezed + 1) * ratio
  {
    if ratio == 0 then None else Some(SENet(channels, channels / ratio))
  }

  /** Lines 189-192: squeeze to `squeezed`, excite back to `channels`, and
      gate the input element-wise. */
  function SENetCall(p: SENet, x: Shape): Option<Shape>
  {
    var se1 :- Dense(x, p.squeezed);
    var se2 :- Dense(se1, p.channels);
    Broadcast(x, se2)
  }

  /** Gating keeps the shape of an input whose last axis has `channels`
      entries, and rejects inputs of rank below 2. */
  lemma SENetKeepsShape(p: SENet, x: Shape)
    ensures |x| < 2 ==> SENetCall(p, x) == None
    ensures |x| >= 2 && x[|x| - 1] == p.channels ==> SENetCall(p, x) == Some(x)
  {
    if |x| >= 2 && x[|x| - 1] == p.channels {
      var se2 := Dense(Dense(x, p.squeezed).value, p.channels).value;
      assert se2 == x;
      BroadcastSelf(x);
    }
  }

  /** A constructed ConcatDenseSE: the fusion width and its SENet. */
  datatype ConcatDenseSE = ConcatDenseSE(hiddenSize: nat, enhance: SENet)

  /** Lines 198-202: the SENet gets `channels = hidden_size`. */
  function NewConcatDenseSE(hiddenSize: nat, seRatio: nat): (r: Option<ConcatDenseSE>)
    ensures r.Some? <==> seRatio != 0
    ensures r.Some? ==> r.value.hiddenSize == hiddenSize && r.value.enhance.channels == hiddenSize
  {
    var se :- NewSENet(hiddenSize, seRatio);
    Some(ConcatDenseSE(hiddenSize, se))
  }

  /** Lines 204-210: concatenate the embeddings on axis 1, fuse to
      `hidden_size` and gate.  Dropout keeps the shape. */
  function ConcatDenseSECall(p: ConcatDenseSE, inputs: seq<Shape>): Option<Shape>
  {
    var e :- Concat(inputs, 1);
    var f :- Dense(e, p.hiddenSize);
    SENetCall(p.enhance, f)
  }

  /** Fusing one or more [B, w_i] embeddings yields [B, hidden_size],
      whatever the widths; no list yields nothing. */
  lemma ConcatDenseSEShape(p: ConcatDenseSE, b: nat, ws: seq<nat>)
    requires p.enhance.channels == p.hiddenSize
    ensures ConcatDenseSECall(p, Rows(b, ws)) ==
            if |ws| >= 1 then Some([b, p.hiddenSize]) else None
  {
    if |ws| >= 1 {
      ConcatRows(b, ws);
      Dense2(b, Sum(ws), p.hiddenSize);
      SENetKeepsShape(p.enhance, [b, p.hiddenSize]);
    }
  }
}
