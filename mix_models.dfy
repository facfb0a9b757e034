/** The paired video-text models of `model_pair_mix_rank.py`, as functions
    from input shapes to output shapes.  Each model runs the same network on
    the two videos of a pair.  A side is: BERT's pooled text embedding
    mapped to 1024 features, a frame pooling layer whose output is zeroed
    for videos without frames, and a fusion of the two.  The mixture
    variants run several such branches and mix them with softmax weights
    computed from the mean frame (and, for most, the text embedding). */
module MixModels {
  import opened Wrappers
  import opened Shapes
  import opened Pooling

  /** Width of `bert_map`, the dense layer after BERT's pooled output. */
  const BertMapWidth: nat := 1024
  /** Width of the `fc_256_*` projections of `MultiModal_mix_1024`. */
  const ProjectionWidth: nat := 256

  // ---------------------------------------------------------------------
  // Frame pooling

  /** The frame pooling layer of a branch: NeXtVLAD, or NextSoftDBoF in
      `MultiModal_mix_nextsoft`. */
  datatype FramePool = VladPool(vlad: NeXtVLAD) | SoftPool(soft: NextSoftDBoF)

  predicate PoolValid(p: FramePool)
  {
    p.VladPool? ==> NeXtVLADValid(p.vlad)
  }

  /** The pooling layer's own condition on the number of frames and its
      configuration, as established in the Pooling module. */
  predicate PoolAccepts(p: FramePool, n: nat)
  {
    match p
    case VladPool(v) =>
      v.groups != 0 && n >= 1 && v.clusterSize >= 1 && v.newFeatureSize >= 1 &&
      (v.expansion * v.featureSize) % v.groups == 0
    case SoftPool(s) =>
      s.expansion * s.featureSize >= 1 && n >= 1 && s.groups >= 1 && s.clusterSize >= 1
  }

  /** `vlad_hidden_size`, the width of the pooled video embedding. */
  function PoolWidth(p: FramePool): nat
  {
    match p
    case VladPool(v) => v.outputSize
    case SoftPool(s) => s.outputSize
  }

  /** The pooling layer called on the frames with the frame counts. */
  function PoolCall(p: FramePool, frames: Shape, frameNum: Shape): Option<Pooled>
  {
    match p
    case VladPool(v) => NeXtVLADCall(v, frames, Some(frameNum))
    case SoftPool(s) => NextSoftDBoFCall(s, frames, Some(frameNum))
  }

  /** The video embedding of a branch: the pooled frames, multiplied by the
      [B, 1] indicator `frame_num > 0` so that a video without frames
      contributes zeros. */
  function Vision(p: FramePool, frames: Shape, frameNum: Shape): Option<Shape>
  {
    var pooled :- PoolCall(p, frames, frameNum);
    var indicator :- ExpandDims(frameNum, -1);
    Broadcast(pooled.output, indicator)
  }

  /** On [B, N, D] frames with one count per video, a branch's video
      embedding is [B, vlad_hidden_size] exactly when the pooling layer
      accepts the frames; the indicator never changes the shape. */
  lemma VisionShape(p: FramePool, b: nat, n: nat, d: nat)
    requires PoolValid(p) && b >= 1
    ensures Vision(p, [b, n, d], [b]) == if PoolAccepts(p, n) then Some([b, PoolWidth(p)]) else None
  {
    PoolCallShape(p, b, n, d);
    ExpandLast1(b);
    if PoolAccepts(p, n) {
      Broadcast2(b, PoolWidth(p), b, 1);
    }
  }

  /** The pooling layer alone gives [B, vlad_hidden_size] when it accepts. */
  lemma PoolCallShape(p: FramePool, b: nat, n: nat, d: nat)
    requires PoolValid(p) && b >= 1
    ensures PoolCall(p, [b, n, d], [b]).Some? <==> PoolAccepts(p, n)
    ensures PoolAccepts(p, n) ==> PoolCall(p, [b, n, d], [b]).value.output == [b, PoolWidth(p)]
  {
    match p
    case VladPool(v) => NeXtVLADShape(v, b, n, d, Some([b]));
    case SoftPool(s) => NextSoftDBoFShape(s, b, n, d, Some([b]));
  }

  // ---------------------------------------------------------------------
  // Mixture weights and mixing

  /** The gate of a mixture: its input (the mean frame, concatenated with
      the mapped text embedding when `withText`) and the softmax weights
      over the branches. */
  datatype Gate = Gate(input: Shape, weights: Shape)

  /** `reduce_mean(frames, axis=1)`, optionally concatenated with the text
      embedding, batch-normalised (shape kept), through `mix_weights =
      Dense(units)` and a softmax over the last axis. */
  function MixGate(frames: Shape, text: Shape, withText: bool, units: nat): Option<Gate>
  {
    var mean :- Reduce(frames, 1, false);
    var input :- if withText then Concat([mean, text], 1) else Some(mean);
    var logits :- Dense(input, units);
    var weights :- AlongAxis(logits, -1);
    Some(Gate(input, weights))
  }

  /** On [B, N, D] frames and a [B, 1024] text embedding the gate sees
      D + 1024 features with the text and D without, and gives [B, units]
      weights. */
  lemma GateShape(b: nat, n: nat, d: nat, withText: bool, units: nat)
    ensures MixGate([b, n, d], [b, BertMapWidth], withText, units) ==
            Some(Gate([b, if withText then d + BertMapWidth else d], [b, units]))
  {
    ReduceAxis1(b, n, d);
    if withText {
      ConcatPair2(b, d, BertMapWidth);
      Dense2(b, d + BertMapWidth, units);
    } else {
      Dense2(b, d, units);
    }
  }

  /** Weighted sum of branch tensors: the tensors are stacked on axis 1,
      multiplied by the [B, K, 1] weights and summed over the branches. */
  function Mix(weights: Shape, parts: seq<Shape>): Option<Shape>
  {
    var stacked :- Stack(parts, 1);
    var w :- ExpandDims(weights, -1);
    var weighted :- Broadcast(w, stacked);
    Reduce(weighted, 1, false)
  }

  /** Mixing n copies of a [B, W] tensor with [B, K] weights gives [B, W]
      when there is at least one branch and K broadcasts against n; with
      no branch `tf.stack` fails. */
  lemma MixShape(b: nat, k: nat, n: nat, width: nat)
    ensures Mix([b, k], seq(n, _ => [b, width])) ==
            if n >= 1 && Compatible(k, n) then Some([b, width]) else None
  {
    if n >= 1 {
      StackCopies([b, width], n);
      ExpandLast2(b, k);
      Broadcast3(b, k, 1, b, n, width);
      if Compatible(k, n) {
        ReduceAxis1(b, Join(k, n), width);
      }
    }
  }

  // ---------------------------------------------------------------------
  // The models

  /** `MultiModal` (no mixture) and the five mixture variants. */
  datatype MixClass = Plain | Mix2 | MixRank | Mix5 | Mix1024 | MixNextSoft

  /** A constructed model: every branch has the same pooling and fusion
      configuration, and the classifiers have `num_labels` units. */
  datatype MixModel = MixModel(cls: MixClass, pool: FramePool, fusion: ConcatDenseSE, numLabels: nat)

  /** The layers every constructor builds: NextSoftDBoF pooling exactly in
      `MultiModal_mix_nextsoft`, and fusion layers whose SENet gates
      `hidden_size` channels. */
  predicate ModelValid(m: MixModel)
  {
    PoolValid(m.pool) && (m.pool.SoftPool? <==> m.cls == MixNextSoft) &&
    m.fusion.enhance.channels == m.fusion.hiddenSize
  }

  /** Number of branches, which is also the number of `mix_weights` units. */
  function Branches(c: MixClass): nat
  {
    match c
    case Plain => 1
    case Mix5 => 5
    case Mix2 | MixRank | Mix1024 | MixNextSoft => 3
  }

  /** One of a model's outputs: a tensor, or a Python list of tensors. */
  datatype Output = Tensor(shape: Shape) | TensorList(shapes: seq<Shape>)

  /** One video's inputs: frames [B, N, D], frame counts and BERT's pooled
      text output. */
  datatype Side = Side(frames: Shape, numFrames: Shape, textPooled: Shape)

  /** What the model returns for one side, in the order of its return
      statement (the two sides' values are interleaved there). */
  function SideOutputs(m: MixModel, s: Side): (r: Option<seq<Output>>)
    ensures r.Some? ==> |r.value| == SideArity(m.cls)
  {
    var text :- Dense(s.textPooled, BertMapWidth);
    var frameNum :- Reshape(s.numFrames, [Infer]);
    ClassOutputs(m, s.frames, text, frameNum)
  }

  /** The class-specific part of a side, after the text embedding and the
      flattened frame counts. */
  function ClassOutputs(m: MixModel, frames: Shape, text: Shape, frameNum: Shape): (r: Option<seq<Output>>)
    ensures r.Some? ==> |r.value| == SideArity(m.cls)
  {
    var k := Branches(m.cls);
    match m.cls
    case Plain =>
      var final :- Fused(m, frames, text, frameNum);
      var pred :- Dense(final, m.numLabels);
      Some([Tensor(final), Tensor(pred)])
    case Mix2 =>
      var gate :- MixGate(frames, text, false, k);
      var vision :- Vision(m.pool, frames, frameNum);
      var mixed :- Mix(gate.weights, seq(k, _ => vision));
      var final :- ConcatDenseSECall(m.fusion, [mixed, text]);
      var pred :- Dense(final, m.numLabels);
      Some([Tensor(final), Tensor(pred)])
    case MixRank =>
      var gate :- MixGate(frames, text, true, k);
      var final :- Fused(m, frames, text, frameNum);
      var mixed :- Mix(gate.weights, seq(k, _ => final));
      Some([Tensor(mixed)])
    case Mix5 | Mix1024 | MixNextSoft =>
      MixtureOutputs(m, frames, text, frameNum)
  }

  /** A branch's fused vector: its video embedding and the text embedding
      through the ConcatDenseSE fusion layer. */
  function Fused(m: MixModel, frames: Shape, text: Shape, frameNum: Shape): Option<Shape>
  {
    var vision :- Vision(m.pool, frames, frameNum);
    ConcatDenseSECall(m.fusion, [vision, text])
  }

  /** A side of `MultiModal_mix5`, `MultiModal_mix_1024` and
      `MultiModal_mix_nextsoft`: every branch classifies, and the side
      returns the mixed embedding, the mixed logits and the branches'
      logits. */
  function MixtureOutputs(m: MixModel, frames: Shape, text: Shape, frameNum: Shape): (r: Option<seq<Output>>)
    ensures r.Some? ==> |r.value| == 3
  {
    var gate :- MixGate(frames, text, true, Branches(m.cls));
    var final :- Fused(m, frames, text, frameNum);
    MixtureHead(m.cls, m.numLabels, gate.weights, final)
  }

  /** The heads of a mixture side on the fused vector: the classifier
      logits, the embedding, and both mixed with the gate's weights.  The
      second and third values stand for the predictions `pred` and
      `aux_preds`, the sigmoids of the mixed and per-branch logits, which
      have the logits' shapes. */
  function MixtureHead(c: MixClass, numLabels: nat, weights: Shape, final: Shape): (r: Option<seq<Output>>)
    ensures r.Some? ==> |r.value| == 3
  {
    var k := Branches(c);
    var logits :- Dense(final, numLabels);
    var embedding :- EmbeddingHead(c, final);
    var mixLogit :- Mix(weights, seq(k, _ => logits));
    var mixEmbedding :- Mix(weights, seq(k, _ => embedding));
    Some([Tensor(mixEmbedding), Tensor(mixLogit), TensorList(seq(k, _ => logits))])
  }

  /** The per-branch embedding: `MultiModal_mix_1024` projects the fused
      vector with its `fc_256_k` layers, the other classes mix it as it
      is. */
  function EmbeddingHead(c: MixClass, final: Shape): Option<Shape>
  {
    if c == Mix1024 then Dense(final, ProjectionWidth) else Some(final)
  }

  /** How many values a side contributes to the return statement. */
  function SideArity(c: MixClass): nat
  {
    match c
    case Plain => 2
    case Mix2 => 2
    case MixRank => 1
    case Mix5 | Mix1024 | MixNextSoft => 3
  }

  /** The values of the return statement, taken in turn from each side:
      `a_1, a_2, b_1, b_2, ...`. */
  function Interleave(a: seq<Output>, b: seq<Output>): (r: seq<Output>)
    requires |a| == |b|
    ensures |r| == 2 * |a|
    ensures forall i :: 0 <= i < |a| ==> r[2 * i] == a[i] && r[2 * i + 1] == b[i]
  {
    if a == [] then [] else [a[0], b[0]] + Interleave(a[1..], b[1..])
  }

  /** Two values per side come out as `a_1, b_1, a_2, b_2`. */
  lemma InterleavePairs(a1: Output, a2: Output, b1: Output, b2: Output)
    ensures Interleave([a1, a2], [b1, b2]) == [a1, b1, a2, b2]
  {
    assert [a1, a2][1..] == [a2];
    assert [b1, b2][1..] == [b2];
    assert Interleave([a2], [b2]) == [a2, b2];
  }

  /** The two videos go through the same layer objects.  A Keras `Dense`
      fixes the width of its input's last axis when it is first built, so
      the second video must bring frames and a text embedding as wide as
      the first one's: `expand_dense`, the gate and `bert_map` refuse any
      other width. */
  predicate SharedWidths(s1: Side, s2: Side)
  {
    SameLastAxis(s1.frames, s2.frames) && SameLastAxis(s1.textPooled, s2.textPooled)
  }

  /** A model's `call` on a pair of videos: the first video, then the
      second through the layers the first one built. */
  function MixCall(m: MixModel, s1: Side, s2: Side): (r: Option<seq<Output>>)
    ensures r.Some? ==> |r.value| == 2 * SideArity(m.cls)
  {
    var o1 :- SideOutputs(m, s1);
    if !SharedWidths(s1, s2) then None
    else
      var o2 :- SideOutputs(m, s2);
      Some(Interleave(o1, o2))
  }

  /** The shapes each side's outputs are documented to have, for a batch
      of B videos: the fused or mixed embedding ([B, hidden_size], or
      [B, 256] after `fc_256`), the predictions [B, num_labels], and the
      per-branch predictions. */
  function ExpectedSide(m: MixModel, b: nat): seq<Output>
  {
    var h, l := m.fusion.hiddenSize, m.numLabels;
    match m.cls
    case Plain => [Tensor([b, h]), Tensor([b, l])]
    case Mix2 => [Tensor([b, h]), Tensor([b, l])]
    case MixRank => [Tensor([b, h])]
    case Mix1024 => [Tensor([b, ProjectionWidth]), Tensor([b, l]), TensorList(seq(3, _ => [b, l]))]
    case Mix5 | MixNextSoft => [Tensor([b, h]), Tensor([b, l]), TensorList(seq(Branches(m.cls), _ => [b, l]))]
  }

  /** A side of B >= 1 videos with [B, N, D] frames, frame counts holding B
      entries in any shape, and a [B, W] pooled text output succeeds
      exactly when the pooling layer accepts the frames, and then has the
      expected shapes. */
  lemma SideShape(m: MixModel, b: nat, n: nat, d: nat, w: nat, numFrames: Shape)
    requires ModelValid(m) && b >= 1 && Product(numFrames) == b
    ensures SideOutputs(m, Side([b, n, d], numFrames, [b, w])) ==
            if PoolAccepts(m.pool, n) then Some(ExpectedSide(m, b)) else None
  {
    Dense2(b, w, BertMapWidth);
    FlattenAll(numFrames);
    ClassOutputsShape(m, b, n, d);
  }

  lemma ClassOutputsShape(m: MixModel, b: nat, n: nat, d: nat)
    requires ModelValid(m) && b >= 1
    ensures ClassOutputs(m, [b, n, d], [b, BertMapWidth], [b]) ==
            if PoolAccepts(m.pool, n) then Some(ExpectedSide(m, b)) else None
  {
    var k := Branches(m.cls);
    var h, l := m.fusion.hiddenSize, m.numLabels;
    GateShape(b, n, d, m.cls != Mix2, k);
    match m.cls
    case Plain =>
      FusedShape(m, b, n, d);
      Dense2(b, h, l);
    case Mix2 =>
      VisionShape(m.pool, b, n, d);
      if PoolAccepts(m.pool, n) {
        var o := PoolWidth(m.pool);
        MixShape(b, k, k, o);
        assert Rows(b, [o, BertMapWidth]) == [[b, o], [b, BertMapWidth]];
        ConcatDenseSEShape(m.fusion, b, [o, BertMapWidth]);
        Dense2(b, h, l);
      }
    case MixRank =>
      FusedShape(m, b, n, d);
      MixShape(b, k, k, h);
    case Mix5 | Mix1024 | MixNextSoft =>
      if PoolAccepts(m.pool, n) {
        MixtureShape(m, b, n, d);
      } else {
        FusedShape(m, b, n, d);
      }
  }

  /** A branch's fused vector is [B, hidden_size] exactly when the pooling
      layer accepts the frames. */
  lemma FusedShape(m: MixModel, b: nat, n: nat, d: nat)
    requires ModelValid(m) && b >= 1
    ensures Fused(m, [b, n, d], [b, BertMapWidth], [b]) ==
            if PoolAccepts(m.pool, n) then Some([b, m.fusion.hiddenSize]) else None
  {
    VisionShape(m.pool, b, n, d);
    if PoolAccepts(m.pool, n) {
      var o := PoolWidth(m.pool);
      assert Rows(b, [o, BertMapWidth]) == [[b, o], [b, BertMapWidth]];
      ConcatDenseSEShape(m.fusion, b, [o, BertMapWidth]);
    }
  }

  /** The three outputs of a mixture side when the pooling layer accepts
      the frames. */
  lemma MixtureShape(m: MixModel, b: nat, n: nat, d: nat)
    requires ModelValid(m) && b >= 1 && PoolAccepts(m.pool, n)
    requires m.cls == Mix5 || m.cls == Mix1024 || m.cls == MixNextSoft
    ensures MixtureOutputs(m, [b, n, d], [b, BertMapWidth], [b]) == Some(ExpectedSide(m, b))
  {
    var k := Branches(m.cls);
    var h := m.fusion.hiddenSize;
    GateShape(b, n, d, true, k);
    FusedShape(m, b, n, d);
    MixtureHeadShape(m.cls, m.numLabels, b, h);
  }

  /** The heads give the mixed embedding (256 wide in
      `MultiModal_mix_1024`, `hidden_size` otherwise), the prediction
      `sigmoid(mix_logit)` and one sigmoid prediction per branch; a sigmoid
      keeps its logits' shape, so each prediction is [B, num_labels]. */
  lemma MixtureHeadShape(c: MixClass, l: nat, b: nat, h: nat)
    requires c == Mix5 || c == Mix1024 || c == MixNextSoft
    ensures MixtureHead(c, l, [b, Branches(c)], [b, h]) ==
            Some([Tensor(if c == Mix1024 then [b, ProjectionWidth] else [b, h]), Tensor([b, l]),
                  TensorList(seq(Branches(c), _ => [b, l]))])
  {
    var k := Branches(c);
    var width := if c == Mix1024 then ProjectionWidth else h;
    Dense2(b, h, l);
    Dense2(b, h, ProjectionWidth);
    assert EmbeddingHead(c, [b, h]) == Some([b, width]);
    MixShape(b, k, k, l);
    MixShape(b, k, k, width);
  }

  /** A pair of such sides: the call succeeds exactly when the pooling
      layer accepts both videos' frames and both videos bring frames and
      text of the same widths, and returns the two sides' expected outputs
      interleaved, 2, 4 or 6 values by model. */
  lemma MixCallShape(m: MixModel, b1: nat, n1: nat, d1: nat, w1: nat, numFrames1: Shape,
                     b2: nat, n2: nat, d2: nat, w2: nat, numFrames2: Shape)
    requires ModelValid(m) && b1 >= 1 && Product(numFrames1) == b1
    requires b2 >= 1 && Product(numFrames2) == b2
    ensures MixCall(m, Side([b1, n1, d1], numFrames1, [b1, w1]), Side([b2, n2, d2], numFrames2, [b2, w2])) ==
            if PoolAccepts(m.pool, n1) && PoolAccepts(m.pool, n2) && d1 == d2 && w1 == w2
            then Some(Interleave(ExpectedSide(m, b1), ExpectedSide(m, b2)))
            else None
  {
    SideShape(m, b1, n1, d1, w1, numFrames1);
    SideShape(m, b2, n2, d2, w2, numFrames2);
  }
}
