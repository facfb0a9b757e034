/** The paired models of `model_pair_add_tf.py`, as functions from input
    shapes to output shapes: `MultiModal`, which adds a video transformer
    beside NeXtVLAD, and `MultiModalV2`, which encodes the frames and the
    text tokens as one joint sequence.  The transformer encoders are
    external layers and appear only through the shapes they produce. */
module JointModels {
  import opened Wrappers
  import opened Shapes
  import opened Pooling
  import opened MixModels

  // ---------------------------------------------------------------------
  // MultiModal with a video transformer

  /** `Video_transformer`, known only by its output: a sequence of
      `length` vectors of `width` features per video (its second result is
      discarded).  Its source is not part of this model, so it is assumed
      to accept any rank-3 [B, N, D], whatever N. */
  datatype VideoTransformer = VideoTransformer(length: nat, width: nat)

  function VideoTransformerCall(t: VideoTransformer, frames: Shape): Option<Shape>
  {
    if |frames| == 3 then Some([frames[0], t.length, t.width]) else None
  }

  /** The constructed layers: NeXtVLAD, the video transformer, a visual
      fusion of `vlad_hidden_size` channels and the final fusion. */
  datatype TransformerModel = TransformerModel(vlad: NeXtVLAD, videoTf: VideoTransformer,
                                               fusionVis: ConcatDenseSE, fusion: ConcatDenseSE,
                                               numLabels: nat)

  predicate TransformerModelValid(m: TransformerModel)
  {
    NeXtVLADValid(m.vlad) &&
    m.fusionVis.hiddenSize == m.vlad.outputSize &&
    m.fusionVis.enhance.channels == m.fusionVis.hiddenSize &&
    m.fusion.enhance.channels == m.fusion.hiddenSize
  }

  /** One video of the pair: the transformer's sequence is max-pooled over
      its positions, fused with the NeXtVLAD embedding, and that visual
      embedding is fused with the mapped text embedding. */
  function TransformerSide(m: TransformerModel, s: Side): (r: Option<seq<Output>>)
    ensures r.Some? ==> |r.value| == 2
  {
    var text :- Dense(s.textPooled, BertMapWidth);
    var frameNum :- Reshape(s.numFrames, [Infer]);
    var visual :- Visual(m, s.frames, frameNum);
    var final :- ConcatDenseSECall(m.fusion, [visual, text]);
    var pred :- Dense(final, m.numLabels);
    Some([Tensor(final), Tensor(pred)])
  }

  /** The visual embedding: the NeXtVLAD embedding fused with the
      max-pooled transformer sequence by `fusion_vis`. */
  function Visual(m: TransformerModel, frames: Shape, frameNum: Shape): Option<Shape>
  {
    var sequence :- VideoTransformerCall(m.videoTf, frames);
    var sequenceMax :- Reduce(sequence, 1, false);
    var vision :- Vision(VladPool(m.vlad), frames, frameNum);
    ConcatDenseSECall(m.fusionVis, [vision, sequenceMax])
  }

  /** The visual embedding is [B, vlad_hidden_size] exactly when NeXtVLAD
      accepts the frames. */
  lemma VisualShape(m: TransformerModel, b: nat, n: nat, d: nat)
    requires TransformerModelValid(m) && b >= 1
    ensures Visual(m, [b, n, d], [b]) ==
            if PoolAccepts(VladPool(m.vlad), n) then Some([b, m.vlad.outputSize]) else None
  {
    var o := m.vlad.outputSize;
    ReduceAxis1(b, m.videoTf.length, m.videoTf.width);
    VisionShape(VladPool(m.vlad), b, n, d);
    if PoolAccepts(VladPool(m.vlad), n) {
      assert Rows(b, [o, m.videoTf.width]) == [[b, o], [b, m.videoTf.width]];
      ConcatDenseSEShape(m.fusionVis, b, [o, m.videoTf.width]);
    }
  }

  /** `MultiModal.call`: final embeddings, then predictions, of both
      videos.  The second video goes through the layers the first one
      built, so its frames and text must be as wide as the first one's. */
  function TransformerCall(m: TransformerModel, s1: Side, s2: Side): (r: Option<seq<Output>>)
    ensures r.Some? ==> |r.value| == 4
  {
    var o1 :- TransformerSide(m, s1);
    if !SharedWidths(s1, s2) then None
    else
      var o2 :- TransformerSide(m, s2);
      Some(Interleave(o1, o2))
  }

  /** A side of B >= 1 videos succeeds exactly when NeXtVLAD accepts its
      frames, whatever the transformer's sequence length and width; its
      embedding is [B, hidden_size] and its predictions [B, num_labels]. */
  lemma TransformerSideShape(m: TransformerModel, b: nat, n: nat, d: nat, w: nat, numFrames: Shape)
    requires TransformerModelValid(m) && b >= 1 && Product(numFrames) == b
    ensures TransformerSide(m, Side([b, n, d], numFrames, [b, w])) ==
            if PoolAccepts(VladPool(m.vlad), n)
            then Some([Tensor([b, m.fusion.hiddenSize]), Tensor([b, m.numLabels])])
            else None
  {
    var o, h := m.vlad.outputSize, m.fusion.hiddenSize;
    Dense2(b, w, BertMapWidth);
    FlattenAll(numFrames);
    VisualShape(m, b, n, d);
    if PoolAccepts(VladPool(m.vlad), n) {
      assert Rows(b, [o, BertMapWidth]) == [[b, o], [b, BertMapWidth]];
      ConcatDenseSEShape(m.fusion, b, [o, BertMapWidth]);
      Dense2(b, h, m.numLabels);
    }
  }

  /** Both videos: the call succeeds exactly when NeXtVLAD accepts both
      and their frames and texts have the same widths, and returns
      `final_1, final_2, predictions_1, predictions_2`. */
  lemma TransformerCallShape(m: TransformerModel, b1: nat, n1: nat, d1: nat, w1: nat, numFrames1: Shape,
                             b2: nat, n2: nat, d2: nat, w2: nat, numFrames2: Shape)
    requires TransformerModelValid(m) && b1 >= 1 && Product(numFrames1) == b1
    requires b2 >= 1 && Product(numFrames2) == b2
    ensures TransformerCall(m, Side([b1, n1, d1], numFrames1, [b1, w1]), Side([b2, n2, d2], numFrames2, [b2, w2])) ==
            if PoolAccepts(VladPool(m.vlad), n1) && PoolAccepts(VladPool(m.vlad), n2) && d1 == d2 && w1 == w2
            then Some([Tensor([b1, m.fusion.hiddenSize]), Tensor([b2, m.fusion.hiddenSize]),
                       Tensor([b1, m.numLabels]), Tensor([b2, m.numLabels])])
            else None
  {
    TransformerSideShape(m, b1, n1, d1, w1, numFrames1);
    TransformerSideShape(m, b2, n2, d2, w2, numFrames2);
    InterleavePairs(Tensor([b1, m.fusion.hiddenSize]), Tensor([b1, m.numLabels]),
                    Tensor([b2, m.fusion.hiddenSize]), Tensor([b2, m.numLabels]));
  }

  // ---------------------------------------------------------------------
  // MultiModalV2: one joint sequence of frames and text tokens

  /** `Transformer_Encoder(d_model, seq_len)`, known only by its contract:
      it takes [B, seq_len, d_model] and returns a tensor of that shape. */
  datatype Encoder = Encoder(dModel: nat, seqLen: nat)

  function EncoderCall(e: Encoder, x: Shape): (r: Option<Shape>)
    ensures r.Some? <==> |x| == 3 && x[1] == e.seqLen && x[2] == e.dModel
    ensures r.Some? ==> r.value == x
  {
    if |x| == 3 && x[1] == e.seqLen && x[2] == e.dModel then Some(x) else None
  }

  /** The configuration `MultiModalV2` is built from. */
  datatype JointModel = JointModel(frameSize: nat, maxFrames: nat, bertSeqLength: nat,
                                   hiddenSize: nat, numLabels: nat)

  /** The frame encoder works on `max_frames` frames of
      `frame_embedding_size` features. */
  function VisionEncoder(m: JointModel): Encoder
  {
    Encoder(m.frameSize, m.maxFrames)
  }

  /** The joint encoder is built for `max_frames + bert_seq_length`
      positions of `hidden_size` features. */
  function JointEncoder(m: JointModel): Encoder
  {
    Encoder(m.hiddenSize, m.maxFrames + m.bertSeqLength)
  }

  /** One video's inputs: frames [B, N, D], frame counts, and BERT's last
      hidden state [B, S, W]. */
  datatype TokenSide = TokenSide(frames: Shape, numFrames: Shape, textHidden: Shape)

  /** Everything up to the squeeze: the text and the encoded frames are
      both mapped to `hidden_size`, concatenated along the sequence,
      encoded jointly, transposed to [B, hidden_size, N + S] and collapsed
      by `multi_feat_fc = Dense(1)` to [B, hidden_size, 1].  The per-modality
      summaries `frame_feat_fc_last` and `text_feat_fc_last` are computed
      and then unused. */
  function JointCollapsed(m: JointModel, s: TokenSide): Option<Shape>
  {
    var text :- Dense(s.textHidden, m.hiddenSize);
    var _ :- Reshape(s.numFrames, [Infer]);
    var frames :- EncoderCall(VisionEncoder(m), s.frames);
    var vision :- Dense(frames, m.hiddenSize);
    var joint :- Concat([vision, text], 1);
    var encoded :- EncoderCall(JointEncoder(m), joint);
    var transposed :- Transpose(encoded, [0, 2, 1]);
    var collapsed :- Dense(transposed, 1);
    var visionT :- Transpose(vision, [0, 2, 1]);
    var _ :- Dense(visionT, 1);
    var textT :- Transpose(text, [0, 2, 1]);
    var _ :- Dense(textT, 1);
    Some(collapsed)
  }

  /** The inputs the encoders were built for: `max_frames` frames of
      `frame_embedding_size` features and `bert_seq_length` tokens. */
  predicate FitsEncoders(m: JointModel, n: nat, d: nat, len: nat)
  {
    n == m.maxFrames && d == m.frameSize && len == m.bertSeqLength
  }

  /** On [B, N, D] frames and a [B, S, W] hidden state, the pipeline
      reaches [B, hidden_size, 1] exactly when the inputs fit the encoders. */
  lemma JointCollapsedShape(m: JointModel, b: nat, n: nat, d: nat, len: nat, w: nat, numFrames: Shape)
    ensures JointCollapsed(m, TokenSide([b, n, d], numFrames, [b, len, w])) ==
            if FitsEncoders(m, n, d, len) then Some([b, m.hiddenSize, 1]) else None
  {
    var h := m.hiddenSize;
    Dense3(b, len, w, h);
    FlattenAll(numFrames);
    if n == m.maxFrames && d == m.frameSize {
      Dense3(b, n, d, h);
      ConcatPair3(b, n, len, h);
      if len == m.bertSeqLength {
        TransposeSwap12(b, n + len, h);
        Dense3(b, h, n + len, 1);
        TransposeSwap12(b, n, h);
        Dense3(b, h, n, 1);
        TransposeSwap12(b, len, h);
        Dense3(b, h, len, 1);
      }
    }
  }

  /** `tf.squeeze(x, axis=-1)`: drops the last axis, which must have size 1. */
  function SqueezeLast(s: Shape): (r: Option<Shape>)
    ensures r.Some? <==> |s| >= 1 && s[|s| - 1] == 1
    ensures r.Some? ==> r.value + [1] == s
  {
    if |s| >= 1 && s[|s| - 1] == 1 then Some(s[..|s| - 1]) else None
  }

  /** One side of `MultiModalV2.call` as the source writes it: the
      embedding is `tf.squeeze` with no axis, so every size-1 axis goes,
      the batch axis included when B is 1; dropout keeps the shape and the
      classifier follows. */
  function JointSideAsWritten(m: JointModel, s: TokenSide): (r: Option<seq<Output>>)
    ensures r.Some? ==> |r.value| == 2
  {
    var collapsed :- JointCollapsed(m, s);
    var embedding := Squeeze(collapsed);
    var pred :- Dense(embedding, m.numLabels);
    Some([Tensor(embedding), Tensor(pred)])
  }

  /** As written, a side that fits the encoders produces its outputs only
      when neither the batch nor `hidden_size` is 1: otherwise the squeeze
      leaves fewer than two axes and the classifier's Dense refuses them. */
  lemma JointSideAsWrittenShape(m: JointModel, b: nat, n: nat, d: nat, len: nat, w: nat, numFrames: Shape)
    ensures JointSideAsWritten(m, TokenSide([b, n, d], numFrames, [b, len, w])).Some? <==>
            FitsEncoders(m, n, d, len) && b != 1 && m.hiddenSize != 1
  {
    JointCollapsedShape(m, b, n, d, len, w, numFrames);
    SqueezeRank3(b, m.hiddenSize);
  }

  /** The discrepancy: a single video (B = 1) that fits the encoders has no
      predictions, because the squeeze turns [1, hidden_size, 1] into
      [hidden_size]. */
  lemma SingleVideoRejected(m: JointModel, n: nat, d: nat, len: nat, w: nat, numFrames: Shape)
    requires FitsEncoders(m, n, d, len)
    ensures JointSideAsWritten(m, TokenSide([1, n, d], numFrames, [1, len, w])) == None
  {
    JointSideAsWrittenShape(m, 1, n, d, len, w, numFrames);
  }

  /** One side with the squeeze restricted to the collapsed axis, which is
      what the comment `[bs, d_model]` at that line asks for. */
  function JointSide(m: JointModel, s: TokenSide): (r: Option<seq<Output>>)
    ensures r.Some? ==> |r.value| == 2
  {
    var collapsed :- JointCollapsed(m, s);
    var embedding :- SqueezeLast(collapsed);
    var pred :- Dense(embedding, m.numLabels);
    Some([Tensor(embedding), Tensor(pred)])
  }

  /** With that squeeze every batch size works: a side succeeds exactly
      when its inputs fit the encoders, giving a [B, hidden_size] embedding
      and [B, num_labels] predictions. */
  lemma JointSideShape(m: JointModel, b: nat, n: nat, d: nat, len: nat, w: nat, numFrames: Shape)
    ensures JointSide(m, TokenSide([b, n, d], numFrames, [b, len, w])) ==
            if FitsEncoders(m, n, d, len)
            then Some([Tensor([b, m.hiddenSize]), Tensor([b, m.numLabels])])
            else None
  {
    JointCollapsedShape(m, b, n, d, len, w, numFrames);
    if FitsEncoders(m, n, d, len) {
      assert [b, m.hiddenSize, 1][..2] == [b, m.hiddenSize];
      Dense2(b, m.hiddenSize, m.numLabels);
    }
  }

  /** `MultiModalV2.call` as the source writes it:
      `embedding_1, embedding_2, predictions_1, predictions_2`.  The second
      video goes through the `text_feat_fc` the first one built, so its
      hidden state must be as wide as the first one's. */
  function JointCallAsWritten(m: JointModel, s1: TokenSide, s2: TokenSide): (r: Option<seq<Output>>)
    ensures r.Some? ==> |r.value| == 4
  {
    var o1 :- JointSideAsWritten(m, s1);
    if !SameLastAxis(s1.textHidden, s2.textHidden) then None
    else
      var o2 :- JointSideAsWritten(m, s2);
      Some(Interleave(o1, o2))
  }

  /** As written, the call on two videos that fit the encoders succeeds
      only when neither batch holds a single video and `hidden_size` is not
      1; it then gives [B, hidden_size] embeddings and [B, num_labels]
      predictions. */
  lemma JointCallAsWrittenShape(m: JointModel, b1: nat, n1: nat, d1: nat, len1: nat, w1: nat, numFrames1: Shape,
                                b2: nat, n2: nat, d2: nat, len2: nat, w2: nat, numFrames2: Shape)
    ensures JointCallAsWritten(m, TokenSide([b1, n1, d1], numFrames1, [b1, len1, w1]),
                                  TokenSide([b2, n2, d2], numFrames2, [b2, len2, w2])) ==
            if FitsEncoders(m, n1, d1, len1) && FitsEncoders(m, n2, d2, len2) && w1 == w2 &&
               b1 != 1 && b2 != 1 && m.hiddenSize != 1
            then Some([Tensor([b1, m.hiddenSize]), Tensor([b2, m.hiddenSize]),
                       Tensor([b1, m.numLabels]), Tensor([b2, m.numLabels])])
            else None
  {
    var h, l := m.hiddenSize, m.numLabels;
    JointCollapsedShape(m, b1, n1, d1, len1, w1, numFrames1);
    JointCollapsedShape(m, b2, n2, d2, len2, w2, numFrames2);
    SqueezeRank3(b1, h);
    SqueezeRank3(b2, h);
    if b1 != 1 && b2 != 1 && h != 1 {
      assert Squeeze([b1, h, 1]) == [b1, h] && Squeeze([b2, h, 1]) == [b2, h];
      Dense2(b1, h, l);
      Dense2(b2, h, l);
      InterleavePairs(Tensor([b1, h]), Tensor([b1, l]), Tensor([b2, h]), Tensor([b2, l]));
    } else {
      JointSideAsWrittenShape(m, b1, n1, d1, len1, w1, numFrames1);
      JointSideAsWrittenShape(m, b2, n2, d2, len2, w2, numFrames2);
    }
  }

  /** The call with the squeeze restricted to the collapsed axis, as the
      comment `[bs, d_model]` asks for. */
  function JointCall(m: JointModel, s1: TokenSide, s2: TokenSide): (r: Option<seq<Output>>)
    ensures r.Some? ==> |r.value| == 4
  {
    var o1 :- JointSide(m, s1);
    if !SameLastAxis(s1.textHidden, s2.textHidden) then None
    else
      var o2 :- JointSide(m, s2);
      Some(Interleave(o1, o2))
  }

  /** Corrected, the call succeeds exactly when both videos fit the
      encoders and bring hidden states of the same width, for any batch
      sizes. */
  lemma JointCallShape(m: JointModel, b1: nat, n1: nat, d1: nat, len1: nat, w1: nat, numFrames1: Shape,
                       b2: nat, n2: nat, d2: nat, len2: nat, w2: nat, numFrames2: Shape)
    ensures JointCall(m, TokenSide([b1, n1, d1], numFrames1, [b1, len1, w1]),
                         TokenSide([b2, n2, d2], numFrames2, [b2, len2, w2])) ==
            if FitsEncoders(m, n1, d1, len1) && FitsEncoders(m, n2, d2, len2) && w1 == w2
            then Some([Tensor([b1, m.hiddenSize]), Tensor([b2, m.hiddenSize]),
                       Tensor([b1, m.numLabels]), Tensor([b2, m.numLabels])])
            else None
  {
    JointSideShape(m, b1, n1, d1, len1, w1, numFrames1);
    JointSideShape(m, b2, n2, d2, len2, w2, numFrames2);
    InterleavePairs(Tensor([b1, m.hiddenSize]), Tensor([b1, m.numLabels]),
                    Tensor([b2, m.hiddenSize]), Tensor([b2, m.numLabels]));
  }
}
