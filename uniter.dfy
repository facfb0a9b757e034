/** The single-stream `Uniter` models of `cqrmodel.py`: the frame and text
    padding masks they build, and the shape pipeline around the joint
    encoder, with its choice of pooling.  `Uniter_roformer` runs the same
    call with a different encoder; `Uniter_vlad` pools the encoder output
    with NeXtVLAD. */
module Uniter {
  import opened Wrappers
  import opened Shapes
  import opened Pooling

  // ---------------------------------------------------------------------
  // Masks, as values

  /** `tf.cast(tf.sequence_mask(lengths, maxlen), tf.int32)`: row b has a 1
      at position j when j < lengths[b] and a 0 elsewhere. */
  function SequenceMask(lengths: seq<int>, maxlen: nat): (r: seq<seq<int>>)
    ensures |r| == |lengths| && forall b :: 0 <= b < |r| ==> |r[b]| == maxlen
  {
    seq(|lengths|, b requires 0 <= b < |lengths| =>
      seq(maxlen, j requires 0 <= j < maxlen => if j < lengths[b] then 1 else 0))
  }

  /** A count cut to the range [0, maxlen]. */
  function Clamp(n: int, maxlen: nat): (r: nat)
    ensures r <= maxlen
  {
    if n < 0 then 0 else if n > maxlen then maxlen else n
  }

  /** The number of 1 entries of a row. */
  function Ones(row: seq<int>): nat
  {
    if row == [] then 0 else Ones(row[..|row| - 1]) + (if row[|row| - 1] == 1 then 1 else 0)
  }

  /** Each row of a sequence mask is its clamped length of ones followed by
      zeros, so it marks exactly the first `min(max(len, 0), maxlen)`
      positions. */
  lemma SequenceMaskRow(lengths: seq<int>, maxlen: nat, b: nat)
    requires b < |lengths|
    ensures SequenceMask(lengths, maxlen)[b] ==
            seq(Clamp(lengths[b], maxlen), _ => 1) + seq(maxlen - Clamp(lengths[b], maxlen), _ => 0)
  {
    var row := SequenceMask(lengths, maxlen)[b];
    var k := Clamp(lengths[b], maxlen);
    var expected: seq<int> := seq(k, _ => 1) + seq(maxlen - k, _ => 0);
    forall j | 0 <= j < maxlen ensures row[j] == expected[j] {
      if j >= k {
        assert expected[j] == seq(maxlen - k, _ => 0)[j - k];
      }
    }
  }

  /** Hence the row has exactly that many ones. */
  lemma {:induction false} OnesPrefix(k: nat, m: nat)
    ensures Ones(seq(k, _ => 1) + seq(m, _ => 0)) == k
    decreases k + m
  {
    var row: seq<int> := seq(k, _ => 1) + seq(m, _ => 0);
    if m > 0 {
      assert row[..|row| - 1] == seq(k, _ => 1) + seq(m - 1, _ => 0);
      OnesPrefix(k, m - 1);
    } else if k > 0 {
      assert row[..|row| - 1] == seq(k - 1, _ => 1) + seq(0, _ => 0);
      OnesPrefix(k - 1, 0);
    }
  }

  /** A video's frame mask has one 1 per counted frame, up to the number
      of slots. */
  lemma SequenceMaskCount(lengths: seq<int>, maxlen: nat, b: nat)
    requires b < |lengths|
    ensures Ones(SequenceMask(lengths, maxlen)[b]) == Clamp(lengths[b], maxlen)
  {
    SequenceMaskRow(lengths, maxlen, b);
    OnesPrefix(Clamp(lengths[b], maxlen), maxlen - Clamp(lengths[b], maxlen));
  }

  /** `1 - x` on every entry of a row. */
  function Complement(row: seq<int>): (r: seq<int>)
    ensures |r| == |row|
  {
    seq(|row|, j requires 0 <= j < |row| => 1 - row[j])
  }

  /** The negative mask of the `max` pooling (lines 478-479): per video, the
      complement of the text attention mask followed by the complement of
      the frame mask.  The concatenation needs the same batch size on both
      sides. */
  function NegativeMask(mask: seq<seq<int>>, numFrames: seq<int>, numSegments: nat): (r: Option<seq<seq<int>>>)
    ensures r.Some? <==> |mask| == |numFrames|
  {
    if |mask| != |numFrames| then None
    else
      var images := SequenceMask(numFrames, numSegments);
      Some(seq(|mask|, b requires 0 <= b < |mask| => Complement(mask[b]) + Complement(images[b])))
  }

  /** With a 0/1 text mask, the negative mask of a video is
      `seq_len + num_segments` long, holds only 0 and 1, and is 1 exactly at
      the text padding and at the frame slots at or past the video's frame
      count. */
  lemma NegativeMaskExact(mask: seq<seq<int>>, numFrames: seq<int>, numSegments: nat)
    requires |mask| == |numFrames|
    requires forall b, j :: 0 <= b < |mask| && 0 <= j < |mask[b]| ==> 0 <= mask[b][j] <= 1
    ensures var r := NegativeMask(mask, numFrames, numSegments).value;
            |r| == |mask| &&
            (forall b :: 0 <= b < |r| ==> |r[b]| == |mask[b]| + numSegments) &&
            forall b, j :: 0 <= b < |r| && 0 <= j < |r[b]| ==>
              (r[b][j] == 0 || r[b][j] == 1) &&
              (r[b][j] == 1 <==> if j < |mask[b]| then mask[b][j] == 0 else j - |mask[b]| >= numFrames[b])
  {
    var r := NegativeMask(mask, numFrames, numSegments).value;
    var images := SequenceMask(numFrames, numSegments);
    forall b, j | 0 <= b < |r| && 0 <= j < |r[b]|
      ensures (r[b][j] == 0 || r[b][j] == 1) &&
              (r[b][j] == 1 <==> if j < |mask[b]| then mask[b][j] == 0 else j - |mask[b]| >= numFrames[b])
    {
      assert r[b] == Complement(mask[b]) + Complement(images[b]);
      if j >= |mask[b]| {
        assert r[b][j] == 1 - images[b][j - |mask[b]|];
      }
    }
  }

  // ---------------------------------------------------------------------
  // The call, as shapes

  /** Width of the frame projection `frame_map` that feeds the encoder. */
  const FrameMapWidth: nat := 768

  /** The foreign encoder and masked-language-model head: the encoder turns
      a batch into a sequence output [B, length, width], and the head turns
      that into scores [B, length, vocab]. */
  datatype Encoder = Encoder(length: nat, width: nat, vocab: nat)

  /** What the shared front of the call (lines 465-475) hands on. */
  datatype Encoded = Encoded(batch: nat, seqLen: nat, imagesMask: Shape, sequenceOutput: Shape)

  /** Frames [B, N, D] are projected and counted into an int mask [B', N];
      the text is [B, S].  Unpacking both shapes needs ranks 3 and 2. */
  function UniterEncode(frames: Shape, inputIds: Shape, numFrames: Shape, enc: Encoder): Option<Encoded>
  {
    if |frames| != 3 || |inputIds| != 2 then None
    else
      var numSegments := frames[1];
      var _ :- Dense(frames, FrameMapWidth);
      var frameNum :- Reshape(numFrames, [Infer]);
      var imagesMask := SequenceMaskShape(frameNum, numSegments);
      Some(Encoded(inputIds[0], inputIds[1], imagesMask, [inputIds[0], enc.length, enc.width]))
  }

  /** The pooling dispatch of lines 472-481: `cls` takes position 0,
      `mean` averages over positions, `max` first adds a large negative
      value at masked positions.  Any other name leaves the embedding
      unbound and the call fails. */
  function Pool(pooling: string, x: Shape, mask: Shape, imagesMask: Shape): Option<Shape>
  {
    if pooling == "cls" then TakeFirst1(x)
    else if pooling == "mean" then Reduce(x, 1, false)
    else if pooling == "max" then
      var negMask :- Concat([mask, imagesMask], 1);
      var superNeg :- ExpandDims(negMask, 2);
      var shifted :- Broadcast(x, superNeg);
      Reduce(shifted, 1, false)
    else None
  }

  datatype UniterConfig = UniterConfig(numLabels: nat, hiddenSize: nat, pooling: string)

  /** Class probabilities, pooled embedding and MLM scores. */
  datatype UniterOutputs = UniterOutputs(predictions: Shape, embedding: Shape, mlmScores: Shape)

  /** `Uniter.call` (and `Uniter_roformer.call`): project the sequence
      output to `hidden_size`, pool it, cut the MLM scores to the text
      positions, classify. */
  function UniterCall(cfg: UniterConfig, frames: Shape, inputIds: Shape, mask: Shape, numFrames: Shape,
                      enc: Encoder): Option<UniterOutputs>
  {
    var e :- UniterEncode(frames, inputIds, numFrames, enc);
    var sequenceOutput :- Dense(e.sequenceOutput, cfg.hiddenSize);
    var embedding :- Pool(cfg.pooling, sequenceOutput, mask, e.imagesMask);
    var scores :- Crop1([e.batch, enc.length, enc.vocab], e.seqLen);
    var predictions :- Dense(embedding, cfg.numLabels);
    Some(UniterOutputs(predictions, embedding, scores))
  }

  /** The front of the call on well-formed inputs. */
  lemma UniterEncodeShape(b: nat, n: nat, d: nat, s: nat, numFrames: Shape, enc: Encoder)
    requires Product(numFrames) == b
    ensures UniterEncode([b, n, d], [b, s], numFrames, enc) == Some(Encoded(b, s, [b, n], [b, enc.length, enc.width]))
  {
    FlattenAll(numFrames);
    assert SequenceMaskShape([b], n) == [b, n];
  }

  /** The `max` branch: the masked sequence output broadcasts only when the
      encoder's length is compatible with `seq_len + num_segments`. */
  lemma PoolMax(b: nat, l: nat, h: nat, s: nat, n: nat)
    ensures Pool("max", [b, l, h], [b, s], [b, n]) ==
            if Compatible(l, s + n) then Some([b, h]) else None
  {
    ConcatPair2(b, s, n);
    assert NormAxis(2, 3) == Some(2);
    assert [b, s + n][..2] + [1] + [b, s + n][2..] == [b, s + n, 1];
    Broadcast3(b, l, h, b, s + n, 1);
    if Compatible(l, s + n) {
      ReduceAxis1(b, Join(l, s + n), h);
    }
  }

  /** On text [B, S], mask [B, S], frames [B, N, D] and one count per video,
      the call succeeds exactly for a known pooling name whose branch fits:
      `cls` needs a non-empty sequence output and `max` needs its length to
      broadcast against `S + N`.  It then yields predictions [B, labels], an
      embedding [B, hidden] and MLM scores cut to the first S positions. */
  lemma UniterShape(cfg: UniterConfig, b: nat, n: nat, d: nat, s: nat, numFrames: Shape, enc: Encoder)
    requires Product(numFrames) == b
    ensures UniterCall(cfg, [b, n, d], [b, s], [b, s], numFrames, enc).Some? <==>
            (cfg.pooling == "cls" && enc.length >= 1) || cfg.pooling == "mean" ||
            (cfg.pooling == "max" && Compatible(enc.length, s + n))
    ensures UniterCall(cfg, [b, n, d], [b, s], [b, s], numFrames, enc).Some? ==>
            UniterCall(cfg, [b, n, d], [b, s], [b, s], numFrames, enc).value ==
            UniterOutputs([b, cfg.numLabels], [b, cfg.hiddenSize],
                          [b, if s < enc.length then s else enc.length, enc.vocab])
  {
    UniterEncodeShape(b, n, d, s, numFrames, enc);
    var h := cfg.hiddenSize;
    Dense3(b, enc.length, enc.width, h);
    assert [b, enc.length, enc.vocab][1 := if s < enc.length then s else enc.length] ==
           [b, if s < enc.length then s else enc.length, enc.vocab];
    if cfg.pooling == "cls" {
      assert [b, enc.length, h][..1] + [b, enc.length, h][2..] == [b, h];
    } else if cfg.pooling == "mean" {
      ReduceAxis1(b, enc.length, h);
    } else if cfg.pooling == "max" {
      PoolMax(b, enc.length, h, s, n);
    }
    Dense2(b, h, cfg.numLabels);
  }

  /** When the encoder returns one position per token and frame, every
      pooling name the code knows succeeds and the MLM scores keep exactly
      the S text positions. */
  lemma UniterAligned(cfg: UniterConfig, b: nat, n: nat, d: nat, s: nat, numFrames: Shape, enc: Encoder)
    requires Product(numFrames) == b
    requires enc.length == s + n && enc.length >= 1
    requires cfg.pooling in {"cls", "mean", "max"}
    ensures UniterCall(cfg, [b, n, d], [b, s], [b, s], numFrames, enc) ==
            Some(UniterOutputs([b, cfg.numLabels], [b, cfg.hiddenSize], [b, s, enc.vocab]))
  {
    UniterShape(cfg, b, n, d, s, numFrames, enc);
  }

  // ---------------------------------------------------------------------
  // Uniter_vlad

  /** `Uniter_vlad`: a NeXtVLAD over the 768-wide encoder output with
      `output_size = hidden_size` replaces projection and pooling. */
  datatype UniterVladConfig = UniterVladConfig(numLabels: nat, vlad: NeXtVLAD)

  /** The layer as the constructor builds it (default expansion and
      groups). */
  function NewUniterVlad(numLabels: nat, clusterSize: nat, hiddenSize: nat): (r: UniterVladConfig)
    ensures NeXtVLADValid(r.vlad) && r.vlad.newFeatureSize == 192 && r.vlad.outputSize == hiddenSize &&
            r.vlad.clusterSize == clusterSize && r.numLabels == numLabels
  {
    UniterVladConfig(numLabels, NewNeXtVLAD(FrameMapWidth, clusterSize, hiddenSize, DefaultExpansion, DefaultGroups).value)
  }

  /** `Uniter_vlad.call` (lines 556-572): NeXtVLAD on the whole sequence
      output, with no frame mask. */
  function UniterVladCall(cfg: UniterVladConfig, frames: Shape, inputIds: Shape, numFrames: Shape,
                          enc: Encoder): Option<UniterOutputs>
  {
    var e :- UniterEncode(frames, inputIds, numFrames, enc);
    var pooled :- NeXtVLADCall(cfg.vlad, e.sequenceOutput, None);
    var scores :- Crop1([e.batch, enc.length, enc.vocab], e.seqLen);
    var predictions :- Dense(pooled.output, cfg.numLabels);
    Some(UniterOutputs(predictions, pooled.output, scores))
  }

  /** With the constructor's layer, the vlad variant succeeds exactly when
      the sequence output and the cluster count are non-empty; since
      8 divides 2 * 768 the regrouping always keeps the batch. */
  lemma UniterVladShape(numLabels: nat, clusterSize: nat, hiddenSize: nat,
                        b: nat, n: nat, d: nat, s: nat, numFrames: Shape, enc: Encoder)
    requires b >= 1 && Product(numFrames) == b
    ensures UniterVladCall(NewUniterVlad(numLabels, clusterSize, hiddenSize), [b, n, d], [b, s], numFrames, enc).Some?
            <==> enc.length >= 1 && clusterSize >= 1
    ensures UniterVladCall(NewUniterVlad(numLabels, clusterSize, hiddenSize), [b, n, d], [b, s], numFrames, enc).Some?
            ==> UniterVladCall(NewUniterVlad(numLabels, clusterSize, hiddenSize), [b, n, d], [b, s], numFrames, enc).value
                == UniterOutputs([b, numLabels], [b, hiddenSize], [b, if s < enc.length then s else enc.length, enc.vocab])
  {
    var cfg := NewUniterVlad(numLabels, clusterSize, hiddenSize);
    UniterEncodeShape(b, n, d, s, numFrames, enc);
    NeXtVLADShape(cfg.vlad, b, enc.length, enc.width, None);
    assert (cfg.vlad.expansion * cfg.vlad.featureSize) % cfg.vlad.groups == 0;
    assert [b, enc.length, enc.vocab][1 := if s < enc.length then s else enc.length] ==
           [b, if s < enc.length then s else enc.length, enc.vocab];
    Dense2(b, hiddenSize, numLabels);
  }
}
