/** The layer catalogue of the model classes: which layers each class's
    `call` runs and which of them its `get_variables` lists after the
    encoder. */
module ModelLayers {
  /** The model classes that carry a `get_variables`/`optimize` pair. */
  datatype ModelClass =
    | CqrMultiModal | CqrSoft | CqrNextSoft | CqrMlm | CqrUniter | CqrUniterVlad | CqrUniterRoformer
    | PairMultiModal | PairMix2 | PairMixRank | PairMix5 | PairMix1024 | PairMixNextSoft
    | JointMultiModal | JointMultiModalV2

  /** The layers of the model classes, named after their attributes;
      the numbered ones are the branches `nextvlad_k`, `fusion_k`,
      `classifier_k`, `nextsoftdbof_k` and `fc_256_k`. */
  datatype Layer =
    | Bert | BertMap | Mlm | FrameMap | Fc | Bn | MixWeights | Classifier | Fusion | FusionVis
    | NeXtVLAD | SoftDBoF | NextSoftDBoF | VideoTf | TextFeatFc | VisionTransformer | FrameFeatFc
    | Transformer | MultiFeatFc | FrameFeatFcLast | TextFeatFcLast | Dropout
    | NeXtVLADk(k: nat) | Fusionk(k: nat) | Classifierk(k: nat) | NextSoftDBoFk(k: nat) | Fc256k(k: nat)

  /** The layers whose variables make up `normal_variables`, in order. */
  function NormalLayers(m: ModelClass): seq<Layer>
  {
    match m
    case CqrMultiModal => [NeXtVLAD, Fusion, Classifier, BertMap]
    case CqrSoft => [SoftDBoF, Fusion, Classifier, BertMap]
    case CqrNextSoft => [NextSoftDBoF, Fusion, Classifier, BertMap]
    case CqrMlm => [NeXtVLAD, Fusion, Classifier, BertMap, Mlm]
    case CqrUniter => [Classifier, FrameMap, Mlm, Fc]
    case CqrUniterVlad => [Classifier, FrameMap, Mlm, NeXtVLAD]
    case CqrUniterRoformer => [Classifier, FrameMap, Mlm, Fc]
    case PairMultiModal => [NeXtVLAD, Fusion, Classifier, BertMap]
    case PairMix2 => [NeXtVLADk(1), Fusion, NeXtVLADk(2), NeXtVLADk(3), Bn, MixWeights, Classifier, BertMap]
    case PairMixRank => [NeXtVLADk(1), Fusionk(1), BertMap, MixWeights, Bn,
                         NeXtVLADk(2), Fusionk(2), NeXtVLADk(3), Fusionk(3)]
    case PairMix5 => [NeXtVLADk(1), Fusionk(1), Classifierk(1), BertMap, MixWeights, Bn,
                      NeXtVLADk(2), Fusionk(2), Classifierk(2), NeXtVLADk(3), Fusionk(3), Classifierk(3)]
    case PairMix1024 => [NeXtVLADk(1), Fusionk(1), Classifierk(1), BertMap, MixWeights, Bn,
                         NeXtVLADk(2), Fusionk(2), Classifierk(2), NeXtVLADk(3), Fusionk(3), Classifierk(3),
                         Fc256k(1), Fc256k(2), Fc256k(3)]
    case PairMixNextSoft => [NextSoftDBoFk(1), Fusionk(1), Classifierk(1), BertMap, MixWeights, Bn,
                             NextSoftDBoFk(2), Fusionk(2), Classifierk(2), NextSoftDBoFk(3), Fusionk(3),
                             Classifierk(3)]
    case JointMultiModal => [NeXtVLAD, Fusion, Classifier, BertMap, VideoTf, FusionVis]
    case JointMultiModalV2 => [TextFeatFc, VisionTransformer, FrameFeatFc, Transformer, MultiFeatFc,
                               FrameFeatFcLast, TextFeatFcLast, Classifier]
  }

  /** The layers of its own that each class's `call` runs, the encoder
      included. */
  function CallLayers(m: ModelClass): set<Layer>
  {
    match m
    case CqrMultiModal => {Bert, BertMap, NeXtVLAD, Fusion, Classifier}
    case CqrSoft => {Bert, BertMap, SoftDBoF, Fusion, Classifier}
    case CqrNextSoft => {Bert, BertMap, NextSoftDBoF, Fusion, Classifier}
    case CqrMlm => {Bert, Mlm, BertMap, NeXtVLAD, Fusion, Classifier}
    case CqrUniter => {FrameMap, Bert, Fc, Mlm, Classifier}
    case CqrUniterVlad => {FrameMap, Bert, NeXtVLAD, Mlm, Classifier}
    case CqrUniterRoformer => {FrameMap, Bert, Fc, Mlm, Classifier}
    case PairMultiModal => {Bert, BertMap, NeXtVLAD, Fusion, Classifier}
    case PairMix2 => {Bert, BertMap, Bn, MixWeights, NeXtVLADk(1), NeXtVLADk(2), NeXtVLADk(3), Fusion, Classifier}
    case PairMixRank => {Bert, BertMap, Bn, MixWeights, NeXtVLADk(1), Fusionk(1),
                         NeXtVLADk(2), Fusionk(2), NeXtVLADk(3), Fusionk(3)}
    case PairMix5 => {Bert, BertMap, Bn, MixWeights,
                      NeXtVLADk(1), Fusionk(1), Classifierk(1), NeXtVLADk(2), Fusionk(2), Classifierk(2),
                      NeXtVLADk(3), Fusionk(3), Classifierk(3), NeXtVLADk(4), Fusionk(4), Classifierk(4),
                      NeXtVLADk(5), Fusionk(5), Classifierk(5)}
    case PairMix1024 => {Bert, BertMap, Bn, MixWeights,
                         NeXtVLADk(1), Fusionk(1), Classifierk(1), Fc256k(1),
                         NeXtVLADk(2), Fusionk(2), Classifierk(2), Fc256k(2),
                         NeXtVLADk(3), Fusionk(3), Classifierk(3), Fc256k(3)}
    case PairMixNextSoft => {Bert, BertMap, Bn, MixWeights,
                             NextSoftDBoFk(1), Fusionk(1), Classifierk(1), NextSoftDBoFk(2), Fusionk(2),
                             Classifierk(2), NextSoftDBoFk(3), Fusionk(3), Classifierk(3)}
    case JointMultiModal => {Bert, BertMap, VideoTf, NeXtVLAD, FusionVis, Fusion, Classifier}
    case JointMultiModalV2 => {Bert, TextFeatFc, VisionTransformer, FrameFeatFc, Transformer, MultiFeatFc,
                               FrameFeatFcLast, TextFeatFcLast, Dropout, Classifier}
  }

  /** A dropout layer holds no variables. */
  predicate HasWeights(layer: Layer)
  {
    layer != Dropout
  }

  /** The layers a call uses whose variables reach neither optimizer. */
  function Untrained(m: ModelClass): set<Layer>
  {
    set l | l in CallLayers(m) && HasWeights(l) && l != Bert && l !in NormalLayers(m)
  }

  /** The fourth and fifth branches of `MultiModal_mix5`. */
  function Mix5Extra(): set<Layer>
  {
    {NeXtVLADk(4), Fusionk(4), Classifierk(4), NeXtVLADk(5), Fusionk(5), Classifierk(5)}
  }

  /** The list `MultiModal_mix5.get_variables` evidently means: what it
      lists, followed by the fourth and fifth branches its call runs. */
  function Mix5ListCorrected(): seq<Layer>
  {
    NormalLayers(PairMix5) + [NeXtVLADk(4), Fusionk(4), Classifierk(4), NeXtVLADk(5), Fusionk(5), Classifierk(5)]
  }
}
