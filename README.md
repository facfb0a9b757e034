# Video tagging and similarity models: the verifiable core

The repository trains multimodal video models in TensorFlow. Its inputs are
a video's frame features and its title, and it predicts tags and embeds
videos for similarity. Most of the code is numeric graph code. This project
models what is not numeric, and proves its properties:

- **`FeatureParser`** (`data_helper_roformer.py`):
  - reading the selected tag set;
  - sampling a variable number of frames onto `max_frames` slots;
  - filtering labels and multi-hot encoding them;
  - splitting a category id into its two levels.
- **The shapes each layer and model computes.** A tensor is its shape, a
  `seq<nat>`. Each Keras or TensorFlow operation is a function from input
  shapes to an output shape, or to `None` where the framework raises (in
  the loss functions, `None` also stands for a NaN or infinite loss).
  Each `call` is then proved to produce its documented shapes exactly
  under the conditions stated. The layers and models covered are:
  - the pooling layers `NeXtVLAD`, `SoftDBoF` and `NextSoftDBoF`;
  - the fusion layers `SENet` and `ConcatDenseSE`;
  - the `Uniter` models;
  - the mixture-of-branches models of `model_pair_mix_rank.py`;
  - the paired models of `model_pair_add_tf.py`.
- **The two-optimizer variable partition** that every model class repeats.
  - `get_variables` caches the encoder's variables followed by the others.
  - `optimize` cuts the gradient list at the encoder's count.
  - A catalogue of the layers each class runs and lists shows which layers
    never reach an optimizer.
- **The masked-language-model selection of `compute_loss`**, and
  `shape_list`.
- **The training loop of both training scripts.**
  - The step counter decides when to train, log, evaluate and save.
  - `vid_embedding` is collected during an evaluation.
  - The per-step losses are built from their terms.

Modules, one per file: `Wrappers` (Option), `Decimal`, `FeatureParsing`,
`Shapes`, `Pooling`, `Uniter`, `MaskedLoss`, `ModelLayers`,
`VariablePartition`, `MixModels`, `JointModels`, `TrainLoop`.

**Imperative and pure parts.** The parts the source writes imperatively are
imperative here:
- the tag-set loop (`FeatureParsing.BuildSelectedTags`);
- the variable cache (class `VariablePartition.VariableCache`);
- the step counter (class `TrainLoop.Checkpoint`, and the loops of
  `TrainLoop.Train` and `TrainLoop.TrainEpoch`);
- the embedding dictionary (`TrainLoop.CollectEmbeddings`);
- the loss accumulation loops (`TrainLoop.Accumulate`).

Each of these methods is proved against a specification function. Shape
pipelines, slicing and comprehensions are pure functions.

**Where the code and its comments disagree, the model follows the code.**
- At `model_pair_add_tf.py:263`, the comment says the joint embedding is
  `[bs, d_model]`. But `tf.squeeze` without an axis gives `[d_model]` for a
  single video (see Findings).
- `_parse_category` slices the text `str(n)`. For a negative id the minus
  sign takes the skipped first character, so the split falls one digit
  earlier than for a non-negative id. Both cases are modelled.

## Model

Some functions define a framework operation and carry that definition as
their contract. They have no row here, and the lemmas beside them state
what they mean:
- `FeatureParsing.Slice` (Python's clamped slice) and
  `FeatureParsing.AdjustFirst` (the shift of large first-level ids), used
  by the `_parse_category` lemmas and by `AdjustFirstCollisions`;
- `Shapes.Knowns`, `Shapes.Dense`, `Shapes.Rows`, `Shapes.Transpose` and
  `Shapes.MatMul`, used by `KnownsFacts`, `Dense2`/`Dense3`, `ConcatRows`
  and `TransposeSwap12`;
- `MaskedLoss.ActiveLoss` (the `labels != -100` mask), used by
  `SelectedIsActivePairs`;
- `VariablePartition.Take`, `Drop`, `Zip` and `LayerVariables` (list
  slices, `zip` and a layer's variables), used by `TakeDrop`, `ZipSplit`
  and `VariablesOwned`;
- `JointModels.EncoderCall`, the assumed contract of the external
  transformer encoder (see "Left out").

| member | source | states |
|---|---|---|
| Decimal.Pow10 | data_helper_roformer.py:80-83 | every power of ten is at least 1, so the slices' values can be read by division by it |
| Decimal.DigitChar | data_helper_roformer.py:79 | the character written for a digit below 10 is a decimal digit whose value is that digit |
| Decimal.Digits | data_helper_roformer.py:79 | the text of a natural number is a non-empty string of digits |
| Decimal.ToString | data_helper_roformer.py:79 | `str(n)` is non-empty, and every character after the first is a digit (the first is the sign or a digit) |
| Decimal.ParseInt | data_helper_roformer.py:80 | `int` of a slice succeeds exactly when the slice is a non-empty digit string |
| Decimal.ValueDigits | data_helper_roformer.py:79-83 | reading back the digits of `str(n)` gives `n`: the round trip `int(str(n)) == n` for `n >= 0` |
| Decimal.SplitValue | data_helper_roformer.py:80-83 | cutting a digit string after k characters splits its value: the head is the value divided by 10^(len-k), the tail the remainder |
| Decimal.DigitsLonger | data_helper_roformer.py:79-83 | `str(n)` has more than k digits exactly when `n >= 10^k` (this decides when the slices are non-empty) |
| FeatureParsing.BuildSelectedTags | data_helper_roformer.py:19-24 | the loop that adds one tag per line yields exactly the set of the ids read, and `num_labels` is its size |
| FeatureParsing.FeatureParser.constructor | data_helper_roformer.py:13-28 | the parser keeps `max_frames` and the binarizer's classes; a tag is selected iff it was read; `num_labels` equals both the size of the set and the number of classes |
| FeatureParsing.DistinctCard | data_helper_roformer.py:24-28 | a strictly ascending class list has as many elements as its set |
| FeatureParsing.ClassOrderLength | data_helper_roformer.py:24-28 | the fitted binarizer has one class per selected tag (ascending, no repeats), so `num_labels` is the length of every multi-hot row |
| FeatureParsing.StrideInRange | data_helper_roformer.py:49-54 | every slot's frame index is below `frames_len`, in both branches |
| FeatureParsing.Sample | data_helper_roformer.py:43-54 | `_sample` fails exactly when `max_frames == 0` (the division) or there are no frames (index -1); otherwise it returns exactly `max_frames` frames and the count `min(frames_len, max_frames)`, slot i holding the frame at the slot's in-range index |
| FeatureParsing.SampleShortPads | data_helper_roformer.py:49-51 | with fewer frames than slots: all frames in order, then the last one repeated, and the count is `frames_len` |
| FeatureParsing.SampleLongStrides | data_helper_roformer.py:52-54 | with at least as many frames as slots: the stride `d = frames_len // max_frames` is at least 1, slot 0 is `d // 2`, each next index is `d` more, and all are in range |
| FeatureParsing.SampleExact | data_helper_roformer.py:49-54 | `frames_len == max_frames` returns the frames unchanged |
| FeatureParsing.Filter | data_helper_roformer.py:68 | the filtered tags are never more than the tags |
| FeatureParsing.FilterMembers | data_helper_roformer.py:68 | the tag filter keeps a tag exactly when it is in the selected set |
| FeatureParsing.FilterAppend | data_helper_roformer.py:68 | the filter works element by element and keeps the order: filtering a concatenation concatenates the filtered parts |
| FeatureParsing.FilterCounts | data_helper_roformer.py:68 | each selected tag is kept as often as it occurs, any other tag never |
| FeatureParsing.MultiHot | data_helper_roformer.py:69 | the binarizer row has one entry per class, and each entry is 1 iff that class is among the tags, 0 otherwise |
| FeatureParsing.ParseLabel | data_helper_roformer.py:65-70 | `_parse_label` returns a 0/1 vector of length `num_labels` with a 1 exactly at the classes present |
| FeatureParsing.ParseLabelIgnoresUnselected | data_helper_roformer.py:68-69 | the filter does not change the vector: encoding the raw tags gives the same row |
| FeatureParsing.AdjustFirstCollisions | data_helper_roformer.py:81-82 | the shift merges raw ids 38 and 39 with 36 and 37, and is one-to-one everywhere else |
| FeatureParsing.ParseCategory | data_helper_roformer.py:78-84 | `_parse_category` succeeds exactly when `str(n)` has at least four characters |
| FeatureParsing.ParseCategoryText | data_helper_roformer.py:79-83 | on such a text the two ids are the values of characters 1-2 (after the shift) and 3 onward; character 0 is skipped |
| FeatureParsing.ParseCategoryNatural | data_helper_roformer.py:78-84 | for `n >= 0`: success iff `n >= 1000`; then with k digits the second id is `n mod 10^(k-3)` and the raw first id is `n // 10^(k-3) mod 100` |
| FeatureParsing.NaturalSlices | data_helper_roformer.py:80-83 | for a natural number of four or more digits, the two slices have those quotient and remainder values |
| FeatureParsing.ParseCategoryNegative | data_helper_roformer.py:78-84 | for `n < 0`: success iff `n <= -100`, since the sign takes character 0; the two slices are then read from the digits of `-n`, cut two places from the left |
| FeatureParsing.NegativeSlices | data_helper_roformer.py:80-83 | for a negative number, the two slices after the sign have the quotient and remainder values of its magnitude |
| Shapes.Product1 | cqrmodel.py:65 | a rank-1 tensor holds as many elements as its size |
| Shapes.Product2 | cqrmodel.py:47 | a [a, b] tensor holds a*b elements |
| Shapes.Product3 | cqrmodel.py:59 | a [a, b, c] tensor holds a*b*c elements |
| Shapes.Fill | cqrmodel.py:46-47 | filling a reshape target puts v at each -1 and keeps every fixed size |
| Shapes.KnownsFacts | cqrmodel.py:46-47 | a target with only fixed sizes has no -1, and its product is the shape's element count |
| Shapes.FillProduct | cqrmodel.py:46-47 | filling the single -1 with v multiplies the product of the fixed sizes by v |
| Shapes.ReshapeKeepsCount | cqrmodel.py:59 | any successful reshape keeps the element count and every fixed size of its target |
| Shapes.ReshapeLead | cqrmodel.py:46-47 | `tf.reshape(x, [-1] + rest)` succeeds exactly when the fixed sizes have a positive product dividing the element count, and then infers the quotient |
| Shapes.FlattenAll | cqrmodel.py:235 | `tf.reshape(x, [-1])` flattens any tensor to its element count |
| Shapes.ReshapeLeadExact | cqrmodel.py:59 | a tensor of `b * prod(rest)` elements reshapes to `[b] + rest` |
| Shapes.BroadcastSnoc | cqrmodel.py:53 | broadcasting aligns shapes on the right: one more trailing axis on each side succeeds iff the two sizes are compatible, and appends their join |
| Shapes.Broadcast1 | cqrmodel.py:63 | rank-1 broadcasting succeeds iff the sizes are equal or one is 1 |
| Shapes.Broadcast2 | cqrmodel.py:237 | rank-2 broadcasting works axis by axis |
| Shapes.Broadcast3 | cqrmodel.py:42 | rank-3 broadcasting works axis by axis: equal sizes, or one of them 1 |
| Shapes.BroadcastSelf | cqrmodel.py:63 | a shape broadcasts against itself to itself |
| Shapes.Dense3 | cqrmodel.py:43 | `Dense(u)` maps [a, b, c] to [a, b, u] |
| Shapes.Dense2 | cqrmodel.py:68 | `Dense(u)` maps [a, b] to [a, u] |
| Shapes.NormAxis | cqrmodel.py:52 | a Python axis (possibly negative) is valid iff `-rank <= axis < rank`, and names axis or axis+rank |
| Shapes.Reduce | cqrmodel.py:55 | `reduce_*` over an axis succeeds exactly on a valid axis |
| Shapes.ReduceAxis1 | cqrmodel.py:104-106 | reducing axis 1 of [a, b, c] gives [a, c], and with keepdims over axis -2 gives [a, 1, c] |
| Shapes.AlongAxis | cqrmodel.py:52 | softmax and l2-normalisation along a valid axis keep the shape |
| Shapes.ExpandDims | cqrmodel.py:41 | `expand_dims` succeeds exactly for `-rank-1 <= axis <= rank` |
| Shapes.ExpandLast1 | cqrmodel.py:237 | `expand_dims(x, -1)` maps [a] to [a, 1] |
| Shapes.ExpandLast2 | cqrmodel.py:41 | `expand_dims(x, -1)` maps [a, b] to [a, b, 1] |
| Shapes.ConcatPair2 | cqrmodel.py:205 | concatenating [b, x] and [b, y] on axis 1 gives [b, x+y] |
| Shapes.ConcatPair3 | model_pair_add_tf.py:259 | concatenating [b, x, h] and [b, y, h] on axis 1 gives [b, x+y, h] |
| Shapes.ConcatRows | cqrmodel.py:205 | concatenating one or more [b, w_i] tensors on axis 1 gives [b, sum of w_i] |
| Shapes.StackCopies | model_pair_mix_rank.py:205 | stacking k >= 1 copies of [a, c] on axis 1 gives [a, k, c] |
| Shapes.TransposeSwap12 | cqrmodel.py:57 | `perm=[0, 2, 1]` swaps the last two axes |
| Shapes.Squeeze | model_pair_add_tf.py:263 | `squeeze` without an axis leaves no axis of size 1 and never adds axes |
| Shapes.SqueezeKeepsOthers | model_pair_add_tf.py:263 | a shape with no size-1 axis is left unchanged |
| Shapes.SqueezeRank3 | model_pair_add_tf.py:263 | `squeeze([a, b, 1])` also drops a or b when it is 1 |
| Pooling.MaskFramesKeeps | cqrmodel.py:39-42 | the frame mask built from one count per video, or no mask, keeps the frame shape [B, N, D] |
| Pooling.NewNeXtVLAD | cqrmodel.py:11-18 | the constructor raises iff `groups == 0`; `new_feature_size` is the floor of `expansion*feature_size / groups` |
| Pooling.RegroupKeepsBatch | cqrmodel.py:59 | the regrouping reshape to [-1, N*groups, new_feature_size] keeps the batch exactly when `groups` divides `expansion*feature_size` |
| Pooling.RegroupDivides | cqrmodel.py:59 | when `groups` divides the expanded width, the regrouping gives [B, N*groups, new_feature_size] |
| Pooling.RegroupMisses | cqrmodel.py:59 | when it does not, the regrouping never gives [B, N*groups, new_feature_size] |
| Pooling.RegroupOverflow | cqrmodel.py:59 | when it does not divide but the reshape still succeeds, the inferred batch is larger than B, which needs B > new_feature_size |
| Pooling.NeXtVLADAssignAccepts | cqrmodel.py:37-52 | with frames, clusters and a non-empty expanded width, the first half gives expanded frames [B, N, E*F], attention [B, N*G, 1] and assignments [B, N*G, C] |
| Pooling.NeXtVLADAssignRejects | cqrmodel.py:37-52 | with no frames, no clusters or an empty expanded width, the first half fails |
| Pooling.AttentionRegroup | cqrmodel.py:46 | the attention [B, N, G] regroups to [B, N*G, 1] |
| Pooling.FrameRows | cqrmodel.py:47 | the expanded frames [B, N, W] reshape to rows [B*N, W] |
| Pooling.AssignmentRegroup | cqrmodel.py:51 | the assignments [B*N, G*C] regroup to [B, N*G, C] |
| Pooling.NeXtVLADAggregateAccepts | cqrmodel.py:53-63 | with G dividing E*F, the aggregation gives the VLAD tensor [B, new_feature_size, C] |
| Pooling.NeXtVLADAggregateRejects | cqrmodel.py:53-63 | for a non-empty batch, with `new_feature_size == 0` or G not dividing E*F, the aggregation fails |
| Pooling.VladFlatten | cqrmodel.py:65-68 | the VLAD tensor flattens to [B, C*new_feature_size], and `fc` projects it to [B, output_size] |
| Pooling.NeXtVLADAccepts | cqrmodel.py:36-69 | under the conditions, the call gives [B, output_size], normalises over C columns, and has a pooled width of C*new_feature_size |
| Pooling.NeXtVLADRejects | cqrmodel.py:36-69 | if any condition fails, the call fails |
| Pooling.NeXtVLADShape | cqrmodel.py:36-69 | both directions: NeXtVLAD on [B, N, D] succeeds iff N, C and new_feature_size are non-zero and G divides E*F, and then has the shapes above |
| Pooling.SoftDBoFAssignShape | cqrmodel.py:96-103 | the projected frames as rows give assignments [B*N, C], iff `feature_size >= 1` |
| Pooling.SoftDBoFAccepts | cqrmodel.py:91-112 | with features, frames and clusters, SoftDBoF gives [B, output_size], normalises over C, and concatenates sum- and max-pools into width 2*C |
| Pooling.SoftDBoFShape | cqrmodel.py:91-112 | both directions: SoftDBoF succeeds iff `feature_size`, N and C are non-zero, and then has the shapes above |
| Pooling.GroupAttentionShape | cqrmodel.py:146-147 | group attention is [B, N*G, 1] iff N and G are non-zero |
| Pooling.NextSoftDBoFAttendWide | cqrmodel.py:143-151 | with a non-empty expanded width, the front gives the attention [B, N*G, 1] and the assignments [B*N, G*C] iff N and G are non-zero |
| Pooling.NextSoftDBoFAttendShape | cqrmodel.py:143-151 | the same with the expanded-width condition as a third conjunct; the softmax runs over all G*C columns before regrouping |
| Pooling.NextSoftDBoFPoolShape | cqrmodel.py:153-156 | the assignments regroup to [B, N*G, C] and sum-pool to [B, C], iff C is non-zero |
| Pooling.NextSoftDBoFShape | cqrmodel.py:136-163 | NextSoftDBoF succeeds iff E*F, N, G and C are non-zero, gives [B, output_size], normalises over G*C columns, and pools to width C (unlike NeXtVLAD) |
| Pooling.NewSENet | cqrmodel.py:182-187 | the constructor raises iff `ratio == 0`; the squeezed width is the floor of `channels / ratio` |
| Pooling.SENetKeepsShape | cqrmodel.py:189-192 | gating keeps the shape of an input whose last axis has `channels` entries, and rejects rank < 2 |
| Pooling.NewConcatDenseSE | cqrmodel.py:198-202 | the SENet gates `hidden_size` channels; the constructor raises iff `se_ratio == 0` |
| Pooling.ConcatDenseSEShape | cqrmodel.py:204-210 | fusing one or more [B, w_i] embeddings gives [B, hidden_size], whatever the widths; an empty list fails |
| Uniter.Clamp | cqrmodel.py:465 | a frame count cut to the mask's range never exceeds `num_segments` |
| Uniter.SequenceMask | cqrmodel.py:465-466 | the frame mask has one row per video and `num_segments` columns |
| Uniter.SequenceMaskRow | cqrmodel.py:465-466 | row b is `clamp(num_frames[b])` ones followed by zeros |
| Uniter.SequenceMaskCount | cqrmodel.py:465-466 | row b has exactly `clamp(num_frames[b], 0, num_segments)` ones |
| Uniter.Complement | cqrmodel.py:477-478 | `1 - x` keeps the row length |
| Uniter.NegativeMask | cqrmodel.py:477-478 | the negative mask is defined iff there is one frame count per text row |
| Uniter.NegativeMaskExact | cqrmodel.py:477-478 | the negative mask has length `seq_len + num_segments`, and is 1 exactly at text padding and at frame slots `>= num_frames` |
| Uniter.UniterEncodeShape | cqrmodel.py:461-470 | on frames [B, N, D], text [B, S] and B counts, the front gives the mask [B, N] and the encoder output [B, L, W] |
| Uniter.PoolMax | cqrmodel.py:476-480 | the `max` pooling gives [B, H] iff the encoder length broadcasts against S + N |
| Uniter.UniterShape | cqrmodel.py:443-485 | `Uniter.call` succeeds exactly for `cls` (with a non-empty sequence), `mean`, or `max` (with matching lengths); any other pooling name leaves the embedding unbound and fails. It returns predictions [B, num_labels], embedding [B, hidden_size], and MLM scores cut to the first `seq_len` positions |
| Uniter.UniterAligned | cqrmodel.py:443-485 | when the encoder returns one position per token and frame, each of the three pooling names succeeds, with MLM scores [B, S, vocab] |
| Uniter.NewUniterVlad | cqrmodel.py:521-522 | `Uniter_vlad` builds NeXtVLAD over 768 features with defaults, so `new_feature_size == 192` and the output is `hidden_size` |
| Uniter.UniterVladShape | cqrmodel.py:538-572 | `Uniter_vlad.call` succeeds iff the sequence and the clusters are non-empty (8 divides 2*768, so the regrouping is safe), giving [B, num_labels], [B, hidden_size] and the cropped scores |
| MaskedLoss.FlattenLength | cqrmodel.py:492 | flattening B rows of S labels gives B*S labels |
| MaskedLoss.BooleanMask | cqrmodel.py:493-494 | `boolean_mask` succeeds exactly when the mask has one entry per row |
| MaskedLoss.KeepFacts | cqrmodel.py:493-494 | masking keeps as many elements as the mask has true entries, each from a true position |
| MaskedLoss.ActivePairs | cqrmodel.py:492-494 | the reference selection of (label, row) pairs keeps at most all of them |
| MaskedLoss.Pairs | cqrmodel.py:493-494 | pairing two equal-length lists puts the i-th label with the i-th row |
| MaskedLoss.PairsAppend | cqrmodel.py:493-494 | pairing distributes over concatenation |
| MaskedLoss.KeepPairs | cqrmodel.py:490-495 | masking labels and logits rows with the same mask and pairing them is filtering the (label, row) pairs by label |
| MaskedLoss.SelectedIsActivePairs | cqrtrain_mlm_mm_tag.py:58-66 | `compute_loss` selects rows iff the logits have one row per label; then it keeps exactly the pairs whose label is not -100, in order, with as many labels as rows |
| MaskedLoss.ActivePairsExact | cqrtrain_mlm_mm_tag.py:63-65 | no kept pair has label -100, and every pair that does not is kept |
| MaskedLoss.SelectedCount | cqrtrain_mlm_mm_tag.py:63-65 | the number of labels kept is the number of labels other than -100 |
| MaskedLoss.ShapeListSizes | cqrtrain_mlm_mm_tag.py:40-55 | `shape_list` reports the actual shape; with a known rank it answers per axis, statically exactly where the size is known; with an unknown rank it returns the dynamic shape |
| VariablePartition.TakeDrop | cqrmodel.py:252-256 | the two slices of `optimize` concatenate back to the gradient list |
| VariablePartition.ZipSplit | cqrmodel.py:252-256 | zipping the two slices with the two variable lists is zipping the whole: each gradient stays with its own variable |
| VariablePartition.Split | cqrmodel.py:252-256 | the sizes of the two optimizers' update lists |
| VariablePartition.VariableCache.constructor | cqrmodel.py:230 | all four cached fields start as `None` |
| VariablePartition.VariableCache.GetVariables | cqrmodel.py:243-250 | while the cache is `None` or empty, it stores the encoder's list, its length, the other list and their concatenation, and returns the concatenation; afterwards it changes nothing and returns the cached list |
| VariablePartition.VariableCache.Optimize | cqrmodel.py:252-256 | it fails iff `get_variables` has not run; otherwise it sends `gradients[:num_bert]` to the encoder's variables and the rest to the others. With one gradient per variable, every (gradient, variable) pair goes to exactly one optimizer, and the encoder's optimizer gets `num_bert` of them |
| VariablePartition.StaleAfterFirstCall | cqrmodel.py:243-250 | after a first non-empty call, later calls return the first list even when the layers' variables have changed |
| VariablePartition.AllLayersTrained | model_pair_add_tf.py:304-313 | every class except `MultiModal_mix5` lists every weighted layer its call uses (dropout has no weights), so nothing it runs goes untrained |
| VariablePartition.ClassifierModelTrains | cqrmodel.py:243-250 | the same for the single-video classifiers of cqrmodel.py |
| VariablePartition.UniterModelTrains | cqrmodel.py:497-504 | the same for the three Uniter classes |
| VariablePartition.PairModelTrains | model_pair_mix_rank.py:142-149 | the same for the paired classes other than `MultiModal_mix5` |
| VariablePartition.Mix5Untrained | model_pair_mix_rank.py:602-613 | `MultiModal_mix5` leaves untrained exactly `nextvlad_4/5`, `fusion_4/5` and `classifier_4/5`, which its call runs |
| VariablePartition.Mix5UntrainedIsExtra | model_pair_mix_rank.py:602-613 | every untrained layer of `MultiModal_mix5` is in its fourth or fifth branch |
| VariablePartition.Mix5ExtraCalled | model_pair_mix_rank.py:473-600 | the fourth and fifth branches are run by the call |
| VariablePartition.Mix5ExtraUnlisted | model_pair_mix_rank.py:602-613 | the fourth and fifth branches are not listed in `normal_variables` |
| VariablePartition.Mix5CorrectedTrains | model_pair_mix_rank.py:602-613 | with the fourth and fifth branches appended to its list, every weighted layer the call runs (the encoder aside) is trained |
| VariablePartition.Mix5CorrectedCalled | model_pair_mix_rank.py:602-613 | the corrected list still names only layers the call runs, never the encoder |
| VariablePartition.NormalLayersCalled | model_pair_mix_rank.py:240-249 | for every class, each listed layer is one the call uses, and the encoder is never among them |
| VariablePartition.CqrListedCalled | cqrmodel.py:243-250 | the same for the classes of cqrmodel.py |
| VariablePartition.PairListedCalled | model_pair_mix_rank.py:142-149 | the same for the paired classes |
| VariablePartition.VariablesOwned | cqrmodel.py:501-503 | a variable appears in the concatenation only if its layer is listed |
| VariablePartition.UnlistedNeverUpdated | model_pair_mix_rank.py:602-620 | a variable of an unlisted layer reaches neither optimizer, whatever the gradients |
| MixModels.VisionShape | model_pair_mix_rank.py:120-133 | a branch's video embedding (pooled frames times the `frame_num > 0` indicator) is [B, vlad_hidden_size] iff the pooling accepts the frames |
| MixModels.PoolCallShape | model_pair_mix_rank.py:33-66 | the branch's pooling layer succeeds iff it accepts the frames, and then gives [B, vlad_hidden_size] |
| MixModels.GateShape | model_pair_mix_rank.py:188-191 | the gate input is the mean frame (D) in `MultiModal_mix2` and the mean frame with the mapped text (D + 1024) in the others (lines 298-301); the weights are [B, units] |
| MixModels.MixShape | model_pair_mix_rank.py:204-206 | mixing n copies of [B, W] with [B, K] weights gives [B, W] iff n >= 1 and K broadcasts against n |
| MixModels.FusedShape | model_pair_mix_rank.py:120-135 | a branch's fused vector is [B, hidden_size] iff the pooling accepts the frames |
| MixModels.ClassOutputs | model_pair_mix_rank.py:184-238 | the class-specific part of a side yields as many values as a side of that class returns |
| MixModels.ClassOutputsShape | model_pair_mix_rank.py:184-238 | per class, a side's outputs after the text embedding have the documented shapes iff the pooling accepts the frames |
| MixModels.MixtureOutputs | model_pair_mix_rank.py:473-525 | a side of a mixture class yields three values |
| MixModels.MixtureHead | model_pair_mix_rank.py:662-708 | the mixture heads yield three values |
| MixModels.MixtureHeadShape | model_pair_mix_rank.py:662-708 | the mixture heads give the mixed embedding (width 256 in `MultiModal_mix_1024`, `hidden_size` otherwise), the prediction `sigmoid(mix_logit)` of shape [B, num_labels], and one sigmoid prediction per branch (`aux_preds`) of that shape; a sigmoid keeps its logits' shape |
| MixModels.MixtureShape | model_pair_mix_rank.py:473-525 | a side of `mix5`, `mix_1024` or `mix_nextsoft` gives the three expected outputs when the pooling accepts |
| MixModels.SideShape | model_pair_mix_rank.py:294-399 | one side succeeds iff the pooling accepts the frames, and then has exactly the expected shapes; the `mix_weights` width equals the number of stacked branches (3, or 5 in `mix5`) |
| MixModels.SideOutputs | model_pair_mix_rank.py:836-939 | a side contributes 2, 1 or 3 values according to the class |
| MixModels.Interleave | model_pair_mix_rank.py:600 | the return statement alternates the sides: value 2i is the first side's i-th value, value 2i+1 the second side's |
| MixModels.InterleavePairs | model_pair_mix_rank.py:140 | two values per side come out as `final_1, final_2, pred_1, pred_2` |
| MixModels.MixCall | model_pair_mix_rank.py:120-140 | the call returns twice a side's number of values: 4, 2 or 6 |
| MixModels.MixCallShape | model_pair_mix_rank.py:101-939 | a pair succeeds iff the pooling accepts both videos' frames and the two videos' frames and texts have the same widths (the second video goes through the `Dense` layers the first one built); it returns the two sides' expected outputs interleaved |
| JointModels.VisualShape | model_pair_add_tf.py:128-133 | the transformer sequence is max-pooled over its frame axis and fused with the NeXtVLAD embedding into [B, vlad_hidden_size] iff NeXtVLAD accepts the frames; the "if" half assumes the video transformer accepts any frame count |
| JointModels.TransformerSide | model_pair_add_tf.py:124-135 | a side gives two values |
| JointModels.TransformerSideShape | model_pair_add_tf.py:124-135 | a side gives [B, hidden_size] and [B, num_labels] iff NeXtVLAD accepts its frames; the "if" half assumes the video transformer accepts any frame count |
| JointModels.TransformerCall | model_pair_add_tf.py:153 | `MultiModal.call` returns four values |
| JointModels.TransformerCallShape | model_pair_add_tf.py:123-153 | for both videos: success iff NeXtVLAD accepts both and their frame and text widths agree (shared layers), in the order `final_1, final_2, pred_1, pred_2`; the "if" half assumes the video transformer accepts any frame count |
| JointModels.JointCollapsedShape | model_pair_add_tf.py:251-262 | text and encoded frames concatenate to exactly the `max_frames + bert_seq_length` positions the joint encoder is built for; the transpose and `Dense(1)` collapse to [B, hidden_size, 1]; all of this holds iff the inputs fit the encoders |
| JointModels.SqueezeLast | model_pair_add_tf.py:263 | squeezing only the last axis needs it to be 1 and drops exactly it |
| JointModels.JointSideAsWritten | model_pair_add_tf.py:251-274 | the side as written gives two values |
| JointModels.JointSideAsWrittenShape | model_pair_add_tf.py:251-274 | as written, a side that fits the encoders succeeds only when neither the batch nor `hidden_size` is 1 |
| JointModels.SingleVideoRejected | model_pair_add_tf.py:263 | as written, a single video (B = 1) gets no predictions |
| JointModels.JointSide | model_pair_add_tf.py:251-274 | the corrected side gives two values |
| JointModels.JointSideShape | model_pair_add_tf.py:251-274 | with the squeeze on the collapsed axis, a side gives [B, hidden_size] and [B, num_labels] for every B, iff the inputs fit the encoders |
| JointModels.JointCallAsWritten | model_pair_add_tf.py:302 | `MultiModalV2.call` as written returns four values |
| JointModels.JointCallAsWrittenShape | model_pair_add_tf.py:224-302 | as written, two videos that fit the encoders get `[B, hidden_size]` embeddings and `[B, num_labels]` predictions only when neither batch is a single video and `hidden_size != 1`; every batch of one video is rejected |
| JointModels.JointCall | model_pair_add_tf.py:263 | the call with the squeeze corrected to the collapsed axis returns four values |
| JointModels.JointCallShape | model_pair_add_tf.py:224-302 | corrected: success for any batch sizes iff both videos fit the encoders and their hidden states have the same width |
| TrainLoop.Checkpoint.constructor | cqrtrain_mix.py:66-68 | the checkpoint holds the step counter it was restored with |
| TrainLoop.Train | cqrtrain_mix.py:120-146 | the epoch loop produces exactly the trained steps and the final counter of the reference run `EpochsRun` |
| TrainLoop.TrainEpoch | cqrtrain_mix.py:121-146 | one epoch advances the counter before the cap check and breaks out of the batch loop only, as `BatchesRun` says |
| TrainLoop.TrainStep | cqrtrain_mix.py:126-146 | a trained step logs on `print_freq` multiples, evaluates on `eval_freq` multiples, and saves a checkpoint numbered `step` only inside an evaluation whose score exceeds 0.45 |
| TrainLoop.BatchesRunClosed | cqrtrain_mix.py:121-126 | one epoch in closed form: it trains steps s+1, s+2, ... while they stay within `total_steps`; on reaching the cap the counter ends one past the larger of s and `total_steps` |
| TrainLoop.EpochsRunCount | cqrtrain_mix.py:120-126 | a run trains as many steps as the smaller of the steps left before the cap and the batches left in the remaining epochs |
| TrainLoop.EpochsRunSteps | cqrtrain_mlm_mm_tag.py:113-139 | the trained steps are s+1, s+2, ... in order, each in a remaining epoch, each logged, evaluated and saved as its step says |
| TrainLoop.EpochsRunOrdered | cqrtrain_mlm_mm_tag.py:113-114 | trained steps come epoch by epoch, never going back |
| TrainLoop.WithinBudget | cqrtrain_mlm_mm_tag.py:115-119 | training happens only for `step <= total_steps`, and only at steps after the starting counter |
| TrainLoop.PastCap | cqrtrain_mix.py:120-125 | past the cap nothing is trained, yet each remaining epoch advances the counter by one (given a non-empty training set), since `break` leaves only the batch loop |
| TrainLoop.WithinCap | cqrtrain_mix.py:120-126 | when the cap is never reached, every batch of every remaining epoch is trained, and the counter advances by their number |
| TrainLoop.CollectEmbeddings | cqrtrain_mix.py:133-138 | the dictionary loop builds `LastWins` of all (vid, embedding) pairs of the validation batches, in order |
| TrainLoop.LastWinsKeys | cqrtrain_mlm_mm_tag.py:126-131 | a vid is in `vid_embedding` exactly when some pair carries it |
| TrainLoop.LastWinsLatest | cqrtrain_mlm_mm_tag.py:126-131 | each vid maps to the embedding of the last pair that carries it |
| TrainLoop.MixLoss | cqrtrain_mix.py:86-115 | the training loss has a value iff there is at least one auxiliary prediction; with none, `loss_2 / len(aux_preds)` raises `ZeroDivisionError` when there are no contrastive terms either and is inf or NaN otherwise. The validation loss always has a value |
| TrainLoop.SumSnoc | cqrtrain_mix.py:88-93 | one more term added in the loop adds it to the sum |
| TrainLoop.SumCons | cqrtrain_mix.py:87-89 | the first prediction's term followed by the auxiliary ones sums to the first plus the rest |
| TrainLoop.Accumulate | cqrtrain_mix.py:88-93 | the accumulating for-loops compute `init + scale * sum(terms)` |
| TrainLoop.MixTrainLoss | cqrtrain_mix.py:86-94 | `train_step`'s loop-built loss equals the reference `MixLoss(t, training)` |
| TrainLoop.MixValLoss | cqrtrain_mix.py:107-115 | `val_step`'s loop-built loss equals the reference `MixLoss(t, validation)` |
| TrainLoop.TrainAndValidation | cqrtrain_mix.py:86-115 | training and validation share `loss_0` (num_labels times the 1 + len(aux_preds) cross-entropies) and `loss_2`; their totals differ by 9 times the regulariser plus the change in the contrastive share |
| TrainLoop.MlmLoss | cqrtrain_mlm_mm_tag.py:91-95 | the MLM step loss is the classification loss plus ten times the mean token loss; when no token is kept, `reduce_mean` of the empty loss vector is NaN, so there is no value |

## Left out

- Floating-point numerics are not modelled. This covers softmax,
  l2-normalisation, batch normalisation, dense weights, SENet gating values,
  mixture weighting, every loss value (cross-entropy, contrastive,
  regularisation) and the Spearman score. The model keeps shapes, index sets
  and opaque loss terms.
- TrainLoop.MixLoss, TrainLoop.MlmLoss, TrainLoop.Accumulate: the loss terms
  are exact reals, not float32. Rounding and the order of float additions
  are not modelled.
- The pretrained and external layers are represented only by the shapes
  they return:
  - the BERT and RoFormer encoders and the MLM heads;
  - the `Video_transformer` and `Transformer_Encoder` that
    `model_pair_add_tf.py` imports from `model_transformer`.

  `model_transformer.py`, `bert.py` and `roformer.py` are not part of this
  model.
- The `Video_transformer` class of `cqrmodel.py` (lines 166-177) is not
  modelled. It needs `TransformerEncoder`, whose import at line 7 is
  commented out, so the class cannot be built.
- The single-video classifiers of `cqrmodel.py` (`MultiModal`,
  `MultiModal_soft`, `MultiModal_nextsoft`, `MultiModal_mlm`) have no shape
  model of their own `call`. Their pipeline is one side of the plain pair
  model in `MixModels`: pooling, the `frame_num > 0` indicator, fusion and
  classifier. Their layer lists are in `ModelLayers` and
  `VariablePartition`.
- The `frame_num > 0` indicator multiplies the vision embedding. Only its
  [B, 1] shape is modelled, not the values of the product.
- JointModels.EncoderCall: the external `Transformer_Encoder` is assumed
  to accept exactly [B, seq_len, d_model] and to keep that shape. Its
  source is not part of this model. The "only if" halves of
  `JointCollapsedShape`, `JointSideAsWrittenShape`, `JointSideShape`,
  `JointCallAsWrittenShape` and `JointCallShape` rest on this assumption.
- JointModels.VideoTransformerCall: the external `Video_transformer`,
  built with `seq_len=max_frames`, is assumed to accept any rank-3
  [B, N, D], whatever N, and to map it to [B, length, width]. Its source is
  not part of this model. The "if" halves of `JointModels.VisualShape`,
  `JointModels.TransformerSideShape` and `JointModels.TransformerCallShape`
  rest on this assumption; if the layer refused N != max_frames, those
  lemmas would need that conjunct too.
- Layers are shape functions. The input width a Keras layer fixes when it
  is first built is modelled only within one `call`: the pair calls refuse
  a second video whose widths differ from the first one's. A width fixed
  by an earlier call is not modelled.
- `_parse_category` is not called: its only call, at
  `data_helper_roformer.py:90`, is commented out. It is modelled as
  written, with `FeatureParsing.ParseCategory` and its lemmas.
- I/O and pipeline plumbing are left out:
  - TFRecord parsing, the tokenizer, `decode_raw` and float16 casting;
  - the `tf.data` shuffle, batching and prefetch;
  - `glob`, logging, argument parsing, checkpoint restore and save;
  - the `__main__` blocks.

  Saving is recorded as a flag on the step log.
- The Spearman score of an evaluation is a parameter of the schedule, as a
  function of the step. How the embeddings flow into it, beyond
  `TrainLoop.CollectEmbeddings`, is not modelled.
- `create_optimizer` schedules and `apply_gradients` are left out.
  `optimize` is modelled up to the (gradient, variable) lists each optimizer
  receives.
- The class order of `MultiLabelBinarizer` is a parameter: ascending, each
  selected tag once.
- The loss terms of `cqrtrain_mix.py` come from `cqrmodel_mix.py`, which is
  not part of this model. The terms are parameters, and only the way
  `train_step` and `val_step` combine them is modelled.
- Pooling.NeXtVLADShape, Pooling.NeXtVLADRejects,
  Pooling.NeXtVLADAggregateRejects, Pooling.RegroupKeepsBatch,
  Pooling.RegroupMisses, Pooling.RegroupOverflow, MixModels.VisionShape,
  MixModels.PoolCallShape, MixModels.FusedShape, MixModels.SideShape,
  MixModels.ClassOutputsShape, MixModels.MixtureShape,
  MixModels.MixCallShape, JointModels.VisualShape,
  JointModels.TransformerSideShape, JointModels.TransformerCallShape,
  Uniter.UniterVladShape: these lemmas are stated for non-empty batches
  (B >= 1). For B = 0 the `-1` reshapes
  infer 0, and the model does not state what the layers then produce.
- Pooling.MaskFramesKeeps: the frame counts are given as one entry per
  video. A count tensor of another shape is only modelled through the
  broadcasting rules.
- `Uniter_roformer.call` is the same pipeline as `Uniter.call` with another
  encoder, so it shares `Uniter.UniterCall`.
- SoftDBoF and NextSoftDBoF create a `cluster_weights2` weight in `build`
  that their `call` never reads. It is absent from their shape pipelines.
- The distinctness of each class's `normal_variables` list is not proved.
  The source does not promise it, and only membership in the list matters
  to `VariablePartition.UnlistedNeverUpdated`.

## Findings

| source | as written | input that shows it | evidently intended | confidence | as-written member | corrected member |
|---|---|---|---|---|---|---|
| model_pair_add_tf.py:263 | `tf.squeeze(embedding_1)` without an axis drops every size-1 axis of [bs, d_model, 1] (likewise line 289 for the second video) | a batch of one video that fits the encoders: the embedding becomes [d_model], and the classifier `Dense` at line 274 refuses a rank-1 input | squeeze only the collapsed last axis, giving the `[bs, d_model]` of the comment at line 263 | not executed | JointModels.SingleVideoRejected | JointModels.JointSideShape |
| model_pair_mix_rank.py:602-613 | `MultiModal_mix5.get_variables` lists only branches 1-3, while `call` runs five branches (lines 473-600) | any training step: the variables of `nextvlad_4/5`, `fusion_4/5` and `classifier_4/5` are in neither optimizer's list, so they keep their initial values | list the fourth and fifth branches like the first three | not executed | VariablePartition.Mix5Untrained | VariablePartition.Mix5CorrectedTrains |
