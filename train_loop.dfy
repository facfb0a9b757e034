/** The training scripts `cqrtrain_mix.py` and `cqrtrain_mlm_mm_tag.py`:
    the epoch/batch loop that advances the checkpoint's step counter and
    decides when to train, log, evaluate and save; the collection of video
    embeddings during an evaluation; and how the per-step losses are put
    together from their terms.  The two scripts share the same loop.  The
    dataset contributes only its number of batches, an evaluation only its
    Spearman score, and every loss term is an opaque real. */
module TrainLoop {
  import opened Wrappers
  import opened VariablePartition

  // ---------------------------------------------------------------------
  // The step schedule

  /** `checkpoint.step`, the counter that survives restarts. */
  class Checkpoint {
    var step: int

    constructor(step: int)
      ensures this.step == step
    {
      this.step := step;
    }
  }

  /** The command-line arguments of the loop, the number of batches in the
      training set, and the Spearman score the evaluation at each step
      reports. */
  datatype Schedule = Schedule(startEpoch: int, epochs: int, batches: nat, totalSteps: int,
                               printFreq: int, evalFreq: int, score: int -> real)

  /** A checkpoint is saved when the score exceeds this. */
  const SaveThreshold: real := 0.45

  /** `step % freq == 0` on the numpy step: divisibility, and a frequency
      of 0 gives remainder 0, so it always fires. */
  predicate Fires(step: int, freq: int)
  {
    freq == 0 || step % freq == 0
  }

  /** What happened at one trained step: the epoch and step, whether the
      recorder was logged and reset, whether an evaluation ran, and whether
      a checkpoint numbered `step` was saved. */
  datatype StepLog = StepLog(epoch: int, step: int, logged: bool, evaluated: bool, saved: bool)

  /** The reference record of a trained step. */
  function StepRecord(c: Schedule, epoch: int, step: int): StepLog
  {
    var evaluated := Fires(step, c.evalFreq);
    StepLog(epoch, step, Fires(step, c.printFreq), evaluated, evaluated && c.score(step) > SaveThreshold)
  }

  /** The trained steps of a run and the final value of the counter. */
  datatype Outcome = Outcome(logs: seq<StepLog>, step: int)

  /** The batch loop of one epoch from counter `step` with `remaining`
      batches left: each batch first advances the counter, then leaves the
      loop if the counter is past `total_steps`, and trains otherwise. */
  function BatchesRun(c: Schedule, epoch: int, step: int, remaining: nat): Outcome
    decreases remaining
  {
    if remaining == 0 then Outcome([], step)
    else if step + 1 > c.totalSteps then Outcome([], step + 1)
    else
      var rest := BatchesRun(c, epoch, step + 1, remaining - 1);
      Outcome([StepRecord(c, epoch, step + 1)] + rest.logs, rest.step)
  }

  /** The epoch loop from `epoch` to `epochs`: the `break` only ends an
      epoch's batch loop, and the next epoch starts anew. */
  function EpochsRun(c: Schedule, epoch: int, step: int): Outcome
    decreases c.epochs - epoch
  {
    if epoch >= c.epochs then Outcome([], step)
    else
      var first := BatchesRun(c, epoch, step, c.batches);
      var rest := EpochsRun(c, epoch + 1, first.step);
      Outcome(first.logs + rest.logs, rest.step)
  }

  /** The loop of `train`, lines 120-146 of `cqrtrain_mix.py` and 113-139
      of `cqrtrain_mlm_mm_tag.py`. */
  method Train(ckpt: Checkpoint, c: Schedule) returns (logs: seq<StepLog>)
    modifies ckpt
    ensures logs == EpochsRun(c, c.startEpoch, old(ckpt.step)).logs
    ensures ckpt.step == EpochsRun(c, c.startEpoch, old(ckpt.step)).step
  {
    ghost var total := EpochsRun(c, c.startEpoch, ckpt.step);
    logs := [];
    var epoch := c.startEpoch;
    while epoch < c.epochs
      invariant logs + EpochsRun(c, epoch, ckpt.step).logs == total.logs
      invariant EpochsRun(c, epoch, ckpt.step).step == total.step
      decreases c.epochs - epoch
    {
      ghost var rest := EpochsRun(c, epoch, ckpt.step);
      var epochLogs := TrainEpoch(ckpt, c, epoch);
      ghost var later := EpochsRun(c, epoch + 1, ckpt.step);
      assert rest == Outcome(epochLogs + later.logs, later.step);
      assert (logs + epochLogs) + later.logs == logs + rest.logs;
      logs := logs + epochLogs;
      epoch := epoch + 1;
    }
  }

  /** One pass over the training set: the batch loop of an epoch. */
  method TrainEpoch(ckpt: Checkpoint, c: Schedule, epoch: int) returns (logs: seq<StepLog>)
    modifies ckpt
    ensures logs == BatchesRun(c, epoch, old(ckpt.step), c.batches).logs
    ensures ckpt.step == BatchesRun(c, epoch, old(ckpt.step), c.batches).step
  {
    ghost var whole := BatchesRun(c, epoch, ckpt.step, c.batches);
    logs := [];
    var i := 0;
    while i < c.batches
      invariant 0 <= i <= c.batches
      invariant logs + BatchesRun(c, epoch, ckpt.step, c.batches - i).logs == whole.logs
      invariant BatchesRun(c, epoch, ckpt.step, c.batches - i).step == whole.step
    {
      ghost var remaining := BatchesRun(c, epoch, ckpt.step, c.batches - i);
      ckpt.step := ckpt.step + 1;
      var step := ckpt.step;
      if step > c.totalSteps {
        assert remaining == Outcome([], step);
        assert logs == whole.logs;
        break;
      }
      var log := TrainStep(c, epoch, step);
      assert remaining.logs == [log] + BatchesRun(c, epoch, step, c.batches - (i + 1)).logs;
      logs := logs + [log];
      i := i + 1;
    }
  }

  /** The body of a batch below the cap: train, then log and reset the
      recorder when the step is a multiple of `print_freq`, and evaluate
      when it is a multiple of `eval_freq`, saving a checkpoint numbered
      `step` when the score passes the threshold. */
  method TrainStep(c: Schedule, epoch: int, step: int) returns (log: StepLog)
    ensures log == StepRecord(c, epoch, step)
  {
    var logged, evaluated, saved := false, false, false;
    if Fires(step, c.printFreq) {
      logged := true;
    }
    if Fires(step, c.evalFreq) {
      evaluated := true;
      var spearman := c.score(step);
      if spearman > SaveThreshold {
        saved := true;
      }
    }
    log := StepLog(epoch, step, logged, evaluated, saved);
  }

  /** One epoch in closed form: with K batches from counter s it trains
      steps s+1, s+2, ... for as long as they stay within `total_steps`;
      when it runs into the cap the counter ends one past the larger of s
      and `total_steps`. */
  lemma {:induction false} BatchesRunClosed(c: Schedule, epoch: int, s: int, k: nat)
    decreases k
    ensures var r := BatchesRun(c, epoch, s, k);
            r.step == (if k == 0 then s
                       else if s + k <= c.totalSteps then s + k
                       else if s <= c.totalSteps then c.totalSteps + 1 else s + 1) &&
            |r.logs| == (if k == 0 || s >= c.totalSteps then 0
                         else if s + k <= c.totalSteps then k else c.totalSteps - s) &&
            forall i :: 0 <= i < |r.logs| ==> r.logs[i] == StepRecord(c, epoch, s + 1 + i)
  {
    if k > 0 && s + 1 <= c.totalSteps {
      BatchesRunClosed(c, epoch, s + 1, k - 1);
      var r := BatchesRun(c, epoch, s, k);
      var rest := BatchesRun(c, epoch, s + 1, k - 1);
      assert r.logs == [StepRecord(c, epoch, s + 1)] + rest.logs;
      forall i | 0 <= i < |r.logs| ensures r.logs[i] == StepRecord(c, epoch, s + 1 + i) {
        if i > 0 {
          assert r.logs[i] == rest.logs[i - 1];
        }
      }
    }
  }

  /** The number of epochs left to run from `epoch`. */
  function EpochsLeft(c: Schedule, epoch: int): nat
  {
    if epoch >= c.epochs then 0 else c.epochs - epoch
  }

  /** The whole run from counter s trains m steps, where m is the smaller
      of the steps left before `total_steps` and the batches left in the
      remaining epochs. */
  lemma {:induction false} EpochsRunCount(c: Schedule, e: int, s: int)
    ensures var budget := if s >= c.totalSteps then 0 else c.totalSteps - s;
            var room := EpochsLeft(c, e) * c.batches;
            |EpochsRun(c, e, s).logs| == if budget <= room then budget else room
    decreases c.epochs - e
  {
    if e < c.epochs {
      var k := c.batches;
      var first := BatchesRun(c, e, s, k);
      BatchesRunClosed(c, e, s, k);
      EpochsRunCount(c, e + 1, first.step);
      assert EpochsLeft(c, e + 1) == EpochsLeft(c, e) - 1;
      MulSucc(EpochsLeft(c, e), k);
    }
  }

  /** (a - 1) * k + k == a * k, and so k <= a * k, for a >= 1. */
  lemma MulSucc(a: nat, k: nat)
    requires a >= 1
    ensures (a - 1) * k + k == a * k && k <= a * k
  {
  }

  /** Logs of the steps s+1, s+2, ... in order, each in an epoch from e
      to the last and each recorded as `StepRecord` says. */
  predicate StepsFrom(c: Schedule, e: int, s: int, logs: seq<StepLog>)
  {
    forall i {:trigger logs[i]} :: 0 <= i < |logs| ==>
      logs[i].step == s + 1 + i && e <= logs[i].epoch < c.epochs &&
      logs[i] == StepRecord(c, logs[i].epoch, logs[i].step)
  }

  /** Logs whose epochs never go back. */
  predicate EpochsInOrder(logs: seq<StepLog>)
  {
    forall i, j :: 0 <= i < j < |logs| ==> logs[i].epoch <= logs[j].epoch
  }

  /** The trained steps of a run from counter s are s+1, s+2, ... in
      order, each in a remaining epoch, each logged, evaluated and saved
      exactly as its record says. */
  lemma {:induction false} EpochsRunSteps(c: Schedule, e: int, s: int)
    ensures StepsFrom(c, e, s, EpochsRun(c, e, s).logs)
    decreases c.epochs - e
  {
    if e < c.epochs {
      var k := c.batches;
      var first := BatchesRun(c, e, s, k);
      var rest := EpochsRun(c, e + 1, first.step);
      var r := EpochsRun(c, e, s);
      BatchesRunClosed(c, e, s, k);
      EpochsRunSteps(c, e + 1, first.step);
      assert r.logs == first.logs + rest.logs;
      EpochsRunCount(c, e + 1, first.step);
      assert first.step <= c.totalSteps ==> first.step == s + |first.logs|;
      forall i | 0 <= i < |r.logs|
        ensures r.logs[i].step == s + 1 + i && e <= r.logs[i].epoch < c.epochs &&
                r.logs[i] == StepRecord(c, r.logs[i].epoch, r.logs[i].step)
      {
        if i >= |first.logs| {
          assert r.logs[i] == rest.logs[i - |first.logs|];
        }
      }
    }
  }

  /** The trained steps come epoch by epoch, in order. */
  lemma {:induction false} EpochsRunOrdered(c: Schedule, e: int, s: int)
    ensures EpochsInOrder(EpochsRun(c, e, s).logs)
    decreases c.epochs - e
  {
    if e < c.epochs {
      var k := c.batches;
      var first := BatchesRun(c, e, s, k);
      var rest := EpochsRun(c, e + 1, first.step);
      var r := EpochsRun(c, e, s);
      BatchesRunClosed(c, e, s, k);
      EpochsRunSteps(c, e + 1, first.step);
      EpochsRunOrdered(c, e + 1, first.step);
      assert r.logs == first.logs + rest.logs;
      forall i, j | 0 <= i < j < |r.logs| ensures r.logs[i].epoch <= r.logs[j].epoch {
        var n := |first.logs|;
        if i < n {
          assert r.logs[i] == first.logs[i] == StepRecord(c, e, s + 1 + i);
          assert r.logs[i].epoch == e;
          if j < n {
            assert r.logs[j] == first.logs[j] == StepRecord(c, e, s + 1 + j);
          } else {
            assert r.logs[j] == rest.logs[j - n];
            assert e + 1 <= rest.logs[j - n].epoch;
          }
        } else {
          assert r.logs[i] == rest.logs[i - n] && r.logs[j] == rest.logs[j - n];
          assert rest.logs[i - n].epoch <= rest.logs[j - n].epoch;
        }
      }
    }
  }

  /** Training happens only for `step <= total_steps`, and only at steps
      the run has not yet passed. */
  lemma WithinBudget(c: Schedule, e: int, s: int)
    ensures forall l :: l in EpochsRun(c, e, s).logs ==> s < l.step <= c.totalSteps
  {
    EpochsRunCount(c, e, s);
    EpochsRunSteps(c, e, s);
  }

  /** Once the counter has reached `total_steps`, nothing more is trained,
      yet every remaining epoch still advances the counter by one (when
      the training set is not empty), since `break` leaves only the batch
      loop. */
  lemma {:induction false} PastCap(c: Schedule, e: int, s: int)
    requires s >= c.totalSteps
    ensures EpochsRun(c, e, s) == Outcome([], s + (if c.batches >= 1 then EpochsLeft(c, e) else 0))
    decreases c.epochs - e
  {
    if e < c.epochs {
      BatchesRunClosed(c, e, s, c.batches);
      PastCap(c, e + 1, BatchesRun(c, e, s, c.batches).step);
    }
  }

  /** When the cap is never reached, every batch of every remaining epoch
      is trained and the counter advances by their number. */
  lemma {:induction false} WithinCap(c: Schedule, e: int, s: int)
    requires s + EpochsLeft(c, e) * c.batches <= c.totalSteps
    ensures EpochsRun(c, e, s).step == s + EpochsLeft(c, e) * c.batches
    ensures |EpochsRun(c, e, s).logs| == EpochsLeft(c, e) * c.batches
    decreases c.epochs - e
  {
    if e < c.epochs {
      var k := c.batches;
      MulSucc(EpochsLeft(c, e), k);
      BatchesRunClosed(c, e, s, k);
      WithinCap(c, e + 1, BatchesRun(c, e, s, k).step);
    }
  }

  // ---------------------------------------------------------------------
  // Collecting the embeddings of an evaluation

  /** The (vid, embedding) pairs of the validation batches in order; each
      batch's two lists are zipped, so the shorter one bounds it. */
  function AllPairs<E>(batches: seq<(seq<string>, seq<E>)>): seq<(string, E)>
  {
    if batches == [] then []
    else
      var last := batches[|batches| - 1];
      AllPairs(batches[..|batches| - 1]) + Zip(last.0, last.1)
  }

  /** A dictionary filled by assigning the pairs in order. */
  function LastWins<E>(pairs: seq<(string, E)>): map<string, E>
  {
    if pairs == [] then map[]
    else
      var last := pairs[|pairs| - 1];
      LastWins(pairs[..|pairs| - 1])[last.0 := last.1]
  }

  /** `vid_embedding` built during an evaluation (lines 133-138 of
      `cqrtrain_mix.py`). */
  method CollectEmbeddings<E>(batches: seq<(seq<string>, seq<E>)>) returns (embeddings: map<string, E>)
    ensures embeddings == LastWins(AllPairs(batches))
  {
    embeddings := map[];
    for k := 0 to |batches|
      invariant embeddings == LastWins(AllPairs(batches[..k]))
    {
      var (vids, vectors) := batches[k];
      var pairs := Zip(vids, vectors);
      ghost var before := AllPairs(batches[..k]);
      assert before + pairs[..0] == before;
      for j := 0 to |pairs|
        invariant embeddings == LastWins(before + pairs[..j])
      {
        assert (before + pairs[..j + 1])[..|before| + j] == before + pairs[..j];
        embeddings := embeddings[pairs[j].0 := pairs[j].1];
      }
      assert batches[..k + 1][..k] == batches[..k];
      assert pairs[..|pairs|] == pairs;
      assert AllPairs(batches[..k + 1]) == before + pairs;
    }
    assert batches[..|batches|] == batches;
  }

  /** A vid is in the dictionary exactly when some pair carries it. */
  lemma {:induction false} LastWinsKeys<E>(pairs: seq<(string, E)>)
    ensures forall v :: v in LastWins(pairs) <==> exists i :: 0 <= i < |pairs| && pairs[i].0 == v
  {
    if pairs != [] {
      var n := |pairs| - 1;
      var front := pairs[..n];
      LastWinsKeys(front);
      assert LastWins(pairs) == LastWins(front)[pairs[n].0 := pairs[n].1];
      forall v ensures v in LastWins(pairs) <==> exists i :: 0 <= i < |pairs| && pairs[i].0 == v {
        if exists i :: 0 <= i < |pairs| && pairs[i].0 == v {
          var i :| 0 <= i < |pairs| && pairs[i].0 == v;
          if i < n {
            assert front[i].0 == v;
          }
        }
        if v in LastWins(front) {
          var i :| 0 <= i < |front| && front[i].0 == v;
          assert pairs[i].0 == v;
        }
      }
    }
  }

  /** A vid in the dictionary maps to the embedding of the last pair that
      carries it. */
  lemma {:induction false} LastWinsLatest<E>(pairs: seq<(string, E)>)
    ensures forall v :: v in LastWins(pairs) ==>
              exists j :: 0 <= j < |pairs| && pairs[j].0 == v && LastWins(pairs)[v] == pairs[j].1 &&
                          forall k :: j < k < |pairs| ==> pairs[k].0 != v
  {
    if pairs != [] {
      var n := |pairs| - 1;
      var front := pairs[..n];
      LastWinsLatest(front);
      assert LastWins(pairs) == LastWins(front)[pairs[n].0 := pairs[n].1];
      forall v | v in LastWins(pairs)
        ensures exists j :: 0 <= j < |pairs| && pairs[j].0 == v && LastWins(pairs)[v] == pairs[j].1 &&
                            forall k :: j < k < |pairs| ==> pairs[k].0 != v
      {
        if v == pairs[n].0 {
          assert LastWins(pairs)[v] == pairs[n].1;
        } else {
          assert v in LastWins(front) && LastWins(pairs)[v] == LastWins(front)[v];
          var j :| 0 <= j < |front| && front[j].0 == v && LastWins(front)[v] == front[j].1 &&
                   forall k :: j < k < |front| ==> front[k].0 != v;
          assert pairs[j] == front[j];
          forall k | j < k < |pairs| ensures pairs[k].0 != v {
            if k < n {
              assert pairs[k] == front[k];
            }
          }
        }
      }
    }
  }

  // ---------------------------------------------------------------------
  // Loss terms

  /** The sum of a list of terms, added left to right. */
  function Sum(xs: seq<real>): real
  {
    if xs == [] then 0.0 else Sum(xs[..|xs| - 1]) + xs[|xs| - 1]
  }

  /** The values a step hands to its recorder: the total loss, the
      classification loss `loss_0` and the contrastive loss `loss_2` (in
      the MLM script, the masked-language-model loss). */
  datatype StepLoss = StepLoss(loss: real, classification: real, other: real)

  /** The terms of a step of `cqrtrain_mix.py`: the binary cross-entropy of
      the mixed prediction and of each auxiliary prediction, the
      regularisation loss, and the contrastive loss of each vision
      embedding against the text embedding. */
  datatype MixTerms = MixTerms(numLabels: nat, predTerm: real, auxTerms: seq<real>,
                               regularization: real, contrastive: seq<real>)

  /** The reference for the per-step loss: `loss_0` is `num_labels` times
      the sum of 1 + |aux_preds| cross-entropies, `loss_2` ten times the
      sum of the contrastive terms; training adds ten times the
      regularisation and `loss_2 / len(aux_preds)`, validation adds both
      unscaled.  Without auxiliary predictions that division has no value:
      it raises `ZeroDivisionError` when `loss_2` is still the integer 0,
      and gives inf or NaN otherwise; `None` stands for both. */
  function MixLoss(t: MixTerms, training: bool): (r: Option<StepLoss>)
    ensures r.Some? <==> !training || |t.auxTerms| >= 1
  {
    var n := t.numLabels as real;
    var loss0 := n * Sum([t.predTerm] + t.auxTerms);
    var loss2 := 10.0 * Sum(t.contrastive);
    if !training then Some(StepLoss(loss0 + t.regularization + loss2, loss0, loss2))
    else if |t.auxTerms| == 0 then None
    else Some(StepLoss(loss0 + 10.0 * t.regularization + loss2 / (|t.auxTerms| as real), loss0, loss2))
  }

  /** Appending a term adds it to the sum. */
  lemma SumSnoc(xs: seq<real>, x: real)
    ensures Sum(xs + [x]) == Sum(xs) + x
  {
    assert (xs + [x])[..|xs|] == xs;
  }

  /** Summing left to right in a loop, starting from `init`. */
  method Accumulate(init: real, scale: real, xs: seq<real>) returns (acc: real)
    ensures acc == init + scale * Sum(xs)
  {
    acc := init;
    for i := 0 to |xs|
      invariant acc == init + scale * Sum(xs[..i])
    {
      SumSnoc(xs[..i], xs[i]);
      assert xs[..i + 1] == xs[..i] + [xs[i]];
      acc := acc + xs[i] * scale;
    }
    assert xs[..|xs|] == xs;
  }

  /** `train_step`'s loss (lines 86-94 of `cqrtrain_mix.py`). */
  method MixTrainLoss(t: MixTerms) returns (r: Option<StepLoss>)
    ensures r == MixLoss(t, true)
  {
    var n := t.numLabels as real;
    var loss0 := Accumulate(t.predTerm * n, n, t.auxTerms);
    var loss1 := t.regularization * 10.0;
    var loss2 := Accumulate(0.0, 10.0, t.contrastive);
    if |t.auxTerms| == 0 {
      return None;
    }
    SumCons(t.predTerm, t.auxTerms);
    assert n * (t.predTerm + Sum(t.auxTerms)) == t.predTerm * n + n * Sum(t.auxTerms);
    var m := MixLoss(t, true).value;
    assert m.classification == loss0 && m.other == loss2;
    r := Some(StepLoss(loss0 + loss1 + loss2 / (|t.auxTerms| as real), loss0, loss2));
  }

  /** `val_step`'s loss (lines 108-115 of `cqrtrain_mix.py`). */
  method MixValLoss(t: MixTerms) returns (r: StepLoss)
    ensures Some(r) == MixLoss(t, false)
  {
    var n := t.numLabels as real;
    var loss0 := Accumulate(t.predTerm * n, n, t.auxTerms);
    var loss1 := t.regularization;
    var loss2 := Accumulate(0.0, 10.0, t.contrastive);
    SumCons(t.predTerm, t.auxTerms);
    assert n * (t.predTerm + Sum(t.auxTerms)) == t.predTerm * n + n * Sum(t.auxTerms);
    var m := MixLoss(t, false).value;
    assert m.classification == loss0 && m.other == loss2;
    r := StepLoss(loss0 + loss1 + loss2, loss0, loss2);
  }

  /** A first term followed by the rest sums to the first plus the rest. */
  lemma {:induction false} SumCons(x: real, xs: seq<real>)
    ensures Sum([x] + xs) == x + Sum(xs)
    decreases |xs|
  {
    if xs != [] {
      var front := xs[..|xs| - 1];
      SumCons(x, front);
      assert ([x] + xs)[..|xs|] == [x] + front;
    }
  }

  /** Training and validation share `loss_0` and `loss_2`, each counting
      every prediction; they differ only in how the regularisation and the
      contrastive sum enter the total. */
  lemma TrainAndValidation(t: MixTerms)
    requires |t.auxTerms| >= 1
    ensures MixLoss(t, true).value.classification == MixLoss(t, false).value.classification
    ensures MixLoss(t, true).value.other == MixLoss(t, false).value.other
    ensures MixLoss(t, false).value.classification == (t.numLabels as real) * (t.predTerm + Sum(t.auxTerms))
    ensures MixLoss(t, true).value.loss - MixLoss(t, false).value.loss ==
            9.0 * t.regularization + MixLoss(t, true).value.other * (1.0 / (|t.auxTerms| as real) - 1.0)
  {
    SumCons(t.predTerm, t.auxTerms);
  }

  /** The step loss of `cqrtrain_mlm_mm_tag.py` (lines 91-95 and 104-107):
      the classification loss plus ten times the mean token loss of the
      positions `compute_loss` keeps; `loss_1` is 0.  The mean of no
      tokens is NaN in TensorFlow; `None` stands for it. */
  function MlmLoss(numLabels: nat, predTerm: real, tokenLosses: seq<real>): (r: Option<StepLoss>)
    ensures r.Some? <==> |tokenLosses| >= 1
    ensures r.Some? ==> r.value.loss == r.value.classification + r.value.other &&
                        r.value.other * (|tokenLosses| as real) == 10.0 * Sum(tokenLosses)
  {
    if tokenLosses == [] then None
    else
      var loss0 := predTerm * (numLabels as real);
      var mlm := Sum(tokenLosses) / (|tokenLosses| as real) * 10.0;
      Some(StepLoss(loss0 + mlm, loss0, mlm))
  }
}
