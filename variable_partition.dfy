/** The two-optimizer variable partition that every model class repeats:
    `get_variables` caches the pretrained encoder's variables followed by
    the newly initialised ones, and `optimize` cuts the gradient list at the
    encoder's variable count so that each optimizer receives its own part.
    The layer lists of each class are catalogued so that the variables that
    never reach an optimizer can be named. */
module VariablePartition {
  import opened Wrappers
  import opened ModelLayers

  // ---------------------------------------------------------------------
  // Python list operations

  function Min(a: nat, b: nat): nat
  {
    if a <= b then a else b
  }

  /** `xs[:k]`: Python clamps a bound past the end. */
  function Take<T>(xs: seq<T>, k: nat): (r: seq<T>)
    ensures |r| == Min(k, |xs|) && r == xs[..Min(k, |xs|)]
  {
    xs[..Min(k, |xs|)]
  }

  /** `xs[k:]`, clamped the same way. */
  function Drop<T>(xs: seq<T>, k: nat): (r: seq<T>)
    ensures |r| == |xs| - Min(k, |xs|) && r == xs[Min(k, |xs|)..]
  {
    xs[Min(k, |xs|)..]
  }

  /** The two slices of `optimize` put back together give the list. */
  lemma TakeDrop<T>(xs: seq<T>, k: nat)
    ensures Take(xs, k) + Drop(xs, k) == xs
  {
  }

  /** `zip(a, b)`: pairs up to the shorter list. */
  function Zip<A, B>(a: seq<A>, b: seq<B>): (r: seq<(A, B)>)
    ensures |r| == Min(|a|, |b|)
    ensures forall i :: 0 <= i < |r| ==> r[i] == (a[i], b[i])
  {
    seq(Min(|a|, |b|), i requires 0 <= i < Min(|a|, |b|) => (a[i], b[i]))
  }

  /** Zipping two lists cut at the same place is zipping them whole: each
      gradient stays with the variable it was computed for. */
  lemma ZipSplit<A, B>(g: seq<A>, v1: seq<B>, v2: seq<B>)
    requires |g| == |v1| + |v2|
    ensures Zip(Take(g, |v1|), v1) + Zip(Drop(g, |v1|), v2) == Zip(g, v1 + v2)
  {
    var left, right := Zip(Take(g, |v1|), v1), Zip(Drop(g, |v1|), v2);
    var whole := Zip(g, v1 + v2);
    assert |left + right| == |whole|;
    forall i | 0 <= i < |whole| ensures (left + right)[i] == whole[i] {
      if i < |v1| {
        assert (left + right)[i] == left[i];
      } else {
        assert (left + right)[i] == right[i - |v1|];
      }
    }
  }

  // ---------------------------------------------------------------------
  // The cached partition

  /** What the two optimizers receive: (gradient, variable) pairs. */
  datatype Updates<G, V> = Updates(bert: seq<(G, V)>, normal: seq<(G, V)>)

  /** The cut of lines 252-256 of cqrmodel.py, as a function of the cached
      count and lists. */
  function Split<G, V>(gradients: seq<G>, numBert: nat, bert: seq<V>, normal: seq<V>): (u: Updates<G, V>)
    ensures |u.bert| == Min(Min(numBert, |gradients|), |bert|)
    ensures |u.normal| == Min(|gradients| - Min(numBert, |gradients|), |normal|)
  {
    Updates(Zip(Take(gradients, numBert), bert), Zip(Drop(gradients, numBert), normal))
  }

  /** A model's cache of trainable variables.  Every field starts as
      `None`; `get_variables` fills all four at once. */
  class VariableCache<V> {
    var bertVariables: Option<seq<V>>
    var numBert: Option<nat>
    var normalVariables: Option<seq<V>>
    var allVariables: Option<seq<V>>

    /** Either nothing is cached, or the count is the encoder list's length
        and the full list is the encoder list followed by the others. */
    ghost predicate Valid()
      reads this
    {
      (bertVariables == None && numBert == None && normalVariables == None && allVariables == None) ||
      (bertVariables.Some? && normalVariables.Some? &&
       numBert == Some(|bertVariables.value|) &&
       allVariables == Some(bertVariables.value + normalVariables.value))
    }

    /** `if not self.all_variables`: Python treats `None` and `[]` alike. */
    predicate Cached()
      reads this
    {
      allVariables.Some? && allVariables.value != []
    }

    constructor()
      ensures Valid()
      ensures bertVariables == None && numBert == None && normalVariables == None && allVariables == None
    {
      bertVariables, numBert, normalVariables, allVariables := None, None, None, None;
    }

    /** `get_variables`, given the encoder's and the other layers' current
        variable lists: they are read and cached only while the cache is
        empty; afterwards the cached list is returned unchanged. */
    method GetVariables(bert: seq<V>, normal: seq<V>) returns (all: seq<V>)
      requires Valid()
      modifies this
      ensures Valid()
      ensures old(Cached()) ==>
                all == old(allVariables.value) && bertVariables == old(bertVariables) &&
                numBert == old(numBert) && normalVariables == old(normalVariables) &&
                allVariables == old(allVariables)
      ensures !old(Cached()) ==>
                bertVariables == Some(bert) && numBert == Some(|bert|) &&
                normalVariables == Some(normal) && allVariables == Some(bert + normal) &&
                all == bert + normal
    {
      if !Cached() {
        bertVariables := Some(bert);
        numBert := Some(|bert|);
        normalVariables := Some(normal);
        allVariables := Some(bert + normal);
      }
      all := allVariables.value;
    }

    /** `optimize`: the gradients before position `num_bert` go with the
        encoder's variables, the rest with the others.  Before
        `get_variables` has run, `zip` over the `None` variable list raises,
        which is `None` here.  When there is one gradient per cached
        variable, the two optimizers together receive every (gradient,
        variable) pair exactly once. */
    method Optimize<G>(gradients: seq<G>) returns (r: Option<Updates<G, V>>)
      requires Valid()
      ensures r.Some? <==> numBert.Some?
      ensures r.Some? ==>
                r.value == Split(gradients, numBert.value, bertVariables.value, normalVariables.value)
      ensures r.Some? && |gradients| == |allVariables.value| ==>
                r.value.bert + r.value.normal == Zip(gradients, allVariables.value) &&
                |r.value.bert| == numBert.value
    {
      if numBert == None {
        r := None;
      } else {
        var nb := numBert.value;
        var bertGradients := Take(gradients, nb);
        var normalGradients := Drop(gradients, nb);
        r := Some(Updates(Zip(bertGradients, bertVariables.value), Zip(normalGradients, normalVariables.value)));
        if |gradients| == |allVariables.value| {
          ZipSplit(gradients, bertVariables.value, normalVariables.value);
        }
      }
    }
  }

  /** The cache keeps the first non-empty lists it is given: when a
      layer's variables change after the first call, later calls still
      return the old list, and `optimize` keeps cutting at the old count. */
  method StaleAfterFirstCall<V>(bert1: seq<V>, normal1: seq<V>, bert2: seq<V>, normal2: seq<V>)
    returns (first: seq<V>, second: seq<V>)
    requires bert1 + normal1 != []
    ensures first == bert1 + normal1 && second == bert1 + normal1
  {
    var cache := new VariableCache<V>();
    first := cache.GetVariables(bert1, normal1);
    second := cache.GetVariables(bert2, normal2);
  }

  // ---------------------------------------------------------------------
  // What each model class trains

  /** Every class except `MultiModal_mix5` trains every weighted layer its
      call uses. */
  lemma AllLayersTrained(m: ModelClass)
    requires m != PairMix5
    ensures Untrained(m) == {}
  {
    forall l | l in CallLayers(m) && l != Bert && HasWeights(l) ensures l in NormalLayers(m) {
      if m.CqrMultiModal? || m.CqrSoft? || m.CqrNextSoft? || m.CqrMlm? {
        ClassifierModelTrains(m, l);
      } else if m.CqrUniter? || m.CqrUniterVlad? || m.CqrUniterRoformer? {
        UniterModelTrains(m, l);
      } else {
        PairModelTrains(m, l);
      }
    }
  }

  lemma ClassifierModelTrains(m: ModelClass, l: Layer)
    requires m.CqrMultiModal? || m.CqrSoft? || m.CqrNextSoft? || m.CqrMlm?
    requires l in CallLayers(m) && l != Bert && HasWeights(l)
    ensures l in NormalLayers(m)
  {
  }

  lemma UniterModelTrains(m: ModelClass, l: Layer)
    requires m.CqrUniter? || m.CqrUniterVlad? || m.CqrUniterRoformer?
    requires l in CallLayers(m) && l != Bert && HasWeights(l)
    ensures l in NormalLayers(m)
  {
  }

  lemma PairModelTrains(m: ModelClass, l: Layer)
    requires m.PairMultiModal? || m.PairMix2? || m.PairMixRank? || m.PairMix1024? || m.PairMixNextSoft? ||
             m.JointMultiModal? || m.JointMultiModalV2?
    requires l in CallLayers(m) && l != Bert && HasWeights(l)
    ensures l in NormalLayers(m)
  {
  }

  /** Every untrained layer of `MultiModal_mix5` is in its last two branches. */
  lemma Mix5UntrainedIsExtra(l: Layer)
    requires l in Untrained(PairMix5)
    ensures l in Mix5Extra()
  {
    var listed := NormalLayers(PairMix5);
    // l differs from every listed layer; naming each position lets the
    // solver see which of the call's layers remain.
    assert l != listed[0] && l != listed[1] && l != listed[2] && l != listed[3];
    assert l != listed[4] && l != listed[5] && l != listed[6] && l != listed[7];
    assert l != listed[8] && l != listed[9] && l != listed[10] && l != listed[11];
  }

  /** The last two branches of `MultiModal_mix5` are run by its call... */
  lemma Mix5ExtraCalled(l: Layer)
    requires l in Mix5Extra()
    ensures l in CallLayers(PairMix5)
  {
  }

  /** ...but not listed by its `get_variables`. */
  lemma Mix5ExtraUnlisted(l: Layer)
    requires l in Mix5Extra()
    ensures l !in NormalLayers(PairMix5)
  {
  }

  /** `MultiModal_mix5` runs five branches but leaves the fourth and fifth
      out of `normal_variables`. */
  lemma Mix5Untrained()
    ensures Untrained(PairMix5) == Mix5Extra()
  {
    forall l | l in Untrained(PairMix5) ensures l in Mix5Extra() {
      Mix5UntrainedIsExtra(l);
    }
    forall l | l in Mix5Extra() ensures l in Untrained(PairMix5) {
      Mix5ExtraCalled(l);
      Mix5ExtraUnlisted(l);
    }
  }

  /** With the fourth and fifth branches appended to its list,
      `MultiModal_mix5` trains every weighted layer its call uses... */
  lemma Mix5CorrectedTrains(l: Layer)
    requires l in CallLayers(PairMix5) && l != Bert && HasWeights(l)
    ensures l in Mix5ListCorrected()
  {
    if l !in NormalLayers(PairMix5) {
      assert l in Untrained(PairMix5);
      Mix5UntrainedIsExtra(l);
      assert Mix5ListCorrected()[|NormalLayers(PairMix5)|..] ==
             [NeXtVLADk(4), Fusionk(4), Classifierk(4), NeXtVLADk(5), Fusionk(5), Classifierk(5)];
    }
  }

  /** ...and still lists only layers the call uses, the encoder left to its
      own optimizer. */
  lemma Mix5CorrectedCalled(l: Layer)
    requires l in Mix5ListCorrected()
    ensures l in CallLayers(PairMix5) && l != Bert
  {
    var listed := NormalLayers(PairMix5);
    if l in listed {
      PairListedCalled(PairMix5, l);
    } else {
      assert Mix5ListCorrected() == listed + Mix5ListCorrected()[|listed|..];
      assert l in Mix5Extra();
      Mix5ExtraCalled(l);
    }
  }

  /** Every listed layer is one the call uses, and the encoder is left to
      its own optimizer. */
  lemma NormalLayersCalled(m: ModelClass)
    ensures forall l :: l in NormalLayers(m) ==> l in CallLayers(m) && l != Bert
  {
    forall l | l in NormalLayers(m) ensures l in CallLayers(m) && l != Bert {
      if m.CqrMultiModal? || m.CqrSoft? || m.CqrNextSoft? || m.CqrMlm? ||
         m.CqrUniter? || m.CqrUniterVlad? || m.CqrUniterRoformer? {
        CqrListedCalled(m, l);
      } else {
        PairListedCalled(m, l);
      }
    }
  }

  lemma CqrListedCalled(m: ModelClass, l: Layer)
    requires m.CqrMultiModal? || m.CqrSoft? || m.CqrNextSoft? || m.CqrMlm? ||
             m.CqrUniter? || m.CqrUniterVlad? || m.CqrUniterRoformer?
    requires l in NormalLayers(m)
    ensures l in CallLayers(m) && l != Bert
  {
  }

  lemma PairListedCalled(m: ModelClass, l: Layer)
    requires !(m.CqrMultiModal? || m.CqrSoft? || m.CqrNextSoft? || m.CqrMlm? ||
               m.CqrUniter? || m.CqrUniterVlad? || m.CqrUniterRoformer?)
    requires l in NormalLayers(m)
    ensures l in CallLayers(m) && l != Bert
  {
  }

  // ---------------------------------------------------------------------
  // Variables of layers

  /** A trainable variable: the layer that owns it and its position in
      that layer's `trainable_variables`. */
  datatype Var = Var(layer: Layer, index: nat)

  /** `trainable_variables` of one layer, given how many it has. */
  function LayerVariables(layer: Layer, count: nat): (r: seq<Var>)
    ensures |r| == count && forall i :: 0 <= i < count ==> r[i] == Var(layer, i)
  {
    seq(count, i requires 0 <= i < count => Var(layer, i))
  }

  /** The concatenated `trainable_variables` of a list of layers. */
  function Variables(layers: seq<Layer>, count: Layer -> nat): seq<Var>
  {
    if layers == [] then [] else LayerVariables(layers[0], count(layers[0])) + Variables(layers[1..], count)
  }

  /** A variable appears in the concatenation only if its layer is
      listed. */
  lemma {:induction false} VariablesOwned(layers: seq<Layer>, count: Layer -> nat, x: Var)
    requires x in Variables(layers, count)
    ensures x.layer in layers
  {
    if layers != [] {
      var head := LayerVariables(layers[0], count(layers[0]));
      if x !in head {
        VariablesOwned(layers[1..], count, x);
      }
    }
  }

  /** A variable whose layer `get_variables` does not list never reaches
      an optimizer: whatever the gradients, it is in neither update list.
      With `Mix5Untrained` this covers the fourth and fifth branches of
      `MultiModal_mix5`. */
  lemma UnlistedNeverUpdated<G>(layers: seq<Layer>, count: Layer -> nat, gradients: seq<G>, x: Var)
    requires x.layer !in layers && x.layer != Bert
    ensures forall p | p in Split(gradients, count(Bert), LayerVariables(Bert, count(Bert)),
                                  Variables(layers, count)).bert :: p.1 != x
    ensures forall p | p in Split(gradients, count(Bert), LayerVariables(Bert, count(Bert)),
                                  Variables(layers, count)).normal :: p.1 != x
  {
    var normal := Variables(layers, count);
    var u := Split(gradients, count(Bert), LayerVariables(Bert, count(Bert)), normal);
    forall p | p in u.normal ensures p.1 != x {
      var i :| 0 <= i < |u.normal| && u.normal[i] == p;
      if p.1 == x {
        assert x in normal;
        VariablesOwned(layers, count, x);
      }
    }
  }
}
