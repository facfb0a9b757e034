/** The selection step of the masked-language-model loss: labels equal to
    -100 mark positions that take no part in the loss, and `compute_loss`
    keeps the (label, logits row) pairs of the other positions before the
    cross-entropy is taken.  Also `shape_list`, which mixes a tensor's
    static and dynamic shape. */
module MaskedLoss {
  import opened Wrappers

  /** The label that marks an ignored position. */
  const IgnoreIndex: int := -100

  // ---------------------------------------------------------------------
  // Flattening and boolean masks

  /** `tf.reshape(x, (-1,))` of a [B, S] tensor, and likewise the rows of
      `tf.reshape(logits, (-1, V))`: rows in row-major order. */
  function Flatten<T>(xss: seq<seq<T>>): (r: seq<T>)
  {
    if xss == [] then [] else xss[0] + Flatten(xss[1..])
  }

  /** The flattened length is the sum of the row lengths, which is B * S
      when every row has length S. */
  lemma {:induction false} FlattenLength<T>(xss: seq<seq<T>>, width: nat)
    requires forall i :: 0 <= i < |xss| ==> |xss[i]| == width
    ensures |Flatten(xss)| == |xss| * width
  {
    if xss != [] {
      FlattenLength(xss[1..], width);
    }
  }

  /** `tf.not_equal(labels, -100)`, element by element. */
  function ActiveLoss(labels: seq<int>): (r: seq<bool>)
    ensures |r| == |labels|
    ensures forall i :: 0 <= i < |r| ==> (r[i] <==> labels[i] != IgnoreIndex)
  {
    seq(|labels|, i requires 0 <= i < |labels| => labels[i] != IgnoreIndex)
  }

  /** The elements of `xs` at the positions where `mask` is true, in
      order; the mask must be as long as the list. */
  function Keep<T>(xs: seq<T>, mask: seq<bool>): seq<T>
    requires |xs| == |mask|
  {
    if xs == [] then [] else (if mask[0] then [xs[0]] else []) + Keep(xs[1..], mask[1..])
  }

  /** `tf.boolean_mask`: a mask whose length differs from the number of
      rows is refused. */
  function BooleanMask<T>(xs: seq<T>, mask: seq<bool>): (r: Option<seq<T>>)
    ensures r.Some? <==> |xs| == |mask|
  {
    if |xs| == |mask| then Some(Keep(xs, mask)) else None
  }

  /** What is kept is the number of true entries long, and every kept
      element comes from a true position. */
  lemma {:induction false} KeepFacts<T>(xs: seq<T>, mask: seq<bool>)
    requires |xs| == |mask|
    ensures |Keep(xs, mask)| == CountTrue(mask)
    ensures forall x :: x in Keep(xs, mask) ==> exists i :: 0 <= i < |xs| && mask[i] && xs[i] == x
  {
    if xs != [] {
      KeepFacts(xs[1..], mask[1..]);
      forall x | x in Keep(xs, mask) ensures exists i :: 0 <= i < |xs| && mask[i] && xs[i] == x {
        if !(mask[0] && x == xs[0]) {
          assert x in Keep(xs[1..], mask[1..]);
          var j :| 0 <= j < |xs[1..]| && mask[1..][j] && xs[1..][j] == x;
          assert mask[j + 1] && xs[j + 1] == x;
        }
      }
    }
  }

  /** The number of true entries of a mask. */
  function CountTrue(mask: seq<bool>): nat
  {
    if mask == [] then 0 else (if mask[0] then 1 else 0) + CountTrue(mask[1..])
  }

  // ---------------------------------------------------------------------
  // The selection of `compute_loss`

  /** The reference: walk the (label, row) pairs and keep those whose
      label is not -100. */
  function ActivePairs<R>(pairs: seq<(int, R)>): (r: seq<(int, R)>)
    ensures |r| <= |pairs|
  {
    if pairs == [] then []
    else (if pairs[0].0 != IgnoreIndex then [pairs[0]] else []) + ActivePairs(pairs[1..])
  }

  /** Pairs two lists of the same length. */
  function Pairs<A, B>(a: seq<A>, b: seq<B>): (r: seq<(A, B)>)
    requires |a| == |b|
    ensures |r| == |a| && forall i :: 0 <= i < |r| ==> r[i] == (a[i], b[i])
  {
    seq(|a|, i requires 0 <= i < |a| => (a[i], b[i]))
  }

  /** The labels and logits rows `compute_loss` hands to the loss: the
      labels of a [B, S] tensor and the rows of a [B, S', V] tensor are
      flattened, and both are masked with the labels' active positions.
      When B * S differs from B * S' the mask does not fit the rows and
      `boolean_mask` fails. */
  function Selected<R>(labels: seq<seq<int>>, logits: seq<seq<R>>): Option<(seq<int>, seq<R>)>
  {
    var flatLabels := Flatten(labels);
    var rows := Flatten(logits);
    var active := ActiveLoss(flatLabels);
    var reducedLogits :- BooleanMask(rows, active);
    var keptLabels :- BooleanMask(flatLabels, active);
    Some((keptLabels, reducedLogits))
  }

  /** Pairing distributes over concatenation. */
  lemma PairsAppend<A, B>(a1: seq<A>, a2: seq<A>, b1: seq<B>, b2: seq<B>)
    requires |a1| == |b1| && |a2| == |b2|
    ensures Pairs(a1 + a2, b1 + b2) == Pairs(a1, b1) + Pairs(a2, b2)
  {
    var l, r := Pairs(a1 + a2, b1 + b2), Pairs(a1, b1) + Pairs(a2, b2);
    forall i | 0 <= i < |l| ensures l[i] == r[i] {
      if i >= |a1| {
        assert r[i] == Pairs(a2, b2)[i - |a1|];
      }
    }
  }

  /** Masking both lists with the labels' mask and pairing them up is
      filtering the pairs by label. */
  lemma {:induction false} KeepPairs<R>(labels: seq<int>, rows: seq<R>)
    requires |labels| == |rows|
    ensures |Keep(labels, ActiveLoss(labels))| == |Keep(rows, ActiveLoss(labels))|
    ensures Pairs(Keep(labels, ActiveLoss(labels)), Keep(rows, ActiveLoss(labels))) == ActivePairs(Pairs(labels, rows))
  {
    var active := ActiveLoss(labels);
    KeepFacts(labels, active);
    KeepFacts(rows, active);
    if labels != [] {
      var tail := ActiveLoss(labels[1..]);
      assert active[1..] == tail;
      var headLabels: seq<int> := if active[0] then [labels[0]] else [];
      var headRows: seq<R> := if active[0] then [rows[0]] else [];
      assert Keep(labels, active) == headLabels + Keep(labels[1..], tail);
      assert Keep(rows, active) == headRows + Keep(rows[1..], tail);
      KeepPairs(labels[1..], rows[1..]);
      PairsAppend(headLabels, Keep(labels[1..], tail), headRows, Keep(rows[1..], tail));
      var pairs := Pairs(labels, rows);
      assert pairs[1..] == Pairs(labels[1..], rows[1..]);
      assert ActivePairs(pairs) == Pairs(headLabels, headRows) + ActivePairs(pairs[1..]);
    }
  }

  /** `compute_loss` succeeds exactly when the logits have one row per
      label; then it keeps exactly the (label, row) pairs whose label is
      not -100, in their original order, with as many labels as rows. */
  lemma SelectedIsActivePairs<R>(labels: seq<seq<int>>, logits: seq<seq<R>>)
    ensures Selected(labels, logits).Some? <==> |Flatten(labels)| == |Flatten(logits)|
    ensures Selected(labels, logits).Some? ==>
              var (kept, rows) := Selected(labels, logits).value;
              |kept| == |rows| &&
              Pairs(kept, rows) == ActivePairs(Pairs(Flatten(labels), Flatten(logits)))
  {
    if |Flatten(labels)| == |Flatten(logits)| {
      KeepPairs(Flatten(labels), Flatten(logits));
    }
  }

  /** No kept pair carries the ignore label, and every pair that does not
      is kept: filtering is exact. */
  lemma {:induction false} ActivePairsExact<R>(pairs: seq<(int, R)>)
    ensures forall p :: p in ActivePairs(pairs) ==> p.0 != IgnoreIndex && p in pairs
    ensures forall p :: p in pairs && p.0 != IgnoreIndex ==> p in ActivePairs(pairs)
  {
    if pairs != [] {
      ActivePairsExact(pairs[1..]);
      assert pairs == [pairs[0]] + pairs[1..];
    }
  }

  /** The number of labels kept is the number of labels other than -100. */
  lemma SelectedCount<R>(labels: seq<seq<int>>, logits: seq<seq<R>>)
    requires Selected(labels, logits).Some?
    ensures |Selected(labels, logits).value.0| == CountTrue(ActiveLoss(Flatten(labels)))
  {
    KeepFacts(Flatten(labels), ActiveLoss(Flatten(labels)));
  }

  // ---------------------------------------------------------------------
  // shape_list

  /** One axis of `shape_list`'s answer: the static size when the graph
      knows it, otherwise the runtime size read from `tf.shape`. */
  datatype Entry = StaticDim(n: nat) | DynamicDim(n: nat)

  /** When the rank is unknown the whole `tf.shape` tensor is returned;
      otherwise a list with one entry per axis. */
  datatype ShapeList = WholeShape(dims: seq<nat>) | PerAxis(entries: seq<Entry>)

  /** The runtime shape agrees with every static size the graph knows. */
  predicate Consistent(known: Option<seq<Option<nat>>>, dynamic: seq<nat>)
  {
    known.Some? ==>
      |known.value| == |dynamic| &&
      forall i :: 0 <= i < |dynamic| && known.value[i].Some? ==> known.value[i].value == dynamic[i]
  }

  /** `shape_list(tensor)` given its static shape (`None` for an unknown
      rank, `None` entries for unknown sizes) and its runtime shape. */
  function ShapeListOf(known: Option<seq<Option<nat>>>, dynamic: seq<nat>): ShapeList
    requires known.Some? ==> |known.value| == |dynamic|
  {
    if known.None? then WholeShape(dynamic)
    else PerAxis(seq(|dynamic|, i requires 0 <= i < |dynamic| =>
                   if known.value[i].None? then DynamicDim(dynamic[i]) else StaticDim(known.value[i].value)))
  }

  /** The sizes `shape_list` reports. */
  function Sizes(s: ShapeList): seq<nat>
  {
    match s
    case WholeShape(dims) => dims
    case PerAxis(entries) => seq(|entries|, i requires 0 <= i < |entries| => entries[i].n)
  }

  /** Whatever the mix of static and dynamic entries, `shape_list` reports
      the tensor's actual shape; with a known rank it answers per axis,
      statically exactly where the graph knows the size. */
  lemma ShapeListSizes(known: Option<seq<Option<nat>>>, dynamic: seq<nat>)
    requires Consistent(known, dynamic)
    ensures Sizes(ShapeListOf(known, dynamic)) == dynamic
    ensures ShapeListOf(known, dynamic).PerAxis? <==> known.Some?
    ensures known.Some? ==>
              forall i :: 0 <= i < |dynamic| ==>
                (ShapeListOf(known, dynamic).entries[i].StaticDim? <==> known.value[i].Some?)
  {
  }
}
