/** The integer and sequence logic of `FeatureParser` in
    `data_helper_roformer.py`: the selected tag set, frame sampling onto a
    fixed number of slots, label filtering and multi-hot encoding, and the
    category-id split. */
module FeatureParsing {
  import opened Wrappers
  import opened Decimal

  function Min(a: nat, b: nat): nat
  {
    if a <= b then a else b
  }

  // ---------------------------------------------------------------------
  // Selected tags (lines 19-28)

  /** The tag file read as one integer per line; building the set adds the
      lines one at a time. */
  method BuildSelectedTags(lines: seq<int>) returns (tags: set<int>, numLabels: nat)
    ensures tags == set t | t in lines
    ensures numLabels == |tags|
  {
    tags := {};
    var i := 0;
    while i < |lines|
      invariant 0 <= i <= |lines|
      invariant tags == set t | t in lines[..i]
    {
      assert lines[..i + 1] == lines[..i] + [lines[i]];
      tags := tags + {lines[i]};
      i := i + 1;
    }
    assert lines[..i] == lines;
    numLabels := |tags|;
  }

  /** The class order of the fitted `MultiLabelBinarizer`: the selected
      tags, each once, ascending. */
  predicate IsClassOrder(classes: seq<int>, selected: set<int>)
  {
    (forall i, j :: 0 <= i < j < |classes| ==> classes[i] < classes[j]) &&
    selected == set t | t in classes
  }

  /** The parser's state after construction: the frame budget, the selected
      tags and their count, and the binarizer's classes. */
  class FeatureParser {
    var maxFrames: nat
    var selectedTags: set<int>
    var numLabels: nat
    var classes: seq<int>

    constructor(maxFrames: nat, lines: seq<int>, classes: seq<int>)
      requires IsClassOrder(classes, set t | t in lines)
      ensures this.maxFrames == maxFrames && this.classes == classes
      ensures forall t :: t in selectedTags <==> t in lines
      ensures numLabels == |selectedTags| == |classes|
    {
      this.maxFrames := maxFrames;
      var tags, n := BuildSelectedTags(lines);
      selectedTags := tags;
      numLabels := n;
      this.classes := classes;
      new;
      ClassOrderLength(classes, tags);
    }
  }

  /** Distinct elements: one set element per position. */
  lemma {:induction false} DistinctCard(s: seq<int>)
    requires forall i, j :: 0 <= i < j < |s| ==> s[i] < s[j]
    ensures |set t | t in s| == |s|
  {
    if s != [] {
      var front := s[..|s| - 1];
      DistinctCard(front);
      var last := s[|s| - 1];
      assert (set t | t in s) == (set t | t in front) + {last} by {
        assert s == front + [last];
      }
      assert last !in front by {
        forall i | 0 <= i < |front| ensures front[i] != last {
          assert s[i] < s[|s| - 1];
        }
      }
    }
  }

  /** `num_labels`, the size of the tag set, is the length of every
      multi-hot vector. */
  lemma ClassOrderLength(classes: seq<int>, selected: set<int>)
    requires IsClassOrder(classes, selected)
    ensures |classes| == |selected|
  {
    DistinctCard(classes);
  }

  // ---------------------------------------------------------------------
  // Frame sampling (lines 43-54)

  /** The frames and the number of real ones. */
  datatype Sampled<T> = Sampled(frames: seq<T>, numFrames: nat)

  /** The frame that slot `i` takes: clamped to the last frame when there
      are fewer frames than slots, evenly spaced by `d = len / maxFrames`
      otherwise, at the middle of each stride. */
  function SlotIndex(len: nat, maxFrames: nat, i: nat): nat
    requires maxFrames >= 1 && len >= 1
  {
    var d := len / maxFrames;
    if d == 0 then Min(i, len - 1) else i * d + d / 2
  }

  /** Every slot's index lies within the frames. */
  lemma StrideInRange(len: nat, maxFrames: nat, i: nat)
    requires maxFrames >= 1 && len >= 1 && i < maxFrames
    ensures SlotIndex(len, maxFrames, i) < len
  {
    var d := len / maxFrames;
    if d > 0 {
      StrideFits(i + 1, maxFrames, d);
      assert (i + 1) * d == i * d + d;
      assert maxFrames * d <= len by {
        assert len == maxFrames * d + len % maxFrames;
      }
    }
  }

  lemma StrideFits(a: nat, b: nat, d: nat)
    requires a <= b
    ensures a * d <= b * d
  {
    assert b * d == a * d + (b - a) * d;
  }

  /** `_sample`: `max_frames` slots filled by `SlotIndex` and the count
      `min(frames_len, max_frames)`.  With `max_frames == 0` line 49 divides
      by zero; with no frames the clamped index -1 is out of range. */
  function Sample<T>(frames: seq<T>, maxFrames: nat): (r: Option<Sampled<T>>)
    ensures r.Some? <==> maxFrames >= 1 && |frames| >= 1
    ensures r.Some? ==>
              |r.value.frames| == maxFrames && r.value.numFrames == Min(|frames|, maxFrames) &&
              forall i :: 0 <= i < maxFrames ==>
                SlotIndex(|frames|, maxFrames, i) < |frames| &&
                r.value.frames[i] == frames[SlotIndex(|frames|, maxFrames, i)]
  {
    if maxFrames == 0 || |frames| == 0 then None
    else
      var len := |frames|;
      assert forall i | 0 <= i < maxFrames :: SlotIndex(len, maxFrames, i) < len by {
        forall i | 0 <= i < maxFrames ensures SlotIndex(len, maxFrames, i) < len {
          StrideInRange(len, maxFrames, i);
        }
      }
      Some(Sampled(seq(maxFrames, i requires 0 <= i < maxFrames => frames[SlotIndex(len, maxFrames, i)]),
                   Min(len, maxFrames)))
  }

  /** Fewer frames than slots: all frames in order, then the last one
      repeated to fill the slots. */
  lemma SampleShortPads<T>(frames: seq<T>, maxFrames: nat)
    requires 1 <= |frames| < maxFrames
    ensures Sample(frames, maxFrames) ==
            Some(Sampled(frames + seq(maxFrames - |frames|, _ => frames[|frames| - 1]), |frames|))
  {
    var r := Sample(frames, maxFrames).value;
    var want := frames + seq(maxFrames - |frames|, _ => frames[|frames| - 1]);
    assert |frames| / maxFrames == 0;
    forall i | 0 <= i < maxFrames ensures r.frames[i] == want[i] {
    }
    assert r.frames == want;
  }

  /** At least as many frames as slots: the chosen indices are
      `d/2, d + d/2, 2d + d/2, ...` with stride `d >= 1`, strictly
      increasing and all within the frames. */
  lemma SampleLongStrides(len: nat, maxFrames: nat, i: nat)
    requires 1 <= maxFrames <= len && i + 1 < maxFrames
    ensures len / maxFrames >= 1
    ensures SlotIndex(len, maxFrames, 0) == len / maxFrames / 2
    ensures SlotIndex(len, maxFrames, i + 1) == SlotIndex(len, maxFrames, i) + len / maxFrames
    ensures SlotIndex(len, maxFrames, i + 1) < len
  {
    var d := len / maxFrames;
    assert (i + 1) * d == i * d + d;
    StrideInRange(len, maxFrames, i + 1);
  }

  /** Exactly as many frames as slots: the frames come back unchanged. */
  lemma SampleExact<T>(frames: seq<T>)
    requires |frames| >= 1
    ensures Sample(frames, |frames|) == Some(Sampled(frames, |frames|))
  {
    var n := |frames|;
    assert n / n == 1 by {
      DivModUnique(n, n, 1, 0);
    }
    var r := Sample(frames, n).value;
    forall i | 0 <= i < n ensures r.frames[i] == frames[i] {
    }
    assert r.frames == frames;
  }

  // ---------------------------------------------------------------------
  // Labels (lines 65-70)

  /** The tags that are in the selected set, in their original order. */
  function Filter(tags: seq<int>, selected: set<int>): (r: seq<int>)
    ensures |r| <= |tags|
  {
    if tags == [] then []
    else (if tags[0] in selected then [tags[0]] else []) + Filter(tags[1..], selected)
  }

  /** The binarizer's row for one sample: 1 at each class present. */
  function MultiHot(classes: seq<int>, tags: seq<int>): (r: seq<int>)
    ensures |r| == |classes|
    ensures forall i :: 0 <= i < |classes| ==> (r[i] == 1 <==> classes[i] in tags) && (r[i] == 0 || r[i] == 1)
  {
    seq(|classes|, i requires 0 <= i < |classes| => if classes[i] in tags then 1 else 0)
  }

  /** `_parse_label`: the multi-hot vector of the selected tags. */
  function ParseLabel(tags: seq<int>, selected: set<int>, classes: seq<int>): (r: seq<int>)
    requires IsClassOrder(classes, selected)
    ensures |r| == |classes| == |selected|
    ensures forall i :: 0 <= i < |classes| ==> (r[i] == 1 <==> classes[i] in tags) && (r[i] == 0 || r[i] == 1)
  {
    ClassOrderLength(classes, selected);
    FilterMembers(tags, selected);
    MultiHot(classes, Filter(tags, selected))
  }

  /** The filter keeps a tag exactly when it is selected. */
  lemma {:induction false} FilterMembers(tags: seq<int>, selected: set<int>)
    ensures forall t :: t in Filter(tags, selected) <==> t in tags && t in selected
  {
    if tags != [] {
      FilterMembers(tags[1..], selected);
      assert tags == [tags[0]] + tags[1..];
    }
  }

  /** The filter works element by element, so it keeps the original order:
      filtering a concatenation concatenates the filtered parts. */
  lemma {:induction false} FilterAppend(a: seq<int>, b: seq<int>, selected: set<int>)
    ensures Filter(a + b, selected) == Filter(a, selected) + Filter(b, selected)
  {
    if a != [] {
      FilterAppend(a[1..], b, selected);
      assert (a + b)[1..] == a[1..] + b;
    } else {
      assert a + b == b;
    }
  }

  /** Each selected tag is kept as often as it occurs; others never. */
  lemma {:induction false} FilterCounts(tags: seq<int>, selected: set<int>, t: int)
    ensures multiset(Filter(tags, selected))[t] == if t in selected then multiset(tags)[t] else 0
  {
    if tags != [] {
      FilterCounts(tags[1..], selected, t);
      assert tags == [tags[0]] + tags[1..];
    }
  }

  /** Since every class is selected, the filter does not change the
      vector: it only spares the binarizer the unknown tags. */
  lemma ParseLabelIgnoresUnselected(tags: seq<int>, selected: set<int>, classes: seq<int>)
    requires IsClassOrder(classes, selected)
    ensures ParseLabel(tags, selected, classes) == MultiHot(classes, tags)
  {
    FilterMembers(tags, selected);
    var r, s := ParseLabel(tags, selected, classes), MultiHot(classes, tags);
    assert forall i :: 0 <= i < |classes| ==> r[i] == s[i];
  }

  // ---------------------------------------------------------------------
  // Category ids (lines 78-84)

  datatype Category = Category(first: int, second: nat)

  /** Python's clamped slice `s[i:j]`. */
  function Slice(s: seq<char>, i: nat, j: nat): (r: seq<char>)
    ensures i <= j <= |s| ==> r == s[i..j]
  {
    var hi := if j <= |s| then j else |s|;
    if i <= hi then s[i..hi] else []
  }

  /** Lines 81-82: first-level ids above 37 move down by two. */
  function AdjustFirst(raw: nat): (id: int)
    ensures raw <= 37 ==> id == raw
    ensures raw > 37 ==> id == raw - 2
  {
    if raw > 37 then raw - 2 else raw
  }

  /** `_parse_category`: characters 1-2 of `str(n)` give the first id,
      characters 3 onward the second, and character 0 is skipped; a text
      shorter than four characters leaves an empty slice, which `int`
      rejects. */
  function ParseCategory(n: int): (r: Option<Category>)
    ensures r.Some? <==> |ToString(n)| >= 4
  {
    var s := ToString(n);
    assert |s| >= 4 ==> s[1..3] == s[1..][..2] && s[3..] == s[1..][2..];
    var raw :- ParseInt(Slice(s, 1, 3));
    var second :- ParseInt(Slice(s, 3, |s|));
    Some(Category(AdjustFirst(raw), second))
  }

  /** On a long enough text, the two ids are the values of the two
      slices. */
  lemma ParseCategoryText(n: int)
    requires |ToString(n)| >= 4
    ensures AllDigits(ToString(n)[1..3]) && AllDigits(ToString(n)[3..])
    ensures ParseCategory(n) ==
            Some(Category(AdjustFirst(Value(ToString(n)[1..3])), Value(ToString(n)[3..])))
  {
    var s := ToString(n);
    assert s[1..3] == s[1..][..2] && s[3..] == s[1..][2..];
    assert Slice(s, 1, 3) == s[1..3] && Slice(s, 3, |s|) == s[3..];
    assert ParseInt(s[1..3]) == Some(Value(s[1..3]));
    assert ParseInt(s[3..]) == Some(Value(s[3..]));
  }

  /** For n >= 0 the split needs four digits; with k digits the second id
      is the last k-3 digits as a number and the raw first id the two
      digits before them. */
  lemma ParseCategoryNatural(n: nat)
    ensures ParseCategory(n).Some? <==> n >= 1000
    ensures n >= 1000 ==>
              |Digits(n)| >= 4 &&
              var p := Pow10(|Digits(n)| - 3);
              ParseCategory(n) == Some(Category(AdjustFirst(n / p % 100), n % p))
  {
    DigitsLonger(n, 3);
    assert Pow10(3) == 1000;
    if n >= 1000 {
      var s := Digits(n);
      ParseCategoryText(n);
      NaturalSlices(n, s);
    }
  }

  lemma NaturalSlices(n: nat, s: seq<char>)
    requires s == Digits(n) && |s| >= 4
    ensures Value(s[3..]) == n % Pow10(|s| - 3)
    ensures Value(s[1..3]) == n / Pow10(|s| - 3) % 100
  {
    ValueDigits(n);
    SplitValue(s, 3);
    SplitValue(s[..3], 1);
    assert Pow10(2) == 100;
    assert s[..3][1..] == s[1..3];
  }

  /** The category whose second id is m modulo the power of ten p (its
      last digits) and whose raw first id is the digits above them. */
  function SplitAt(m: nat, p: nat): Category
    requires p >= 1
  {
    Category(AdjustFirst(m / p), m % p)
  }

  /** For n < 0 the text starts with the sign, so the split needs three
      digits; with k digits of -n the second id is its last k-2 digits and
      the raw first id its leading two. */
  lemma ParseCategoryNegative(n: int)
    requires n < 0
    ensures ParseCategory(n).Some? <==> n <= -100
    ensures n <= -100 ==> |Digits(-n)| >= 3 && ParseCategory(n) == Some(SplitAt(-n, Pow10(|Digits(-n)| - 2)))
  {
    var m: nat := -n;
    var s := ToString(n);
    assert s == ['-'] + Digits(m);
    assert |s| == |Digits(m)| + 1;
    DigitsLonger(m, 2);
    assert Pow10(2) == 100;
    if m >= 100 {
      ParseCategoryText(n);
      NegativeSlices(m, s);
    }
  }

  lemma NegativeSlices(m: nat, s: seq<char>)
    requires s == ['-'] + Digits(m) && |s| >= 4
    ensures AllDigits(s[1..3]) && AllDigits(s[3..])
    ensures Value(s[3..]) == m % Pow10(|Digits(m)| - 2)
    ensures Value(s[1..3]) == m / Pow10(|Digits(m)| - 2)
  {
    var t := Digits(m);
    assert s[1..3] == t[..2] && s[3..] == t[2..];
    ValueDigits(m);
    SplitValue(t, 2);
  }

  /** The shift merges raw ids 38 and 39 with 36 and 37 and is one-to-one
      everywhere else. */
  lemma AdjustFirstCollisions(a: nat, b: nat)
    ensures AdjustFirst(38) == AdjustFirst(36) && AdjustFirst(39) == AdjustFirst(37)
    ensures a != b && AdjustFirst(a) == AdjustFirst(b) ==>
              (a == 36 && b == 38) || (a == 38 && b == 36) || (a == 37 && b == 39) || (a == 39 && b == 37)
  {
  }
}
