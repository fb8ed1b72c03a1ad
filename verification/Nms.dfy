/** Greedy non-maximum suppression over decoded detections. */
module Nms {
  import opened Boxes
  import opened Filters

  datatype Detection = Detection(name: string, confidence: real, box: Box)

  /** Whether a kept detection rules out another. */
  type Rule = (Detection, Detection) -> bool

  function Overlapping(threshold: real): Rule {
    (d: Detection, x: Detection) => x.name == d.name && !(IoU(d.box, x.box) < threshold)
  }

  function NotRuledOut(d: Detection, rule: Rule): Detection -> bool {
    x => !rule(d, x)
  }

  /** The list comprehension of the loop body. */
  function Without(d: Detection, dets: seq<Detection>, rule: Rule): (r: seq<Detection>)
    ensures |r| <= |dets|
  {
    Filter(dets, NotRuledOut(d, rule))
  }

  /** What the loop keeps of a list that is already sorted. */
  function Greedy(dets: seq<Detection>, rule: Rule): seq<Detection>
    decreases |dets|
  {
    if dets == [] then []
    else [dets[0]] + Greedy(Without(dets[0], dets[1..], rule), rule)
  }

  function Kept(dets: seq<Detection>, rule: Rule): seq<Detection> {
    Greedy(StableSort(dets), rule)
  }

  // ---------------------------------------------------------------- sorting

  function Insert(d: Detection, s: seq<Detection>): seq<Detection> {
    if s == [] || d.confidence >= s[0].confidence then [d] + s else [s[0]] + Insert(d, s[1..])
  }

  /** Descending by confidence, ties in input order: Python's stable sort with reverse=True. */
  function StableSort(s: seq<Detection>): seq<Detection> {
    if s == [] then [] else Insert(s[0], StableSort(s[1..]))
  }

  predicate Descending(s: seq<Detection>) {
    s == [] || ((forall x | x in s[1..] :: s[0].confidence >= x.confidence) && Descending(s[1..]))
  }

  function OfConfidence(c: real): Detection -> bool {
    (x: Detection) => x.confidence == c
  }

  /** The detections of one confidence, in order. */
  function Level(s: seq<Detection>, c: real): seq<Detection> {
    Filter(s, OfConfidence(c))
  }

  lemma DescendingCons(d: Detection, s: seq<Detection>)
    requires Descending(s) && forall x | x in s :: d.confidence >= x.confidence
    ensures Descending([d] + s)
  {
    assert ([d] + s)[1..] == s;
  }

  lemma {:induction false} InsertSorts(d: Detection, s: seq<Detection>)
    requires Descending(s)
    ensures Descending(Insert(d, s))
    ensures forall x :: x in Insert(d, s) <==> x == d || x in s
  {
    if s == [] || d.confidence >= s[0].confidence {
      assert forall x | x in s :: x == s[0] || x in s[1..];
      DescendingCons(d, s);
    } else {
      InsertSorts(d, s[1..]);
      DescendingCons(s[0], Insert(d, s[1..]));
      assert forall x :: x in s <==> x == s[0] || x in s[1..];
    }
  }

  lemma {:induction false} InsertLevel(d: Detection, s: seq<Detection>, c: real)
    ensures Level(Insert(d, s), c) == (if d.confidence == c then [d] else []) + Level(s, c)
  {
    if s == [] || d.confidence >= s[0].confidence {
      FilterOfCons(d, s, OfConfidence(c));
    } else {
      InsertLevel(d, s[1..], c);
      FilterOfCons(s[0], Insert(d, s[1..]), OfConfidence(c));
    }
  }

  /** The sort orders by confidence and keeps the order within each confidence. */
  lemma {:induction false} SortIsStable(s: seq<Detection>)
    ensures Descending(StableSort(s))
    ensures forall c :: Level(StableSort(s), c) == Level(s, c)
    ensures forall x :: x in StableSort(s) <==> x in s
  {
    if s == [] {
    } else {
      SortIsStable(s[1..]);
      InsertSorts(s[0], StableSort(s[1..]));
      forall c ensures Level(StableSort(s), c) == Level(s, c) {
        InsertLevel(s[0], StableSort(s[1..]), c);
      }
      assert forall x :: x in s <==> x == s[0] || x in s[1..];
    }
  }

  lemma HeadHasMost(a: seq<Detection>, b: seq<Detection>)
    requires Descending(a) && a != [] && b != [] && forall c :: Level(a, c) == Level(b, c)
    ensures a[0].confidence >= b[0].confidence
  {
    FilterHas(a, OfConfidence(b[0].confidence), b[0]);
    assert Level(b, b[0].confidence)[0] == b[0];
    assert b[0] in Level(a, b[0].confidence);
    assert a == [a[0]] + a[1..];
  }

  lemma TailLevel(a: seq<Detection>, c: real)
    requires a != []
    ensures a[0].confidence == c ==> Level(a, c) == [a[0]] + Level(a[1..], c)
    ensures a[0].confidence != c ==> Level(a, c) == Level(a[1..], c)
  {}

  /** Order and stability leave only one result. */
  lemma {:induction false} StableOrderIsUnique(a: seq<Detection>, b: seq<Detection>)
    requires Descending(a) && Descending(b)
    requires forall c :: Level(a, c) == Level(b, c)
    ensures a == b
  {
    if a == [] || b == [] {
      if b != [] {
        TailLevel(b, b[0].confidence);
      } else if a != [] {
        TailLevel(a, a[0].confidence);
      }
    } else {
      HeadHasMost(a, b);
      HeadHasMost(b, a);
      var top := a[0].confidence;
      forall c ensures Level(a[1..], c) == Level(b[1..], c) && a[0] == b[0] {
        TailLevel(a, top);
        TailLevel(b, top);
        assert Level(a, top)[0] == a[0] && Level(a, top)[1..] == Level(a[1..], top);
        assert Level(b, top)[0] == b[0] && Level(b, top)[1..] == Level(b[1..], top);
        TailLevel(a, c);
        TailLevel(b, c);
      }
      assert Level(a[1..], top) == Level(b[1..], top);
      StableOrderIsUnique(a[1..], b[1..]);
      assert a == [a[0]] + a[1..] && b == [b[0]] + b[1..];
    }
  }

  // ---------------------------------------------------------------- the greedy subsequence

  /** An item is marked exactly when no earlier marked item rules it out. */
  predicate MarksGreedily(dets: seq<Detection>, marks: seq<bool>, rule: Rule) {
    |marks| == |dets|
    && forall i | 0 <= i < |dets| ::
      marks[i] <==> !exists j | 0 <= j < i :: marks[j] && rule(dets[j], dets[i])
  }

  /** The marked items, in order. */
  function Selected(dets: seq<Detection>, marks: seq<bool>): seq<Detection>
    requires |marks| == |dets|
  {
    if dets == [] then []
    else (if marks[0] then [dets[0]] else []) + Selected(dets[1..], marks[1..])
  }

  predicate Blocked(kept: seq<Detection>, x: Detection, rule: Rule) {
    exists e | e in kept :: rule(e, x)
  }

  function NotBlocked(kept: seq<Detection>, rule: Rule): Detection -> bool {
    x => !Blocked(kept, x, rule)
  }

  function Marks(kept: seq<Detection>, dets: seq<Detection>, rule: Rule): (marks: seq<bool>)
    ensures |marks| == |dets|
    decreases |dets|
  {
    if dets == [] then []
    else if Blocked(kept, dets[0], rule) then [false] + Marks(kept, dets[1..], rule)
    else [true] + Marks(kept + [dets[0]], dets[1..], rule)
  }

  lemma BlockedByOneMore(kept: seq<Detection>, d: Detection, x: Detection, rule: Rule)
    ensures Blocked(kept + [d], x, rule) <==> Blocked(kept, x, rule) || rule(d, x)
  {
    assert forall e :: e in kept + [d] <==> e in kept || e == d;
  }

  lemma {:induction false} GreedyFollowsMarks(kept: seq<Detection>, dets: seq<Detection>, rule: Rule)
    ensures Greedy(Filter(dets, NotBlocked(kept, rule)), rule) == Selected(dets, Marks(kept, dets, rule))
    decreases |dets|
  {
    if dets == [] {
    } else if Blocked(kept, dets[0], rule) {
      GreedyFollowsMarks(kept, dets[1..], rule);
      assert Marks(kept, dets, rule)[1..] == Marks(kept, dets[1..], rule);
    } else {
      var d, rest := dets[0], Filter(dets[1..], NotBlocked(kept, rule));
      GreedyFollowsMarks(kept + [d], dets[1..], rule);
      forall x ensures NotBlocked(kept + [d], rule)(x) <==> NotBlocked(kept, rule)(x) && NotRuledOut(d, rule)(x) {
        BlockedByOneMore(kept, d, x, rule);
      }
      FilterTwice(dets[1..], NotBlocked(kept, rule), NotRuledOut(d, rule), NotBlocked(kept + [d], rule));
      assert ([d] + rest)[1..] == rest;
      assert Marks(kept, dets, rule)[1..] == Marks(kept + [d], dets[1..], rule);
    }
  }

  /** The marks so far and the items kept before together decide the next mark. */
  lemma {:induction false} MarkOf(kept: seq<Detection>, dets: seq<Detection>, rule: Rule, i: nat)
    requires i < |dets|
    ensures var marks := Marks(kept, dets, rule);
            marks[i] <==> !Blocked(kept, dets[i], rule)
                          && !exists j | 0 <= j < i :: marks[j] && rule(dets[j], dets[i])
    decreases i
  {
    var marks := Marks(kept, dets, rule);
    if i > 0 {
      var more := if marks[0] then kept + [dets[0]] else kept;
      var rest, later := Marks(more, dets[1..], rule), dets[1..];
      MarkOf(more, later, rule, i - 1);
      BlockedByOneMore(kept, dets[0], dets[i], rule);
      assert later[i - 1] == dets[i] && marks == [marks[0]] + rest && dets == [dets[0]] + later;
      if j: int :| 0 <= j < i - 1 && rest[j] && rule(later[j], dets[i]) {
        assert marks[j + 1] && rule(dets[j + 1], dets[i]);
      }
    }
  }

  lemma GreedyMarksExist(s: seq<Detection>, rule: Rule)
    ensures MarksGreedily(s, Marks([], s, rule), rule)
  {
    var marks := Marks([], s, rule);
    forall i | 0 <= i < |s| ensures marks[i] <==> !exists j | 0 <= j < i :: marks[j] && rule(s[j], s[i]) {
      MarkOf([], s, rule, i);
    }
  }

  lemma {:induction false} SameMarks(dets: seq<Detection>, a: seq<bool>, b: seq<bool>, rule: Rule, i: nat)
    requires MarksGreedily(dets, a, rule) && MarksGreedily(dets, b, rule) && i < |dets|
    ensures a[i] == b[i]
  {
    forall j: nat | j < i ensures a[j] == b[j] {
      SameMarks(dets, a, b, rule, j);
    }
  }

  /** Suppression keeps the one subsequence of the sorted input in which an item is in exactly when
      no earlier kept item rules it out. */
  lemma KeepsTheGreedySubsequence(dets: seq<Detection>, rule: Rule)
    ensures exists marks :: MarksGreedily(StableSort(dets), marks, rule)
    ensures forall marks | MarksGreedily(StableSort(dets), marks, rule) ::
              Kept(dets, rule) == Selected(StableSort(dets), marks)
  {
    var s := StableSort(dets);
    var greedy := Marks([], s, rule);
    GreedyMarksExist(s, rule);
    GreedyFollowsMarks([], s, rule);
    FilterAll(s, NotBlocked([], rule));
    forall marks | MarksGreedily(s, marks, rule) ensures Kept(dets, rule) == Selected(s, marks) {
      forall i: nat | i < |s| ensures marks[i] == greedy[i] {
        SameMarks(s, marks, greedy, rule, i);
      }
      assert marks == greedy;
    }
  }

  lemma {:induction false} SelectedHas(dets: seq<Detection>, marks: seq<bool>, i: nat)
    requires |marks| == |dets| && i < |dets| && marks[i]
    ensures dets[i] in Selected(dets, marks)
  {
    if i > 0 {
      SelectedHas(dets[1..], marks[1..], i - 1);
    }
  }

  lemma {:induction false} LaterAreLower(s: seq<Detection>, i: nat, j: nat)
    requires Descending(s) && i < j < |s|
    ensures s[i].confidence >= s[j].confidence
  {
    if i == 0 {
      assert s[j] == s[1..][j - 1];
    } else {
      LaterAreLower(s[1..], i - 1, j - 1);
    }
  }

  /** Whatever is dropped is dominated: a kept detection of no lower confidence rules it out. */
  lemma DroppedAreDominated(dets: seq<Detection>, marks: seq<bool>, rule: Rule, i: nat)
    requires MarksGreedily(StableSort(dets), marks, rule) && i < |marks| && !marks[i]
    ensures exists e | e in Kept(dets, rule) ::
              rule(e, StableSort(dets)[i]) && e.confidence >= StableSort(dets)[i].confidence
  {
    var s := StableSort(dets);
    SortIsStable(dets);
    var j: nat :| j < i && marks[j] && rule(s[j], s[i]);
    SelectedHas(s, marks, j);
    LaterAreLower(s, j, i);
    KeepsTheGreedySubsequence(dets, rule);
    assert s[j] in Kept(dets, rule);
  }

  // ---------------------------------------------------------------- idempotence

  /** No item rules out a later one. */
  predicate Unrelated(s: seq<Detection>, rule: Rule) {
    s == [] || ((forall x | x in s[1..] :: !rule(s[0], x)) && Unrelated(s[1..], rule))
  }

  lemma {:induction false} FilterDescends(s: seq<Detection>, pass: Detection -> bool)
    requires Descending(s)
    ensures Descending(Filter(s, pass))
  {
    if s == [] {
    } else {
      FilterDescends(s[1..], pass);
      if pass(s[0]) {
        forall x | x in Filter(s[1..], pass) ensures s[0].confidence >= x.confidence {
          FilterHas(s[1..], pass, x);
        }
        DescendingCons(s[0], Filter(s[1..], pass));
      }
    }
  }

  lemma {:induction false} GreedyHas(s: seq<Detection>, rule: Rule, x: Detection)
    requires x in Greedy(s, rule)
    ensures x in s
    decreases |s|
  {
    if x != s[0] {
      GreedyHas(Without(s[0], s[1..], rule), rule, x);
      FilterHas(s[1..], NotRuledOut(s[0], rule), x);
    }
  }

  lemma {:induction false} GreedyKeepsOrder(s: seq<Detection>, rule: Rule)
    requires Descending(s)
    ensures Descending(Greedy(s, rule)) && Unrelated(Greedy(s, rule), rule)
    decreases |s|
  {
    if s == [] {
    } else {
      var left := Without(s[0], s[1..], rule);
      FilterDescends(s[1..], NotRuledOut(s[0], rule));
      GreedyKeepsOrder(left, rule);
      forall x | x in Greedy(left, rule) ensures s[0].confidence >= x.confidence && !rule(s[0], x) {
        GreedyHas(left, rule, x);
        FilterHas(s[1..], NotRuledOut(s[0], rule), x);
      }
      DescendingCons(s[0], Greedy(left, rule));
      assert ([s[0]] + Greedy(left, rule))[1..] == Greedy(left, rule);
    }
  }

  lemma {:induction false} UnrelatedStay(s: seq<Detection>, rule: Rule)
    requires Unrelated(s, rule)
    ensures Greedy(s, rule) == s
  {
    if s == [] {
    } else {
      FilterAll(s[1..], NotRuledOut(s[0], rule));
      UnrelatedStay(s[1..], rule);
      assert s == [s[0]] + s[1..];
    }
  }

  /** Suppressing again changes nothing. */
  lemma SuppressionIsIdempotent(dets: seq<Detection>, rule: Rule)
    ensures Kept(Kept(dets, rule), rule) == Kept(dets, rule)
  {
    var kept := Kept(dets, rule);
    SortIsStable(dets);
    GreedyKeepsOrder(StableSort(dets), rule);
    SortIsStable(kept);
    StableOrderIsUnique(StableSort(kept), kept);
    UnrelatedStay(kept, rule);
  }

  // ---------------------------------------------------------------- the confidence slider

  /** Python's round(c, 4): the nearest multiple of 1/10000, an even one on a tie. */
  function Rounded(c: real): real {
    var scaled := c * 10000.0;
    var low := scaled.Floor;
    var up := scaled - low as real > 0.5 || (scaled - low as real == 0.5 && low % 2 != 0);
    (if up then low + 1 else low) as real / 10000.0
  }

  /** The result page's filter on the rounded confidence. */
  function Shown(cut: real): Detection -> bool {
    (x: Detection) => Rounded(x.confidence) >= cut
  }

  /** A check that a higher confidence never fails where a lower one passes. */
  ghost predicate UpClosed(pass: Detection -> bool) {
    forall x: Detection, y: Detection | pass(x) && y.confidence >= x.confidence :: pass(y)
  }

  lemma ShownIsUpClosed(cut: real)
    ensures UpClosed(Shown(cut))
  {
    forall x: Detection, y: Detection | Shown(cut)(x) && y.confidence >= x.confidence ensures Shown(cut)(y) {
      RoundingIsMonotone(x.confidence, y.confidence);
    }
  }

  lemma RoundingIsMonotone(c: real, d: real)
    requires c <= d
    ensures Rounded(c) <= Rounded(d)
  {
    assert (c * 10000.0).Floor <= (d * 10000.0).Floor;
  }

  /** The rounded confidence is the multiple of 1/10000 nearest to it, an even one if two are as near. */
  lemma RoundedToNearest(c: real) returns (n: int)
    ensures Rounded(c) == n as real / 10000.0
    ensures -1.0 / 20000.0 <= c - Rounded(c) <= 1.0 / 20000.0
    ensures c - Rounded(c) == 1.0 / 20000.0 || Rounded(c) - c == 1.0 / 20000.0 ==> n % 2 == 0
  {
    var low := (c * 10000.0).Floor;
    n := if Rounded(c) == low as real / 10000.0 then low else low + 1;
  }

  lemma LevelOfFiltered(s: seq<Detection>, pass: Detection -> bool, c: real)
    ensures Level(Filter(s, pass), c) == Filter(Level(s, c), pass)
  {
    FilterCommutes(s, pass, OfConfidence(c));
  }

  lemma SortCommutesWithFilter(s: seq<Detection>, pass: Detection -> bool)
    ensures StableSort(Filter(s, pass)) == Filter(StableSort(s), pass)
  {
    SortIsStable(s);
    SortIsStable(Filter(s, pass));
    FilterDescends(StableSort(s), pass);
    forall c ensures Level(StableSort(Filter(s, pass)), c) == Level(Filter(StableSort(s), pass), c) {
      LevelOfFiltered(s, pass, c);
      LevelOfFiltered(StableSort(s), pass, c);
    }
    StableOrderIsUnique(StableSort(Filter(s, pass)), Filter(StableSort(s), pass));
  }

  lemma {:induction false} GreedyCommutesWithFilter(s: seq<Detection>, rule: Rule, pass: Detection -> bool)
    requires Descending(s) && UpClosed(pass)
    ensures Greedy(Filter(s, pass), rule) == Filter(Greedy(s, rule), pass)
    decreases |s|
  {
    if s == [] {
    } else if !pass(s[0]) {
      assert forall x | x in s :: x == s[0] || x in s[1..];
      FilterNone(s, pass);
      forall x | x in Greedy(s, rule) ensures !pass(x) {
        GreedyHas(s, rule, x);
      }
      FilterNone(Greedy(s, rule), pass);
    } else {
      var left := Without(s[0], s[1..], rule);
      FilterDescends(s[1..], NotRuledOut(s[0], rule));
      GreedyCommutesWithFilter(left, rule, pass);
      FilterCommutes(s[1..], NotRuledOut(s[0], rule), pass);
      FilterOfCons(s[0], Greedy(left, rule), pass);
      assert ([s[0]] + Filter(s[1..], pass))[1..] == Filter(s[1..], pass);
    }
  }

  /** Filtering what was kept by the rounded confidence gives what suppression keeps of the filtered
      candidates, for any cut-off: the slider never has to run the detector again. */
  lemma FilterCommutesWithSuppression(dets: seq<Detection>, rule: Rule, cut: real)
    ensures Filter(Kept(dets, rule), Shown(cut)) == Kept(Filter(dets, Shown(cut)), rule)
    ensures forall x :: x in Filter(Kept(dets, rule), Shown(cut))
                        <==> x in Kept(dets, rule) && Rounded(x.confidence) >= cut
  {
    forall x ensures x in Filter(Kept(dets, rule), Shown(cut))
                     <==> x in Kept(dets, rule) && Rounded(x.confidence) >= cut
    {
      FilterHas(Kept(dets, rule), Shown(cut), x);
    }
    SortIsStable(dets);
    SortCommutesWithFilter(dets, Shown(cut));
    ShownIsUpClosed(cut);
    GreedyCommutesWithFilter(StableSort(dets), rule, Shown(cut));
  }

  // ---------------------------------------------------------------- in pixels

  lemma OverlappingInPixels(d: Detection, x: Detection, share: real)
    requires Proper(d.box) && Proper(x.box)
    ensures Overlapping(share)(d, x) <==> d.name == x.name && ShareAtLeast(d.box, x.box, share)
  {
    IoUIsShare(d.box, x.box, share);
  }

  /** The marked positions of a list are kept: no two of one name have this share of their pixels in
      common, and every
      other position has that much in common with an earlier marked one of the same name and no lower
      confidence. */
  ghost predicate KeptInPixels(s: seq<Detection>, marks: seq<bool>, share: real) {
    && |marks| == |s|
    && (forall i, j | 0 <= i < j < |s| && marks[i] && marks[j] && s[i].name == s[j].name ::
          !ShareAtLeast(s[i].box, s[j].box, share))
    && forall j | 0 <= j < |s| && !marks[j] ::
         exists i :: 0 <= i < j && marks[i] && s[i].name == s[j].name && s[i].confidence >= s[j].confidence
                     && ShareAtLeast(s[i].box, s[j].box, share)
  }

  /** That leaves no choice. */
  lemma {:induction false} KeptInPixelsOnce(s: seq<Detection>, a: seq<bool>, b: seq<bool>, share: real, i: nat)
    requires KeptInPixels(s, a, share) && KeptInPixels(s, b, share) && i < |s|
    ensures a[i] == b[i]
  {
    forall j: nat | j < i ensures a[j] == b[j] {
      KeptInPixelsOnce(s, a, b, share, j);
    }
  }

  lemma GreedyIsKeptInPixels(s: seq<Detection>, marks: seq<bool>, share: real)
    requires Descending(s) && (forall d | d in s :: Proper(d.box))
    requires MarksGreedily(s, marks, Overlapping(share))
    ensures KeptInPixels(s, marks, share)
  {
    forall i, j | 0 <= i < j < |s| && marks[i] && marks[j] && s[i].name == s[j].name
      ensures !ShareAtLeast(s[i].box, s[j].box, share)
    {
      assert s[i] in s && s[j] in s;
      OverlappingInPixels(s[i], s[j], share);
    }
    forall j | 0 <= j < |s| && !marks[j]
      ensures exists i :: 0 <= i < j && marks[i] && s[i].name == s[j].name && s[i].confidence >= s[j].confidence
                          && ShareAtLeast(s[i].box, s[j].box, share)
    {
      var i :| 0 <= i < j && marks[i] && Overlapping(share)(s[i], s[j]);
      assert s[i] in s && s[j] in s;
      OverlappingInPixels(s[i], s[j], share);
      LaterAreLower(s, i, j);
    }
  }

  /** Suppression of detections with proper boxes keeps the positions of the sorted list that are so marked, and
      there is one such marking. */
  lemma KeepsInPixels(dets: seq<Detection>, share: real)
    requires forall d | d in dets :: Proper(d.box)
    ensures exists marks :: KeptInPixels(StableSort(dets), marks, share)
    ensures forall marks | KeptInPixels(StableSort(dets), marks, share) ::
              Kept(dets, Overlapping(share)) == Selected(StableSort(dets), marks)
  {
    var s := StableSort(dets);
    SortIsStable(dets);
    KeepsTheGreedySubsequence(dets, Overlapping(share));
    var greedy :| MarksGreedily(s, greedy, Overlapping(share));
    GreedyIsKeptInPixels(s, greedy, share);
    forall marks | KeptInPixels(s, marks, share) ensures Kept(dets, Overlapping(share)) == Selected(s, marks) {
      forall i: nat | i < |s| ensures marks[i] == greedy[i] {
        KeptInPixelsOnce(s, marks, greedy, share, i);
      }
      assert marks == greedy;
    }
  }

  // ---------------------------------------------------------------- the loops

  method Suppress(input: seq<Detection>, threshold: real) returns (kept: seq<Detection>)
    ensures kept == Kept(input, Overlapping(threshold))
    ensures (forall d | d in input :: Proper(d.box)) ==>
              exists marks :: KeptInPixels(StableSort(input), marks, threshold)
                              && kept == Selected(StableSort(input), marks)
  {
    var dets := StableSort(input);
    kept := [];
    while dets != []
      invariant kept + Greedy(dets, Overlapping(threshold)) == Kept(input, Overlapping(threshold))
      decreases |dets|
    {
      var d := dets[0];
      kept := kept + [d];
      dets := Without(d, dets[1..], Overlapping(threshold));
    }
    if forall d | d in input :: Proper(d.box) {
      KeepsInPixels(input, threshold);
    }
  }

  function Detected(a: Anchor, width: int, height: int, ratio: real): Detection
    requires ratio > 0.0
  {
    Detection(a.name, a.confidence, Decode(a, width, height, ratio))
  }

  lemma KeptHas(dets: seq<Detection>, rule: Rule, x: Detection)
    requires x in Kept(dets, rule)
    ensures x in dets
  {
    SortIsStable(dets);
    GreedyHas(StableSort(dets), rule, x);
  }

  /** A detection stands where its anchor's box is in the image, under the anchor's name and confidence. */
  predicate Shows(d: Detection, a: Anchor, width: int, height: int, ratio: real) {
    && d.name == a.name && d.confidence == a.confidence
    && Placed(d.box.x, a.cx - a.bw / 2.0, width, ratio) && Placed(d.box.y, a.cy - a.bh / 2.0, height, ratio)
    && Sized(d.box.width, a.bw, width - d.box.x, ratio) && Sized(d.box.height, a.bh, height - d.box.y, ratio)
  }

  /** Decodes the candidates of an image and suppresses; every box lies inside the image, and no two
      decoded boxes have an empty union. */
  method Postprocess(anchors: seq<Anchor>, width: int, height: int, ratio: real)
    returns (dets: seq<Detection>, kept: seq<Detection>)
    requires width >= 1 && height >= 1 && ratio > 0.0
    ensures |dets| == |anchors|
    ensures forall k | 0 <= k < |dets| :: dets[k] == Detected(anchors[k], width, height, ratio)
    ensures forall k | 0 <= k < |dets| :: Shows(dets[k], anchors[k], width, height, ratio)
    ensures forall d | d in dets :: Proper(d.box) && Inside(d.box, width, height)
    ensures kept == Kept(dets, Overlapping(0.5))
    ensures exists marks :: KeptInPixels(StableSort(dets), marks, 0.5) && kept == Selected(StableSort(dets), marks)
    ensures forall d | d in kept :: d in dets
    ensures forall d, e | d in dets && e in dets :: Union(d.box, e.box) > 0
  {
    dets := [];
    for i := 0 to |anchors|
      invariant |dets| == i
      invariant forall k | 0 <= k < i :: dets[k] == Detected(anchors[k], width, height, ratio)
    {
      dets := dets + [Detected(anchors[i], width, height, ratio)];
    }
    AllAreShown(anchors, dets, width, height, ratio);
    kept := Suppress(dets, 0.5);
    KeptFromThose(dets);
    NoEmptyUnion(dets);
  }

  lemma AllAreShown(anchors: seq<Anchor>, dets: seq<Detection>, width: int, height: int, ratio: real)
    requires width >= 1 && height >= 1 && ratio > 0.0 && |dets| == |anchors|
    requires forall k | 0 <= k < |dets| :: dets[k] == Detected(anchors[k], width, height, ratio)
    ensures forall k | 0 <= k < |dets| :: Shows(dets[k], anchors[k], width, height, ratio)
    ensures forall d | d in dets :: Proper(d.box) && Inside(d.box, width, height)
  {
    forall k | 0 <= k < |dets|
      ensures Shows(dets[k], anchors[k], width, height, ratio)
      ensures Proper(dets[k].box) && Inside(dets[k].box, width, height)
    {
      DecodedInside(anchors[k], width, height, ratio);
      DecodedWhere(anchors[k], width, height, ratio);
    }
  }

  lemma KeptFromThose(dets: seq<Detection>)
    ensures forall d | d in Kept(dets, Overlapping(0.5)) :: d in dets
  {
    forall d | d in Kept(dets, Overlapping(0.5)) ensures d in dets {
      KeptHas(dets, Overlapping(0.5), d);
    }
  }

  lemma NoEmptyUnion(dets: seq<Detection>)
    requires forall d | d in dets :: Proper(d.box)
    ensures forall d, e | d in dets && e in dets :: Union(d.box, e.box) > 0
  {
    forall d, e | d in dets && e in dets ensures Union(d.box, e.box) > 0 {
      OverlapCountsPixels(d.box, e.box);
    }
  }
}
