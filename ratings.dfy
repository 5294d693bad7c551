/** The score arithmetic shared by the four webcam-sentiment variants
    (client/src/hooks/useVisualSentiment.ts, client/src/hooks/useSentimentCapture.ts,
    client/src/webcamCaptureFeedback.tsx, client/src/WebcamCapture.tsx) and the
    feedback screen: the sliding window, its per-category averages, the
    `[sum, min, max]` accumulator, the first weakest category and the
    three-face display. Scores are reals; the categories are
    0 = facial expression, 1 = eye contact, 2 = focus. */
module Ratings {
  import opened Types

  /** One response `result`: nominally `[facial_expression, eye_contact, focus]`. */
  type Sample = seq<real>

  /** `arr[i] ?? 0`: an entry the sample does not have counts as zero. */
  function Entry(s: Sample, c: nat): real {
    if c < |s| then s[c] else 0.0
  }

  /** Category `c` of the window's `reduce` sum, started from `[0, 0, 0]`. */
  function ColumnSum(w: seq<Sample>, c: nat): real {
    if |w| == 0 then 0.0 else ColumnSum(w[..|w| - 1], c) + Entry(w[|w| - 1], c)
  }

  /** A sample with fewer than `c + 1` entries adds nothing to category `c`. */
  lemma MissingEntryAddsNothing(w: seq<Sample>, s: Sample, c: nat)
    requires |s| <= c
    ensures ColumnSum(w + [s], c) == ColumnSum(w, c)
  {
    assert (w + [s])[..|w|] == w;
  }

  /** The window's per-category averages `sums.map(v => v / updated.length)`. */
  function Averages(w: seq<Sample>): (r: seq<real>)
    requires |w| > 0
    ensures |r| == 3
  {
    var n := |w| as real;
    [ColumnSum(w, 0) / n, ColumnSum(w, 1) / n, ColumnSum(w, 2) / n]
  }

  /** The overall sentiment: the mean of the three category averages. */
  function WindowMean(w: seq<Sample>): real
    requires |w| > 0
  {
    var a := Averages(w);
    (a[0] + a[1] + a[2]) / 3.0
  }

  /** Every entry of the first three categories of every sample of `w` lies in [lo, hi]. */
  ghost predicate EntriesWithin(w: seq<Sample>, lo: real, hi: real) {
    forall i, c :: 0 <= i < |w| && 0 <= c < 3 ==> lo <= Entry(w[i], c) <= hi
  }

  lemma {:induction false} ColumnSumBounds(w: seq<Sample>, c: nat, lo: real, hi: real)
    requires c < 3 && EntriesWithin(w, lo, hi)
    ensures |w| as real * lo <= ColumnSum(w, c) <= |w| as real * hi
  {
    if |w| > 0 {
      var p := w[..|w| - 1];
      assert EntriesWithin(p, lo, hi) by {
        forall i, c' | 0 <= i < |p| && 0 <= c' < 3 ensures lo <= Entry(p[i], c') <= hi {
          assert p[i] == w[i];
        }
      }
      ColumnSumBounds(p, c, lo, hi);
      assert |w| as real * lo == |p| as real * lo + lo;
      assert |w| as real * hi == |p| as real * hi + hi;
    }
  }

  lemma QuotientBounds(s: real, n: real, lo: real, hi: real)
    requires n > 0.0 && n * lo <= s <= n * hi
    ensures lo <= s / n <= hi
  {
    assert s / n * n == s;
  }

  /** When every score in the window lies in [lo, hi], so does every
      category average and the overall sentiment: the mean lies between
      the smallest and the largest value in the window. */
  lemma AveragesWithin(w: seq<Sample>, lo: real, hi: real)
    requires |w| > 0 && EntriesWithin(w, lo, hi)
    ensures forall c :: 0 <= c < 3 ==> lo <= Averages(w)[c] <= hi
    ensures lo <= WindowMean(w) <= hi
  {
    var n := |w| as real;
    forall c | 0 <= c < 3 ensures lo <= Averages(w)[c] <= hi {
      ColumnSumBounds(w, c, lo, hi);
      QuotientBounds(ColumnSum(w, c), n, lo, hi);
    }
  }

  /** The last `n` elements of `h` (all of them when there are fewer). */
  function LastN<T>(h: seq<T>, n: nat): seq<T> {
    if |h| <= n then h else h[|h| - n..]
  }

  /** Appending a sample and shifting out the oldest one when the window
      overflows keeps the window equal to the last `cap` arrivals. */
  lemma SlideStep<T>(h: seq<T>, s: T, cap: nat)
    requires cap >= 1
    ensures var u := LastN(h, cap) + [s];
            (if |u| > cap then u[1..] else u) == LastN(h + [s], cap)
            && |LastN(h + [s], cap)| <= cap
  {
    var u := LastN(h, cap) + [s];
    if |u| > cap {
      assert |h| >= cap;
      assert u[1..] == (h + [s])[|h| + 1 - cap..];
    }
  }

  /** One category's `[sum, min, max]` accumulator. */
  datatype Stat = Stat(sum: real, min: real, max: real)

  /** `Math.min` and `Math.max` of two scores. */
  function Min(a: real, b: real): real { if a <= b then a else b }
  function Max(a: real, b: real): real { if a >= b then a else b }

  /** The accumulator update `[sum + v, Math.min(min, v), Math.max(max, v)]`. */
  function Absorb(st: Stat, v: real): Stat {
    Stat(st.sum + v, Min(st.min, v), Max(st.max, v))
  }

  /** Category `c` of every sample of `h`, in order. */
  function Column(h: seq<Sample>, c: nat): (r: seq<real>)
    ensures |r| == |h| && forall i :: 0 <= i < |h| ==> r[i] == Entry(h[i], c)
  {
    seq(|h|, i requires 0 <= i < |h| => Entry(h[i], c))
  }

  /** Running minimum of category `c` over `h`, started at `seed`. */
  function ColumnMin(h: seq<Sample>, c: nat, seed: real): real {
    if |h| == 0 then seed else Min(ColumnMin(h[..|h| - 1], c, seed), Entry(h[|h| - 1], c))
  }

  /** Running maximum of category `c` over `h`, started at `seed`. */
  function ColumnMax(h: seq<Sample>, c: nat, seed: real): real {
    if |h| == 0 then seed else Max(ColumnMax(h[..|h| - 1], c, seed), Entry(h[|h| - 1], c))
  }

  /** What category `c`'s accumulator holds after the samples `h`, from `seed`. */
  function Accumulated(h: seq<Sample>, seed: Stat, c: nat): Stat {
    Stat(seed.sum + ColumnSum(h, c), ColumnMin(h, c, seed.min), ColumnMax(h, c, seed.max))
  }

  /** The three accumulators after the samples `h`, all from `seed`. */
  function AccumulatedAll(h: seq<Sample>, seed: Stat): (r: seq<Stat>)
    ensures |r| == 3
  {
    [Accumulated(h, seed, 0), Accumulated(h, seed, 1), Accumulated(h, seed, 2)]
  }

  /** Before any sample the accumulators are all the seed and the window
      is empty. */
  lemma NothingAccumulated(seed: Stat, n: nat)
    ensures AccumulatedAll([], seed) == [seed, seed, seed]
    ensures LastN<Sample>([], n) == []
  {
  }

  /** Folding one more sample into the accumulators is accumulating the
      longer history. */
  lemma AbsorbStep(h: seq<Sample>, seed: Stat, s: Sample)
    ensures forall c :: 0 <= c < 3 ==>
      Absorb(AccumulatedAll(h, seed)[c], Entry(s, c)) == AccumulatedAll(h + [s], seed)[c]
  {
    assert (h + [s])[..|h|] == h;
  }

  /** The running minimum is the smallest value seen once a sample arrived,
      provided no value exceeds the seed. */
  lemma {:induction false} ColumnMinIsSmallest(h: seq<Sample>, c: nat, seed: real)
    requires |h| >= 1
    requires forall i :: 0 <= i < |h| ==> Entry(h[i], c) <= seed
    ensures ColumnMin(h, c, seed) in Column(h, c)
    ensures forall i :: 0 <= i < |h| ==> ColumnMin(h, c, seed) <= Entry(h[i], c)
  {
    var p := h[..|h| - 1];
    if |p| >= 1 {
      ColumnMinIsSmallest(p, c, seed);
      var m := ColumnMin(p, c, seed);
      var k :| 0 <= k < |p| && Column(p, c)[k] == m;
      assert Column(h, c)[k] == m;
    }
    assert Column(h, c)[|h| - 1] == Entry(h[|h| - 1], c);
  }

  /** The running maximum is the largest value seen once a sample arrived,
      provided no value is below the seed. */
  lemma {:induction false} ColumnMaxIsLargest(h: seq<Sample>, c: nat, seed: real)
    requires |h| >= 1
    requires forall i :: 0 <= i < |h| ==> seed <= Entry(h[i], c)
    ensures ColumnMax(h, c, seed) in Column(h, c)
    ensures forall i :: 0 <= i < |h| ==> Entry(h[i], c) <= ColumnMax(h, c, seed)
  {
    var p := h[..|h| - 1];
    if |p| >= 1 {
      ColumnMaxIsLargest(p, c, seed);
      var m := ColumnMax(p, c, seed);
      var k :| 0 <= k < |p| && Column(p, c)[k] == m;
      assert Column(h, c)[k] == m;
    }
    assert Column(h, c)[|h| - 1] == Entry(h[|h| - 1], c);
  }

  /** The running minimum never exceeds its seed and the running maximum is
      never below its seed. */
  lemma {:induction false} SeedBracketed(h: seq<Sample>, c: nat, seed: real)
    ensures ColumnMin(h, c, seed) <= seed <= ColumnMax(h, c, seed)
  {
    if |h| > 0 {
      SeedBracketed(h[..|h| - 1], c, seed);
    }
  }

  /** `Math.min(...a)`. */
  function MinOf(a: seq<real>): (m: real)
    requires |a| > 0
    ensures m in a && forall i :: 0 <= i < |a| ==> m <= a[i]
  {
    if |a| == 1 then a[0]
    else
      var p := MinOf(a[..|a| - 1]);
      assert forall i :: 0 <= i < |a| - 1 ==> a[..|a| - 1][i] == a[i];
      Min(p, a[|a| - 1])
  }

  /** `a.indexOf(v)`: the first index holding `v`, or -1. */
  function IndexOf(a: seq<real>, v: real): (i: int)
    ensures -1 <= i < |a|
    ensures i >= 0 ==> a[i] == v && forall j :: 0 <= j < i ==> a[j] != v
    ensures i == -1 ==> v !in a
  {
    if |a| == 0 then -1
    else if a[0] == v then 0
    else
      var k := IndexOf(a[1..], v);
      assert forall j :: 1 <= j < |a| ==> a[j] == a[1..][j - 1];
      if k == -1 then -1 else k + 1
  }

  /** Index `i` holds the minimum of `a` and no earlier index does. */
  ghost predicate IsFirstMin(a: seq<real>, i: int) {
    0 <= i < |a|
    && (forall j :: 0 <= j < |a| ==> a[i] <= a[j])
    && (forall j :: 0 <= j < i ==> a[i] < a[j])
  }

  /** The weakest category, as the suggestion rules pick it:
      `averages.indexOf(Math.min(...averages))`. */
  function IndexOfMin(a: seq<real>): (i: nat)
    requires |a| > 0
    ensures IsFirstMin(a, i)
  {
    IndexOf(a, MinOf(a))
  }

  /** `a.reduce((min, current, i) => current < min.value ? {value: current, index: i} : min,
      {value: a[0], index: 0})` over the first `n` elements: the index it keeps. */
  function ReduceMinIndex(a: seq<real>, n: nat): (i: nat)
    requires 0 < |a| && n <= |a|
    ensures i < |a| && (n > 0 ==> i < n)
    ensures forall j :: 0 <= j < n ==> a[i] <= a[j]
    ensures forall j :: 0 <= j < i ==> a[i] < a[j]
  {
    if n == 0 then 0
    else
      var k := ReduceMinIndex(a, n - 1);
      if a[n - 1] < a[k] then n - 1 else k
  }

  /** There is only one first minimum. */
  lemma FirstMinUnique(a: seq<real>, i: int, j: int)
    requires IsFirstMin(a, i) && IsFirstMin(a, j)
    ensures i == j
  {
    assert a[i] <= a[j] && a[j] <= a[i];
    assert !(i < j) && !(j < i);
  }

  /** The strict-`<` reduce and `indexOf(Math.min(...))` pick the same category. */
  lemma ReduceAgreesWithIndexOfMin(a: seq<real>)
    requires |a| > 0
    ensures ReduceMinIndex(a, |a|) == IndexOfMin(a)
  {
    var i := ReduceMinIndex(a, |a|);
    assert IsFirstMin(a, i);
    FirstMinUnique(a, i, IndexOfMin(a));
  }

  /** The coaching line when every category is strong. */
  const Great := "Doing great! Keep it up!"

  /** The tip for a weak category (the `tips` table). */
  function CategoryTip(c: nat): string {
    if c == 0 then "Be more expressive!"
    else if c == 1 then "Look at the audience!"
    else "Stay still, stop fidgeting!"
  }

  /** The visual suggestion for the window averages `avgs`: `smallest >= 6.5`
      gives the praise, `smallest < 5` the tip of the first weakest
      category, anything in between the empty string. */
  function Tip(avgs: seq<real>): (r: string)
    requires |avgs| == 3
    ensures r == Great <==> forall c :: 0 <= c < 3 ==> avgs[c] >= 6.5
    ensures r == "" <==> (forall c :: 0 <= c < 3 ==> avgs[c] >= 5.0) && exists c :: 0 <= c < 3 && avgs[c] < 6.5
    ensures (exists c :: 0 <= c < 3 && avgs[c] < 5.0) ==> forall i :: IsFirstMin(avgs, i) ==> r == CategoryTip(i)
  {
    var smallest := MinOf(avgs);
    if smallest >= 6.5 then Great
    else if smallest < 5.0 then
      var i := IndexOfMin(avgs);
      assert forall j :: IsFirstMin(avgs, j) ==> j == i by {
        forall j | IsFirstMin(avgs, j) ensures j == i { FirstMinUnique(avgs, i, j); }
      }
      CategoryTip(i)
    else ""
  }

  /** The emoji faces of the two webcam demos. */
  datatype Face = Happy | Neutral | Sad

  /** The faces shown by the three conditional elements
      `{s >= 7 && 😄}`, `{s < 7 && s >= 5 && 😐}` and `{s < 5 && 😢}`. */
  function ShownFaces(s: real): (r: set<Face>)
    ensures |r| == 1
    ensures (Happy in r <==> s >= 7.0) && (Neutral in r <==> 5.0 <= s < 7.0) && (Sad in r <==> s < 5.0)
  {
    (if s >= 7.0 then {Happy} else {})
    + (if s < 7.0 && s >= 5.0 then {Neutral} else {})
    + (if s < 5.0 then {Sad} else {})
  }

  /** `ratings.map(category => [category[0] / dataCount, category[1], category[2]])`.
      With no data the quotient has no real value (JavaScript gives NaN or
      Infinity), so the model returns None there. */
  function AveragedRatings(ratings: seq<Stat>, dataCount: nat): (r: Option<seq<Stat>>)
    ensures r.Some? <==> dataCount > 0
    ensures r.Some? ==> |r.value| == |ratings| && forall i :: 0 <= i < |ratings| ==>
      r.value[i].sum == ratings[i].sum / dataCount as real
      && r.value[i].min == ratings[i].min && r.value[i].max == ratings[i].max
  {
    if dataCount == 0 then None
    else Some(seq(|ratings|, i requires 0 <= i < |ratings| =>
      Stat(ratings[i].sum / dataCount as real, ratings[i].min, ratings[i].max)))
  }

  /** Averaging the accumulators of `h` divides each category's running
      sum, the seed plus every value of `h` however many of them the window
      has since evicted, by the number of samples. */
  lemma AveragedAccumulators(h: seq<Sample>, seed: Stat)
    requires |h| > 0
    ensures AveragedRatings(AccumulatedAll(h, seed), |h|).Some?
    ensures forall c :: 0 <= c < 3 ==>
      AveragedRatings(AccumulatedAll(h, seed), |h|).value[c].sum == AccumulatedAll(h, seed)[c].sum / |h| as real
    ensures forall c :: 0 <= c < 3 ==> AccumulatedAll(h, seed)[c].sum == seed.sum + ColumnSum(h, c)
  {
  }
}
