/** The `useVisualSentiment` hook (client/src/hooks/useVisualSentiment.ts):
    every two seconds a webcam frame is scored by the visual-sentiment
    endpoint; a valid score triple is folded into per-category
    `[sum, min, max]` accumulators and into a window of the last four
    samples, whose mean is the displayed sentiment. */
module VisualSentiment {
  import opened Types
  import opened Ratings

  /** One element of the response's `result`, as JSON delivers it. */
  datatype Value = Num(x: real) | NaN | NotNumber

  /** The response's `result` field: an array, or anything else. */
  datatype Payload = Array(items: seq<Value>) | NotArray

  /** What one POST to the visual-sentiment endpoint yields: a failure
      (network error or unreadable body, caught and logged) or a reply
      with its HTTP status, whether it carries `error`, and its `result`. */
  datatype Response = Failed | Reply(ok: bool, hasError: bool, result: Payload)

  /** The hook's initial accumulator `[0, 10, 0]` of every category. */
  const Seed := Stat(0.0, 10.0, 0.0)
  const InitialSentiment := 6.0
  /** "Keep only last 4 samples". */
  const WindowSize := 4

  /** The checks `videoCapture` makes before using a response, in the
      source's order: not OK, `error`, `result[0] === -1`, not an array of
      length 3, an entry that is not a number. The accepted triple, if any. */
  function Validate(r: Response): (s: Option<Sample>)
    ensures s.Some? <==>
      r.Reply? && r.ok && !r.hasError && r.result.Array? && |r.result.items| == 3
      && (forall i :: 0 <= i < 3 ==> r.result.items[i].Num?)
      && r.result.items[0] != Num(-1.0)
    ensures s.Some? ==> |s.value| == 3 && forall i :: 0 <= i < 3 ==> r.result.items[i] == Num(s.value[i])
  {
    if r.Failed? || !r.ok || r.hasError then None
    else if r.result.Array? && |r.result.items| > 0 && r.result.items[0] == Num(-1.0) then None
    else if r.result.NotArray? || |r.result.items| != 3 then None
    else if !(forall i :: 0 <= i < 3 ==> r.result.items[i].Num?) then None
    else Some([r.result.items[0].x, r.result.items[1].x, r.result.items[2].x])
  }

  class VisualSentimentHook {
    var sentiment: real           // visualSentiment
    var window: seq<Sample>       // visualRunningRating
    var ratings: seq<Stat>        // visualRuntimeRatings
    var dataCount: nat
    var suggestion: string
    /** Every sample accepted since the hook was created or last reset. */
    ghost var accepted: seq<Sample>

    ghost predicate Valid()
      reads this
    {
      && dataCount == |accepted|
      && (forall i :: 0 <= i < |accepted| ==> |accepted[i]| == 3)
      && window == LastN(accepted, WindowSize)
      && ratings == AccumulatedAll(accepted, Seed)
      && sentiment == (if accepted == [] then InitialSentiment else WindowMean(window))
      && (accepted == [] ==> suggestion == "")
    }

    /** The state the hook starts in and `reset` restores; it satisfies
        `Valid()` (lemma `InitialIsValid`). */
    ghost predicate Initial()
      reads this
    {
      && sentiment == InitialSentiment && window == [] && dataCount == 0 && suggestion == ""
      && ratings == [Seed, Seed, Seed] && accepted == []
    }

    constructor ()
      ensures Initial()
    {
      sentiment, window, dataCount, suggestion := InitialSentiment, [], 0, "";
      ratings := [Seed, Seed, Seed];
      accepted := [];
    }

    /** The update `videoCapture` makes with one response: a rejected
        response changes nothing; an accepted triple is folded into the
        accumulators, appended to the window (shifting out the oldest of
        five), counted, and the sentiment becomes the window mean. */
    method VideoCapture(r: Response)
      requires Valid()
      modifies this`ratings, this`window, this`dataCount, this`sentiment, this`accepted
      ensures Valid()
      ensures Validate(r).None? ==> unchanged(this)
      ensures Validate(r).Some? ==> accepted == old(accepted) + [Validate(r).value]
    {
      var s := Validate(r);
      if s.None? {
        return;
      }
      Accept(s.value);
    }

    /** The accepted branch of `videoCapture`. */
    method Accept(v: Sample)
      requires Valid() && |v| == 3
      modifies this`ratings, this`window, this`dataCount, this`sentiment, this`accepted
      ensures Valid() && accepted == old(accepted) + [v]
    {
      ratings := [Absorb(ratings[0], v[0]), Absorb(ratings[1], v[1]), Absorb(ratings[2], v[2])];
      assert ratings == AccumulatedAll(accepted + [v], Seed) by {
        AbsorbStep(accepted, Seed, v);
      }
      var updated := window + [v];
      dataCount := dataCount + 1;
      if |updated| > WindowSize {
        updated := updated[1..];
      }
      assert updated == LastN(accepted + [v], WindowSize) by {
        SlideStep(accepted, v, WindowSize);
      }
      window := updated;
      sentiment := WindowMean(window);
      accepted := accepted + [v];
    }

    /** The suggestion effect: while the session runs and the window is not
        empty, the suggestion follows the window averages. */
    method UpdateSuggestion(isStarted: bool, isPaused: bool)
      requires Valid()
      modifies this`suggestion
      ensures Valid()
      ensures if isStarted && !isPaused && window != []
        then suggestion == Tip(Averages(window))
        else suggestion == old(suggestion)
    {
      if isStarted && !isPaused && |window| > 0 {
        suggestion := Tip(Averages(window));
      }
    }

    /** `currentAverages`: each category's sum divided by `dataCount`, or by 1
        before any sample: the mean of every accepted value of the category. */
    function Categories(): (r: seq<real>)
      reads this
      requires Valid()
      ensures |r| == 3
      ensures dataCount == 0 ==> r == [0.0, 0.0, 0.0]
      ensures dataCount > 0 ==> forall c :: 0 <= c < 3 ==> r[c] == ColumnSum(accepted, c) / |accepted| as real
    {
      var d := if dataCount == 0 then 1.0 else dataCount as real;
      [ratings[0].sum / d, ratings[1].sum / d, ratings[2].sum / d]
    }

    /** `reset`: back to the initial state, whatever the state was. */
    method Reset()
      modifies this
      ensures Initial()
    {
      sentiment := InitialSentiment;
      window := [];
      ratings := [Seed, Seed, Seed];
      dataCount := 0;
      suggestion := "";
      accepted := [];
    }
  }

  /** The initial state satisfies the invariant. */
  lemma InitialIsValid(h: VisualSentimentHook)
    requires h.Initial()
    ensures h.Valid()
  {
    NothingAccumulated(Seed, WindowSize);
  }

  /** The window never holds more than four samples, and they are the most
      recent accepted ones, in arrival order. */
  lemma WindowIsLatest(h: seq<Sample>)
    ensures |LastN(h, WindowSize)| == if |h| < WindowSize then |h| else WindowSize
    ensures forall i :: 0 <= i < |LastN(h, WindowSize)| ==>
      LastN(h, WindowSize)[i] == h[|h| - |LastN(h, WindowSize)| + i]
  {
  }

  /** With scores in [0, 10], after at least one accepted sample the `min`
      and `max` of each accumulator are exactly the smallest and largest
      value seen, and `sum` is the total of every accepted value. */
  lemma AccumulatorsExact(h: seq<Sample>, c: nat)
    requires |h| >= 1 && c < 3
    requires EntriesWithin(h, 0.0, 10.0)
    ensures AccumulatedAll(h, Seed)[c].sum == ColumnSum(h, c)
    ensures AccumulatedAll(h, Seed)[c].min in Column(h, c)
    ensures AccumulatedAll(h, Seed)[c].max in Column(h, c)
    ensures forall i :: 0 <= i < |h| ==>
      AccumulatedAll(h, Seed)[c].min <= Entry(h[i], c) <= AccumulatedAll(h, Seed)[c].max
  {
    ColumnMinIsSmallest(h, c, 10.0);
    ColumnMaxIsLargest(h, c, 0.0);
  }

  /** With scores in [0, 10], the sentiment after an accepted sample lies
      between the smallest and largest score in the window. */
  lemma SentimentWithinWindow(h: seq<Sample>, lo: real, hi: real)
    requires |h| >= 1 && EntriesWithin(LastN(h, WindowSize), lo, hi)
    ensures lo <= WindowMean(LastN(h, WindowSize)) <= hi
  {
    AveragesWithin(LastN(h, WindowSize), lo, hi);
  }
}
