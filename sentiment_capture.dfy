/** The `useSentimentCapture` hook (client/src/hooks/useSentimentCapture.ts):
    every five seconds a frame is scored; whatever `result` comes back is
    appended to a window of the last five, the window mean becomes the
    sentiment text and the weakest category picks a suggestion. */
module SentimentCapture {
  import opened Types
  import opened Ratings

  /** "if (updated.length > 5) updated.shift()". */
  const WindowSize := 5
  const LookingGood := "Looking Good!"

  /** The suggestion table for the worst category `index` (0 facial
      expression, 1 eye contact, 2 focus) and its average `value`. */
  function Suggestion(index: nat, value: real): (r: string)
    requires index < 3
    ensures r == LookingGood <==> (if index == 1 then value >= 6.0 else value >= 7.0)
    ensures index == 0 ==> r in {"Smile!", "Lighten Up!", LookingGood} && (r == "Smile!" <==> value < 5.0)
    ensures index == 1 ==> r in {"Look Up!", "Keep Eye Contact!", LookingGood} && (r == "Look Up!" <==> value < 5.0)
    ensures index == 2 ==> r in {"Focus Up!", "Keep Focus!", LookingGood} && (r == "Focus Up!" <==> value < 5.0)
  {
    if index == 0 then
      if value < 5.0 then "Smile!" else if value < 7.0 then "Lighten Up!" else LookingGood
    else if index == 1 then
      if value < 5.0 then "Look Up!" else if value < 6.0 then "Keep Eye Contact!" else LookingGood
    else
      if value < 5.0 then "Focus Up!" else if value < 7.0 then "Keep Focus!" else LookingGood
  }

  /** The suggestion for a window: the table entry of the first category
      with the smallest average. */
  function WindowSuggestion(w: seq<Sample>): string
    requires |w| > 0
  {
    var a := Averages(w);
    Suggestion(IndexOfMin(a), MinOf(a))
  }

  class SentimentCaptureHook {
    /** The sentiment text: None while it is still "", else the number it shows. */
    var sentiment: Option<real>
    var window: seq<Sample>       // runningRating
    var suggestion: string
    /** Every result received so far, in arrival order. */
    ghost var arrivals: seq<Sample>

    ghost predicate Valid()
      reads this
    {
      && window == LastN(arrivals, WindowSize)
      && (arrivals == [] ==> sentiment == None && suggestion == "")
      && (arrivals != [] ==>
            sentiment == Some(WindowMean(window))
            && suggestion == WindowSuggestion(window))
    }

    constructor ()
      ensures Valid() && sentiment == None && suggestion == "" && window == [] && arrivals == []
    {
      sentiment, window, suggestion := None, [], "";
      arrivals := [];
    }

    /** One `capture` round trip. `reply` is None when the request or the
        JSON decoding failed (caught, nothing changes); otherwise its
        `result` is appended unchecked and the oldest of six is shifted out,
        the sentiment becomes the window mean, and the suggestion is the
        table entry for the first category with the smallest average. */
    method Capture(reply: Option<Sample>)
      requires Valid()
      modifies this
      ensures Valid()
      ensures reply.None? ==> unchanged(this)
      ensures reply.Some? ==> arrivals == old(arrivals) + [reply.value]
    {
      if reply.None? {
        return;
      }
      var result := reply.value;
      var updated := window + [result];
      if |updated| > WindowSize {
        updated := updated[1..];
      }
      assert updated == LastN(arrivals + [result], WindowSize) by {
        SlideStep(arrivals, result, WindowSize);
      }
      var averages := Averages(updated);
      sentiment := Some((averages[0] + averages[1] + averages[2]) / 3.0);
      assert sentiment == Some(WindowMean(updated));
      var worst := ReduceMinIndex(averages, |averages|);
      assert Suggestion(worst, averages[worst]) == WindowSuggestion(updated) by {
        ReduceAgreesWithIndexOfMin(averages);
      }
      suggestion := Suggestion(worst, averages[worst]);
      window := updated;
      arrivals := arrivals + [result];
    }
  }

  /** "Looking Good!" is shown exactly when the first weakest category is
      good enough: at least 7 for facial expression and focus, at least 6
      for eye contact. */
  lemma LookingGoodWhenWorstIsGood(w: seq<Sample>)
    requires |w| > 0
    ensures var a := Averages(w);
      WindowSuggestion(w) == LookingGood <==>
        (forall c :: 0 <= c < 3 ==> a[c] >= 7.0)
        || (IndexOfMin(a) == 1 && forall c :: 0 <= c < 3 ==> a[c] >= 6.0)
  {
    var a := Averages(w);
    var i := IndexOfMin(a);
    assert a[i] == MinOf(a);
  }
}
