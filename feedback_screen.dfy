/** The feedback screen shown after a rehearsal
    (client/src/components/SpeechCoach/FeedbackScreen.tsx): the feedback
    request and its outcome, the classification of feedback lines into
    headers, bullets and paragraphs, and the performance breakdown with its
    colour buckets. */
module FeedbackScreen {
  import opened Types
  import opened Text
  import opened Ratings

  const WorkInProgress := "Work in progress"

  class FeedbackView {
    var feedback: string
    var isLoadingFeedback: bool

    constructor ()
      ensures feedback == "" && isLoadingFeedback
    {
      feedback := "";
      isLoadingFeedback := true;
    }

    /** `fetchFeedback`. With no samples no request is built; otherwise the
        request carries the averaged accumulators. The reply is not a
        parameter: the source checks its status, `error` and `result` and
        throws on each failure, but the success path and the catch set the
        same placeholder text, so every path ends with that text and
        loading over. */
    method FetchFeedback(dataCount: nat, ratings: seq<Stat>) returns (request: Option<seq<Stat>>)
      modifies this
      ensures feedback == WorkInProgress && !isLoadingFeedback
      ensures request.None? <==> dataCount == 0
      ensures request.Some? ==> request == AveragedRatings(ratings, dataCount)
    {
      if dataCount == 0 {
        feedback := WorkInProgress;
        isLoadingFeedback := false;
        return None;
      }
      request := AveragedRatings(ratings, dataCount);
      feedback := WorkInProgress;
      isLoadingFeedback := false;
    }
  }

  predicate IsUpperAscii(c: char) {
    'A' <= c <= 'Z'
  }

  predicate IsStop(c: char) {
    c == '.' || c == '!' || c == '?'
  }

  /** The header pattern `^[A-Z][^.!?]*:$`, stated over positions: an
      upper-case first letter, a final colon, and no sentence-ending mark
      in between. */
  ghost predicate HeaderShape(t: string) {
    |t| >= 2 && IsUpperAscii(t[0]) && t[|t| - 1] == ':'
    && forall i :: 1 <= i < |t| - 1 ==> !IsStop(t[i])
  }

  /** Matches `[^.!?]*:$` left to right. */
  function HeaderTail(s: string): bool {
    if |s| == 0 || IsStop(s[0]) then false
    else if |s| == 1 then s[0] == ':'
    else HeaderTail(s[1..])
  }

  lemma {:induction false} HeaderTailShape(s: string)
    ensures HeaderTail(s) <==> |s| >= 1 && s[|s| - 1] == ':' && forall i :: 0 <= i < |s| - 1 ==> !IsStop(s[i])
  {
    if |s| >= 2 {
      HeaderTailShape(s[1..]);
      assert forall i :: 1 <= i < |s| ==> s[i] == s[1..][i - 1];
    }
  }

  /** `line.trim().match(/^[A-Z][^.!?]*:$/)`. */
  function IsHeader(line: string): (b: bool)
    ensures b <==> HeaderShape(Trim(line))
  {
    var t := Trim(line);
    if |t| == 0 then false
    else
      var tail := t[1..];
      HeaderTailShape(tail);
      assert forall i :: 1 <= i < |t| ==> t[i] == tail[i - 1];
      IsUpperAscii(t[0]) && HeaderTail(tail)
  }

  /** Number of leading decimal digits. */
  function DigitRun(s: string): (n: nat)
    ensures n <= |s|
    ensures forall i :: 0 <= i < n ==> IsDigit(s[i])
    ensures n < |s| ==> !IsDigit(s[n])
  {
    if |s| > 0 && IsDigit(s[0]) then 1 + DigitRun(s[1..]) else 0
  }

  /** The bullet test, stated over positions: the text starts with `-` or
      `•`, or with one or more digits followed by a full stop. */
  ghost predicate BulletShape(t: string) {
    (|t| > 0 && (t[0] == '-' || t[0] == '•'))
    || exists k :: 1 <= k < |t| && t[k] == '.' && forall i :: 0 <= i < k ==> IsDigit(t[i])
  }

  /** `line.trim()` starts with `-` or `•`, or matches `/^\d+\./`. */
  function IsBullet(line: string): (b: bool)
    ensures b <==> BulletShape(Trim(line))
  {
    var t := Trim(line);
    var n := DigitRun(t);
    assert (exists k :: 1 <= k < |t| && t[k] == '.' && forall i :: 0 <= i < k ==> IsDigit(t[i]))
        <==> (1 <= n < |t| && t[n] == '.') by {
      forall k | 1 <= k < |t| && t[k] == '.' && forall i :: 0 <= i < k ==> IsDigit(t[i])
        ensures k == n
      {
        assert !IsDigit(t[k]);
      }
    }
    (|t| > 0 && (t[0] == '-' || t[0] == '•')) || (1 <= n < |t| && t[n] == '.')
  }

  /** A header is never a bullet, so the order of the two tests does not
      change how a line is drawn. */
  lemma HeaderIsNotBullet(t: string)
    requires HeaderShape(t)
    ensures !BulletShape(t)
  {
    assert !IsDigit(t[0]);
  }

  /** How one line of feedback is drawn. */
  datatype Drawn = HeaderLine(text: string) | ParagraphLine(bullet: bool, text: string) | NoLine

  function DrawLine(line: string): (r: Drawn)
    ensures r.NoLine? <==> AllWhite(line)
    ensures r.HeaderLine? <==> HeaderShape(Trim(line))
    ensures r.ParagraphLine? ==> r.bullet == BulletShape(Trim(line))
    ensures !r.NoLine? ==> r.text == Trim(line)
  {
    var t := Trim(line);
    if IsHeader(line) then HeaderLine(t)
    else if IsBullet(line) || |t| > 0 then ParagraphLine(IsBullet(line), t)
    else NoLine
  }

  /** The feedback panel: a spinner while loading, a placeholder for empty
      feedback, else one drawn entry per `\n`-separated line. */
  datatype Panel = Spinner | NoFeedback | Lines(lines: seq<Drawn>)

  function FeedbackPanel(feedback: string, isLoading: bool): (r: Panel)
    ensures r.Spinner? <==> isLoading
    ensures r.NoFeedback? <==> !isLoading && feedback == ""
    ensures r.Lines? ==> (|r.lines| == |SplitOn(feedback, '\n')|
      && forall i :: 0 <= i < |r.lines| ==> r.lines[i] == DrawLine(SplitOn(feedback, '\n')[i]))
  {
    if isLoading then Spinner
    else if feedback == "" then NoFeedback
    else
      var ls := SplitOn(feedback, '\n');
      Lines(seq(|ls|, i requires 0 <= i < |ls| => DrawLine(ls[i])))
  }

  /** The text of a header or paragraph is never blank. */
  lemma DrawnTextNonBlank(line: string)
    requires !DrawLine(line).NoLine?
    ensures DrawLine(line).text != [] && Trim(DrawLine(line).text) == DrawLine(line).text
  {
    TrimIdempotent(line);
  }

  datatype Colour = Green | Yellow | Red

  /** The colour of a category's average. */
  function ScoreColour(avg: real): (r: Colour)
    ensures r == Green <==> avg >= 7.0
    ensures r == Yellow <==> 5.0 <= avg < 7.0
    ensures r == Red <==> avg < 5.0
  {
    if avg >= 7.0 then Green else if avg >= 5.0 then Yellow else Red
  }

  /** One cell of the performance breakdown. */
  datatype Cell = Cell(avg: real, min: real, max: real, colour: Colour)

  /** The breakdown: shown only with samples; each category shows the
      averaged sum, the unchanged `min` and `max`, and the colour of the
      average. */
  function Breakdown(ratings: seq<Stat>, dataCount: nat): (r: Option<seq<Cell>>)
    requires |ratings| >= 3
    ensures r.Some? <==> dataCount > 0
    ensures r.Some? ==> |r.value| == 3 && forall i :: 0 <= i < 3 ==>
      var a := AveragedRatings(ratings, dataCount).value[i];
      r.value[i] == Cell(a.sum, a.min, a.max, ScoreColour(a.sum))
  {
    if dataCount == 0 then None
    else
      Some(seq(3, i requires 0 <= i < 3 =>
        var avg := ratings[i].sum / dataCount as real;
        Cell(avg, ratings[i].min, ratings[i].max, ScoreColour(avg))))
  }
}
