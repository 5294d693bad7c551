/** The transcript panel (client/src/components/SpeechCoach/TranscriptDisplay.tsx):
    its opacity and the redacted text it shows, where in learning mode a
    share of the words, growing with the difficulty, is replaced by a
    blank. */
module TranscriptDisplay {
  import opened Types
  import opened Text

  const Blank := "___"

  /** The opacity of the panel. */
  function Opacity(showTranscript: bool, mode: Mode, difficulty: Difficulty): (o: real)
    ensures 0.0 <= o <= 1.0
    ensures o == 0.0 <==> !showTranscript
    ensures showTranscript && (mode == Rehearsal || difficulty == Easy) ==> o == 1.0
  {
    if !showTranscript then 0.0
    else if mode == Rehearsal then 1.0
    else match difficulty
      case Easy => 1.0
      case Medium => 0.7
      case Hard => 0.4
  }

  /** A harder difficulty never makes the learning-mode panel more opaque. */
  lemma OpacityFallsWithDifficulty(show: bool)
    ensures Opacity(show, Learning, Hard) <= Opacity(show, Learning, Medium) <= Opacity(show, Learning, Easy)
    ensures show ==> Opacity(show, Learning, Hard) < Opacity(show, Learning, Medium) < Opacity(show, Learning, Easy)
  {
  }

  /** The share of words blanked: 0.3 for medium, 0.5 for hard, 0 for a
      difficulty without a rate. */
  function RedactionRate(d: Difficulty): (r: real)
    ensures 0.0 <= r < 1.0
    ensures r == 0.0 <==> d == Easy
  {
    match d
    case Easy => 0.0
    case Medium => 0.3
    case Hard => 0.5
  }

  /** The blanking of the space-separated tokens, given one random draw per
      token. */
  function BlankTokens(ws: seq<string>, draws: seq<real>, rate: real): (r: seq<string>)
    requires |draws| == |ws|
    ensures |r| == |ws|
    ensures forall i :: 0 <= i < |ws| ==> r[i] == if draws[i] < rate then Blank else ws[i]
  {
    seq(|ws|, i requires 0 <= i < |ws| => if draws[i] < rate then Blank else ws[i])
  }

  /** `getRedactedTranscript`. `draws` stands for the `Math.random()` call
      made for each token; it is only consulted in learning mode at medium
      or hard difficulty. */
  function Redacted(transcript: string, showTranscript: bool, mode: Mode, difficulty: Difficulty, draws: seq<real>): (r: string)
    requires showTranscript && mode == Learning && difficulty != Easy ==> |draws| == |SplitOn(transcript, ' ')|
    ensures !showTranscript ==> r == ""
    ensures showTranscript && (mode == Rehearsal || difficulty == Easy) ==> r == transcript
  {
    if !showTranscript then ""
    else if mode == Rehearsal then transcript
    else if difficulty == Easy then transcript
    else Join(BlankTokens(SplitOn(transcript, ' '), draws, RedactionRate(difficulty)), ' ')
  }

  /** In learning mode at medium or hard difficulty, the redacted text has
      as many space-separated tokens as the transcript, and each is the
      original token, or the blank exactly when its draw fell below the
      difficulty's rate (0.3 for medium, 0.5 for hard). */
  lemma RedactedTokens(transcript: string, difficulty: Difficulty, draws: seq<real>)
    requires difficulty != Easy && |draws| == |SplitOn(transcript, ' ')|
    ensures var ws := SplitOn(transcript, ' ');
      var out := SplitOn(Redacted(transcript, true, Learning, difficulty, draws), ' ');
      |out| == |ws| && forall i :: 0 <= i < |ws| ==>
        (out[i] == Blank <==> draws[i] < RedactionRate(difficulty) || ws[i] == Blank)
        && (out[i] == Blank || out[i] == ws[i])
  {
    var ws := SplitOn(transcript, ' ');
    var bs := BlankTokens(ws, draws, RedactionRate(difficulty));
    assert forall i :: 0 <= i < |bs| ==> ' ' !in bs[i];
    SplitJoin(bs, ' ');
  }

  /** When no draw falls below the rate, the transcript is shown as it is. */
  lemma NoDrawBelowRateKeepsText(transcript: string, difficulty: Difficulty, draws: seq<real>)
    requires difficulty != Easy && |draws| == |SplitOn(transcript, ' ')|
    requires forall i :: 0 <= i < |draws| ==> draws[i] >= RedactionRate(difficulty)
    ensures Redacted(transcript, true, Learning, difficulty, draws) == transcript
  {
    var ws := SplitOn(transcript, ' ');
    assert BlankTokens(ws, draws, RedactionRate(difficulty)) == ws;
    JoinSplit(transcript, ' ');
  }
}
