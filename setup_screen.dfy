/** The setup screen (client/src/components/SpeechCoach/SetupScreen.tsx):
    the transcript box, the mode and difficulty choices, and the start
    button with its hint. Everything on it is derived from its props. */
module SetupScreen {
  import opened Types
  import opened Text
  import LearningPage
  import TranscriptDisplay

  /** The first character of an option label, upper-cased; only the ASCII
      letters the option names use are mapped. */
  function Upper(c: char): (u: char)
    ensures 'a' <= c <= 'z' ==> 'A' <= u <= 'Z' && u as int == c as int - 32
    ensures !('a' <= c <= 'z') ==> u == c
  {
    if 'a' <= c <= 'z' then (c as int - 32) as char else c
  }

  /** `w.charAt(0).toUpperCase() + w.slice(1)`: the same length, the first
      character upper-cased and the rest unchanged; the empty word stays
      empty. */
  function Capitalize(w: string): (r: string)
    ensures |r| == |w|
    ensures |w| > 0 ==> r[0] == Upper(w[0]) && r[1..] == w[1..]
  {
    if |w| == 0 then "" else [Upper(w[0])] + w[1..]
  }

  /** Capitalising a label twice changes nothing more. */
  lemma CapitalizeIdempotent(w: string)
    ensures Capitalize(Capitalize(w)) == Capitalize(w)
  {
    if |w| > 0 {
      assert Capitalize(w)[1..] == w[1..];
    }
  }

  function ModeName(m: Mode): string {
    match m
    case Rehearsal => "rehearsal"
    case Learning => "learning"
  }

  function DifficultyName(d: Difficulty): string {
    match d
    case Easy => "easy"
    case Medium => "medium"
    case Hard => "hard"
  }

  /** `disabled={!transcript.trim() || !mode}`; `None` is the empty mode. */
  function StartDisabled(transcript: string, mode: Option<Mode>): (b: bool)
    ensures b <==> AllWhite(transcript) || mode.None?
  {
    Trim(transcript) == [] || mode.None?
  }

  const EnterTranscript: string := "Please enter a transcript to begin"
  const SelectMode: string := "Please select a mode to begin"

  /** The hint under the start button: none when start is enabled; the
      transcript hint whenever the transcript is blank, whatever the mode;
      the mode hint only for a non-blank transcript without a mode. */
  function Hint(transcript: string, mode: Option<Mode>): (h: Option<string>)
    ensures h.None? <==> !StartDisabled(transcript, mode)
    ensures h == Some(EnterTranscript) <==> AllWhite(transcript)
    ensures h == Some(SelectMode) <==> !AllWhite(transcript) && mode.None?
  {
    if Trim(transcript) == [] then Some(EnterTranscript)
    else if mode.None? then Some(SelectMode)
    else None
  }

  /** The note under the mode choice; nothing before a mode is chosen. */
  function ModeNote(mode: Option<Mode>): (r: string)
    ensures r == "" <==> mode.None?
  {
    match mode
    case None => ""
    case Some(Rehearsal) => "\U{2022} Full transcript available immediately for practice"
    case Some(Learning) => "\U{2022} Practice with gradual transcript reveals based on difficulty"
  }

  /** The difficulty panel is open exactly in learning mode. */
  function DifficultyPanelOpen(mode: Option<Mode>): (b: bool)
    ensures b <==> mode == Some(Learning)
  {
    mode.Some? && mode.value.Learning?
  }

  /** The share of the transcript each difficulty note advertises as
      visible. */
  function AdvertisedPercent(d: Difficulty): (p: nat)
    ensures 0 < p <= 100
    ensures p == 100 <==> d == Easy
  {
    match d
    case Easy => 100
    case Medium => 50
    case Hard => 25
  }

  /** The number of seconds each difficulty note names, as written. */
  function SecondsText(d: Difficulty): (r: string)
    ensures |r| >= 1 && forall i :: 0 <= i < |r| ==> IsDigit(r[i])
  {
    match d
    case Easy => "5"
    case Medium => "15"
    case Hard => "30"
  }

  /** The visible percentage each difficulty note names, as written. */
  function PercentText(d: Difficulty): (r: string)
    ensures |r| >= 1 && forall i :: 0 <= i < |r| ==> IsDigit(r[i])
  {
    match d
    case Easy => "100"
    case Medium => "50"
    case Hard => "25"
  }

  /** The note under the difficulty choice; exactly one is shown, for the
      chosen level. */
  const NoteLead := "\U{2022} Transcript shows after "

  function DifficultyNote(d: Difficulty): (r: string)
    ensures NoteLead <= r
    ensures |r| >= |NoteLead| + |SecondsText(d)| + |PercentText(d)| + 10
    ensures r[|NoteLead|..|NoteLead| + |SecondsText(d)|] == SecondsText(d)
    ensures r[|r| - 10 - |PercentText(d)|..|r| - 10] == PercentText(d)
  {
    NoteLead + SecondsText(d) + " seconds (" + PercentText(d) + "% visible)"
  }

  /** Each level has its own note. */
  lemma DifficultyNotesDistinct(d1: Difficulty, d2: Difficulty)
    requires d1 != d2
    ensures DifficultyNote(d1) != DifficultyNote(d2)
  {
    var i := |NoteLead|;
    assert DifficultyNote(d1)[i] == SecondsText(d1)[0];
    assert DifficultyNote(d2)[i] == SecondsText(d2)[0];
  }

  /** The wait each note advertises is the delay after which the learning
      page shows the transcript, and the share it advertises is
      `AdvertisedPercent`. */
  lemma NoteAdvertisesRevealDelay(d: Difficulty)
    ensures DigitsValue(SecondsText(d)) == LearningPage.RevealDelay(d)
    ensures DigitsValue(PercentText(d)) == AdvertisedPercent(d)
  {
    match d
    case Easy =>
      assert SecondsText(d) == ['5'];
      assert PercentText(d) == ['1', '0', '0'];
      assert PercentText(d)[..2] == ['1', '0'] && DigitsValue(['1', '0']) == 10;
    case Medium =>
      assert SecondsText(d) == ['1', '5'];
      assert PercentText(d) == ['5', '0'];
    case Hard =>
      assert SecondsText(d) == ['3', '0'];
      assert PercentText(d) == ['2', '5'];
  }

  /** The note itself names the reveal delay in seconds and the advertised
      share in percent. */
  lemma NoteNamesDelayAndShare(d: Difficulty)
    ensures var r := DifficultyNote(d);
      && DigitsValue(r[|NoteLead|..|NoteLead| + |SecondsText(d)|]) == LearningPage.RevealDelay(d)
      && DigitsValue(r[|r| - 10 - |PercentText(d)|..|r| - 10]) == AdvertisedPercent(d)
  {
    NoteAdvertisesRevealDelay(d);
  }

  /** The advertised share agrees with the words the transcript display
      actually leaves visible only at easy: at medium and hard the notes
      promise fewer visible words than the redaction rates leave. */
  lemma AdvertisedShareVersusRedaction(d: Difficulty)
    ensures var visible := 100.0 * (1.0 - TranscriptDisplay.RedactionRate(d));
      (d == Easy <==> AdvertisedPercent(d) as real == visible)
      && (d != Easy ==> AdvertisedPercent(d) as real < visible)
  {
    match d
    case Easy =>
    case Medium =>
      assert TranscriptDisplay.RedactionRate(d) == 0.3;
    case Hard =>
      assert TranscriptDisplay.RedactionRate(d) == 0.5;
  }
}
