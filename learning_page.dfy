/** The learning page (client/src/components/SpeechCoach/LearningPage.tsx):
    like the rehearsal page, but the transcript only appears after a delay
    that grows with the difficulty, and the sentiment hook is the
    five-sample `useSentimentCapture`. */
module LearningPage {
  import opened Types
  import opened Text
  import opened WordCursor
  import opened Ratings
  import opened SentimentCapture

  /** Seconds before the transcript appears. */
  function RevealDelay(d: Difficulty): (s: nat)
    ensures 5 <= s <= 30
    ensures s == 5 <==> d == Easy
  {
    match d
    case Easy => 5
    case Medium => 15
    case Hard => 30
  }

  class LearningSession {
    var transcript: string
    var difficulty: Difficulty
    var isStarted: bool
    var isPaused: bool
    var elapsedTime: nat
    var showTranscript: bool
    var currentWordIndex: nat
    var enableHighlighting: bool
    const sentiment: SentimentCaptureHook

    /** The cursor never passes the last word of the transcript. */
    ghost predicate CursorInRange()
      reads this`transcript, this`currentWordIndex
    {
      currentWordIndex <= MaxIndex(WordCount(transcript))
    }

    /** The session's own invariant; the sentiment hook keeps its own. */
    ghost predicate Valid()
      reads this
    {
      && CursorInRange()
      && showTranscript == (elapsedTime >= RevealDelay(difficulty))
      && (!isStarted ==> elapsedTime == 0 && currentWordIndex == 0)
    }

    constructor ()
      ensures Valid() && fresh(sentiment) && sentiment.Valid()
      ensures transcript == "" && difficulty == Easy && !isStarted && !isPaused && !enableHighlighting
    {
      transcript, difficulty, isStarted, isPaused := "", Easy, false, false;
      elapsedTime, showTranscript, currentWordIndex, enableHighlighting := 0, false, 0, false;
      sentiment := new SentimentCaptureHook();
    }

    /** Editing the transcript on the setup screen, shown before a session. */
    method SetTranscript(t: string)
      requires Valid() && !isStarted
      modifies this`transcript
      ensures Valid() && transcript == t
    {
      transcript := t;
    }

    /** Choosing a difficulty on the setup screen. */
    method SetDifficulty(d: Difficulty)
      requires Valid() && !isStarted
      modifies this`difficulty
      ensures Valid() && difficulty == d
    {
      difficulty := d;
    }

    /** The one-second timer, which runs while the session is started and
        not paused: one second more, and the transcript is shown once the
        delay of the difficulty has passed; it is never hidden again. */
    method Tick()
      requires Valid()
      modifies this`elapsedTime, this`showTranscript
      ensures Valid()
      ensures if isStarted && !isPaused
        then elapsedTime == old(elapsedTime) + 1
        else elapsedTime == old(elapsedTime) && showTranscript == old(showTranscript)
      ensures old(showTranscript) ==> showTranscript
      ensures !old(showTranscript) && showTranscript ==> elapsedTime == RevealDelay(difficulty)
    {
      if isStarted && !isPaused {
        var newTime := elapsedTime + 1;
        if newTime >= RevealDelay(difficulty) {
          showTranscript := true;
        }
        elapsedTime := newTime;
      }
    }

    /** The half-second word timer, which runs while the session is started,
        not paused, highlighting is on and the transcript is shown. */
    method WordTick()
      requires Valid()
      modifies this`currentWordIndex
      ensures Valid()
      ensures if isStarted && !isPaused && enableHighlighting && showTranscript
        then currentWordIndex == NextWordIndex(old(currentWordIndex), WordCount(transcript))
        else currentWordIndex == old(currentWordIndex)
    {
      if isStarted && !isPaused && enableHighlighting && showTranscript {
        currentWordIndex := NextWordIndex(currentWordIndex, WordCount(transcript));
      }
    }

    /** The five-second sentiment timer, which runs while the session is
        started and not paused. */
    method SentimentTick(reply: Option<Sample>)
      requires Valid() && sentiment.Valid()
      modifies sentiment
      ensures Valid() && sentiment.Valid()
      ensures !(isStarted && !isPaused) || reply.None? ==> sentiment.arrivals == old(sentiment.arrivals)
      ensures isStarted && !isPaused && reply.Some? ==> sentiment.arrivals == old(sentiment.arrivals) + [reply.value]
    {
      if isStarted && !isPaused {
        sentiment.Capture(reply);
      }
    }

    /** `handleStart`: a fresh running session without highlighting. */
    method HandleStart()
      requires Valid()
      modifies this`isStarted, this`isPaused, this`elapsedTime, this`showTranscript, this`currentWordIndex
      modifies this`enableHighlighting
      ensures Valid()
      ensures isStarted && !isPaused && elapsedTime == 0 && !showTranscript && currentWordIndex == 0
      ensures !enableHighlighting
    {
      isStarted := true;
      isPaused := false;
      elapsedTime := 0;
      showTranscript := false;
      currentWordIndex := 0;
      enableHighlighting := false;
    }

    /** `handleStop`: back to the setup screen with a cleared session; the
        highlighting switch is kept. */
    method HandleStop()
      requires Valid()
      modifies this`isStarted, this`isPaused, this`elapsedTime, this`showTranscript, this`currentWordIndex
      ensures Valid()
      ensures !isStarted && !isPaused && elapsedTime == 0 && !showTranscript && currentWordIndex == 0
    {
      isStarted := false;
      isPaused := false;
      elapsedTime := 0;
      showTranscript := false;
      currentWordIndex := 0;
    }

    /** `handleTogglePause`: only the pause flag changes. */
    method HandleTogglePause()
      requires Valid()
      modifies this`isPaused
      ensures Valid() && isPaused == !old(isPaused)
    {
      isPaused := !isPaused;
    }

    /** The highlighting switch of the session controls. */
    method ToggleHighlighting()
      requires Valid()
      modifies this`enableHighlighting
      ensures Valid() && enableHighlighting == !old(enableHighlighting)
    {
      enableHighlighting := !enableHighlighting;
    }
  }
}
