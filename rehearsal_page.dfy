/** The rehearsal page (client/src/components/SpeechCoach/RehearsalPage.tsx):
    a session that is started, paused and stopped, with a one-second timer,
    a word-highlight cursor advancing over the transcript, a webcam
    recording started with a bounded number of retries, and the visual
    sentiment hook running while the session does. */
module RehearsalPage {
  import opened Types
  import opened Text
  import opened Ratings
  import opened VisualSentiment
  import opened WordCursor

  const MaxRetries := 10

  /** `tryStartRecording`: the stream is checked (`readyAt(i)` is whether it
      is ready at the `i`-th attempt) and, while it is not ready, retried up
      to ten more times. Returns the number of attempts and whether
      `startRecording` was called (at most once, at the last attempt). */
  method TryStartRecording(readyAt: nat -> bool) returns (attempts: nat, started: bool)
    ensures 1 <= attempts <= MaxRetries + 1
    ensures forall i :: 0 <= i < attempts - 1 ==> !readyAt(i)
    ensures started <==> readyAt(attempts - 1)
    ensures !started ==> attempts == MaxRetries + 1
  {
    var retryCount := 0;
    while !readyAt(retryCount) && retryCount < MaxRetries
      invariant 0 <= retryCount <= MaxRetries
      invariant forall i :: 0 <= i < retryCount ==> !readyAt(i)
      decreases MaxRetries - retryCount
    {
      retryCount := retryCount + 1;
    }
    started := readyAt(retryCount);
    attempts := retryCount + 1;
  }

  /** Recording starts iff the stream is ready at one of the first eleven
      attempts. */
  lemma RecordingStartsIffReadyInTime(readyAt: nat -> bool, attempts: nat, started: bool)
    requires 1 <= attempts <= MaxRetries + 1
    requires forall i :: 0 <= i < attempts - 1 ==> !readyAt(i)
    requires started <==> readyAt(attempts - 1)
    requires !started ==> attempts == MaxRetries + 1
    ensures started <==> exists i :: 0 <= i <= MaxRetries && readyAt(i)
  {
    if !started {
      forall i | 0 <= i <= MaxRetries ensures !readyAt(i) {
        if i < MaxRetries {
          assert 0 <= i < attempts - 1;
        }
      }
    }
  }

  datatype Screen = Feedback | Setup | Session

  class RehearsalSession {
    var transcript: string
    var difficulty: Difficulty
    var isStarted: bool
    var isPaused: bool
    var elapsedTime: nat
    var showTranscript: bool
    var currentWordIndex: nat
    var enableHighlighting: bool
    var showFeedback: bool
    var videoURL: string
    /** Sizes of the recorded chunks, in order. */
    var recordedChunks: seq<nat>
    /** Whether a MediaRecorder has been created, and whether it records. */
    var hasRecorder: bool
    var recording: bool
    const sentiment: VisualSentimentHook

    /** The cursor never passes the last word of the transcript. */
    ghost predicate CursorInRange()
      reads this`transcript, this`currentWordIndex
    {
      currentWordIndex <= MaxIndex(WordCount(transcript))
    }

    /** The session's own invariant; the sentiment hook keeps its own. */
    ghost predicate Valid()
      reads this
    {
      && CursorInRange()
      && showTranscript == (elapsedTime > 0)
      && (!isStarted && !showFeedback ==> currentWordIndex == 0 && elapsedTime == 0)
      && (recording ==> hasRecorder)
    }

    constructor ()
      ensures Valid() && fresh(sentiment) && sentiment.Initial()
      ensures transcript == "" && difficulty == Easy && !isStarted && !isPaused && elapsedTime == 0
      ensures !enableHighlighting && !showFeedback && videoURL == "" && recordedChunks == [] && !hasRecorder
    {
      transcript, difficulty, isStarted, isPaused := "", Easy, false, false;
      elapsedTime, showTranscript, currentWordIndex := 0, false, 0;
      enableHighlighting, showFeedback, videoURL, recordedChunks := false, false, "", [];
      hasRecorder, recording := false, false;
      sentiment := new VisualSentimentHook();
    }

    /** Which screen is drawn: the feedback screen iff `showFeedback`, else
        the setup screen before a session and the session screen during. */
    function View(): (s: Screen)
      reads this
      ensures s == Feedback <==> showFeedback
      ensures s == Setup <==> !showFeedback && !isStarted
    {
      if showFeedback then Feedback else if !isStarted then Setup else Session
    }

    /** Editing the transcript on the setup screen. */
    method SetTranscript(t: string)
      requires Valid() && View() == Setup
      modifies this`transcript
      ensures Valid() && transcript == t
    {
      transcript := t;
    }

    /** Choosing a difficulty on the setup screen. */
    method SetDifficulty(d: Difficulty)
      requires Valid() && View() == Setup
      modifies this`difficulty
      ensures Valid() && difficulty == d
    {
      difficulty := d;
    }

    /** `handleStart`: a fresh running session, then the recording retries. */
    method HandleStart(readyAt: nat -> bool)
      requires Valid()
      modifies this`isStarted, this`isPaused, this`elapsedTime, this`showTranscript, this`currentWordIndex
      modifies this`enableHighlighting, this`recordedChunks, this`videoURL, this`showFeedback
      modifies this`hasRecorder, this`recording
      ensures Valid()
      ensures isStarted && !isPaused && elapsedTime == 0 && currentWordIndex == 0 && !showTranscript
      ensures !enableHighlighting && recordedChunks == [] && videoURL == "" && !showFeedback
      ensures hasRecorder == (old(hasRecorder) || exists i :: 0 <= i <= MaxRetries && readyAt(i))
      ensures recording == (old(recording) || exists i :: 0 <= i <= MaxRetries && readyAt(i))
    {
      BeginSession();
      var attempts, started := TryStartRecording(readyAt);
      RecordingStartsIffReadyInTime(readyAt, attempts, started);
      if started {
        StartRecorder();
      }
    }

    /** The state changes at the head of `handleStart`. */
    method BeginSession()
      requires Valid()
      modifies this`isStarted, this`isPaused, this`elapsedTime, this`showTranscript, this`currentWordIndex
      modifies this`enableHighlighting, this`recordedChunks, this`videoURL, this`showFeedback
      ensures Valid()
      ensures isStarted && !isPaused && elapsedTime == 0 && currentWordIndex == 0 && !showTranscript
      ensures !enableHighlighting && recordedChunks == [] && videoURL == "" && !showFeedback
    {
      isStarted := true;
      isPaused := false;
      elapsedTime := 0;
      showTranscript := false;
      currentWordIndex := 0;
      enableHighlighting := false;
      recordedChunks := [];
      videoURL := "";
      showFeedback := false;
    }

    /** `startRecording` once the stream is ready: a recorder is created and
        records. */
    method StartRecorder()
      requires Valid()
      modifies this`hasRecorder, this`recording
      ensures Valid() && hasRecorder && recording
    {
      hasRecorder := true;
      recording := true;
    }

    /** The one-second timer, which runs while the session is started and
        not paused: one second more, and the transcript is shown. */
    method Tick()
      requires Valid()
      modifies this`elapsedTime, this`showTranscript
      ensures Valid()
      ensures if old(isStarted) && !old(isPaused)
        then elapsedTime == old(elapsedTime) + 1 && showTranscript
        else elapsedTime == old(elapsedTime) && showTranscript == old(showTranscript)
    {
      if isStarted && !isPaused {
        elapsedTime := elapsedTime + 1;
        showTranscript := true;
      }
    }

    /** The half-second word timer, which runs while the session is started,
        not paused, highlighting is on and the transcript is shown. */
    method WordTick()
      requires Valid()
      modifies this`currentWordIndex
      ensures Valid()
      ensures if isStarted && !isPaused && enableHighlighting && showTranscript
        then currentWordIndex == NextWordIndex(old(currentWordIndex), WordCount(transcript))
        else currentWordIndex == old(currentWordIndex)
    {
      if isStarted && !isPaused && enableHighlighting && showTranscript {
        currentWordIndex := NextWordIndex(currentWordIndex, WordCount(transcript));
      }
    }

    /** The two-second sentiment timer and the suggestion effect, which run
        while the session is started and not paused. */
    method SentimentTick(r: Response)
      requires Valid() && sentiment.Valid()
      modifies sentiment
      ensures Valid() && sentiment.Valid()
      ensures !(isStarted && !isPaused) ==> sentiment.accepted == old(sentiment.accepted)
      ensures isStarted && !isPaused && Validate(r).Some? ==>
        sentiment.accepted == old(sentiment.accepted) + [Validate(r).value]
      ensures Validate(r).None? ==> sentiment.accepted == old(sentiment.accepted)
      ensures isStarted && !isPaused && sentiment.window != [] ==>
        sentiment.suggestion == Tip(Averages(sentiment.window))
      ensures !(isStarted && !isPaused) ==> sentiment.suggestion == old(sentiment.suggestion)
    {
      if isStarted && !isPaused {
        sentiment.VideoCapture(r);
        sentiment.UpdateSuggestion(isStarted, isPaused);
      }
    }

    /** A `dataavailable` event: non-empty chunks are kept, in order. */
    method OnChunk(size: nat)
      requires Valid()
      modifies this`recordedChunks
      ensures Valid()
      ensures recordedChunks == if size > 0 then old(recordedChunks) + [size] else old(recordedChunks)
    {
      if size > 0 {
        recordedChunks := recordedChunks + [size];
      }
    }

    /** `handleStop`, including its delayed continuation: the recording is
        stopped, the session ends, the video URL becomes `url` (the object
        URL made from the chunks) when there are chunks, and the feedback
        screen is shown in either case. */
    method HandleStop(url: string)
      requires Valid()
      modifies this`recording, this`isStarted, this`isPaused, this`videoURL, this`showFeedback
      ensures Valid()
      ensures !isStarted && !isPaused && showFeedback && !recording
      ensures videoURL == if |recordedChunks| > 0 then url else old(videoURL)
      ensures View() == Feedback
    {
      if hasRecorder {
        recording := false;
      }
      isStarted := false;
      isPaused := false;
      if |recordedChunks| > 0 {
        videoURL := url;
        showFeedback := true;
      } else {
        showFeedback := true;
      }
    }

    /** `handleReset`: back to the setup screen with a cleared session and
        a reset sentiment hook; transcript, difficulty and the highlighting
        switch are kept. */
    method HandleReset()
      requires Valid()
      modifies this`isStarted, this`isPaused, this`elapsedTime, this`showTranscript, this`currentWordIndex
      modifies this`showFeedback, this`videoURL, this`recordedChunks, this`recording, sentiment
      ensures Valid() && sentiment.Initial()
      ensures !isStarted && !isPaused && elapsedTime == 0 && !showTranscript && currentWordIndex == 0
      ensures !showFeedback && videoURL == "" && recordedChunks == [] && !recording
      ensures View() == Setup
    {
      EndSession();
      sentiment.Reset();
      videoURL := "";
      recordedChunks := [];
      if hasRecorder {
        recording := false;
      }
    }

    /** The state changes at the head of `handleReset`. */
    method EndSession()
      requires Valid()
      modifies this`isStarted, this`isPaused, this`elapsedTime, this`showTranscript, this`currentWordIndex
      modifies this`showFeedback
      ensures Valid()
      ensures !isStarted && !isPaused && elapsedTime == 0 && !showTranscript && currentWordIndex == 0
      ensures !showFeedback
    {
      isStarted := false;
      isPaused := false;
      elapsedTime := 0;
      showTranscript := false;
      currentWordIndex := 0;
      showFeedback := false;
    }

    /** `handleTogglePause`. */
    method HandleTogglePause()
      requires Valid()
      modifies this`isPaused
      ensures Valid() && isPaused == !old(isPaused)
    {
      isPaused := !isPaused;
    }

    /** The highlighting switch of the session controls. */
    method ToggleHighlighting()
      requires Valid()
      modifies this`enableHighlighting
      ensures Valid() && enableHighlighting == !old(enableHighlighting)
    {
      enableHighlighting := !enableHighlighting;
    }
  }
}
