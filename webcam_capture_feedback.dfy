/** The webcam demo with feedback (client/src/webcamCaptureFeedback.tsx):
    while recording, each scored frame that is not the no-face marker `-1`
    is folded into `[sum, min, max]` accumulators seeded with `[6, 6, 6]`
    and into a window of the last four samples; a tip is derived from the
    window, and playback sends the averaged accumulators for feedback. */
module WebcamFeedback {
  import opened Types
  import opened Ratings

  /** Each category's accumulator starts as `[6, 6, 6]`. */
  const Seed := Stat(6.0, 6.0, 6.0)
  const InitialSentiment := 6.0
  const WindowSize := 4

  /** A result the model covers: at least the three scores (only entries
      0 to 2 are read), or a no-face marker whose first entry is -1. */
  predicate WellFormed(result: Sample) {
    |result| >= 3 || (|result| > 0 && result[0] == -1.0)
  }

  /** The tips effect: no tip for an empty window (its averages are NaN, so
      neither threshold holds), otherwise the visual suggestion rule. */
  function TipsFor(w: seq<Sample>): (r: string)
    ensures w == [] ==> r == ""
    ensures w != [] ==> r == Tip(Averages(w))
  {
    if |w| == 0 then "" else Tip(Averages(w))
  }

  class WebcamFeedbackDemo {
    var visualTips: string
    var recording: bool
    var videoURL: string
    var visualSentiment: real
    /** Sizes of the recorded chunks, in order. */
    var recordedChunks: seq<nat>
    var window: seq<Sample>       // visualRunningRating
    var feedback: string
    var dataCount: nat
    var ratings: seq<Stat>        // visualRuntimeRatings
    /** Whether a MediaRecorder has been created (`mediaRecorderRef.current`). */
    var hasRecorder: bool
    /** Every sample accepted since mount or the last reset. */
    ghost var accepted: seq<Sample>

    ghost predicate Valid()
      reads this
    {
      && dataCount == |accepted|
      && (forall i :: 0 <= i < |accepted| ==> |accepted[i]| >= 3)
      && window == LastN(accepted, WindowSize)
      && ratings == AccumulatedAll(accepted, Seed)
      && visualSentiment == (if accepted == [] then InitialSentiment else WindowMean(window))
    }

    /** The state `reset` restores: recording off, no video, sentiment 6,
        no chunks, empty window, count 0, no tips, `[6, 6, 6]`
        accumulators. */
    ghost predicate Cleared()
      reads this
    {
      && !recording && videoURL == "" && visualSentiment == InitialSentiment && recordedChunks == []
      && window == [] && dataCount == 0 && visualTips == "" && ratings == [Seed, Seed, Seed]
      && accepted == []
    }

    constructor ()
      ensures Valid() && Cleared() && feedback == "" && !hasRecorder
    {
      visualTips, recording, videoURL, visualSentiment := "", false, "", InitialSentiment;
      recordedChunks, window, feedback, dataCount := [], [], "", 0;
      ratings := [Seed, Seed, Seed];
      hasRecorder := false;
      accepted := [];
      new;
      ClearedIsValid(this);
    }

    /** One `videoCapture` round trip. `reply` is None when the request or
        the JSON decoding failed (caught). A result starting with -1 leaves
        everything as it was; three scores are accumulated, appended to the
        window (shifting out the oldest of five), counted, and the
        sentiment becomes the window mean. */
    method VideoCapture(reply: Option<Sample>)
      requires Valid()
      requires reply.Some? ==> WellFormed(reply.value)
      modifies this`ratings, this`window, this`dataCount, this`visualSentiment, this`accepted
      ensures Valid()
      ensures reply.None? || reply.value[0] == -1.0 ==> unchanged(this)
      ensures reply.Some? && reply.value[0] != -1.0 ==> accepted == old(accepted) + [reply.value]
    {
      if reply.None? || reply.value[0] == -1.0 {
        return;
      }
      Accept(reply.value);
    }

    /** The accepted branch of `videoCapture`. */
    method Accept(result: Sample)
      requires Valid() && |result| >= 3
      modifies this`ratings, this`window, this`dataCount, this`visualSentiment, this`accepted
      ensures Valid() && accepted == old(accepted) + [result]
    {
      ratings := [Absorb(ratings[0], result[0]), Absorb(ratings[1], result[1]), Absorb(ratings[2], result[2])];
      assert ratings == AccumulatedAll(accepted + [result], Seed) by {
        AbsorbStep(accepted, Seed, result);
      }
      var updated := window + [result];
      dataCount := dataCount + 1;
      if |updated| > WindowSize {
        updated := updated[1..];
      }
      assert updated == LastN(accepted + [result], WindowSize) by {
        SlideStep(accepted, result, WindowSize);
      }
      visualSentiment := WindowMean(updated);
      window := updated;
      accepted := accepted + [result];
    }

    /** The tips half of the two-second interval, which only runs while
        recording; it reads the window as it was when the tick fired. */
    method TipsTick()
      requires Valid()
      modifies this`visualTips
      ensures Valid()
      ensures visualTips == if recording then TipsFor(window) else old(visualTips)
    {
      if recording {
        visualTips := TipsFor(window);
      }
    }

    /** `startRecording`: nothing without a webcam stream. */
    method StartRecording(hasStream: bool)
      requires Valid()
      modifies this`recording, this`hasRecorder
      ensures Valid()
      ensures recording == (old(recording) || hasStream) && hasRecorder == (old(hasRecorder) || hasStream)
    {
      if !hasStream {
        return;
      }
      recording := true;
      hasRecorder := true;
    }

    /** `stopRecording`: nothing when no recorder was ever created. */
    method StopRecording()
      requires Valid()
      modifies this`recording
      ensures Valid()
      ensures recording == (old(recording) && !hasRecorder)
    {
      if !hasRecorder {
        return;
      }
      recording := false;
    }

    /** A `dataavailable` event: non-empty chunks are kept, in order. */
    method OnChunk(size: nat)
      requires Valid()
      modifies this`recordedChunks
      ensures Valid()
      ensures recordedChunks == if size > 0 then old(recordedChunks) + [size] else old(recordedChunks)
    {
      if size > 0 {
        recordedChunks := recordedChunks + [size];
      }
    }

    /** `handlePlayback`: with chunks, the video URL becomes `url` (the
        object URL the browser creates); the request carries the averaged
        accumulators (None when `dataCount` is 0, where JavaScript divides
        by zero); the reply text, when one arrives, becomes the feedback. */
    method HandlePlayback(url: string, reply: Option<string>) returns (request: Option<seq<Stat>>)
      requires Valid()
      modifies this`videoURL, this`feedback
      ensures Valid()
      ensures videoURL == if |recordedChunks| > 0 then url else old(videoURL)
      ensures request == AveragedRatings(ratings, dataCount)
      ensures feedback == if reply.Some? then reply.value else old(feedback)
    {
      if |recordedChunks| > 0 {
        videoURL := url;
      }
      request := AveragedRatings(ratings, dataCount);
      if reply.Some? {
        feedback := reply.value;
      }
    }

    /** `reset`: recording off, no video, sentiment 6, no chunks, empty
        window, count 0, no tips, `[6, 6, 6]` accumulators; the feedback
        text and the recorder object are kept. */
    method Reset()
      modifies this`recording, this`videoURL, this`visualSentiment, this`recordedChunks, this`window
      modifies this`dataCount, this`visualTips, this`ratings, this`accepted
      ensures Valid() && Cleared()
    {
      visualTips, recording, videoURL, visualSentiment := "", false, "", InitialSentiment;
      recordedChunks, window, dataCount := [], [], 0;
      ratings := [Seed, Seed, Seed];
      accepted := [];
      ClearedIsValid(this);
    }
  }

  /** The cleared state satisfies the invariant. */
  lemma ClearedIsValid(d: WebcamFeedbackDemo)
    requires d.Cleared()
    ensures d.Valid()
  {
    NothingAccumulated(Seed, WindowSize);
  }

  /** Each accumulator's `sum` is 6 plus the total of the accepted values,
      and 6 always lies between its `min` and `max`. */
  lemma SeededAccumulators(h: seq<Sample>, c: nat)
    requires c < 3
    ensures AccumulatedAll(h, Seed)[c].sum == 6.0 + ColumnSum(h, c)
    ensures AccumulatedAll(h, Seed)[c].min <= 6.0 <= AccumulatedAll(h, Seed)[c].max
  {
    SeedBracketed(h, c, 6.0);
  }

  /** The face shown for the initial sentiment is the neutral one. */
  lemma InitialFaceNeutral()
    ensures ShownFaces(InitialSentiment) == {Neutral}
  {
  }
}
