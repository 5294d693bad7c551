/** The plain webcam demo (client/src/WebcamCapture.tsx): while recording,
    every scored frame's `result` is appended to a window of the last five
    and the sentiment becomes the window mean; one of three faces shows it. */
module WebcamCapture {
  import opened Types
  import opened Ratings

  const InitialSentiment := 6.0
  const WindowSize := 5

  class WebcamCaptureDemo {
    var recording: bool
    var videoURL: string
    var sentiment: real
    /** Sizes of the recorded chunks, in order. */
    var recordedChunks: seq<nat>
    var window: seq<Sample>       // runningRating
    /** Whether a MediaRecorder has been created (`mediaRecorderRef.current`). */
    var hasRecorder: bool
    /** Every result received so far, in arrival order. */
    ghost var arrivals: seq<Sample>

    ghost predicate Valid()
      reads this
    {
      && window == LastN(arrivals, WindowSize)
      && sentiment == (if arrivals == [] then InitialSentiment else WindowMean(window))
    }

    constructor ()
      ensures Valid() && arrivals == [] && !recording && !hasRecorder && videoURL == "" && recordedChunks == []
    {
      recording, videoURL, sentiment, recordedChunks := false, "", InitialSentiment, [];
      window, hasRecorder := [], false;
      arrivals := [];
    }

    /** One `capture` round trip. `reply` is None when the request or the
        JSON decoding failed (caught). Otherwise the result is appended
        unchecked (shifting out the oldest of six) and the sentiment
        becomes the window mean, a missing entry counting as 0. */
    method Capture(reply: Option<Sample>)
      requires Valid()
      modifies this`window, this`sentiment, this`arrivals
      ensures Valid()
      ensures reply.None? ==> window == old(window) && sentiment == old(sentiment) && arrivals == old(arrivals)
      ensures reply.Some? ==> arrivals == old(arrivals) + [reply.value]
    {
      if reply.None? {
        return;
      }
      var result := reply.value;
      var updated := window + [result];
      if |updated| > WindowSize {
        updated := updated[1..];
      }
      assert updated == LastN(arrivals + [result], WindowSize) by {
        SlideStep(arrivals, result, WindowSize);
      }
      var averages := Averages(updated);
      sentiment := (averages[0] + averages[1] + averages[2]) / 3.0;
      window := updated;
      arrivals := arrivals + [result];
    }

    /** `startRecording`: nothing without a webcam stream. */
    method StartRecording(hasStream: bool)
      requires Valid()
      modifies this`recording, this`hasRecorder
      ensures Valid()
      ensures recording == (old(recording) || hasStream) && hasRecorder == (old(hasRecorder) || hasStream)
    {
      if !hasStream {
        return;
      }
      recording := true;
      hasRecorder := true;
    }

    /** `stopRecording`: nothing when no recorder was ever created. */
    method StopRecording()
      requires Valid()
      modifies this`recording
      ensures Valid()
      ensures recording == (old(recording) && !hasRecorder)
    {
      if !hasRecorder {
        return;
      }
      recording := false;
    }

    /** A `dataavailable` event: non-empty chunks are kept, in order. */
    method OnChunk(size: nat)
      requires Valid()
      modifies this`recordedChunks
      ensures Valid()
      ensures recordedChunks == if size > 0 then old(recordedChunks) + [size] else old(recordedChunks)
    {
      if size > 0 {
        recordedChunks := recordedChunks + [size];
      }
    }

    /** `handlePlayback`: with chunks, the video URL becomes `url`. */
    method HandlePlayback(url: string)
      requires Valid()
      modifies this`videoURL
      ensures Valid()
      ensures videoURL == if |recordedChunks| > 0 then url else old(videoURL)
    {
      if |recordedChunks| > 0 {
        videoURL := url;
      }
    }

    /** The one face on display. */
    function Face(): (f: Face)
      reads this
      ensures ShownFaces(sentiment) == {f}
    {
      if sentiment >= 7.0 then Happy else if sentiment >= 5.0 then Neutral else Sad
    }
  }

  /** With every score of the window in [lo, hi] the displayed sentiment is
      in [lo, hi] too. */
  lemma SentimentWithinScores(w: seq<Sample>, lo: real, hi: real)
    requires |w| > 0 && EntriesWithin(w, lo, hi)
    ensures lo <= WindowMean(w) <= hi
  {
    AveragesWithin(w, lo, hi);
  }

  /** The initial sentiment 6 shows the neutral face. */
  lemma InitialFaceNeutral()
    ensures ShownFaces(InitialSentiment) == {Neutral}
  {
  }
}
