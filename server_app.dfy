/** The Express server (server/app.js): the `/sentiment` route's
    environment check and data-URL prefix strip, and the simulated scoring
    of `/audio-sentiment`. */
module ServerApp {
  import opened Types
  import opened Text

  // ---------------------------------------------------------------------
  // The prefix strip: `base64Image.replace(/^data:image\/\w+;base64,/, "")`
  // ---------------------------------------------------------------------

  /** A character of the regular-expression class `\w`. */
  predicate IsWordChar(c: char) {
    'a' <= c <= 'z' || 'A' <= c <= 'Z' || '0' <= c <= '9' || c == '_'
  }

  predicate AllWord(w: string) {
    forall i :: 0 <= i < |w| ==> IsWordChar(w[i])
  }

  const Head: string := "data:image/"
  const Tail: string := ";base64,"

  /** The prefix the pattern matches for the image type `w`. */
  function DataUrlPrefix(w: string): string {
    Head + w + Tail
  }

  /** The length of the run of word characters at the start of `s`. */
  function WordRun(s: string): (k: nat)
    ensures k <= |s| && AllWord(s[..k])
    ensures k < |s| ==> !IsWordChar(s[k])
  {
    if |s| == 0 || !IsWordChar(s[0]) then 0
    else
      var k := 1 + WordRun(s[1..]);
      assert s[..k] == [s[0]] + s[1..][..k - 1];
      k
  }

  /** The length of the prefix the pattern matches at the start of `s`,
      if it matches: `\w+` is greedy and `;` is not a word character, so
      the match, when there is one, is unique. */
  function MatchedPrefix(s: string): (m: Option<nat>)
    ensures m.Some? ==> m.value <= |s|
  {
    if |s| < |Head| || s[..|Head|] != Head then None
    else
      var k := WordRun(s[|Head|..]);
      var n := |Head| + k + |Tail|;
      if k >= 1 && n <= |s| && s[|Head| + k..n] == Tail then Some(n) else None
  }

  function StripDataUrlPrefix(s: string): (r: string)
    ensures |r| <= |s|
  {
    match MatchedPrefix(s)
    case None => s
    case Some(n) => s[n..]
  }

  /** The run of word characters in front of `;` is exactly the image type. */
  lemma {:induction false} WordRunStopsAtSemicolon(w: string, rest: string)
    requires AllWord(w)
    ensures WordRun(w + Tail + rest) == |w|
  {
    var s := w + Tail + rest;
    if |w| == 0 {
      assert s[0] == ';';
    } else {
      assert s[1..] == w[1..] + Tail + rest;
      WordRunStopsAtSemicolon(w[1..], rest);
    }
  }

  /** A string that starts with the prefix loses exactly that prefix, and
      only the first one. */
  lemma StripRemovesPrefix(w: string, rest: string)
    requires |w| >= 1 && AllWord(w)
    ensures StripDataUrlPrefix(DataUrlPrefix(w) + rest) == rest
  {
    var s := DataUrlPrefix(w) + rest;
    assert s[..|Head|] == Head;
    assert s[|Head|..] == w + Tail + rest;
    WordRunStopsAtSemicolon(w, rest);
    var n := |Head| + |w| + |Tail|;
    assert s[|Head| + |w|..n] == Tail;
    assert s[n..] == rest;
  }

  /** Whatever the strip removes is one whole prefix: the string is either
      unchanged, or was a prefix for some image type followed by the
      result. */
  lemma StripOnlyPrefix(s: string)
    ensures StripDataUrlPrefix(s) == s || exists w :: |w| >= 1 && AllWord(w) && s == DataUrlPrefix(w) + StripDataUrlPrefix(s)
  {
    var m := MatchedPrefix(s);
    if m.Some? {
      var k := WordRun(s[|Head|..]);
      var w := s[|Head|..][..k];
      assert s == s[..|Head|] + w + s[|Head| + k..m.value] + s[m.value..];
    }
  }

  // ---------------------------------------------------------------------
  // `/sentiment`
  // ---------------------------------------------------------------------

  const SimulatedResult: string :=
    "Environment variables not configured. Please set LAVA_BASE_URL and LAVA_FORWARD_TOKEN in your .env file. Simulated feedback: Good posture and eye contact detected. Score: 7/10"

  /** What the route does: answer with the simulated result, forward the
      image, re-labelled as JPEG, to the chat-completions endpoint, or throw
      before its `try` because the body has no `base64Image` string, so the
      route sends no reply of its own. */
  datatype SentimentAction = Simulated(result: string) | Forward(imageUrl: string) | Thrown

  /** `envConfigured` is whether both LAVA_BASE_URL and LAVA_FORWARD_TOKEN
      are set and non-empty; `base64Image` is None when the body lacks the
      string. Without the environment nothing is forwarded and the simulated
      result is returned, whatever the body; with it a missing image throws
      at the prefix strip, and a present one is forwarded with the JPEG
      prefix in place of whatever prefix it came with. */
  function SentimentRoute(envConfigured: bool, base64Image: Option<string>): (a: SentimentAction)
    ensures a.Simulated? <==> !envConfigured
    ensures a.Simulated? ==> a.result == SimulatedResult
    ensures a.Thrown? <==> envConfigured && base64Image.None?
  {
    if !envConfigured then Simulated(SimulatedResult)
    else if base64Image.None? then Thrown
    else Forward(DataUrlPrefix("jpeg") + StripDataUrlPrefix(base64Image.value))
  }

  /** An image sent with any type prefix is forwarded with exactly one JPEG
      prefix in front of its data. */
  lemma ForwardRelabels(w: string, data: string)
    requires |w| >= 1 && AllWord(w)
    ensures SentimentRoute(true, Some(DataUrlPrefix(w) + data)) == Forward(DataUrlPrefix("jpeg") + data)
  {
    StripRemovesPrefix(w, data);
  }

  // ---------------------------------------------------------------------
  // `/audio-sentiment`
  // ---------------------------------------------------------------------

  const Opening: string := "Audio analysis not fully implemented. "
  const PresenceNote: string := "Good audio presence detected. "
  const SustainedNote: string := "Sustained speech detected. "
  const Excellent: string := "Excellent audio quality and delivery!"
  const GoodQuality: string := "Good audio quality with room for improvement."
  const NeedsWork: string := "Audio quality needs improvement."
  const Poor: string := "Audio quality is poor, consider speaking louder and clearer."
  const NoFileError: string := "No audio file provided"

  /** The reply: status 400 with an error, or a result text. */
  datatype AudioReply = BadRequest(error: string) | Scored(result: string)

  /** More than 1000 bytes counts as audio presence. */
  predicate Presence(size: nat) {
    size > 1000
  }

  /** The estimated duration `size / 16000` exceeds two seconds. */
  predicate Sustained(size: nat) {
    size as real / 16000.0 > 2.0
  }

  /** The score as a formula of the upload size and the draw: base 5, two
      for presence, one for sustained speech, and -1, 0 or +1 at random. */
  function ExpectedScore(size: nat, draw: real): (score: int)
    requires InUnit(draw)
    ensures 4 <= score <= 9
  {
    5 + (if Presence(size) then 2 else 0) + (if Sustained(size) then 1 else 0) + PickIndex(draw, 3) - 1
  }

  /** The quality verdict for a score: at least 8, at least 6, at least 4,
      and below. */
  function Verdict(score: int): (v: string)
    ensures score >= 8 ==> v == Excellent
    ensures 6 <= score < 8 ==> v == GoodQuality
    ensures 4 <= score < 6 ==> v == NeedsWork
    ensures score < 4 ==> v == Poor
  {
    if score >= 8 then Excellent
    else if score >= 6 then GoodQuality
    else if score >= 4 then NeedsWork
    else Poor
  }

  /** The notes, the verdict and the score, as the route composes them. */
  function AudioText(size: nat, draw: real): string
    requires InUnit(draw)
  {
    var notes := Opening + (if Presence(size) then PresenceNote else "") + (if Sustained(size) then SustainedNote else "");
    var score := ExpectedScore(size, draw);
    notes + Verdict(score) + " Score: " + NatToString(score) + "/10"
  }

  /** The handler: `upload` is the byte length of the uploaded file, if
      any, and `draw` the `Math.random()` result. The score is built up
      step by step and clamped to [0, 10]; the clamp never changes it. */
  method AudioSentiment(upload: Option<nat>, draw: real) returns (reply: AudioReply)
    requires InUnit(draw)
    ensures reply.BadRequest? <==> upload.None?
    ensures reply.BadRequest? ==> reply.error == NoFileError
    ensures reply.Scored? ==> reply.result == AudioText(upload.value, draw)
  {
    if upload.None? {
      return BadRequest(NoFileError);
    }
    var audioSize := upload.value;
    var duration := audioSize as real / 16000.0;
    var score: int := 5;
    var feedback := Opening;
    if audioSize > 1000 {
      score := score + 2;
      feedback := feedback + PresenceNote;
    }
    if duration > 2.0 {
      score := score + 1;
      feedback := feedback + SustainedNote;
    }
    score := score + PickIndex(draw, 3) - 1;
    assert score == ExpectedScore(audioSize, draw);
    if score > 10 {
      score := 10;
    }
    if score < 0 {
      score := 0;
    }
    if score >= 8 {
      feedback := feedback + Excellent;
    } else if score >= 6 {
      feedback := feedback + GoodQuality;
    } else if score >= 4 {
      feedback := feedback + NeedsWork;
    } else {
      feedback := feedback + Poor;
    }
    reply := Scored(feedback + " Score: " + NatToString(score) + "/10");
  }

  /** Every score is at least 4, so the "poor" verdict is never given. */
  lemma PoorNeverGiven(size: nat, draw: real)
    requires InUnit(draw)
    ensures Verdict(ExpectedScore(size, draw)) != Poor
  {
    var v := Verdict(ExpectedScore(size, draw));
    assert |v| < |Poor|;
  }

  /** Sustained speech (more than 32000 bytes) always comes with the
      presence bonus. */
  lemma SustainedImpliesPresence(size: nat)
    ensures Sustained(size) <==> size > 32000
    ensures Sustained(size) ==> Presence(size)
  {
    assert size as real / 16000.0 * 16000.0 == size as real;
  }

  /** The result text ends with "Score: <n>/10", and reading `n` back gives
      the score. */
  lemma ResultEndsWithScore(size: nat, draw: real)
    requires InUnit(draw)
    ensures var score := ExpectedScore(size, draw);
      var digits := NatToString(score);
      var text := AudioText(size, draw);
      |text| >= |digits| + 11
      && text[|text| - |digits| - 11..] == " Score: " + digits + "/10"
      && DigitsValue(digits) == score
  {
    var score := ExpectedScore(size, draw);
    DigitsValueOfNatToString(score);
    var tail := " Score: " + NatToString(score) + "/10";
    var notes := Opening + (if Presence(size) then PresenceNote else "") + (if Sustained(size) then SustainedNote else "");
    var text := AudioText(size, draw);
    assert text == (notes + Verdict(score)) + tail;
    assert |tail| == |NatToString(score)| + 11;
  }
}
