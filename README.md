# Speech coach: a Dafny model of its scoring, session and text logic

The speech coach is a browser client (React) and an Express server. The
client has four variants of one rolling webcam-sentiment aggregation:

- `useVisualSentiment`;
- `useSentimentCapture`;
- the feedback webcam demo;
- the plain webcam demo.

Each one scores frames as `[facial_expression, eye_contact, focus]` triples. Each triple is:

- checked;
- folded into per-category `[sum, min, max]` accumulators;
- appended to a sliding window of the last four or five samples.

The window's averages give an overall sentiment, a coaching suggestion and an
emoji. Around this sit:

- two session pages, rehearsal and learning, with start, pause, stop and
  reset, a one-second tick, a wrapping word cursor, reveal delays and a
  bounded recording retry;
- the feedback screen, with averaged ratings, feedback-line
  classification and score colours;
- the text utilities: sentence splitting, the m:ss timer, transcript
  redaction and opacity, word highlighting and scrolling;
- the setup screen's start validator and hints;
- the floating-emoji overlay;
- the server's `/sentiment` prefix strip and simulated `/audio-sentiment`
  scoring.

Layout: one module per source file, and three shared modules:

- `Types` holds the options, the mode and difficulty, and
  `Math.floor(Math.random() * n)`.
- `Text` holds JavaScript's `trim`, `split(" ")`, `join` and number-to-text.
- `Ratings` holds the arithmetic the four sentiment variants share.

Code that updates component state step by step is modelled as a class:

- the hooks and the two webcam demos;
- the session pages;
- the feedback screen's fetch;
- the emoji overlay's state.

The four sentiment classes (the two hooks and the two webcam demos) have a
`Valid()` invariant that ties their fields to a ghost history: every sample
accepted, or every result that arrived, since the last reset. The session
pages and the overlay have a `Valid()` that relates their fields to each
other. The feedback screen's fetch ends in the same state on every path and
needs no invariant. The pure helpers are functions, and the lemmas state what
the source promises about them.
`Math.random()` results, `Date.now()` readings, network replies, object URLs
and the webcam's readiness are parameters.

The setup screen's difficulty notes say "50% visible" for medium and "25%
visible" for hard. The transcript display redacts 30% and 50% of the words
at those levels, which leaves about 70% and 50% visible. Both are modelled as
written:

- `SetupScreen.AdvertisedPercent` gives the advertised share;
- `TranscriptDisplay.RedactionRate` gives the actual rate;
- `SetupScreen.AdvertisedShareVersusRedaction` states the disagreement.

## Model

| member | source | states |
|---|---|---|
| Types.PickIndex | client/src/components/SpeechCoach/EmojiOverlay.tsx:54 | `Math.floor(r * n)` for a draw in [0, 1) is a valid index below `n` |
| Text.Trim | client/src/components/SpeechCoach/SetupScreen.tsx:186 | the trimmed text is no longer than the input, starts and ends with non-white characters, and is empty exactly when the input is all white space |
| Text.TrimIsInfix | client/src/components/SpeechCoach/SetupScreen.tsx:186 | the trimmed text is a contiguous piece of the input with only white space on either side |
| Text.TrimIdempotent | client/src/learning/utils/processTranscript.ts:5 | trimming twice is trimming once |
| Text.SplitOn | client/src/components/SpeechCoach/TranscriptDisplay.tsx:45 | `split` gives at least one piece and no piece contains the separator |
| Text.SplitJoin | client/src/components/SpeechCoach/TranscriptDisplay.tsx:45-56 | splitting a joined list of separator-free pieces gives the list back |
| Text.JoinSplit | client/src/components/SpeechCoach/TranscriptDisplay.tsx:45-56 | joining the pieces of a split gives the original text back |
| Text.Join | client/src/components/SpeechCoach/TranscriptDisplay.tsx:56 | joining no pieces gives ""; otherwise the text starts with the first piece and ends with the last |
| Text.NonBlank | client/src/components/SpeechCoach/RehearsalPage.tsx:43 | the blank-token filter never grows its input, and it is empty exactly when every token is all white space |
| Text.WordsShape | client/src/components/SpeechCoach/RehearsalPage.tsx:43 | every word contains no space and is not blank, and every non-blank space-separated token of the text is a word |
| Text.NonBlankShape | client/src/components/SpeechCoach/RehearsalPage.tsx:43 | the blank-token filter keeps only non-blank tokens of its input and never grows it |
| Text.NonBlankAppend | client/src/components/SpeechCoach/RehearsalPage.tsx:43 | filtering a concatenation is concatenating the filtered parts, so the kept tokens stay in input order |
| Text.NonBlankSingle | client/src/components/SpeechCoach/RehearsalPage.tsx:43 | a single token is kept exactly when its trim is not empty |
| Text.NonBlankComplete | client/src/components/SpeechCoach/RehearsalPage.tsx:43 | every token whose trim is not empty is kept |
| Text.NonBlankKeepsNonBlank | client/src/components/SpeechCoach/RehearsalPage.tsx:43 | the filter keeps a list that has no blank token unchanged |
| Text.WordsRejoined | client/src/components/SpeechCoach/HighlightingTranscript.tsx:53 | re-splitting the words joined by spaces gives the same words |
| Text.NatToString | client/src/components/SpeechCoach/Timer.tsx:27 | a number's decimal text is non-empty, all digits, and has no leading zero |
| Text.DigitsValueOfNatToString | client/src/components/SpeechCoach/Timer.tsx:27 | reading the decimal text back gives the number |
| Text.NatToStringInjective | client/src/components/SpeechCoach/Timer.tsx:27 | different numbers have different decimal texts |
| Ratings.MissingEntryAddsNothing | client/src/hooks/useSentimentCapture.ts:37-41 | a sample without category `c` adds 0 to that category's window sum (`arr[i] ?? 0`) |
| Ratings.Averages | client/src/hooks/useVisualSentiment.ts:91-97 | the window averages are three values, one per category |
| Ratings.ColumnSumBounds | client/src/hooks/useVisualSentiment.ts:91-94 | the sum of `n` scores in [lo, hi] lies in [n*lo, n*hi] |
| Ratings.AveragesWithin | client/src/hooks/useVisualSentiment.ts:91-102 | with every windowed score in [lo, hi], every category average and the overall sentiment lie in [lo, hi] |
| Ratings.SlideStep | client/src/hooks/useVisualSentiment.ts:81-88 | appending a sample and shifting out the oldest once the window is over capacity gives the last `cap` samples of the history plus the new one |
| Ratings.NothingAccumulated | client/src/hooks/useVisualSentiment.ts:21-25 | before any sample the accumulators are the seed and the window is empty |
| Ratings.AbsorbStep | client/src/hooks/useVisualSentiment.ts:73-79 | folding one more sample into the accumulators gives the accumulators of the extended history |
| Ratings.ColumnMinIsSmallest | client/src/hooks/useVisualSentiment.ts:76 | from a seed at least every value, the running minimum is one of the values seen and no greater than any of them |
| Ratings.ColumnMaxIsLargest | client/src/hooks/useVisualSentiment.ts:77 | from a seed at most every value, the running maximum is one of the values seen and no smaller than any of them |
| Ratings.SeedBracketed | client/src/webcamCaptureFeedback.tsx:39-45 | the running minimum never exceeds the seed and the running maximum never falls below it |
| Ratings.MinOf | client/src/hooks/useVisualSentiment.ts:136 | `Math.min(...a)` is an element of `a` and no greater than any element |
| Ratings.IndexOf | client/src/hooks/useVisualSentiment.ts:146 | `indexOf` is the first index holding the value, or -1 exactly when the value is absent |
| Ratings.IndexOfMin | client/src/hooks/useVisualSentiment.ts:136-146 | `indexOf(Math.min(...a))` is the first index that holds the minimum |
| Ratings.ReduceMinIndex | client/src/hooks/useSentimentCapture.ts:47-50 | the strict-`<` reduce returns an index whose value is no greater than any other and strictly smaller than every earlier one |
| Ratings.ReduceAgreesWithIndexOfMin | client/src/hooks/useSentimentCapture.ts:47-50 | the strict-`<` reduce and `indexOf(Math.min(...))` pick the same category |
| Ratings.Tip | client/src/hooks/useVisualSentiment.ts:138-149 | "Doing great! Keep it up!" exactly when every average is at least 6.5; "" exactly when every average is at least 5 and one is below 6.5; otherwise the tip of the first category with the minimum |
| Ratings.ShownFaces | client/src/webcamCaptureFeedback.tsx:198-200 | exactly one face shows: happy at 7 or more, neutral in [5, 7), sad below 5 |
| Ratings.AveragedRatings | client/src/components/SpeechCoach/FeedbackScreen.tsx:38-42 | with a positive count, every accumulator becomes `[sum / dataCount, min, max]` with min and max unchanged; with a zero count there is no result |
| Ratings.AveragedAccumulators | client/src/webcamCaptureFeedback.tsx:101-105 | averaging the accumulators of `n > 0` samples divides each category's sum, which is the seed plus the category total, by `n` |
| VisualSentiment.Validate | client/src/hooks/useVisualSentiment.ts:43-70 | a response is accepted exactly when it is OK, carries no error, its result is an array of three numbers and the first is not -1; the accepted triple is that result |
| VisualSentiment.VisualSentimentHook.constructor | client/src/hooks/useVisualSentiment.ts:19-27 | the hook starts with sentiment 6, an empty window, `[0, 10, 0]` accumulators, count 0 and no suggestion |
| VisualSentiment.VisualSentimentHook.VideoCapture | client/src/hooks/useVisualSentiment.ts:43-105 | a rejected response changes nothing; an accepted sample is appended to the history, and the invariant is kept |
| VisualSentiment.VisualSentimentHook.Accept | client/src/hooks/useVisualSentiment.ts:72-105 | the accepted-sample update keeps the invariant: count is the number accepted, the window is the last four, the accumulators fold every accepted sample, and the sentiment is the window mean |
| VisualSentiment.VisualSentimentHook.UpdateSuggestion | client/src/hooks/useVisualSentiment.ts:127-151 | while started, not paused and with a non-empty window, the suggestion is the tip for the window averages; otherwise it is unchanged |
| VisualSentiment.VisualSentimentHook.Categories | client/src/hooks/useVisualSentiment.ts:159-161 | each category's total over all accepted samples divided by their number, and zeros before any sample (division by 1) |
| VisualSentiment.VisualSentimentHook.Reset | client/src/hooks/useVisualSentiment.ts:164-170 | `reset` restores the initial state from any state, so resetting twice is resetting once |
| VisualSentiment.InitialIsValid | client/src/hooks/useVisualSentiment.ts:19-27 | the initial state satisfies the hook's invariant |
| VisualSentiment.WindowIsLatest | client/src/hooks/useVisualSentiment.ts:81-88 | the window holds min(n, 4) samples, the most recent ones in arrival order |
| VisualSentiment.AccumulatorsExact | client/src/hooks/useVisualSentiment.ts:73-79 | with scores in [0, 10] and at least one sample, each sum is the category total and min and max are exactly the smallest and largest values seen |
| VisualSentiment.SentimentWithinWindow | client/src/hooks/useVisualSentiment.ts:91-102 | the sentiment lies between any bounds of the windowed scores |
| SentimentCapture.Suggestion | client/src/hooks/useSentimentCapture.ts:53-80 | the per-category table: "Smile!", "Look Up!" or "Focus Up!" exactly below 5; "Looking Good!" exactly at 7 or more (6 or more for eye contact) |
| SentimentCapture.SentimentCaptureHook.constructor | client/src/hooks/useSentimentCapture.ts:9-11 | empty sentiment, empty window and no suggestion |
| SentimentCapture.SentimentCaptureHook.Capture | client/src/hooks/useSentimentCapture.ts:28-83 | a failed request changes nothing; otherwise the result is appended unchecked, the window is the last five, the sentiment is the window mean and the suggestion is the table entry of the first weakest category |
| SentimentCapture.LookingGoodWhenWorstIsGood | client/src/hooks/useSentimentCapture.ts:53-80 | "Looking Good!" exactly when every average is at least 7, or the first weakest is eye contact and every average is at least 6 |
| WebcamCapture.WebcamCaptureDemo.constructor | client/src/WebcamCapture.tsx:8-12 | not recording, no URL, sentiment 6, no chunks, empty window |
| WebcamCapture.WebcamCaptureDemo.Capture | client/src/WebcamCapture.tsx:27-45 | every result is appended; the window is the last five in order and the sentiment is its mean |
| WebcamCapture.WebcamCaptureDemo.StartRecording | client/src/WebcamCapture.tsx:52-65 | recording starts and a recorder exists exactly when the stream is available |
| WebcamCapture.WebcamCaptureDemo.StopRecording | client/src/WebcamCapture.tsx:67-72 | recording stops only when there is a recorder |
| WebcamCapture.WebcamCaptureDemo.OnChunk | client/src/WebcamCapture.tsx:59-63 | only non-empty chunks are appended |
| WebcamCapture.WebcamCaptureDemo.HandlePlayback | client/src/WebcamCapture.tsx:74-80 | the video URL is set only when there are chunks |
| WebcamCapture.WebcamCaptureDemo.Face | client/src/WebcamCapture.tsx:116-118 | the one face the sentiment shows |
| WebcamCapture.SentimentWithinScores | client/src/WebcamCapture.tsx:35-42 | the window mean lies between any bounds of the windowed scores |
| WebcamCapture.InitialFaceNeutral | client/src/WebcamCapture.tsx:10 | the initial sentiment 6 shows the neutral face |
| WebcamFeedback.TipsFor | client/src/webcamCaptureFeedback.tsx:139-157 | no tip for an empty window (its averages are NaN), else the shared tips rule |
| WebcamFeedback.WebcamFeedbackDemo.constructor | client/src/webcamCaptureFeedback.tsx:8-17 | the cleared state with `[6, 6, 6]` accumulators, no feedback and no recorder |
| WebcamFeedback.WebcamFeedbackDemo.VideoCapture | client/src/webcamCaptureFeedback.tsx:32-63 | a failed request or `result[0] === -1` changes nothing; any other result of at least three entries is accepted, and only its entries 0 to 2 are read |
| WebcamFeedback.WebcamFeedbackDemo.Accept | client/src/webcamCaptureFeedback.tsx:39-62 | the accepted update keeps the invariant: `[6, 6, 6]`-seeded accumulators over every accepted sample, last-four window, count, and sentiment as the window mean |
| WebcamFeedback.WebcamFeedbackDemo.TipsTick | client/src/webcamCaptureFeedback.tsx:134-162 | while recording, the tips follow the window; otherwise they are unchanged |
| WebcamFeedback.WebcamFeedbackDemo.StartRecording | client/src/webcamCaptureFeedback.tsx:70-83 | recording starts exactly when the stream is available |
| WebcamFeedback.WebcamFeedbackDemo.StopRecording | client/src/webcamCaptureFeedback.tsx:85-90 | recording stops only when there is a recorder |
| WebcamFeedback.WebcamFeedbackDemo.OnChunk | client/src/webcamCaptureFeedback.tsx:77-81 | only non-empty chunks are appended |
| WebcamFeedback.WebcamFeedbackDemo.HandlePlayback | client/src/webcamCaptureFeedback.tsx:92-118 | the URL is set only when there are chunks; the request is the averaged ratings; the feedback is the reply's text when there is one |
| WebcamFeedback.WebcamFeedbackDemo.Reset | client/src/webcamCaptureFeedback.tsx:120-132 | `reset` restores the cleared state from any state (so it is idempotent) and keeps the invariant |
| WebcamFeedback.ClearedIsValid | client/src/webcamCaptureFeedback.tsx:120-132 | the cleared state satisfies the invariant |
| WebcamFeedback.SeededAccumulators | client/src/webcamCaptureFeedback.tsx:39-45 | every sum is 6 plus the accepted total, and min ≤ 6 ≤ max |
| WebcamFeedback.InitialFaceNeutral | client/src/webcamCaptureFeedback.tsx:198-200 | the initial sentiment 6 shows the neutral face |
| FeedbackScreen.FeedbackView.constructor | client/src/components/SpeechCoach/FeedbackScreen.tsx:20-21 | no feedback, loading |
| FeedbackScreen.FeedbackView.FetchFeedback | client/src/components/SpeechCoach/FeedbackScreen.tsx:23-80 | whatever the reply (so the reply is not a parameter), the feedback ends as "Work in progress" and loading ends; a request is built exactly when the count is positive, and it is the averaged ratings |
| FeedbackScreen.HeaderTailShape | client/src/components/SpeechCoach/FeedbackScreen.tsx:187 | the header tail check means: ends with `:` and holds no `.`, `!` or `?` before it |
| FeedbackScreen.IsHeader | client/src/components/SpeechCoach/FeedbackScreen.tsx:187 | a line is a header exactly when its trimmed text starts with A–Z, has no `.`, `!` or `?`, and ends with `:` |
| FeedbackScreen.IsBullet | client/src/components/SpeechCoach/FeedbackScreen.tsx:186 | a line is a bullet exactly when its trimmed text starts with `-` or `•`, or with digits and a `.` |
| FeedbackScreen.HeaderIsNotBullet | client/src/components/SpeechCoach/FeedbackScreen.tsx:186-189 | no header is also a bullet |
| FeedbackScreen.DrawLine | client/src/components/SpeechCoach/FeedbackScreen.tsx:184-216 | blank lines draw nothing; headers are drawn as headings; every other line is a paragraph with the bullet mark exactly for bullets; the text drawn is the trimmed line |
| FeedbackScreen.FeedbackPanel | client/src/components/SpeechCoach/FeedbackScreen.tsx:178-226 | spinner exactly while loading, "No feedback available" exactly for empty feedback, otherwise one drawn entry per line |
| FeedbackScreen.DrawnTextNonBlank | client/src/components/SpeechCoach/FeedbackScreen.tsx:197-212 | every drawn line's text is non-blank and already trimmed |
| FeedbackScreen.ScoreColour | client/src/components/SpeechCoach/FeedbackScreen.tsx:266-272 | green exactly at 7 or more, yellow exactly in [5, 7), red exactly below 5 |
| FeedbackScreen.Breakdown | client/src/components/SpeechCoach/FeedbackScreen.tsx:245-250 | the breakdown is shown exactly when the count is positive; each cell is the averaged sum with min and max |
| WordCursor.NextWordIndex | client/src/components/SpeechCoach/RehearsalPage.tsx:45-51 | the next index is 0 exactly when the previous one is at or past the last word, and it stays within the word range |
| WordCursor.CursorInOrder | client/src/components/SpeechCoach/RehearsalPage.tsx:45-51 | from 0, after `k < len` ticks the cursor is on word `k` |
| WordCursor.CursorPeriodic | client/src/components/SpeechCoach/RehearsalPage.tsx:45-51 | the cursor wraps: `len` more ticks bring it back to the same word |
| RehearsalPage.TryStartRecording | client/src/components/SpeechCoach/RehearsalPage.tsx:155-173 | at most eleven attempts (ten retries); recording starts at most once, at the first attempt that finds the stream ready |
| RehearsalPage.RecordingStartsIffReadyInTime | client/src/components/SpeechCoach/RehearsalPage.tsx:155-173 | recording starts exactly when the stream is ready at one of the eleven attempts |
| RehearsalPage.RehearsalSession.constructor | client/src/components/SpeechCoach/RehearsalPage.tsx:21-38 | empty transcript, easy difficulty, not started, no feedback, no recording, and an initial sentiment hook |
| RehearsalPage.RehearsalSession.View | client/src/components/SpeechCoach/RehearsalPage.tsx:241-250 | the feedback screen exactly when `showFeedback`; the setup screen exactly when not started and no feedback |
| RehearsalPage.RehearsalSession.SetTranscript | client/src/components/SpeechCoach/RehearsalPage.tsx:285 | the setup screen's transcript edit |
| RehearsalPage.RehearsalSession.SetDifficulty | client/src/components/SpeechCoach/RehearsalPage.tsx:287 | the setup screen's difficulty choice |
| RehearsalPage.RehearsalSession.HandleStart | client/src/components/SpeechCoach/RehearsalPage.tsx:143-174 | the session starts from a cleared state, and a recorder is running exactly when the stream became ready within the retries |
| RehearsalPage.RehearsalSession.BeginSession | client/src/components/SpeechCoach/RehearsalPage.tsx:143-152 | started, not paused, elapsed 0, word 0, transcript hidden, highlighting off, no chunks, no URL, no feedback |
| RehearsalPage.RehearsalSession.StartRecorder | client/src/components/SpeechCoach/RehearsalPage.tsx:90-120 | a recorder exists and records |
| RehearsalPage.RehearsalSession.Tick | client/src/components/SpeechCoach/RehearsalPage.tsx:59-68 | while running, elapsed grows by exactly 1 and the transcript is shown; otherwise nothing changes |
| RehearsalPage.RehearsalSession.WordTick | client/src/components/SpeechCoach/RehearsalPage.tsx:41-56 | while running with highlighting on and the transcript shown, the cursor takes one wrapping step; otherwise it stays |
| RehearsalPage.RehearsalSession.SentimentTick | client/src/hooks/useVisualSentiment.ts:111-151 | the hook samples only while the session runs and unpaused; a rejected reply leaves the history unchanged; while running with a non-empty window the suggestion is the tip of the window averages, and it is unchanged while stopped or paused |
| RehearsalPage.RehearsalSession.OnChunk | client/src/components/SpeechCoach/RehearsalPage.tsx:107-112 | only non-empty chunks are appended |
| RehearsalPage.RehearsalSession.HandleStop | client/src/components/SpeechCoach/RehearsalPage.tsx:176-207 | the session is stopped and unpaused, recording stops, the URL is set only when there are chunks, and the feedback screen shows in either case |
| RehearsalPage.RehearsalSession.HandleReset | client/src/components/SpeechCoach/RehearsalPage.tsx:209-234 | back to the setup screen with cleared timer, cursor, transcript visibility, feedback, URL and chunks, and a reset sentiment hook |
| RehearsalPage.RehearsalSession.EndSession | client/src/components/SpeechCoach/RehearsalPage.tsx:210-215 | not started, not paused, elapsed 0, word 0, transcript and feedback hidden |
| RehearsalPage.RehearsalSession.HandleTogglePause | client/src/components/SpeechCoach/RehearsalPage.tsx:236-238 | only the pause flag flips |
| RehearsalPage.RehearsalSession.ToggleHighlighting | client/src/components/SpeechCoach/RehearsalPage.tsx:329 | only the highlighting flag flips |
| LearningPage.RevealDelay | client/src/components/SpeechCoach/LearningPage.tsx:56-60 | the delay before the transcript shows is between 5 and 30 s, and it is 5 s exactly at easy |
| LearningPage.LearningSession.constructor | client/src/components/SpeechCoach/LearningPage.tsx:16-29 | empty transcript, easy difficulty, not started, highlighting off |
| LearningPage.LearningSession.SetTranscript | client/src/components/SpeechCoach/LearningPage.tsx:133 | the setup screen's transcript edit |
| LearningPage.LearningSession.SetDifficulty | client/src/components/SpeechCoach/LearningPage.tsx:135 | the setup screen's difficulty choice |
| LearningPage.LearningSession.Tick | client/src/components/SpeechCoach/LearningPage.tsx:50-77 | while running, elapsed grows by 1; the transcript is shown once elapsed reaches the difficulty's delay (5, 15 or 30 s) and is never hidden again |
| LearningPage.LearningSession.WordTick | client/src/components/SpeechCoach/LearningPage.tsx:32-47 | while running with highlighting on and the transcript shown, the cursor takes one wrapping step |
| LearningPage.LearningSession.SentimentTick | client/src/hooks/useSentimentCapture.ts:91-104 | the hook samples only while the session runs and unpaused |
| LearningPage.LearningSession.HandleStart | client/src/components/SpeechCoach/LearningPage.tsx:79-86 | started, unpaused, elapsed 0, word 0, transcript hidden, highlighting off |
| LearningPage.LearningSession.HandleStop | client/src/components/SpeechCoach/LearningPage.tsx:88-94 | stopped, unpaused, elapsed 0, word 0, transcript hidden |
| LearningPage.LearningSession.HandleTogglePause | client/src/components/SpeechCoach/LearningPage.tsx:96-98 | only the pause flag flips |
| LearningPage.LearningSession.ToggleHighlighting | client/src/components/SpeechCoach/LearningPage.tsx:168 | only the highlighting flag flips |
| TranscriptDisplay.Opacity | client/src/components/SpeechCoach/TranscriptDisplay.tsx:28-37 | 0 exactly when hidden, 1 in rehearsal mode or at easy, always in [0, 1] |
| TranscriptDisplay.OpacityFallsWithDifficulty | client/src/components/SpeechCoach/TranscriptDisplay.tsx:31-36 | in learning mode the opacity falls strictly from easy to medium to hard when shown |
| TranscriptDisplay.RedactionRate | client/src/components/SpeechCoach/TranscriptDisplay.tsx:46-53 | the share of words blanked is in [0, 1), and it is 0 exactly at easy (`|| 0` for a level without a rate) |
| TranscriptDisplay.BlankTokens | client/src/components/SpeechCoach/TranscriptDisplay.tsx:51-55 | same number of tokens; a token becomes `___` exactly when its draw is below the rate, else it stays |
| TranscriptDisplay.Redacted | client/src/components/SpeechCoach/TranscriptDisplay.tsx:40-57 | "" when hidden; the transcript unchanged in rehearsal mode or at easy |
| TranscriptDisplay.RedactedTokens | client/src/components/SpeechCoach/TranscriptDisplay.tsx:45-56 | at medium or hard the output splits into as many tokens as the input, each `___` exactly when its draw is below 0.3 or 0.5, else the original word |
| TranscriptDisplay.NoDrawBelowRateKeepsText | client/src/components/SpeechCoach/TranscriptDisplay.tsx:45-56 | with no draw below the rate the transcript is returned unchanged |
| HighlightingTranscript.WordStyle | client/src/components/SpeechCoach/HighlightingTranscript.tsx:107-122 | highlighted exactly at the index, past exactly before it, plain exactly after it |
| HighlightingTranscript.SpanTexts | client/src/components/SpeechCoach/HighlightingTranscript.tsx:124-125 | one span per word, with a single trailing space on every word but the last |
| HighlightingTranscript.Spans | client/src/components/SpeechCoach/HighlightingTranscript.tsx:106-128 | one styled span per word of the transcript |
| HighlightingTranscript.OneHighlighted | client/src/components/SpeechCoach/HighlightingTranscript.tsx:107-108 | at most one word is highlighted, and exactly the words before it are past |
| HighlightingTranscript.SpansSpellWords | client/src/components/SpeechCoach/HighlightingTranscript.tsx:124-125 | the spans' texts concatenated are the words joined by single spaces |
| HighlightingTranscript.ScrollTarget | client/src/components/SpeechCoach/HighlightingTranscript.tsx:65-94 | no scroll without a valid index and mounted elements; above the view the target is `wordTop - 20`, checked first; below it `wordTop + wordHeight - containerHeight + 20`; no scroll for a fully visible word |
| HighlightingTranscript.ScrollShowsWord | client/src/components/SpeechCoach/HighlightingTranscript.tsx:76-91 | after the scroll the word lies inside the view, when the view is tall enough for it and the padding |
| EmojiOverlay.Bucket | client/src/components/SpeechCoach/EmojiOverlay.tsx:37-49 | negative and 8 up to 4, neutral and 4 in [5, 6], positive and 8 otherwise, the gaps (4, 5) and (6, 7) included |
| EmojiOverlay.Generate | client/src/components/SpeechCoach/EmojiOverlay.tsx:52-59 | exactly `volume` emojis, the `i`-th made from the `i`-th draws, which include its own `Date.now()` reading |
| EmojiOverlay.Scale | client/src/components/SpeechCoach/EmojiOverlay.tsx:55-58 | `r * span + base` for a draw `r` in [0, 1) lies in [base, base + span) |
| EmojiOverlay.EmojiRanges | client/src/components/SpeechCoach/EmojiOverlay.tsx:52-59 | the `i`-th emoji has id `Date.now() + i` from its own clock reading, is from the set, with left in [10, 90), duration in [3, 6), delay in [0, 2) and size in [base, base + span) |
| EmojiOverlay.GeneratedRanges | client/src/components/SpeechCoach/EmojiOverlay.tsx:52-72 | the `i`-th generated emoji has id `Date.now() + i` from its own clock reading, and lies in the ranges |
| EmojiOverlay.IdsIncrease | client/src/components/SpeechCoach/EmojiOverlay.tsx:52-53 | with a clock that never goes back, the ids of one generation strictly increase |
| EmojiOverlay.Overlay.constructor | client/src/components/SpeechCoach/EmojiOverlay.tsx:18 | no emojis |
| EmojiOverlay.Overlay.OnChange | client/src/components/SpeechCoach/EmojiOverlay.tsx:20-61 | hidden, empty or non-numeric sentiment clears the emojis and stops the refresh; otherwise the bucket's volume of emojis from its set, sized [60, 100) |
| EmojiOverlay.Overlay.Refresh | client/src/components/SpeechCoach/EmojiOverlay.tsx:64-74 | the refresh makes a new list of the same length from the same set, sized [30, 50) |
| EmojiOverlay.Overlay.Rendered | client/src/components/SpeechCoach/EmojiOverlay.tsx:79 | something is drawn exactly when visible with at least one emoji |
| Timer.Pad2 | client/src/components/SpeechCoach/Timer.tsx:27 | the seconds field is exactly two digits whose value is the seconds |
| Timer.Clock | client/src/components/SpeechCoach/Timer.tsx:27 | digits, a `:` third from the end, and digits |
| Timer.TimerView | client/src/components/SpeechCoach/Timer.tsx:11-27 | nothing when not visible, else the clock text |
| Timer.ClockRoundTrip | client/src/components/SpeechCoach/Timer.tsx:27 | the minutes field reads back as `t / 60`, the two-digit seconds field as `t % 60 < 60`, and minutes*60 + seconds gives `t` back |
| Timer.ClockInjective | client/src/components/SpeechCoach/Timer.tsx:27 | different times show different texts |
| ProcessTranscript.SplitRuns | client/src/learning/utils/processTranscript.ts:4 | the split on runs of `.` and newline gives at least one piece and none holds a separator |
| ProcessTranscript.SplitRunsStep | client/src/learning/utils/processTranscript.ts:4 | a separator-free piece followed by any non-empty run of `.` and newlines is one element, ahead of the split of the rest; an empty piece comes before a leading run and after a trailing one |
| ProcessTranscript.TrimAll | client/src/learning/utils/processTranscript.ts:5 | each piece trimmed, in order |
| ProcessTranscript.NonEmpty | client/src/learning/utils/processTranscript.ts:6 | the filter keeps only non-empty pieces of its input |
| ProcessTranscript.NonEmptyAppend | client/src/learning/utils/processTranscript.ts:6 | filtering a concatenation is concatenating the filtered parts, so the kept pieces stay in input order |
| ProcessTranscript.NonEmptySingle | client/src/learning/utils/processTranscript.ts:6 | a single piece is kept exactly when it is not empty |
| ProcessTranscript.NonEmptyComplete | client/src/learning/utils/processTranscript.ts:6 | every non-empty piece is kept |
| ProcessTranscript.Process | client/src/learning/utils/processTranscript.ts:1-9 | no sentence is empty |
| ProcessTranscript.ProcessStep | client/src/learning/utils/processTranscript.ts:3-6 | the sentences in input order: a piece ended by a run of separators contributes its trim, unless that is empty, before the sentences of the rest |
| ProcessTranscript.ProcessSepFree | client/src/learning/utils/processTranscript.ts:3-6 | a text without separators gives its trim as the one sentence, or none when it is blank |
| ProcessTranscript.TrimAllAppend | client/src/learning/utils/processTranscript.ts:5 | trimming every piece of a concatenation is concatenating the trimmed parts |
| ProcessTranscript.ProcessShape | client/src/learning/utils/processTranscript.ts:3-6 | every sentence is non-empty, holds no `.` or newline, and equals its own trim |
| ProcessTranscript.SplitRunsJoin | client/src/learning/utils/processTranscript.ts:4 | splitting non-empty separator-free pieces joined by `.` gives them back |
| ProcessTranscript.NonEmptyKeeps | client/src/learning/utils/processTranscript.ts:6 | the filter keeps a list without empty pieces unchanged |
| ProcessTranscript.ProcessIdempotent | client/src/learning/utils/processTranscript.ts:3-6 | re-processing the sentences joined by `.` gives the same sentences |
| ProcessTranscript.NoSentences | client/src/learning/utils/processTranscript.ts:4-6 | a text of separators and white space only has no sentences |
| SetupScreen.Capitalize | client/src/components/SpeechCoach/SetupScreen.tsx:103 | same length, the first character upper-cased, the rest unchanged |
| SetupScreen.CapitalizeIdempotent | client/src/components/SpeechCoach/SetupScreen.tsx:162 | capitalising a label twice is capitalising it once |
| SetupScreen.StartDisabled | client/src/components/SpeechCoach/SetupScreen.tsx:186 | start is disabled exactly when the transcript is blank or no mode is chosen |
| SetupScreen.Hint | client/src/components/SpeechCoach/SetupScreen.tsx:199-207 | no hint exactly when start is enabled; the transcript hint exactly when the transcript is blank, whatever the mode; the mode hint exactly for a non-blank transcript without a mode |
| SetupScreen.ModeNote | client/src/components/SpeechCoach/SetupScreen.tsx:113-116 | a note exactly when a mode is chosen |
| SetupScreen.DifficultyPanelOpen | client/src/components/SpeechCoach/SetupScreen.tsx:121-131 | the difficulty panel is open exactly in learning mode |
| SetupScreen.AdvertisedPercent | client/src/components/SpeechCoach/SetupScreen.tsx:172-177 | the advertised share is in (0, 100] and is 100 exactly at easy |
| SetupScreen.DifficultyNote | client/src/components/SpeechCoach/SetupScreen.tsx:172-177 | the note starts with "• Transcript shows after ", followed by the level's whole seconds text, and ends with the level's percent text followed by "% visible)" |
| SetupScreen.NoteNamesDelayAndShare | client/src/components/SpeechCoach/SetupScreen.tsx:172-177 | the seconds in the note read as the learning page's reveal delay, and its percent as the advertised share |
| SetupScreen.AdvertisedShareVersusRedaction | client/src/components/SpeechCoach/SetupScreen.tsx:172-177 | the advertised visible share equals 100 × (1 − redaction rate) exactly at easy, and is smaller at medium and hard |
| SetupScreen.DifficultyNotesDistinct | client/src/components/SpeechCoach/SetupScreen.tsx:172-177 | different levels show different notes |
| SetupScreen.NoteAdvertisesRevealDelay | client/src/components/SpeechCoach/SetupScreen.tsx:172-177 | the seconds in each note are the learning page's reveal delay, and the percent is the advertised share |
| ServerApp.WordRun | server/app.js:39 | the greedy `\w+` run: all word characters, stopped by a non-word character or the end |
| ServerApp.StripDataUrlPrefix | server/app.js:39 | the strip never lengthens the string |
| ServerApp.WordRunStopsAtSemicolon | server/app.js:39 | the word run in front of `;base64,` is exactly the image type |
| ServerApp.StripRemovesPrefix | server/app.js:39 | `data:image/<type>;base64,` followed by anything loses exactly that one prefix |
| ServerApp.StripOnlyPrefix | server/app.js:39 | the strip leaves the string unchanged or removes exactly one `data:image/<type>;base64,` prefix |
| ServerApp.SentimentRoute | server/app.js:28-61 | the simulated result, and nothing forwarded, exactly when the environment is not configured; a throw before the `try` exactly when it is configured and the body has no image |
| ServerApp.ForwardRelabels | server/app.js:39-61 | an image with any type prefix is forwarded as the same data under a single JPEG prefix |
| ServerApp.ExpectedScore | server/app.js:95-111 | the score is always in [4, 9], so the clamp to [0, 10] never changes it |
| ServerApp.Verdict | server/app.js:114-123 | the four tiers: at least 8, at least 6, at least 4, below |
| ServerApp.AudioSentiment | server/app.js:84-126 | 400 "No audio file provided" exactly when no file was uploaded; otherwise the step-by-step score and feedback give the notes, the verdict and the score |
| ServerApp.PoorNeverGiven | server/app.js:114-123 | the "poor" verdict is never given |
| ServerApp.SustainedImpliesPresence | server/app.js:98-107 | sustained speech means more than 32000 bytes, and it implies the presence bonus |
| ServerApp.ResultEndsWithScore | server/app.js:125 | the result text ends with " Score: <n>/10", and `n` reads back as the score |

## Left out

- Network I/O: the `fetch` calls and Express routing are not modelled. Their outcomes are parameters, such as a reply or its absence. The OpenAI forwarding in server/app.js:41-80 is not modelled either. Nor are the 500 path of `/audio-sentiment` and the `/sentiment` catch that sends no response.
- server/deepgramApp.js, client/src/learning/LearningPage.tsx and client/src/learning/Microphone.tsx are not part of this model. They are WebSocket and microphone relays with no logic of their own.
- The Deepgram WebSocket relay at the end of server/app.js (lines 140-173) is not modelled. It forwards audio chunks to Deepgram and non-empty transcripts back to the client, with no logic of its own.
- Timers and effects are not modelled: `setInterval`, `setTimeout`, React's effect and re-render timing. Each tick, retry and effect run is an explicit method call, so `HandleStop`'s 100 ms continuation happens within the same call.
- HighlightingTranscript's delayed copy of the index (`localWordIndex`, lines 50-62) is not modelled. The model uses the current index.
- MediaRecorder, Blob, object URLs and webcam screenshots are not modelled:
  - a chunk is its size;
  - a URL is a parameter;
  - stream readiness is a parameter (`readyAt`);
  - recorder exceptions are not modelled.
- `Math.random()` results are parameters in [0, 1).
- IEEE floating point is not modelled: NaN, `parseFloat`, `toFixed` and `Number.toString`. Scores are exact reals, and divisions by an empty window or a zero count are guarded explicitly.
- The sentiment text the emoji overlay reads is one of three cases: empty, not a number, or a number.
- ThemeContext, the pure presentation components and the type declarations are not part of this model. They are styling, routing and types only.
- The server's `/sentiment` route answers with a text, but the clients read `result` as a numeric array, and `/sentiment/visual` is not in server/app.js. The client models take the numeric-array reading: a reply is a triple or nothing.
- CSS scroll clamping is not modelled. `ScrollTarget` gives the requested `scrollTo` top.
- The 10 MB upload limit is not modelled. A file is its byte length.
- TranscriptDisplay's cached copy of the redacted text (lines 23-26) is not modelled. `Redacted` is the value the effect stores.
- WebcamFeedback.WebcamFeedbackDemo.VideoCapture requires every reply to have at least three numbers or to start with -1. The source does not check the length, and a shorter result would make the accumulators NaN, which reals cannot express. Longer results are covered: only their entries 0 to 2 are read.
- VisualSentiment.VisualSentimentHook.constructor and VisualSentiment.VisualSentimentHook.Reset ensure only the initial state, not the invariant. The invariant follows from `VisualSentiment.InitialIsValid`.
- SetupScreen.Capitalize upper-cases ASCII letters only (`Upper`), which covers every option name. It is not JavaScript's full Unicode `toUpperCase`.
- LearningPage.RevealDelay: its contract states only the 5 to 30 s range and that 5 s is the easy delay. The exact 5, 15 and 30 s appear in `LearningPage.LearningSession.Tick` and `SetupScreen.NoteAdvertisesRevealDelay`.
