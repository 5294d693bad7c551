/** The word-by-word highlighted transcript
    (client/src/components/SpeechCoach/HighlightingTranscript.tsx): one
    span per word, styled by its position relative to the highlighted word,
    and the scroll that keeps the highlighted word in view. */
module HighlightingTranscript {
  import opened Types
  import opened Text

  datatype Style = Highlighted | Past | Plain

  /** The style of word `index` when word `current` is highlighted. */
  function WordStyle(index: nat, current: int): (s: Style)
    ensures s == Highlighted <==> index == current
    ensures s == Past <==> index < current
    ensures s == Plain <==> index > current
  {
    if index == current then Highlighted else if index < current then Past else Plain
  }

  /** The text of each span: the word, and a space after every word but
      the last. */
  function SpanTexts(ws: seq<string>): (r: seq<string>)
    ensures |r| == |ws|
    ensures forall i :: 0 <= i < |ws| ==> r[i] == ws[i] + (if i < |ws| - 1 then " " else "")
  {
    seq(|ws|, i requires 0 <= i < |ws| => ws[i] + (if i < |ws| - 1 then " " else ""))
  }

  datatype Span = Span(text: string, style: Style)

  /** The spans drawn for `transcript` with word `current` highlighted. */
  function Spans(transcript: string, current: int): (r: seq<Span>)
    ensures |r| == |Words(transcript)|
    ensures forall i :: 0 <= i < |r| ==>
      r[i].text == SpanTexts(Words(transcript))[i] && r[i].style == WordStyle(i, current)
  {
    var ws := Words(transcript);
    var ts := SpanTexts(ws);
    seq(|ws|, i requires 0 <= i < |ws| => Span(ts[i], WordStyle(i, current)))
  }

  /** At most one span is highlighted, the one at `current`, and exactly
      the spans before it are marked past. */
  lemma OneHighlighted(transcript: string, current: int)
    ensures forall i, j :: 0 <= i < j < |Spans(transcript, current)| ==>
      !(Spans(transcript, current)[i].style == Highlighted && Spans(transcript, current)[j].style == Highlighted)
    ensures forall i :: 0 <= i < |Spans(transcript, current)| ==>
      (Spans(transcript, current)[i].style == Highlighted <==> i == current)
      && (Spans(transcript, current)[i].style == Past <==> i < current)
  {
  }

  function Concat(ts: seq<string>): string {
    if |ts| == 0 then "" else ts[0] + Concat(ts[1..])
  }

  /** The spans read together are the words joined by single spaces. */
  lemma {:induction false} SpansSpellWords(ws: seq<string>)
    ensures Concat(SpanTexts(ws)) == Join(ws, ' ')
  {
    if |ws| == 1 {
      assert SpanTexts(ws)[1..] == [];
    } else if |ws| > 1 {
      SpansSpellWords(ws[1..]);
      assert SpanTexts(ws)[1..] == SpanTexts(ws[1..]);
    }
  }

  /** The scroll effect: `Some(top)` when the container scrolls to `top`.
      Nothing happens unless `current` indexes a mounted word. A word above
      the view is brought to the top with 20 pixels of padding; otherwise a
      word below the view is brought to the bottom with the same padding. */
  function ScrollTarget(current: int, wordCount: nat, mounted: bool,
                        wordTop: real, wordHeight: real, containerTop: real, containerHeight: real): (r: Option<real>)
    ensures !(0 <= current < wordCount && mounted) ==> r.None?
    ensures 0 <= current < wordCount && mounted && wordTop < containerTop ==> r == Some(wordTop - 20.0)
    ensures (0 <= current < wordCount && mounted && wordTop >= containerTop
      && wordTop + wordHeight > containerTop + containerHeight) ==> r == Some(wordTop + wordHeight - containerHeight + 20.0)
    ensures wordTop >= containerTop && wordTop + wordHeight <= containerTop + containerHeight ==> r.None?
  {
    if !(0 <= current < wordCount) || !mounted then None
    else
      var isAboveView := wordTop < containerTop;
      var isBelowView := wordTop + wordHeight > containerTop + containerHeight;
      if isAboveView then Some(wordTop - 20.0)
      else if isBelowView then Some(wordTop + wordHeight - containerHeight + 20.0)
      else None
  }

  /** A word that fits the container with its padding is fully visible
      after the scroll, whether or not one was needed. */
  lemma ScrollShowsWord(current: int, wordCount: nat, wordTop: real, wordHeight: real,
                        containerTop: real, containerHeight: real)
    requires 0 <= current < wordCount
    requires wordHeight >= 0.0 && wordHeight + 20.0 <= containerHeight
    ensures var top := match ScrollTarget(current, wordCount, true, wordTop, wordHeight, containerTop, containerHeight)
                       case Some(t) => t
                       case None => containerTop;
      top <= wordTop && wordTop + wordHeight <= top + containerHeight
  {
  }
}
