/** The word-highlight cursor shared by the rehearsal and learning pages:
    every half second it moves to the next word of the transcript, and back
    to the first after the last. */
module WordCursor {
  import opened Text

  /** The number of words the cursor moves over: the space-separated,
      non-blank tokens of the transcript. */
  function WordCount(transcript: string): nat {
    |Words(transcript)|
  }

  /** The largest index the cursor can reach for `len` words. */
  function MaxIndex(len: nat): nat {
    if len == 0 then 0 else len - 1
  }

  /** The cursor update: back to 0 at or past the last word, else one on. */
  function NextWordIndex(prev: nat, len: nat): (r: nat)
    ensures prev <= MaxIndex(len) ==> r <= MaxIndex(len)
    ensures r == 0 <==> prev as int >= len - 1
  {
    if prev as int >= len - 1 then 0 else prev + 1
  }

  /** The cursor after `k` advances from 0. */
  function CursorAfter(k: nat, len: nat): nat {
    if k == 0 then 0 else NextWordIndex(CursorAfter(k - 1, len), len)
  }

  /** Advancing from 0, the cursor visits the words in order: after `k`
      steps, for `k` below the word count, it is at word `k`. */
  lemma {:induction false} CursorInOrder(k: nat, len: nat)
    requires k < len
    ensures CursorAfter(k, len) == k
  {
    if k > 0 {
      CursorInOrder(k - 1, len);
    }
  }

  /** After the last word the cursor wraps to the first, so its positions
      repeat with the word count as period. */
  lemma {:induction false} CursorPeriodic(k: nat, len: nat)
    requires len > 0
    ensures CursorAfter(k + len, len) == CursorAfter(k, len)
  {
    if k == 0 {
      CursorInOrder(len - 1, len);
    } else {
      CursorPeriodic(k - 1, len);
      assert k + len - 1 == (k - 1) + len;
    }
  }
}
