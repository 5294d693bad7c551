/** The floating emoji overlay (client/src/components/SpeechCoach/EmojiOverlay.tsx):
    the sentiment picks a set of emojis and how many float at once; a list
    of that many is generated when the sentiment or visibility changes and
    regenerated, smaller, every six seconds. */
module EmojiOverlay {
  import opened Types

  /** The `sentiment` prop as the effect reads it: the empty string, a text
      `parseFloat` turns into NaN, or a number. */
  datatype Reading = EmptyText | NotNumber | Number(x: real)

  const Negative: seq<string> := ["\U{1F614}", "\U{1F61F}", "\U{1F622}", "\U{1F615}", "\U{1F61E}", "\U{1F625}", "\U{1F630}", "\U{1F613}"]
  const Neutral: seq<string> := ["\U{1F610}", "\U{1F611}", "\U{1F642}", "\U{1F636}", "\U{1F60C}", "\U{1F914}"]
  const Positive: seq<string> := ["\U{1F60A}", "\U{1F604}", "\U{1F389}", "\U{2728}", "\U{1F603}", "\U{1F31F}", "\U{1F4AB}", "\U{1F38A}", "\U{1F601}", "\U{1F973}"]

  /** The emoji set and volume for a sentiment value: negative and 8 up to
      4, neutral and 4 within [5, 6], positive and 8 for everything else,
      the gaps (4, 5) and (6, 7) included. */
  function Bucket(x: real): (r: (seq<string>, nat))
    ensures x <= 4.0 ==> r == (Negative, 8)
    ensures 5.0 <= x <= 6.0 ==> r == (Neutral, 4)
    ensures (4.0 < x < 5.0 || 6.0 < x) ==> r == (Positive, 8)
    ensures |r.0| > 0 && (r.1 == 4 || r.1 == 8)
  {
    if x <= 4.0 then (Negative, 8)
    else if x >= 5.0 && x <= 6.0 then (Neutral, 4)
    else (Positive, 8)
  }

  datatype Floating = Floating(id: int, emoji: string, left: real, duration: real, delay: real, size: real)

  /** What one emoji reads from its environment: the `Date.now()` reading
      taken for it and its five `Math.random()` results. */
  datatype Draw = Draw(clock: int, pick: real, left: real, duration: real, delay: real, size: real)

  predicate DrawOk(d: Draw) {
    InUnit(d.pick) && InUnit(d.left) && InUnit(d.duration) && InUnit(d.delay) && InUnit(d.size)
  }

  /** One generated emoji; `sizeBase` and `sizeSpan` are 60 and 40 on
      generation and 30 and 20 on refresh. */
  function MakeEmoji(pool: seq<string>, i: nat, d: Draw, sizeBase: real, sizeSpan: real): Floating
    requires |pool| > 0 && DrawOk(d)
  {
    Floating(d.clock + i, pool[PickIndex(d.pick, |pool|)], Scale(d.left, 80.0, 10.0), Scale(d.duration, 3.0, 3.0),
             Scale(d.delay, 2.0, 0.0), Scale(d.size, sizeSpan, sizeBase))
  }

  /** `Array.from({ length: volume }, ...)` with one draw, and so one clock
      reading, per emoji. */
  function Generate(pool: seq<string>, volume: nat, draws: seq<Draw>, sizeBase: real, sizeSpan: real): (r: seq<Floating>)
    requires |pool| > 0 && |draws| == volume && forall i :: 0 <= i < |draws| ==> DrawOk(draws[i])
    ensures |r| == volume
    ensures forall i :: 0 <= i < volume ==> r[i] == MakeEmoji(pool, i, draws[i], sizeBase, sizeSpan)
  {
    seq(volume, i requires 0 <= i < volume => MakeEmoji(pool, i, draws[i], sizeBase, sizeSpan))
  }

  /** `r * span + base` for a draw `r`: it lies in [base, base + span). */
  function Scale(r: real, span: real, base: real): (x: real)
    ensures InUnit(r) && span > 0.0 ==> base <= x < base + span
  {
    if InUnit(r) && span > 0.0 then ScaledWithin(r, span); r * span + base
    else r * span + base
  }

  /** A draw scaled by a positive span stays below the span. */
  lemma ScaledWithin(r: real, span: real)
    requires InUnit(r) && span > 0.0
    ensures 0.0 <= r * span < span
  {
    var gap := 1.0 - r;
    assert gap * span > 0.0;
    assert r * span == span - gap * span;
  }

  /** The `i`-th emoji has the id `Date.now() + i`, comes from the set and
      lies within the ranges: left in
      [10, 90), duration in [3, 6), delay in [0, 2) and size in
      [sizeBase, sizeBase + sizeSpan). */
  lemma EmojiRanges(pool: seq<string>, i: nat, d: Draw, sizeBase: real, sizeSpan: real)
    requires |pool| > 0 && DrawOk(d) && sizeSpan > 0.0
    ensures var e := MakeEmoji(pool, i, d, sizeBase, sizeSpan);
      e.emoji in pool && e.id == d.clock + i && 10.0 <= e.left < 90.0 && 3.0 <= e.duration < 6.0
      && 0.0 <= e.delay < 2.0 && sizeBase <= e.size < sizeBase + sizeSpan
  {
    var e := MakeEmoji(pool, i, d, sizeBase, sizeSpan);
    assert e.emoji == pool[PickIndex(d.pick, |pool|)];
  }

  /** Every generated emoji has the id `Date.now() + i`, from its own clock
      reading, and satisfies the ranges of `EmojiRanges`. */
  lemma GeneratedRanges(pool: seq<string>, volume: nat, draws: seq<Draw>, sizeBase: real, sizeSpan: real)
    requires |pool| > 0 && |draws| == volume && forall i :: 0 <= i < |draws| ==> DrawOk(draws[i])
    requires sizeSpan > 0.0
    ensures forall i :: 0 <= i < volume ==>
      var e := Generate(pool, volume, draws, sizeBase, sizeSpan)[i];
      e.emoji in pool && e.id == draws[i].clock + i && 10.0 <= e.left < 90.0 && 3.0 <= e.duration < 6.0
      && 0.0 <= e.delay < 2.0 && sizeBase <= e.size < sizeBase + sizeSpan
  {
    forall i | 0 <= i < volume
      ensures var e := Generate(pool, volume, draws, sizeBase, sizeSpan)[i];
        e.emoji in pool && e.id == draws[i].clock + i && 10.0 <= e.left < 90.0 && 3.0 <= e.duration < 6.0
        && 0.0 <= e.delay < 2.0 && sizeBase <= e.size < sizeBase + sizeSpan
    {
      EmojiRanges(pool, i, draws[i], sizeBase, sizeSpan);
    }
  }

  /** With a clock that never goes back, the ids of one generation strictly
      increase, so they are distinct. */
  lemma IdsIncrease(pool: seq<string>, volume: nat, draws: seq<Draw>, sizeBase: real, sizeSpan: real)
    requires |pool| > 0 && |draws| == volume && forall i :: 0 <= i < |draws| ==> DrawOk(draws[i])
    requires forall i, j :: 0 <= i <= j < |draws| ==> draws[i].clock <= draws[j].clock
    ensures forall i, j :: 0 <= i < j < volume ==>
      Generate(pool, volume, draws, sizeBase, sizeSpan)[i].id < Generate(pool, volume, draws, sizeBase, sizeSpan)[j].id
  {
  }

  predicate AllFrom(es: seq<Floating>, pool: seq<string>) {
    forall i :: 0 <= i < |es| ==> es[i].emoji in pool
  }

  class Overlay {
    var emojis: seq<Floating>
    var isVisible: bool
    /** The set and volume the refresh interval captured, and whether one
        is running. */
    var emojiSet: seq<string>
    var volume: nat
    var refreshing: bool

    ghost predicate Valid()
      reads this
    {
      && (refreshing ==> |emojiSet| > 0 && |emojis| == volume && AllFrom(emojis, emojiSet))
      && (!refreshing ==> emojis == [])
    }

    constructor ()
      ensures Valid() && emojis == [] && !refreshing
    {
      emojis, isVisible, emojiSet, volume, refreshing := [], false, [], 0, false;
    }

    /** The effect run when the sentiment or the visibility changes: no
        emojis (and no refresh) when hidden, empty or not a number;
        otherwise a fresh list of the bucket's volume from its set. */
    method OnChange(reading: Reading, visible: bool, draws: seq<Draw>)
      requires Valid()
      requires visible && reading.Number? ==> |draws| == Bucket(reading.x).1
      requires forall i :: 0 <= i < |draws| ==> DrawOk(draws[i])
      modifies this
      ensures Valid() && isVisible == visible
      ensures !visible || !reading.Number? ==> emojis == [] && !refreshing
      ensures visible && reading.Number? ==> (refreshing && emojiSet == Bucket(reading.x).0
        && emojis == Generate(Bucket(reading.x).0, Bucket(reading.x).1, draws, 60.0, 40.0))
    {
      isVisible := visible;
      if !visible || reading.EmptyText? {
        emojis := [];
        refreshing := false;
        return;
      }
      if reading.NotNumber? {
        emojis := [];
        refreshing := false;
        return;
      }
      var b := Bucket(reading.x);
      emojiSet, volume := b.0, b.1;
      emojis := Generate(emojiSet, volume, draws, 60.0, 40.0);
      GeneratedRanges(emojiSet, volume, draws, 60.0, 40.0);
      refreshing := true;
    }

    /** The six-second refresh: a new list of the same length from the same
        set, with the smaller sizes. */
    method Refresh(draws: seq<Draw>)
      requires Valid()
      requires refreshing ==> |draws| == volume
      requires forall i :: 0 <= i < |draws| ==> DrawOk(draws[i])
      modifies this`emojis
      ensures Valid()
      ensures refreshing ==> emojis == Generate(emojiSet, volume, draws, 30.0, 20.0)
      ensures !refreshing ==> emojis == []
    {
      if refreshing {
        emojis := Generate(emojiSet, volume, draws, 30.0, 20.0);
        GeneratedRanges(emojiSet, volume, draws, 30.0, 20.0);
      }
    }

    /** What is drawn: nothing when hidden or without emojis. */
    function Rendered(): (r: Option<seq<Floating>>)
      reads this
      ensures r.Some? <==> isVisible && |emojis| > 0
    {
      if !isVisible || |emojis| == 0 then None else Some(emojis)
    }
  }
}
