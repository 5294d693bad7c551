/** The session clock (client/src/components/SpeechCoach/Timer.tsx): the
    elapsed seconds as minutes, a colon and two-digit seconds. */
module Timer {
  import opened Types
  import opened Text

  /** `(s).toString().padStart(2, "0")` for `s < 60`. */
  function Pad2(s: nat): (r: string)
    requires s < 60
    ensures |r| == 2 && IsDigit(r[0]) && IsDigit(r[1])
    ensures DigitsValue(r) == s
  {
    if s < 10 then ['0', DigitChar(s)]
    else
      DigitsValueOfNatToString(s);
      NatToString(s)
  }

  /** The text of the clock for `t` elapsed seconds. */
  function Clock(t: nat): (r: string)
    ensures |r| >= 4 && r[|r| - 3] == ':'
    ensures forall i :: 0 <= i < |r| && i != |r| - 3 ==> IsDigit(r[i])
  {
    NatToString(t / 60) + ":" + Pad2(t % 60)
  }

  /** What is drawn: nothing when hidden. */
  function TimerView(elapsedTime: nat, isVisible: bool): (r: Option<string>)
    ensures r.None? <==> !isVisible
    ensures r.Some? ==> r.value == Clock(elapsedTime)
  {
    if !isVisible then None else Some(Clock(elapsedTime))
  }

  /** Reading a clock text back: minutes before the colon, seconds after. */
  function ParseClock(r: string): nat
    requires |r| >= 4 && r[|r| - 3] == ':'
    requires forall i :: 0 <= i < |r| && i != |r| - 3 ==> IsDigit(r[i])
  {
    DigitsValue(r[..|r| - 3]) * 60 + DigitsValue(r[|r| - 2..])
  }

  /** The minutes field is `t / 60`, the seconds field `t mod 60` in exactly
      two digits, and together they give `t` back. */
  lemma ClockRoundTrip(t: nat)
    ensures var r := Clock(t);
      DigitsValue(r[..|r| - 3]) == t / 60 && DigitsValue(r[|r| - 2..]) == t % 60 < 60
      && ParseClock(r) == t
  {
    var q, s := t / 60, t % 60;
    var r := Clock(t);
    assert r[..|r| - 3] == NatToString(q);
    assert r[|r| - 2..] == Pad2(s);
    DigitsValueOfNatToString(q);
    assert ParseClock(r) == q * 60 + s;
  }

  /** Distinct times show distinct clocks. */
  lemma ClockInjective(t: nat, u: nat)
    requires Clock(t) == Clock(u)
    ensures t == u
  {
    ClockRoundTrip(t);
    ClockRoundTrip(u);
  }
}
