/** The JavaScript string operations the client relies on: `trim`, `split(" ")`,
    `join(" ")`, the word filter shared by the transcript views, and the
    decimal rendering of a non-negative integer (`${n}`, `n.toString()`). */
module Text {

  /** A character `String.prototype.trim` removes: the ECMAScript white space
      (tab, vertical tab, form feed, space, no-break space, byte-order mark and
      the Unicode space separators) and the line terminators. */
  predicate IsWhite(c: char) {
    c == '\t' || c == '\n' || c == '\U{000B}' || c == '\U{000C}' || c == '\r' || c == ' '
    || c == '\U{00A0}' || c == '\U{1680}' || ('\U{2000}' <= c <= '\U{200A}')
    || c == '\U{2028}' || c == '\U{2029}' || c == '\U{202F}' || c == '\U{205F}'
    || c == '\U{3000}' || c == '\U{FEFF}'
  }

  predicate AllWhite(s: string) {
    forall i :: 0 <= i < |s| ==> IsWhite(s[i])
  }

  /** Number of leading white-space characters. */
  function LeadCount(s: string): (n: nat)
    ensures n <= |s|
    ensures AllWhite(s[..n])
    ensures n < |s| ==> !IsWhite(s[n])
  {
    if |s| > 0 && IsWhite(s[0]) then
      var k := LeadCount(s[1..]);
      assert s[..1 + k] == [s[0]] + s[1..][..k];
      1 + k
    else 0
  }

  /** Number of trailing white-space characters. */
  function TrailCount(s: string): (n: nat)
    ensures n <= |s|
    ensures AllWhite(s[|s| - n..])
    ensures n < |s| ==> !IsWhite(s[|s| - n - 1])
  {
    if |s| > 0 && IsWhite(s[|s| - 1]) then
      var p := s[..|s| - 1];
      var k := TrailCount(p);
      assert forall i :: |s| - (1 + k) <= i < |s| - 1 ==> s[i] == p[i];
      1 + k
    else 0
  }

  /** `s.trim()`: `s` with its leading and trailing white space removed. */
  function Trim(s: string): (r: string)
    ensures |r| <= |s|
    ensures r != [] ==> !IsWhite(r[0]) && !IsWhite(r[|r| - 1])
    ensures r == [] <==> AllWhite(s)
  {
    var a := LeadCount(s);
    var t := s[a..];
    var r := t[..|t| - TrailCount(t)];
    assert r == [] ==> a == |s|;
    assert r == [] ==> AllWhite(s) by {
      if r == [] {
        forall i | 0 <= i < |s| ensures IsWhite(s[i]) {
          assert s[i] == s[..a][i];
        }
      }
    }
    r
  }

  /** The trim is the middle of `s`: only white space is removed, and only
      at the two ends. */
  lemma TrimIsInfix(s: string)
    ensures exists a :: (0 <= a <= |s| - |Trim(s)| && s[a..a + |Trim(s)|] == Trim(s)
      && AllWhite(s[..a]) && AllWhite(s[a + |Trim(s)|..]))
  {
    var a := LeadCount(s);
    var t := s[a..];
    var r := t[..|t| - TrailCount(t)];
    assert r == Trim(s);
    assert s[a..a + |r|] == r;
    assert s[a + |r|..] == t[|t| - TrailCount(t)..];
  }

  /** Trimming twice is trimming once. */
  lemma TrimIdempotent(s: string)
    ensures Trim(Trim(s)) == Trim(s)
  {
    var r := Trim(s);
    if r != [] {
      assert LeadCount(r) == 0;
      assert TrailCount(r) == 0;
      assert r[0..] == r;
    }
  }

  /** `s.split(sep)`: the pieces between occurrences of `sep`, empty pieces
      included; the empty string splits into one empty piece. */
  function SplitOn(s: string, sep: char): (r: seq<string>)
    ensures |r| >= 1
    ensures forall i :: 0 <= i < |r| ==> sep !in r[i]
  {
    if |s| == 0 then [""]
    else
      var rest := SplitOn(s[1..], sep);
      if s[0] == sep then [""] + rest
      else [[s[0]] + rest[0]] + rest[1..]
  }

  /** `ts.join(sep)`: no pieces give the empty text; otherwise the text
      starts with the first piece and ends with the last. */
  function Join(ts: seq<string>, sep: char): (r: string)
    ensures |ts| == 0 ==> r == ""
    ensures |ts| > 0 ==> ts[0] <= r && |ts[|ts| - 1]| <= |r| && r[|r| - |ts[|ts| - 1]|..] == ts[|ts| - 1]
  {
    if |ts| == 0 then ""
    else if |ts| == 1 then ts[0]
    else ts[0] + [sep] + Join(ts[1..], sep)
  }

  lemma {:induction false} SplitPiece(w: string, sep: char, rest: string)
    requires sep !in w
    ensures SplitOn(w + [sep] + rest, sep) == [w] + SplitOn(rest, sep)
    ensures SplitOn(w, sep) == [w]
  {
    if w != [] {
      SplitPiece(w[1..], sep, rest);
      assert (w + [sep] + rest)[1..] == w[1..] + [sep] + rest;
      assert [w[0]] + w[1..] == w;
    }
  }

  /** Joining pieces that do not contain the separator and splitting again
      gives the pieces back. */
  lemma {:induction false} SplitJoin(ts: seq<string>, sep: char)
    requires |ts| >= 1
    requires forall i :: 0 <= i < |ts| ==> sep !in ts[i]
    ensures SplitOn(Join(ts, sep), sep) == ts
  {
    if |ts| == 1 {
      SplitPiece(ts[0], sep, "");
    } else {
      SplitJoin(ts[1..], sep);
      SplitPiece(ts[0], sep, Join(ts[1..], sep));
      assert [ts[0]] + ts[1..] == ts;
    }
  }

  /** Splitting and joining again gives the string back. */
  lemma {:induction false} JoinSplit(s: string, sep: char)
    ensures Join(SplitOn(s, sep), sep) == s
  {
    if |s| > 0 {
      JoinSplit(s[1..], sep);
      var rest := SplitOn(s[1..], sep);
      if s[0] != sep {
        var r := [[s[0]] + rest[0]] + rest[1..];
        if |rest| > 1 {
          assert r[1..] == rest[1..];
          assert rest == [rest[0]] + rest[1..];
        }
      } else {
        assert ([""] + rest)[1..] == rest;
      }
    }
  }

  /** The tokens of `ts` that are not all white space, in order; by the
      contract of `Trim`, exactly those whose trim is not empty. */
  function NonBlank(ts: seq<string>): (r: seq<string>)
    ensures |r| <= |ts|
    ensures r == [] <==> forall i :: 0 <= i < |ts| ==> AllWhite(ts[i])
  {
    if |ts| == 0 then []
    else if !AllWhite(ts[0]) then [ts[0]] + NonBlank(ts[1..])
    else NonBlank(ts[1..])
  }

  /** `s.split(" ").filter((word) => word.trim().length > 0)`: the words of
      the transcript views and the word cursor. */
  function Words(s: string): seq<string> {
    NonBlank(SplitOn(s, ' '))
  }

  /** The kept tokens are tokens of `ts`, and none is blank. */
  lemma {:induction false} NonBlankShape(ts: seq<string>)
    ensures |NonBlank(ts)| <= |ts|
    ensures forall i :: 0 <= i < |NonBlank(ts)| ==> NonBlank(ts)[i] in ts && Trim(NonBlank(ts)[i]) != []
  {
    if |ts| > 0 {
      NonBlankShape(ts[1..]);
    }
  }

  /** The filter distributes over concatenation; with NonBlankSingle this
      says it keeps every non-blank token, in the order of the input. */
  lemma {:induction false} NonBlankAppend(a: seq<string>, b: seq<string>)
    ensures NonBlank(a + b) == NonBlank(a) + NonBlank(b)
  {
    if |a| > 0 {
      NonBlankAppend(a[1..], b);
      assert (a + b)[1..] == a[1..] + b;
    } else {
      assert a + b == b;
    }
  }

  /** A single token is kept exactly when it is not blank. */
  lemma NonBlankSingle(t: string)
    ensures NonBlank([t]) == if Trim(t) == [] then [] else [t]
  {
    assert [t][1..] == [];
  }

  /** Every non-blank token is kept. */
  lemma {:induction false} NonBlankComplete(ts: seq<string>)
    ensures forall i :: 0 <= i < |ts| && Trim(ts[i]) != [] ==> ts[i] in NonBlank(ts)
  {
    if |ts| > 0 {
      NonBlankComplete(ts[1..]);
      forall i | 0 <= i < |ts| && Trim(ts[i]) != [] ensures ts[i] in NonBlank(ts) {
        if i > 0 {
          assert ts[i] == ts[1..][i - 1];
        }
      }
    }
  }

  /** No word contains a space, none is blank, and every non-blank
      space-separated token is a word. */
  lemma WordsShape(s: string)
    ensures forall i :: 0 <= i < |Words(s)| ==> ' ' !in Words(s)[i] && Trim(Words(s)[i]) != []
    ensures forall i :: 0 <= i < |SplitOn(s, ' ')| && Trim(SplitOn(s, ' ')[i]) != [] ==> SplitOn(s, ' ')[i] in Words(s)
  {
    NonBlankShape(SplitOn(s, ' '));
    NonBlankComplete(SplitOn(s, ' '));
  }

  lemma {:induction false} NonBlankKeepsNonBlank(ts: seq<string>)
    requires forall i :: 0 <= i < |ts| ==> Trim(ts[i]) != []
    ensures NonBlank(ts) == ts
  {
    if |ts| > 0 {
      NonBlankKeepsNonBlank(ts[1..]);
      assert [ts[0]] + ts[1..] == ts;
    }
  }

  /** Re-joining the words with single spaces and splitting again yields the
      same words. */
  lemma WordsRejoined(s: string)
    ensures Words(Join(Words(s), ' ')) == Words(s)
  {
    var ws := Words(s);
    WordsShape(s);
    if |ws| == 0 {
      assert SplitOn("", ' ') == [""];
      assert Trim("") == [];
    } else {
      SplitJoin(ws, ' ');
      NonBlankKeepsNonBlank(ws);
    }
  }

  predicate IsDigit(c: char) {
    '0' <= c <= '9'
  }

  function DigitChar(d: nat): (c: char)
    requires d < 10
    ensures IsDigit(c) && c as int - '0' as int == d
  {
    ('0' as int + d) as char
  }

  /** The decimal rendering of `n`, without leading zeros. */
  function NatToString(n: nat): (r: string)
    ensures |r| >= 1
    ensures forall i :: 0 <= i < |r| ==> IsDigit(r[i])
    ensures |r| > 1 ==> r[0] != '0'
  {
    if n < 10 then [DigitChar(n)] else NatToString(n / 10) + [DigitChar(n % 10)]
  }

  /** The value of a non-empty string of decimal digits. */
  function DigitsValue(s: string): nat
    requires |s| >= 1
    requires forall i :: 0 <= i < |s| ==> IsDigit(s[i])
  {
    assert IsDigit(s[|s| - 1]);
    var last: nat := s[|s| - 1] as int - '0' as int;
    if |s| == 1 then last else DigitsValue(s[..|s| - 1]) * 10 + last
  }

  /** Reading back the decimal rendering gives the number. */
  lemma {:induction false} DigitsValueOfNatToString(n: nat)
    ensures DigitsValue(NatToString(n)) == n
  {
    if n >= 10 {
      DigitsValueOfNatToString(n / 10);
      var s := NatToString(n);
      assert s[..|s| - 1] == NatToString(n / 10);
    }
  }

  /** Distinct numbers render as distinct strings. */
  lemma NatToStringInjective(m: nat, n: nat)
    requires NatToString(m) == NatToString(n)
    ensures m == n
  {
    DigitsValueOfNatToString(m);
    DigitsValueOfNatToString(n);
  }
}
