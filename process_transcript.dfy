/** `processTranscript` (client/src/learning/utils/processTranscript.ts):
    a text cut into sentences at runs of full stops and line breaks, each
    trimmed, the empty ones dropped. */
module ProcessTranscript {
  import opened Text

  /** A character of the class `[.\n]`. */
  predicate IsSep(c: char) {
    c == '.' || c == '\n'
  }

  predicate SepFree(s: string) {
    forall i :: 0 <= i < |s| ==> !IsSep(s[i])
  }

  /** Number of leading separators. */
  function LeadSeps(s: string): (n: nat)
    ensures 0 < n <= |s| || (n == 0 && (|s| == 0 || !IsSep(s[0])))
    ensures n < |s| ==> !IsSep(s[n])
  {
    if |s| > 0 && IsSep(s[0]) then 1 + LeadSeps(s[1..]) else 0
  }

  /** `s.split(/[.\n]+/)`: the pieces between maximal runs of separators,
      with an empty piece before a leading run and after a trailing one. */
  function SplitRuns(s: string): (r: seq<string>)
    ensures |r| >= 1
    ensures forall i :: 0 <= i < |r| ==> SepFree(r[i])
    decreases |s|
  {
    if |s| == 0 then [""]
    else if IsSep(s[0]) then [""] + SplitRuns(s[LeadSeps(s)..])
    else
      var rest := SplitRuns(s[1..]);
      [[s[0]] + rest[0]] + rest[1..]
  }

  /** The trim of every piece. */
  function TrimAll(ts: seq<string>): (r: seq<string>)
    ensures |r| == |ts| && forall i :: 0 <= i < |ts| ==> r[i] == Trim(ts[i])
  {
    seq(|ts|, i requires 0 <= i < |ts| => Trim(ts[i]))
  }

  /** `.filter(Boolean)` on strings: the non-empty ones, in order. */
  function NonEmpty(ts: seq<string>): (r: seq<string>)
    ensures forall i :: 0 <= i < |r| ==> r[i] != "" && r[i] in ts
  {
    if |ts| == 0 then []
    else if ts[0] != "" then [ts[0]] + NonEmpty(ts[1..])
    else NonEmpty(ts[1..])
  }

  /** `processTranscript`: the sentences of a text. Their order and
      completeness are stated by ProcessStep and ProcessSepFree. */
  function Process(text: string): (r: seq<string>)
    ensures forall i :: 0 <= i < |r| ==> r[i] != ""
  {
    NonEmpty(TrimAll(SplitRuns(text)))
  }

  /** Every sentence is non-empty, free of full stops and line breaks, and
      its own trim. */
  lemma ProcessShape(text: string)
    ensures forall i :: 0 <= i < |Process(text)| ==>
      var p := Process(text)[i];
      p != "" && SepFree(p) && Trim(p) == p
  {
    var ps := SplitRuns(text);
    forall i | 0 <= i < |Process(text)|
      ensures SepFree(Process(text)[i]) && Trim(Process(text)[i]) == Process(text)[i]
    {
      var p := Process(text)[i];
      var j :| 0 <= j < |ps| && TrimAll(ps)[j] == p;
      TrimIdempotent(ps[j]);
      TrimSepFree(ps[j]);
    }
  }

  /** Trimming keeps a piece free of separators. */
  lemma TrimSepFree(s: string)
    requires SepFree(s)
    ensures SepFree(Trim(s))
  {
    TrimIsInfix(s);
    var a :| (0 <= a <= |s| - |Trim(s)| && s[a..a + |Trim(s)|] == Trim(s)
      && AllWhite(s[..a]) && AllWhite(s[a + |Trim(s)|..]));
    forall i | 0 <= i < |Trim(s)| ensures !IsSep(Trim(s)[i]) {
      assert Trim(s)[i] == s[a + i];
    }
  }

  lemma {:induction false} SplitRunsPiece(w: string, rest: string)
    requires SepFree(w)
    requires rest == "" || !IsSep(rest[0])
    ensures SplitRuns(w) == [w]
    ensures SplitRuns(w + "." + rest) == [w] + SplitRuns(rest)
  {
    if w == [] {
      var s := "." + rest;
      assert LeadSeps(s) == 1 by {
        assert s[1..] == rest;
      }
      assert s[1..] == rest;
    } else {
      SplitRunsPiece(w[1..], rest);
      assert (w + "." + rest)[1..] == w[1..] + "." + rest;
      assert [w[0]] + w[1..] == w;
    }
  }

  /** Joining non-empty, separator-free pieces with full stops and splitting
      again gives the pieces back. */
  lemma {:induction false} SplitRunsJoin(ts: seq<string>)
    requires |ts| >= 1
    requires forall i :: 0 <= i < |ts| ==> ts[i] != "" && SepFree(ts[i])
    ensures SplitRuns(Join(ts, '.')) == ts
  {
    if |ts| == 1 {
      SplitRunsPiece(ts[0], "");
    } else {
      SplitRunsJoin(ts[1..]);
      var rest := Join(ts[1..], '.');
      assert rest[0] == ts[1][0] by {
        JoinHead(ts[1..]);
      }
      SplitRunsPiece(ts[0], rest);
      assert [ts[0]] + ts[1..] == ts;
    }
  }

  lemma {:induction false} JoinHead(ts: seq<string>)
    requires |ts| >= 1 && ts[0] != ""
    ensures |Join(ts, '.')| > 0 && Join(ts, '.')[0] == ts[0][0]
  {
  }

  /** A run of one or more separators. */
  predicate SepRun(run: string) {
    |run| > 0 && forall i :: 0 <= i < |run| ==> IsSep(run[i])
  }

  lemma {:induction false} LeadSepsOfRun(run: string, rest: string)
    requires forall i :: 0 <= i < |run| ==> IsSep(run[i])
    requires rest == "" || !IsSep(rest[0])
    ensures LeadSeps(run + rest) == |run|
  {
    if |run| > 0 {
      LeadSepsOfRun(run[1..], rest);
      assert (run + rest)[1..] == run[1..] + rest;
    } else {
      assert run + rest == rest;
    }
  }

  /** A separator-free piece followed by a maximal run of separators is one
      element of the split, whatever the run is made of; with `w` empty this
      is the empty piece before a leading run, and with `rest` empty the
      empty piece after a trailing one. */
  lemma {:induction false} SplitRunsStep(w: string, run: string, rest: string)
    requires SepFree(w) && SepRun(run)
    requires rest == "" || !IsSep(rest[0])
    ensures SplitRuns(w + run + rest) == [w] + SplitRuns(rest)
    decreases |w|
  {
    var s := w + run + rest;
    if w == [] {
      assert s == run + rest;
      LeadSepsOfRun(run, rest);
      assert s[|run|..] == rest;
    } else {
      SplitRunsStep(w[1..], run, rest);
      assert s[1..] == w[1..] + run + rest;
      assert [w[0]] + w[1..] == w;
    }
  }

  /** `.filter(Boolean)` distributes over concatenation; with NonEmptySingle
      it keeps every non-empty string, in order. */
  lemma {:induction false} NonEmptyAppend(a: seq<string>, b: seq<string>)
    ensures NonEmpty(a + b) == NonEmpty(a) + NonEmpty(b)
  {
    if |a| > 0 {
      NonEmptyAppend(a[1..], b);
      assert (a + b)[1..] == a[1..] + b;
    } else {
      assert a + b == b;
    }
  }

  lemma NonEmptySingle(t: string)
    ensures NonEmpty([t]) == if t == "" then [] else [t]
  {
    assert [t][1..] == [];
  }

  /** Every non-empty string is kept. */
  lemma {:induction false} NonEmptyComplete(ts: seq<string>)
    ensures forall i :: 0 <= i < |ts| && ts[i] != "" ==> ts[i] in NonEmpty(ts)
  {
    if |ts| > 0 {
      NonEmptyComplete(ts[1..]);
      forall i | 0 <= i < |ts| && ts[i] != "" ensures ts[i] in NonEmpty(ts) {
        if i > 0 {
          assert ts[i] == ts[1..][i - 1];
        }
      }
    }
  }

  /** The sentences in input order: a piece followed by a run of separators
      contributes its trim, when that is not empty, before the sentences of
      the rest of the text. */
  lemma ProcessStep(w: string, run: string, rest: string)
    requires SepFree(w) && SepRun(run)
    requires rest == "" || !IsSep(rest[0])
    ensures Process(w + run + rest) == (if Trim(w) == "" then [] else [Trim(w)]) + Process(rest)
  {
    var ps := SplitRuns(rest);
    var t := Trim(w);
    calc {
      Process(w + run + rest);
      NonEmpty(TrimAll(SplitRuns(w + run + rest)));
      { SplitRunsStep(w, run, rest); }
      NonEmpty(TrimAll([w] + ps));
      { TrimAllAppend([w], ps); }
      NonEmpty([t] + TrimAll(ps));
      { NonEmptyAppend([t], TrimAll(ps)); }
      NonEmpty([t]) + NonEmpty(TrimAll(ps));
      { NonEmptySingle(t); }
      (if t == "" then [] else [t]) + Process(rest);
    }
  }

  lemma TrimAllAppend(a: seq<string>, b: seq<string>)
    ensures TrimAll(a + b) == TrimAll(a) + TrimAll(b)
  {
  }

  /** A text without separators is one sentence, its trim, unless blank. */
  lemma ProcessSepFree(w: string)
    requires SepFree(w)
    ensures Process(w) == if Trim(w) == "" then [] else [Trim(w)]
  {
    SplitRunsPiece(w, "");
    assert TrimAll([w]) == [Trim(w)];
    NonEmptySingle(Trim(w));
  }

  lemma {:induction false} NonEmptyKeeps(ts: seq<string>)
    requires forall i :: 0 <= i < |ts| ==> ts[i] != ""
    ensures NonEmpty(ts) == ts
  {
    if |ts| > 0 {
      NonEmptyKeeps(ts[1..]);
      assert [ts[0]] + ts[1..] == ts;
    }
  }

  /** Processing is idempotent: the sentences joined with full stops process
      to the same sentences. */
  lemma ProcessIdempotent(text: string)
    ensures Process(Join(Process(text), '.')) == Process(text)
  {
    var ps := Process(text);
    ProcessShape(text);
    if |ps| == 0 {
      calc {
        Process(Join(ps, '.'));
        Process("");
        { assert SplitRuns("") == [""]; }
        NonEmpty(TrimAll([""]));
        { assert TrimAll([""]) == [""]; }
        NonEmpty([""]);
        ps;
      }
    } else {
      calc {
        Process(Join(ps, '.'));
        NonEmpty(TrimAll(SplitRuns(Join(ps, '.'))));
        { SplitRunsJoin(ps); }
        NonEmpty(TrimAll(ps));
        { TrimAllKeeps(ps); }
        NonEmpty(ps);
        { NonEmptyKeeps(ps); }
        ps;
      }
    }
  }

  lemma TrimAllKeeps(ts: seq<string>)
    requires forall i :: 0 <= i < |ts| ==> Trim(ts[i]) == ts[i]
    ensures TrimAll(ts) == ts
  {
  }

  /** A text of only separators and white space has no sentences. */
  lemma {:induction false} NoSentences(text: string)
    requires forall i :: 0 <= i < |text| ==> IsSep(text[i]) || IsWhite(text[i])
    ensures Process(text) == []
  {
    PiecesAllWhite(text);
    var ps := SplitRuns(text);
    NonEmptyOfBlanks(TrimAll(ps));
  }

  lemma {:induction false} PiecesAllWhite(text: string)
    requires forall i :: 0 <= i < |text| ==> IsSep(text[i]) || IsWhite(text[i])
    ensures forall j :: 0 <= j < |SplitRuns(text)| ==> AllWhite(SplitRuns(text)[j])
    decreases |text|
  {
    if |text| > 0 {
      if IsSep(text[0]) {
        PiecesAllWhite(text[LeadSeps(text)..]);
      } else {
        PiecesAllWhite(text[1..]);
        var rest := SplitRuns(text[1..]);
        assert IsWhite(text[0]);
        assert forall k :: 1 <= k < |[text[0]] + rest[0]| ==> ([text[0]] + rest[0])[k] == rest[0][k - 1];
      }
    }
  }

  lemma {:induction false} NonEmptyOfBlanks(ts: seq<string>)
    requires forall i :: 0 <= i < |ts| ==> ts[i] == ""
    ensures NonEmpty(ts) == []
  {
    if |ts| > 0 {
      NonEmptyOfBlanks(ts[1..]);
    }
  }
}
