/** Splitting a byte stream into log lines. */
module LogLines {

  newtype byte = b: int | 0 <= b < 256

  const NEWLINE: byte := 10
  const RETURN: byte := 13

  predicate IsEol(b: byte) {
    b == NEWLINE || b == RETURN
  }

  function TrimEol(s: seq<byte>): seq<byte> {
    if s != [] && IsEol(s[|s| - 1]) then TrimEol(s[..|s| - 1]) else s
  }

  /** Position of the first newline, or the length when there is none. */
  function FirstNewline(s: seq<byte>): (k: nat)
    ensures k <= |s|
    ensures k < |s| ==> s[k] == NEWLINE
    ensures forall i :: 0 <= i < k ==> s[i] != NEWLINE
  {
    if s == [] then 0 else if s[0] == NEWLINE then 0 else 1 + FirstNewline(s[1..])
  }

  /** A complete line is reported without its line end, unless nothing is left. */
  function Report(line: seq<byte>): seq<seq<byte>> {
    var text := TrimEol(line);
    if text == [] then [] else [text]
  }

  /** The first line of a stream, its newline included. */
  function Leading(s: seq<byte>): seq<byte>
    requires FirstNewline(s) < |s|
  {
    s[..FirstNewline(s) + 1]
  }

  /** What follows the first line. */
  function Behind(s: seq<byte>): (r: seq<byte>)
    requires FirstNewline(s) < |s|
    ensures |r| < |s|
  {
    s[FirstNewline(s) + 1..]
  }

  /** The reported complete lines of a stream. */
  function Lines(s: seq<byte>): seq<seq<byte>>
    decreases |s|
  {
    if FirstNewline(s) == |s| then [] else Report(Leading(s)) + Lines(Behind(s))
  }

  /** The unfinished last line. */
  function Unfinished(s: seq<byte>): seq<byte>
    decreases |s|
  {
    if FirstNewline(s) == |s| then s else Unfinished(Behind(s))
  }

  lemma {:induction false} NewlineIn(a: seq<byte>, b: seq<byte>)
    ensures FirstNewline(a + b) == if FirstNewline(a) < |a| then FirstNewline(a) else |a| + FirstNewline(b)
  {
    if a == [] {
      assert a + b == b;
    } else {
      assert (a + b)[1..] == a[1..] + b;
      if a[0] != NEWLINE {
        NewlineIn(a[1..], b);
      }
    }
  }

  lemma Assoc<T>(a: seq<T>, b: seq<T>, c: seq<T>)
    ensures (a + b) + c == a + (b + c)
  {
  }

  lemma LinesUnfold(s: seq<byte>)
    requires FirstNewline(s) < |s|
    ensures Lines(s) == Report(Leading(s)) + Lines(Behind(s))
    ensures Unfinished(s) == Unfinished(Behind(s))
  {
    hide FirstNewline, Report, Leading, Behind;
  }

  lemma Drained(s: seq<byte>)
    requires FirstNewline(s) == |s|
    ensures Lines(s) == [] && Unfinished(s) == s
  {
  }

  /** More bytes do not change the first line. */
  lemma FirstLineStays(a: seq<byte>, b: seq<byte>)
    requires FirstNewline(a) < |a|
    ensures FirstNewline(a + b) < |a + b|
    ensures Leading(a + b) == Leading(a) && Behind(a + b) == Behind(a) + b
  {
    NewlineIn(a, b);
    hide FirstNewline;
    var k := FirstNewline(a);
    assert (a + b)[..k + 1] == a[..k + 1] && (a + b)[k + 1..] == a[k + 1..] + b;
  }

  /** Splitting can be resumed: it is enough to keep the unfinished line. */
  lemma {:induction false} LinesResume(a: seq<byte>, b: seq<byte>)
    ensures Lines(a + b) == Lines(a) + Lines(Unfinished(a) + b)
    ensures Unfinished(a + b) == Unfinished(Unfinished(a) + b)
    decreases |a|
  {
    hide *;
    if FirstNewline(a) < |a| {
      FirstLineStays(a, b);
      LinesUnfold(a);
      LinesUnfold(a + b);
      LinesResume(Behind(a), b);
      Assoc(Report(Leading(a)), Lines(Behind(a)), Lines(Unfinished(a) + b));
    } else {
      Drained(a);
    }
  }

  // ---- what the two functions mean ----

  function Unlines(texts: seq<seq<byte>>): seq<byte> {
    if texts == [] then [] else texts[0] + [NEWLINE] + Unlines(texts[1..])
  }

  function Reports(texts: seq<seq<byte>>): seq<seq<byte>> {
    if texts == [] then [] else Report(texts[0]) + Reports(texts[1..])
  }

  lemma ReportNewline(s: seq<byte>)
    ensures Report(s + [NEWLINE]) == Report(s)
  {
  }

  lemma ReportsCons(t: seq<byte>, texts: seq<seq<byte>>)
    ensures Reports([t] + texts) == Report(t) + Reports(texts)
    ensures Reports([]) == []
  {
    assert ([t] + texts)[1..] == texts;
  }

  lemma UnlinesCons(t: seq<byte>, texts: seq<seq<byte>>)
    ensures Unlines([t] + texts) == t + [NEWLINE] + Unlines(texts)
    ensures Unlines([]) == []
  {
    assert ([t] + texts)[1..] == texts;
  }

  lemma FirstLineIs(t: seq<byte>, more: seq<byte>)
    requires NEWLINE !in t
    ensures var s := t + ([NEWLINE] + more);
            FirstNewline(s) == |t| && Report(Leading(s)) == Report(t) && Behind(s) == more
  {
    hide Report, TrimEol;
    NewlineIn(t, [NEWLINE] + more);
    assert (t + ([NEWLINE] + more))[..|t| + 1] == t + [NEWLINE];
    ReportNewline(t);
  }

  /** Writing texts out as lines and splitting them gives the texts back, less
      trailing returns and empty ones; what follows the last newline is kept. */
  lemma {:induction false} SplitOfJoin(texts: seq<seq<byte>>, rest: seq<byte>)
    requires forall t :: t in texts ==> NEWLINE !in t
    requires NEWLINE !in rest
    ensures Lines(Unlines(texts) + rest) == Reports(texts)
    ensures Unfinished(Unlines(texts) + rest) == rest
  {
    hide *;
    if texts == [] {
      UnlinesCons([], []);
      ReportsCons([], []);
      assert Unlines(texts) + rest == rest;
      Drained(rest);
    } else {
      var t, more := texts[0], Unlines(texts[1..]) + rest;
      assert texts == [t] + texts[1..];
      UnlinesCons(t, texts[1..]);
      ReportsCons(t, texts[1..]);
      var s := t + ([NEWLINE] + more);
      assert Unlines(texts) + rest == s;
      SplitOfJoin(texts[1..], rest);
      FirstLineIs(t, more);
      LinesUnfold(s);
    }
  }

  /** The texts of the complete lines of a stream. */
  function Texts(s: seq<byte>): seq<seq<byte>>
    decreases |s|
  {
    if FirstNewline(s) == |s| then [] else [s[..FirstNewline(s)]] + Texts(Behind(s))
  }

  lemma TextsUnfold(s: seq<byte>)
    ensures var k := FirstNewline(s);
            Texts(s) == if k < |s| then [s[..k]] + Texts(Behind(s)) else []
  {
    hide FirstNewline, Behind;
  }

  lemma CutFirst(s: seq<byte>)
    requires FirstNewline(s) < |s|
    ensures var t := s[..FirstNewline(s)]; s == t + [NEWLINE] + Behind(s) && NEWLINE !in t
  {
    hide FirstNewline;
    CutAt(s, FirstNewline(s));
  }

  lemma CutAt(s: seq<byte>, k: nat)
    requires k < |s|
    ensures s == s[..k] + [s[k]] + s[k + 1..]
  {
  }

  /** Every stream is some complete lines and an unfinished one. */
  lemma {:induction false} JoinOfSplit(s: seq<byte>)
    ensures s == Unlines(Texts(s)) + Unfinished(s)
    ensures NEWLINE !in Unfinished(s) && forall t :: t in Texts(s) ==> NEWLINE !in t
    decreases |s|
  {
    hide *;
    TextsUnfold(s);
    if FirstNewline(s) < |s| {
      var t, more := s[..FirstNewline(s)], Behind(s);
      JoinOfSplit(more);
      LinesUnfold(s);
      UnlinesCons(t, Texts(more));
      CutFirst(s);
      Assoc(t + [NEWLINE], Unlines(Texts(more)), Unfinished(more));
    } else {
      Drained(s);
      UnlinesCons([], []);
    }
  }

  /** What is reported of a stream are its complete lines: it is made of texts
      without newlines, each ended by one, and an unfinished rest. */
  lemma LinesOfStream(s: seq<byte>)
    ensures s == Unlines(Texts(s)) + Unfinished(s) && Lines(s) == Reports(Texts(s))
    ensures NEWLINE !in Unfinished(s) && forall t :: t in Texts(s) ==> NEWLINE !in t
  {
    hide *;
    JoinOfSplit(s);
    SplitOfJoin(Texts(s), Unfinished(s));
  }

  // ---- what is reported of a line ----

  /** A line is reported without the returns and newlines at its end, and not at all when
      nothing else is in it. */
  lemma {:induction false} TrimEolAnswers(s: seq<byte>) returns (end: seq<byte>)
    ensures s == TrimEol(s) + end && forall i :: 0 <= i < |end| ==> end[i] == 10 || end[i] == 13
    ensures var t := TrimEol(s); t != [] ==> t[|t| - 1] != 10 && t[|t| - 1] != 13
  {
    end := [];
    if s != [] && IsEol(s[|s| - 1]) {
      var front := s[..|s| - 1];
      end := TrimEolAnswers(front);
      end := end + [s[|s| - 1]];
      assert s == front + [s[|s| - 1]];
    }
  }

  lemma ReportedLine(line: seq<byte>)
    ensures Report(line) == if TrimEol(line) == [] then [] else [TrimEol(line)]
  {
  }

  /** No reported line is empty, contains a newline or ends with a return. */
  lemma {:induction false} LinesAnswer(s: seq<byte>, i: nat)
    requires i < |Lines(s)|
    ensures var line := Lines(s)[i]; line != [] && NEWLINE !in line && line[|line| - 1] != 13
    decreases |s|
  {
    hide *;
    if FirstNewline(s) < |s| {
      LinesUnfold(s);
      CutFirst(s);
      LeadingIs(s);
      ReportNewline(s[..FirstNewline(s)]);
      var t := s[..FirstNewline(s)];
      var end := TrimEolAnswers(t);
      ReportedLine(t);
      if i < |Report(t)| {
        assert forall b :: b in TrimEol(t) ==> b in t;
      } else {
        LinesAnswer(Behind(s), i - |Report(t)|);
      }
    } else {
      Drained(s);
    }
  }

  lemma LeadingIs(s: seq<byte>)
    requires FirstNewline(s) < |s|
    ensures Leading(s) == s[..FirstNewline(s)] + [NEWLINE]
  {
    hide FirstNewline;
    OneMore(s, FirstNewline(s));
  }

  lemma OneMore(s: seq<byte>, k: nat)
    requires k < |s|
    ensures s[..k + 1] == s[..k] + [s[k]]
  {
  }

  // ---- the draining loop ----

  lemma DrainStep(s: seq<byte>, out: seq<seq<byte>>)
    requires FirstNewline(s) < |s|
    ensures out + Lines(s) == (out + Report(Leading(s))) + Lines(Behind(s))
    ensures Unfinished(s) == Unfinished(Behind(s))
  {
    hide *;
    LinesUnfold(s);
    Assoc(out, Report(Leading(s)), Lines(Behind(s)));
  }

  /** Take the complete lines off the front of a buffer. */
  method Drain(buffer: seq<byte>) returns (out: seq<seq<byte>>, pending: seq<byte>)
    ensures out == Lines(buffer) && pending == Unfinished(buffer)
  {
    hide Lines, Unfinished, TrimEol;
    out, pending := [], buffer;
    var pos := FirstNewline(pending);
    while pos < |pending|
      invariant pos == FirstNewline(pending)
      invariant out + Lines(pending) == Lines(buffer) && Unfinished(pending) == Unfinished(buffer)
      decreases |pending|
    {
      DrainStep(pending, out);
      var text := TrimEol(pending[..pos + 1]);
      if |text| != 0 {
        out := out + [text];
      }
      pending := pending[pos + 1..];
      pos := FirstNewline(pending);
    }
    Drained(pending);
  }
}
