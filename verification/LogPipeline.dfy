/** From the logger through the files to the follower and the parser. */
module LogPipeline {
  import opened Profiles
  import opened Text
  import opened LogLines
  import opened LogTail
  import opened LogFormat
  import opened Utf8

  datatype LogRecord = LogRecord(timestamp: string, level: Level, message: string)

  /** A record of one line. */
  predicate Loggable(r: LogRecord) {
    LooksLikeTimestamp(r.timestamp) && '\n' !in r.message
  }

  predicate AllLoggable(records: seq<LogRecord>) {
    forall i :: 0 <= i < |records| ==> Loggable(records[i])
  }

  function Written(r: LogRecord): string {
    Format(r.timestamp, r.level, r.message)
  }

  /** The lines of a log file, one a record. */
  function LogFile(records: seq<LogRecord>): seq<seq<byte>> {
    if records == [] then [] else [Encode(Written(records[0]))] + LogFile(records[1..])
  }

  function Shown(out: seq<seq<byte>>): seq<LogLine> {
    if out == [] then [] else [Parse(Decode(out[0]))] + Shown(out[1..])
  }

  /** Trailing line-end characters do not reach the parser. */
  function TrimReturns(s: string): string {
    if s != [] && (s[|s| - 1] == '\n' || s[|s| - 1] == '\r') then TrimReturns(s[..|s| - 1]) else s
  }

  function ExpectedLine(r: LogRecord): LogLine {
    var time := if |r.timestamp| > 11 then r.timestamp[11..] else "";
    LogLine(Some(r.timestamp), time, Some(r.level), Some(Tag(r.level)), TrimStart(TrimReturns(r.message)))
  }

  function Expected(records: seq<LogRecord>): seq<LogLine> {
    if records == [] then [] else [ExpectedLine(records[0])] + Expected(records[1..])
  }

  // ---- one record ----

  lemma {:induction false} TrimOfPrefixed(p: string, s: string)
    requires p != [] && p[|p| - 1] != '\n' && p[|p| - 1] != '\r'
    ensures TrimReturns(p + s) == p + TrimReturns(s)
  {
    if s == [] {
      assert p + s == p;
    } else {
      assert (p + s)[..|p + s| - 1] == p + s[..|s| - 1];
      TrimOfPrefixed(p, s[..|s| - 1]);
    }
  }

  /** The last byte of a text is that of its last character. */
  lemma EncodeLast(s: string)
    requires s != []
    ensures var last := EncodeChar(s[|s| - 1]); Encode(s) == Encode(s[..|s| - 1]) + last
  {
    hide Encode, EncodeChar;
    var front, last := s[..|s| - 1], s[|s| - 1];
    assert s == front + [last];
    EncodeConcat(front, [last]);
    EncodeOne(last);
  }

  lemma EncodeOne(c: char)
    ensures Encode([c]) == EncodeChar(c)
  {
    hide EncodeChar;
    assert [c][1..] == [];
    NothingEncoded();
    assert EncodeChar(c) + [] == EncodeChar(c);
  }

  lemma EolByte(c: char)
    ensures var b := EncodeChar(c);
            if c == '\n' || c == '\r' then |b| == 1 && IsEol(b[0]) else !IsEol(b[|b| - 1])
  {
    CharBytes(c);
  }

  /** Trimming the bytes of a text trims the text. */
  lemma {:induction false} TrimEncoded(s: string)
    ensures TrimEol(Encode(s)) == Encode(TrimReturns(s))
  {
    hide EncodeChar, Encode;
    if s == [] {
      NothingEncoded();
    } else {
      var front, last := s[..|s| - 1], EncodeChar(s[|s| - 1]);
      EncodeLast(s);
      EolByte(s[|s| - 1]);
      assert Encode(s)[|Encode(s)| - 1] == last[|last| - 1];
      if s[|s| - 1] == '\n' || s[|s| - 1] == '\r' {
        assert Encode(s)[..|Encode(s)| - 1] == Encode(front);
        TrimEncoded(front);
      }
    }
  }

  lemma NothingEncoded()
    ensures Encode([]) == []
  {
  }

  lemma WrittenIsOneLine(r: LogRecord)
    requires Loggable(r)
    ensures NEWLINE !in Encode(Written(r))
  {
    hide Encode, LooksLikeTimestamp;
    TagIsRead(r.level);
    NoNewlineInTimestamp(r.timestamp);
    var a, b := " [", "] ";
    assert forall c :: c in a ==> c != '\n';
    assert forall c :: c in b ==> c != '\n';
    assert '\n' !in Tag(r.level);
    hide Tag;
    NewlineIsNewline(Written(r));
  }

  lemma NoNewlineInTimestamp(s: string)
    requires LooksLikeTimestamp(s)
    ensures '\n' !in s
  {
  }

  /** One record survives encoding, splitting, trimming, decoding and parsing. */
  lemma RecordIsShown(r: LogRecord)
    requires Loggable(r)
    ensures Shown(Report(Encode(Written(r)))) == [ExpectedLine(r)]
  {
    hide Encode, Decode, TrimReturns, TrimEol, Parse, Tag, LooksLikeTimestamp, TrimStart;
    var head, message := r.timestamp + " [" + Tag(r.level) + "] ", TrimReturns(r.message);
    assert Written(r) == head + r.message;
    TrimOfPrefixed(head, r.message);
    TrimEncoded(Written(r));
    var text := head + message;
    assert text == Format(r.timestamp, r.level, message);
    DecodeEncode(text);
    var b := Encode(text);
    assert b != [] by { EncodeLast(text); }
    assert Report(Encode(Written(r))) == [b];
    assert [b][1..] == [] && Shown([]) == [];
    WrittenLineIsRead(r.timestamp, r.level, message);
    assert |r.timestamp| == 19 by { TimestampLength(r.timestamp); }
  }

  lemma TimestampLength(s: string)
    requires LooksLikeTimestamp(s)
    ensures |s| == 19
  {
  }

  // ---- all records of a file ----

  lemma {:induction false} ShownConcat(a: seq<seq<byte>>, b: seq<seq<byte>>)
    ensures Shown(a + b) == Shown(a) + Shown(b)
  {
    hide Parse, Decode;
    if a == [] {
      assert a + b == b;
    } else {
      assert (a + b)[1..] == a[1..] + b;
      ShownConcat(a[1..], b);
      Assoc([Parse(Decode(a[0]))], Shown(a[1..]), Shown(b));
    }
  }

  predicate NoNewlines(lines: seq<seq<byte>>) {
    forall t :: t in lines ==> NEWLINE !in t
  }

  lemma {:induction false} RecordsAreShown(records: seq<LogRecord>)
    requires AllLoggable(records)
    ensures NoNewlines(LogFile(records))
    ensures Shown(Reports(LogFile(records))) == Expected(records)
  {
    hide Written, Report, Encode, ExpectedLine, Loggable, Parse, Decode;
    if records != [] {
      var line := Encode(Written(records[0]));
      WrittenIsOneLine(records[0]);
      RecordsAreShown(records[1..]);
      RecordIsShown(records[0]);
      ReportsCons(line, LogFile(records[1..]));
      hide Reports, Shown;
      ShownConcat(Report(line), Reports(LogFile(records[1..])));
    } else {
      NothingShown();
    }
  }

  lemma NothingShown()
    ensures Shown(Reports([])) == []
  {
  }

  // ---- a follower ----

  /** The bytes read are these records, and perhaps the beginning of another one. */
  predicate Holds(stream: seq<byte>, records: seq<LogRecord>, begun: seq<byte>) {
    AllLoggable(records) && NEWLINE !in begun && stream == Unlines(LogFile(records)) + begun
  }

  lemma StreamIsShown(stream: seq<byte>, records: seq<LogRecord>, begun: seq<byte>)
    requires Holds(stream, records, begun)
    ensures Shown(Lines(stream)) == Expected(records) && Unfinished(stream) == begun
  {
    hide Loggable, LogFile, Unlines, Lines, Unfinished, Shown, Expected;
    RecordsAreShown(records);
    SplitOfJoin(LogFile(records), begun);
  }

  /** However the writes of the logger fall between the polls of a follower, even in
      the middle of a character, it shows every complete record once, in order, with
      its timestamp, level and message, and keeps what has begun. */
  lemma FollowerShowsEveryRecord(inode: nat, looks: seq<Look>, records: seq<LogRecord>, begun: seq<byte>)
    requires Growing(inode, [], looks)
    requires Holds(LastContent([], looks), records, begun)
    ensures var done := Follow(Opened(Present(inode, []), 0), looks);
            Shown(done.out) == Expected(records) && done.state.pending == begun
  {
    hide Holds, Lines, Unfinished, Shown, Expected, Growing, LastContent, Follow;
    var path := Present(inode, []);
    ChunksDoNotMatter(path, 0, looks);
    var final := LastContent([], looks);
    assert path.content[..0] == [] && final[0..] == final;
    StreamIsShown(final, records, begun);
  }

  // ---- rotation ----

  /** What was read of each file that was followed before the current one. */
  predicate PastHolds(past: seq<seq<byte>>, files: seq<seq<LogRecord>>, begun: seq<seq<byte>>) {
    |past| == |files| == |begun| && forall i :: 0 <= i < |past| ==> Holds(past[i], files[i], begun[i])
  }

  function AllExpected(files: seq<seq<LogRecord>>): seq<LogLine> {
    if files == [] then [] else Expected(files[0]) + AllExpected(files[1..])
  }

  lemma {:induction false} PastIsShown(past: seq<seq<byte>>, files: seq<seq<LogRecord>>, begun: seq<seq<byte>>)
    requires PastHolds(past, files, begun)
    ensures Shown(AllLines(past)) == AllExpected(files)
  {
    hide Holds, Lines, Expected, Parse, Decode;
    if past != [] {
      StreamIsShown(past[0], files[0], begun[0]);
      PastIsShown(past[1..], files[1..], begun[1..]);
      hide Shown;
      ShownConcat(Lines(past[0]), AllLines(past[1..]));
    }
  }

  /** Over rotations, truncations, missing files and failed reads: the follower shows
      exactly the records that it could read completely, file by file and each once. */
  lemma FollowerShowsWhatItReads(t: TailState, looks: seq<Look>, files: seq<seq<LogRecord>>, begun: seq<seq<byte>>,
                                 records: seq<LogRecord>, rest: seq<byte>)
    requires t.pending == []
    requires var read := Records(Reading(t.inode, t.offset, [], []), looks);
             PastHolds(read.past, files, begun) && Holds(read.current, records, rest)
    ensures var done := Follow(t, looks);
            Shown(done.out) == AllExpected(files) + Expected(records) && done.state.pending == rest
  {
    hide Holds, Lines, Unfinished, Shown, Expected, AllExpected, Follow, Records, PastHolds, AllLines;
    var start := Reading(t.inode, t.offset, [], []);
    NothingRead(t);
    FollowReportsCompleteLines(t, start, looks);
    var read := Records(start, looks);
    PastIsShown(read.past, files, begun);
    StreamIsShown(read.current, records, rest);
    ShownConcat(AllLines(read.past), Lines(read.current));
    assert [] + Follow(t, looks).out == Follow(t, looks).out;
  }

  lemma NothingRead(t: TailState)
    requires t.pending == []
    ensures Matches(t, Reading(t.inode, t.offset, [], [])) && Complete(Reading(t.inode, t.offset, [], [])) == []
  {
    Drained([]);
  }
}
