/** The format of a log line: how it is written and how it is read back. */
module LogFormat {
  import opened Profiles
  import opened Text

  datatype Level = Error | Warn | Info | Debug | Trace

  function Tag(level: Level): string {
    match level
    case Error => "ERRO"
    case Warn => "WARN"
    case Info => "INFO"
    case Debug => "DEBU"
    case Trace => "TRAC"
  }

  function FromTag(tag: string): Option<Level> {
    var t := LowerAll(tag);
    if t == "erro" || t == "error" || t == "fata" || t == "fatal" then Some(Error)
    else if t == "warn" || t == "warning" then Some(Warn)
    else if t == "info" then Some(Info)
    else if t == "debu" || t == "debug" then Some(Debug)
    else if t == "trac" || t == "trace" then Some(Trace)
    else None
  }

  datatype LogLine = LogLine(timestamp: Option<string>, time: string, level: Option<Level>, tag: Option<string>, message: string)

  predicate IsDigit(c: char) {
    '0' <= c <= '9'
  }

  /** `YYYY/MM/DD HH:MM:SS`. Only ASCII can match, so counting characters here is
      the same as counting bytes. */
  predicate LooksLikeTimestamp(s: string) {
    && |s| == 19
    && forall i :: 0 <= i < 19 ==>
         if i == 4 || i == 7 then s[i] == '/'
         else if i == 10 then s[i] == ' '
         else if i == 13 || i == 16 then s[i] == ':'
         else IsDigit(s[i])
  }

  predicate LooksLikeTime(s: string) {
    && |s| == 8
    && forall i :: 0 <= i < 8 ==> if i == 2 || i == 5 then s[i] == ':' else IsDigit(s[i])
  }

  /** Index of the first character that satisfies the test, or the length. */
  function Find(s: string, test: char -> bool): (k: nat)
    ensures k <= |s|
    ensures k < |s| ==> test(s[k])
    ensures forall i :: 0 <= i < k ==> !test(s[i])
  {
    if s == [] || test(s[0]) then 0 else 1 + Find(s[1..], test)
  }

  datatype Split = Split(level: Option<Level>, tag: Option<string>, message: string)

  function SplitBracketed(rest: string): Option<Split> {
    if rest == [] || rest[0] != '[' then None
    else
      var close := Find(rest[1..], c => c == ']');
      if close == |rest[1..]| then None
      else
        var tag := rest[1..][..close];
        var level := FromTag(tag);
        if level.None? then None else Some(Split(level, Some(tag), TrimStart(rest[1..][close + 1..])))
  }

  /** `[TAG] message`, the older `TAG  message`, or just a message. */
  function SplitLevel(line: string): Split {
    var rest := TrimStart(line);
    var bracketed := SplitBracketed(rest);
    if bracketed.Some? then bracketed.value
    else
      var end := Find(rest, IsSpace);
      var level := FromTag(rest[..end]);
      if level.Some?
      then Split(level, Some(rest[..end]), if end < |rest| then TrimStart(rest[end + 1..]) else "")
      else Split(None, None, rest)
  }

  function Parse(line: string): LogLine {
    if |line| > 19 && LooksLikeTimestamp(line[..19]) && line[19] == ' ' then
      var s := SplitLevel(TrimStart(line[19..]));
      LogLine(Some(line[..19]), line[11..19], s.level, s.tag, s.message)
    else if |line| > 8 && LooksLikeTime(line[..8]) && line[8] == ' ' then
      var s := SplitLevel(TrimStart(line[9..]));
      LogLine(None, line[..8], s.level, s.tag, s.message)
    else
      var s := SplitLevel(line);
      LogLine(None, "", s.level, s.tag, s.message)
  }

  /** What the logger writes, without the line end. */
  function Format(timestamp: string, level: Level, message: string): string {
    timestamp + " [" + Tag(level) + "] " + message
  }

  lemma TagIsRead(level: Level)
    ensures FromTag(Tag(level)) == Some(level)
    ensures |Tag(level)| == 4 && forall c :: c in Tag(level) ==> c != ']' && !IsSpace(c)
  {
    var t := LowerAll(Tag(level));
    match level
    case Error => assert t == "erro";
    case Warn => assert t == "warn";
    case Info => assert t == "info";
    case Debug => assert t == "debu";
    case Trace => assert t == "trac";
  }

  lemma TagEnds(level: Level, message: string)
    ensures var tail := Tag(level) + "] " + message;
            Find(tail, c => c == ']') == 4 && tail[..4] == Tag(level) && tail[5..] == " " + message
  {
    TagIsRead(level);
    hide Tag;
    var tail := Tag(level) + "] " + message;
    assert tail[4] == ']';
    forall i | 0 <= i < 4 ensures tail[i] != ']' {
      assert tail[i] == Tag(level)[i] && Tag(level)[i] in Tag(level);
    }
  }

  lemma SpaceIsTrimmed(s: string)
    ensures TrimStart(" " + s) == TrimStart(s)
  {
    assert (" " + s)[1..] == s;
  }

  lemma BracketStays(s: string)
    ensures TrimStart("[" + s) == "[" + s && ("[" + s)[1..] == s
  {
  }

  lemma BracketedIsRead(level: Level, message: string)
    ensures SplitBracketed("[" + (Tag(level) + "] " + message)) == Some(Split(Some(level), Some(Tag(level)), TrimStart(message)))
  {
    hide FromTag, Tag, TrimStart, Find;
    var tail := Tag(level) + "] " + message;
    BracketStays(tail);
    TagIsRead(level);
    TagEnds(level, message);
    SpaceIsTrimmed(message);
  }

  lemma BracketIsRead(level: Level, message: string)
    ensures SplitLevel("[" + Tag(level) + "] " + message) ==
            Split(Some(level), Some(Tag(level)), TrimStart(message))
  {
    hide FromTag, Tag, TrimStart, Find, SplitBracketed;
    var tail := Tag(level) + "] " + message;
    assert "[" + Tag(level) + "] " + message == "[" + tail;
    BracketStays(tail);
    BracketedIsRead(level, message);
  }

  /** A line that starts with a timestamp and a space. */
  lemma TimestampIsRead(timestamp: string, body: string)
    requires LooksLikeTimestamp(timestamp)
    ensures Parse(timestamp + " " + body) ==
            var s := SplitLevel(TrimStart(body));
            LogLine(Some(timestamp), timestamp[11..], s.level, s.tag, s.message)
  {
    hide LooksLikeTime, TrimStart, SplitLevel;
    var line := timestamp + " " + body;
    assert |timestamp| == 19;
    assert line[..19] == timestamp && line[19..] == " " + body && line[11..19] == timestamp[11..];
    hide LooksLikeTimestamp;
    SpaceIsTrimmed(body);
  }

  /** Reading back a written line gives its timestamp, level and tag, and its
      message without leading white space, whatever the message is. */
  lemma WrittenLineIsRead(timestamp: string, level: Level, message: string)
    requires LooksLikeTimestamp(timestamp)
    ensures Parse(Format(timestamp, level, message)) ==
            LogLine(Some(timestamp), timestamp[11..], Some(level), Some(Tag(level)), TrimStart(message))
  {
    hide LooksLikeTimestamp, Parse, Tag, TrimStart, SplitLevel;
    var tail := Tag(level) + "] " + message;
    var body := "[" + Tag(level) + "] " + message;
    assert body == "[" + tail;
    assert Format(timestamp, level, message) == timestamp + " " + body;
    TimestampIsRead(timestamp, body);
    BracketStays(tail);
    BracketIsRead(level, message);
  }

  // ---- the form of a line ----

  /** The places of timestamp, level and message in a written line. */
  lemma FormatAnswers(timestamp: string, level: Level, message: string)
    requires LooksLikeTimestamp(timestamp)
    ensures var line := Format(timestamp, level, message);
            && |line| == 27 + |message|
            && line[..19] == timestamp && line[19..21] == " [" && line[25..27] == "] " && line[27..] == message
            && line[21..25] == match level
                               case Error => "ERRO" case Warn => "WARN" case Info => "INFO" case Debug => "DEBU" case Trace => "TRAC"
  {
    var line := Format(timestamp, level, message);
    assert |Tag(level)| == 4 && |timestamp| == 19;
    hide LooksLikeTimestamp;
    assert line == timestamp + (" [" + (Tag(level) + ("] " + message)));
  }

  /** The tags that stand for a level, in any case. */
  lemma TagAnswers(tag: string)
    ensures var t := LowerAll(tag);
            && (FromTag(tag) == Some(Error) <==> t in ["erro", "error", "fata", "fatal"])
            && (FromTag(tag) == Some(Warn) <==> t in ["warn", "warning"])
            && (FromTag(tag) == Some(Info) <==> t in ["info"])
            && (FromTag(tag) == Some(Debug) <==> t in ["debu", "debug"])
            && (FromTag(tag) == Some(Trace) <==> t in ["trac", "trace"])
  {
    hide LowerAll;
    var t := LowerAll(tag);
    var names := ["erro", "error", "fata", "fatal", "warn", "warning", "info", "debu", "debug", "trac", "trace"];
    assert forall i, j :: 0 <= i < j < |names| ==> names[i] != names[j];
  }

  predicate IsLetter(c: char) {
    'A' <= c <= 'Z' || 'a' <= c <= 'z'
  }

  lemma WordEnds(word: string, message: string)
    requires word != "" && forall i :: 0 <= i < |word| ==> IsLetter(word[i])
    ensures var rest := word + " " + message;
            && Find(rest, IsSpace) == |word| && rest[..|word|] == word && rest[|word| + 1..] == message
            && rest[0] != '[' && TrimStart(rest) == rest
  {
    var rest := word + " " + message;
    assert rest[|word|] == ' ';
    forall i | 0 <= i < |word| ensures !IsSpace(rest[i]) && rest[i] != '[' {
      assert rest[i] == word[i];
    }
  }

  /** An older line, with a time only and its level as a word. */
  lemma OlderLineIsRead(time: string, tag: string, message: string)
    requires LooksLikeTime(time) && FromTag(tag).Some?
    requires tag != "" && forall i :: 0 <= i < |tag| ==> IsLetter(tag[i])
    ensures Parse(time + " " + (tag + " " + message)) == LogLine(None, time, FromTag(tag), Some(tag), TrimStart(message))
  {
    hide FromTag, TrimStart, Find;
    var rest := tag + " " + message;
    WordEnds(tag, message);
    TimeIsRead(time, rest);
    assert SplitBracketed(rest) == None;
  }

  /** A line of the core, with a time only and its level in brackets. */
  lemma CoreLineIsRead(time: string, level: Level, message: string)
    requires LooksLikeTime(time)
    ensures Parse(time + " " + ("[" + Tag(level) + "] " + message)) ==
            LogLine(None, time, Some(level), Some(Tag(level)), TrimStart(message))
  {
    hide LooksLikeTime, Parse, Tag, TrimStart, SplitLevel;
    var tail := Tag(level) + "] " + message;
    assert "[" + Tag(level) + "] " + message == "[" + tail;
    TimeIsRead(time, "[" + tail);
    BracketStays(tail);
    BracketIsRead(level, message);
  }

  lemma TimeIsRead(time: string, body: string)
    requires LooksLikeTime(time)
    ensures Parse(time + " " + body) ==
            var s := SplitLevel(TrimStart(body));
            LogLine(None, time, s.level, s.tag, s.message)
  {
    hide TrimStart, SplitLevel;
    var line := time + " " + body;
    assert line[2] == time[2] == ':';
    assert |line| > 19 ==> line[..19][2] == ':' && !LooksLikeTimestamp(line[..19]);
    assert line[..8] == time && line[9..] == body;
  }

  /** A line that starts with neither a time nor a level is all message. */
  lemma PlainLineIsRead(line: string)
    requires |line| > 2 ==> !IsDigit(line[2]) && line[2] != ':'
    requires var rest := TrimStart(line); rest != "" ==> rest[0] != '[' && FromTag(rest[..Find(rest, IsSpace)]) == None
    ensures Parse(line) == LogLine(None, "", None, None, TrimStart(line))
  {
    hide TrimStart, FromTag, Find;
    assert |line| > 19 ==> line[..19][2] == line[2];
    assert |line| > 8 ==> line[..8][2] == line[2];
    assert FromTag("") == None by { NoTag(); }
    assert TrimStart(line) == "" ==> TrimStart(line)[..Find(TrimStart(line), IsSpace)] == "";
  }

  lemma NoTag()
    ensures FromTag("") == None
  {
    assert LowerAll("") == "";
  }

  /** A parsed record that is written again reads back as itself. */
  lemma ReadLineIsStable(timestamp: string, level: Level, message: string)
    requires LooksLikeTimestamp(timestamp)
    ensures var r := Parse(Format(timestamp, level, message));
            Parse(Format(timestamp, level, r.message)) == r
  {
    WrittenLineIsRead(timestamp, level, message);
    WrittenLineIsRead(timestamp, level, TrimStart(message));
    TrimTwice(message);
  }

  lemma {:induction false} TrimTwice(s: string)
    ensures TrimStart(TrimStart(s)) == TrimStart(s)
  {
    if s != [] && IsSpace(s[0]) {
      TrimTwice(s[1..]);
    }
  }
}
