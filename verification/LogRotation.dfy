/** The two-file log of the terminal client: appends go to the current file, which
    becomes the backup when it reaches the size cap. Renaming and reopening may
    fail at any time. */
module LogRotation {
  import opened Profiles
  import opened LogLines

  const MAX_LOG_BYTES: nat := 10 * 1024 * 1024

  /** One formatted record, line end included. */
  type Line = seq<byte>

  /** Which file the open descriptor refers to. */
  datatype Handle = ToCurrent | ToBackup

  datatype Log = Log(current: Option<seq<Line>>, backup: Option<seq<Line>>, handle: Handle, written: nat, degraded: bool)

  /** What the file system does during one write. */
  datatype Luck = Luck(reopenOk: bool, writeOk: bool, renameOk: bool, openOk: bool)

  function Bytes(lines: seq<Line>): nat {
    if lines == [] then 0 else Bytes(lines[..|lines| - 1]) + |lines[|lines| - 1]|
  }

  function Stored(file: Option<seq<Line>>): seq<Line> {
    if file.Some? then file.value else []
  }

  /** Everything that can still be read: backup, then current. */
  function Contents(l: Log): seq<Line> {
    Stored(l.backup) + Stored(l.current)
  }

  /** A degraded log has lost its current file and appends to the backup; the
      byte counter is the size of the file behind the descriptor. */
  predicate Valid(l: Log) {
    && (l.degraded <==> l.handle == ToBackup)
    && (if l.degraded then l.backup.Some? && l.current.None? else l.current.Some?)
    && l.written == Bytes(Stored(if l.degraded then l.backup else l.current))
  }

  function Rotate(l: Log, luck: Luck): Log {
    if l.degraded || !luck.renameOk then l
    else if luck.openOk then Log(Some([]), l.current, ToCurrent, 0, false)
    else Log(None, l.current, ToBackup, l.written, true)
  }

  function Append(l: Log, line: Line): Log {
    match l.handle
    case ToCurrent => l.(current := Some(Stored(l.current) + [line]), written := l.written + |line|)
    case ToBackup => l.(backup := Some(Stored(l.backup) + [line]), written := l.written + |line|)
  }

  function Reopen(l: Log, luck: Luck): Log {
    if l.degraded && luck.reopenOk
    then Log(Some(Stored(l.current)), l.backup, ToCurrent, Bytes(Stored(l.current)), false)
    else l
  }

  function Write(l: Log, line: Line, luck: Luck): Log {
    var reopened := Reopen(l, luck);
    if !luck.writeOk then reopened
    else
      var appended := Append(reopened, line);
      if appended.written >= MAX_LOG_BYTES then Rotate(appended, luck) else appended
  }

  class FileLogger {
    var current: Option<seq<Line>>
    var backup: Option<seq<Line>>
    var handle: Handle
    var written: nat
    var degraded: bool

    function State(): Log
      reads this
    {
      Log(current, backup, handle, written, degraded)
    }

    /** Append to what is already in the log file. */
    constructor (found: seq<Line>, older: Option<seq<Line>>)
      ensures State() == Log(Some(found), older, ToCurrent, Bytes(found), false) && Valid(State())
    {
      current, backup, handle, written, degraded := Some(found), older, ToCurrent, Bytes(found), false;
    }

    method WriteLocked(line: Line, luck: Luck)
      modifies this
      ensures State() == Write(old(State()), line, luck)
    {
      if degraded && luck.reopenOk {
        if current.None? {
          current := Some([]);
        }
        handle, written, degraded := ToCurrent, Bytes(Stored(current)), false;
      }
      if !luck.writeOk {
        return;
      }
      if handle == ToCurrent {
        current := Some(Stored(current) + [line]);
      } else {
        backup := Some(Stored(backup) + [line]);
      }
      written := written + |line|;
      if written >= MAX_LOG_BYTES {
        RotateFiles(luck);
      }
    }

    method RotateFiles(luck: Luck)
      modifies this
      ensures State() == Rotate(old(State()), luck)
    {
      if degraded || !luck.renameOk {
        return;
      }
      backup, current, handle := current, None, ToBackup;
      if luck.openOk {
        current, handle, written, degraded := Some([]), ToCurrent, 0, false;
      } else {
        degraded := true;
      }
    }
  }

  // ---- the answers of one write ----

  /** The files after one write: the record goes to the end of the current file, which
      turns into the backup when it has reached the cap; a log that lost its current file
      is reopened first if possible, and appends to the backup otherwise. A failed rename
      leaves the file where it is; a failed open leaves the log without a current file. */
  lemma WriteAnswers(l: Log, line: Line, luck: Luck)
    requires Valid(l)
    ensures var r := Write(l, line, luck);
            var file := if l.current.Some? then l.current.value + [line] else [line];
            if l.degraded && !luck.reopenOk then
              && r.degraded && r.current == None
              && r.backup == if luck.writeOk then Some(l.backup.value + [line]) else l.backup
            else if !luck.writeOk then
              !r.degraded && r.backup == l.backup && r.current == if l.degraded then Some([]) else l.current
            else if Bytes(file) < 10_485_760 || !luck.renameOk then
              !r.degraded && r.backup == l.backup && r.current == Some(file)
            else
              && r.backup == Some(file) && r.degraded == !luck.openOk
              && r.current == if luck.openOk then Some([]) else None
  {
    hide Bytes;
    BytesOfOneMore(Stored(l.current), line);
    assert [] + [line] == [line];
    assert l.degraded ==> Stored(l.current) == [];
  }

  lemma BytesOfOneMore(lines: seq<Line>, line: Line)
    ensures Bytes(lines + [line]) == Bytes(lines) + |line| && Bytes([]) == 0
  {
    assert (lines + [line])[..|lines|] == lines;
  }

  // ---- whole runs ----

  datatype Attempt = Attempt(line: Line, luck: Luck)

  function WriteAll(l: Log, attempts: seq<Attempt>): Log
    decreases attempts
  {
    if attempts == [] then l else WriteAll(Write(l, attempts[0].line, attempts[0].luck), attempts[1..])
  }

  /** The records that were really written. */
  function Recorded(attempts: seq<Attempt>): seq<Line> {
    if attempts == [] then []
    else if attempts[0].luck.writeOk then [attempts[0].line] + Recorded(attempts[1..])
    else Recorded(attempts[1..])
  }

  /** `kept` is the newest part of `all`; if anything is missing, at least a full
      log file is kept. */
  ghost predicate NewestOf(kept: seq<Line>, all: seq<Line>) {
    exists k :: 0 <= k <= |all| && kept == all[k..] && (k > 0 ==> Bytes(kept) >= MAX_LOG_BYTES)
  }

  lemma {:induction false} BytesConcat(a: seq<Line>, b: seq<Line>)
    ensures Bytes(a + b) == Bytes(a) + Bytes(b)
  {
    if b == [] {
      assert a + b == a;
    } else {
      assert (a + b)[..|a + b| - 1] == a + b[..|b| - 1];
      BytesConcat(a, b[..|b| - 1]);
    }
  }

  lemma WriteKeepsValid(l: Log, line: Line, luck: Luck)
    requires Valid(l)
    ensures Valid(Write(l, line, luck))
  {
  }

  /** Appending goes to the end of the readable records, wherever it is filed. */
  lemma AppendKeepsNewest(l: Log, line: Line, all: seq<Line>)
    requires Valid(l) && NewestOf(Contents(l), all)
    ensures NewestOf(Contents(Append(l, line)), all + [line])
  {
    hide Bytes;
    var k :| 0 <= k <= |all| && Contents(l) == all[k..] && (k > 0 ==> Bytes(Contents(l)) >= MAX_LOG_BYTES);
    AppendIsLast(l, line);
    hide Contents, Append, Stored;
    assert all[k..] + [line] == (all + [line])[k..];
    BytesConcat(Contents(l), [line]);
  }

  lemma AppendIsLast(l: Log, line: Line)
    requires Valid(l)
    ensures Contents(Append(l, line)) == Contents(l) + [line]
  {
    hide Bytes;
    Assoc(Stored(l.backup), Stored(l.current), [line]);
    assert l.degraded ==> Stored(l.current) == [];
  }

  /** One write adds its record at the end and drops nothing but an old backup,
      which it does only when a full file remains. */
  lemma WriteKeepsNewest(l: Log, line: Line, luck: Luck, all: seq<Line>)
    requires Valid(l) && NewestOf(Contents(l), all)
    ensures NewestOf(Contents(Write(l, line, luck)), if luck.writeOk then all + [line] else all)
  {
    var reopened := Reopen(l, luck);
    assert Valid(reopened) && Contents(reopened) == Contents(l);
    if luck.writeOk {
      var appended := Append(reopened, line);
      AppendKeepsNewest(reopened, line, all);
      AppendKeepsValid(reopened, line);
      hide NewestOf, Contents, Reopen, Append, Rotate;
      if appended.written >= MAX_LOG_BYTES {
        RotateKeepsNewest(appended, luck, all + [line]);
      }
    }
  }

  lemma AppendKeepsValid(l: Log, line: Line)
    requires Valid(l)
    ensures Valid(Append(l, line))
  {
  }

  lemma RotateKeepsNewest(l: Log, luck: Luck, all: seq<Line>)
    requires Valid(l) && l.written >= MAX_LOG_BYTES
    requires NewestOf(Contents(l), all)
    ensures NewestOf(Contents(Rotate(l, luck)), all)
  {
    if !l.degraded && luck.renameOk {
      var k :| 0 <= k <= |all| && Contents(l) == all[k..];
      CutFront(all, k, Stored(l.backup), Stored(l.current));
      hide Bytes;
      assert Contents(Rotate(l, luck)) == Stored(l.current);
    }
  }

  lemma CutFront(all: seq<Line>, k: nat, gone: seq<Line>, kept: seq<Line>)
    requires k <= |all| && gone + kept == all[k..]
    ensures k + |gone| <= |all| && kept == all[k + |gone|..]
  {
  }

  /** For every sequence of writes, with renames and reopens failing anywhere,
      backup and current together are the newest part of everything recorded,
      and if something is gone at least a full log file of it is left. */
  lemma {:induction false} LogKeepsNewest(l: Log, attempts: seq<Attempt>, all: seq<Line>)
    requires Valid(l) && NewestOf(Contents(l), all)
    ensures Valid(WriteAll(l, attempts))
    ensures NewestOf(Contents(WriteAll(l, attempts)), all + Recorded(attempts))
    decreases attempts
  {
    hide Write, NewestOf, Valid, Contents;
    if attempts == [] {
      assert all + Recorded(attempts) == all;
    } else {
      var a, rest := attempts[0], Recorded(attempts[1..]);
      var more := if a.luck.writeOk then all + [a.line] else all;
      WriteKeepsValid(l, a.line, a.luck);
      WriteKeepsNewest(l, a.line, a.luck, all);
      LogKeepsNewest(Write(l, a.line, a.luck), attempts[1..], more);
      Assoc(all, [a.line], rest);
    }
  }

  lemma NewestIncludesLast(kept: seq<Line>, all: seq<Line>)
    requires NewestOf(kept, all) && all != []
    ensures kept != [] && kept[|kept| - 1] == all[|all| - 1]
  {
  }

  /** The newest record is never lost. */
  lemma NewestRecordIsKept(l: Log, attempts: seq<Attempt>)
    requires Valid(l)
    ensures var all, kept := Contents(l) + Recorded(attempts), Contents(WriteAll(l, attempts));
            all != [] ==> kept != [] && kept[|kept| - 1] == all[|all| - 1]
  {
    hide Contents, WriteAll, Valid, Recorded;
    var all := Contents(l);
    assert all == all[0..];
    assert NewestOf(all, all);
    LogKeepsNewest(l, attempts, all);
    if all + Recorded(attempts) != [] {
      NewestIncludesLast(Contents(WriteAll(l, attempts)), all + Recorded(attempts));
    }
  }

  /** As long as nothing fails, the current file is below the cap after each write. */
  lemma {:induction false} CurrentStaysBelowCap(l: Log, attempts: seq<Attempt>)
    requires Valid(l) && !l.degraded && attempts != []
    requires forall a :: a in attempts ==> a.luck == Luck(true, true, true, true)
    ensures var after := WriteAll(l, attempts);
            !after.degraded && after.current.Some? && Bytes(after.current.value) < MAX_LOG_BYTES
    decreases attempts
  {
    var a := attempts[0];
    assert a in attempts;
    WriteKeepsValid(l, a.line, a.luck);
    if |attempts| > 1 {
      assert forall b :: b in attempts[1..] ==> b in attempts;
      CurrentStaysBelowCap(Write(l, a.line, a.luck), attempts[1..]);
    } else {
      assert attempts[1..] == [];
    }
  }
}
