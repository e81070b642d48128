/** The byte-level follower of a log file that may be rotated or truncated. */
module LogTail {
  import opened LogLines

  /** What a poll finds at the log path. */
  datatype Path = Missing | Present(inode: nat, content: seq<byte>)

  /** One poll: the path, and whether opening and reading would succeed. */
  datatype Look = Look(path: Path, openOk: bool, readOk: bool)

  datatype TailState = TailState(inode: nat, offset: nat, pending: seq<byte>)

  predicate Rotated(inode: nat, offset: nat, path: Path) {
    path.Missing? || path.inode != inode || |path.content| < offset
  }

  predicate Unreadable(inode: nat, offset: nat, look: Look) {
    look.path.Missing? || (Rotated(inode, offset, look.path) && !look.openOk)
  }

  datatype Polled = Polled(state: TailState, out: seq<seq<byte>>)

  /** One poll as a function of the follower's state. */
  function PollOnce(t: TailState, look: Look): Polled {
    if Unreadable(t.inode, t.offset, look) then Polled(t, [])
    else
      var now := if Rotated(t.inode, t.offset, look.path) then TailState(look.path.inode, 0, []) else t;
      if !look.readOk then Polled(now, [])
      else
        var pending := now.pending + look.path.content[now.offset..];
        Polled(TailState(now.inode, |look.path.content|, Unfinished(pending)), Lines(pending))
  }

  class Tail {
    var inode: nat
    var offset: nat
    var pending: seq<byte>

    function State(): TailState
      reads this
    {
      TailState(inode, offset, pending)
    }

    /** Start at `from`, or at the end of a shorter file. */
    constructor OpenAt(path: Path, from: nat)
      requires path.Present?
      ensures State() == Opened(path, from)
    {
      inode := path.inode;
      offset := if from < |path.content| then from else |path.content|;
      pending := [];
    }

    /** Read what was appended and hand out the lines it completes. */
    method Poll(look: Look) returns (out: seq<seq<byte>>)
      modifies this
      ensures Polled(State(), out) == PollOnce(old(State()), look)
    {
      var path := look.path;
      if Rotated(inode, offset, path) {
        if path.Missing? || !look.openOk {
          return [];
        }
        inode, offset, pending := path.inode, 0, [];
      }
      if !look.readOk {
        return [];
      }
      var buf := path.content[offset..];
      offset := offset + |buf|;
      pending := pending + buf;
      out, pending := Drain(pending);
    }
  }

  function Opened(path: Path, from: nat): TailState
    requires path.Present?
  {
    TailState(path.inode, if from < |path.content| then from else |path.content|, [])
  }

  // ---- the answers of one poll ----

  /** A poll that finds another file, or one that is shorter than what was read, starts
      over with the whole file; otherwise it reads on behind the offset. A missing path,
      or a new file that cannot be opened, gives nothing and changes nothing; a failed
      read gives nothing and keeps the place. */
  lemma PollAnswers(t: TailState, look: Look)
    ensures look.path == Missing ==> PollOnce(t, look) == Polled(t, [])
    ensures look.path.Present? ==>
              var i, c := look.path.inode, look.path.content;
              PollOnce(t, look) ==
              if i != t.inode || |c| < t.offset then
                if !look.openOk then Polled(t, [])
                else if !look.readOk then Polled(TailState(i, 0, []), [])
                else Polled(TailState(i, |c|, Unfinished(c)), Lines(c))
              else if !look.readOk then Polled(t, [])
              else Polled(TailState(t.inode, |c|, Unfinished(t.pending + c[t.offset..])), Lines(t.pending + c[t.offset..]))
  {
    hide Lines, Unfinished;
    if look.path.Present? {
      assert [] + look.path.content[0..] == look.path.content;
    }
  }

  /** A follower starts at the given place, or at the end of a shorter file. */
  lemma OpenedAnswers(inode: nat, content: seq<byte>, from: nat)
    ensures var t := Opened(Present(inode, content), from);
            && t.inode == inode && t.pending == []
            && t.offset <= from && t.offset <= |content| && (t.offset == from || t.offset == |content|)
  {
  }

  // ---- whole runs ----

  function Follow(t: TailState, looks: seq<Look>): Polled
    decreases looks
  {
    if looks == [] then Polled(t, [])
    else
      var first := PollOnce(t, looks[0]);
      var rest := Follow(first.state, looks[1..]);
      Polled(rest.state, first.out + rest.out)
  }

  /** The bytes read, one stretch for each file that was followed. No line is
      split and nothing is carried over: this is what the output has to match. */
  datatype Reading = Reading(inode: nat, offset: nat, past: seq<seq<byte>>, current: seq<byte>)

  function Record(r: Reading, look: Look): Reading {
    if Unreadable(r.inode, r.offset, look) then r
    else
      var now := if Rotated(r.inode, r.offset, look.path)
                 then Reading(look.path.inode, 0, r.past + [r.current], []) else r;
      if !look.readOk then now
      else now.(offset := |look.path.content|, current := now.current + look.path.content[now.offset..])
  }

  function Records(r: Reading, looks: seq<Look>): Reading
    decreases looks
  {
    if looks == [] then r else Records(Record(r, looks[0]), looks[1..])
  }

  function AllLines(streams: seq<seq<byte>>): seq<seq<byte>> {
    if streams == [] then [] else Lines(streams[0]) + AllLines(streams[1..])
  }

  /** All lines completed by the bytes read. */
  function Complete(r: Reading): seq<seq<byte>> {
    AllLines(r.past) + Lines(r.current)
  }

  predicate Matches(t: TailState, r: Reading) {
    t == TailState(r.inode, r.offset, Unfinished(r.current))
  }

  lemma {:induction false} AllLinesAppend(streams: seq<seq<byte>>, s: seq<byte>)
    ensures AllLines(streams + [s]) == AllLines(streams) + Lines(s)
  {
    if streams == [] {
      assert streams + [s] == [s] && [s][1..] == [];
    } else {
      assert (streams + [s])[1..] == streams[1..] + [s];
      AllLinesAppend(streams[1..], s);
    }
  }

  lemma PollMatches(t: TailState, r: Reading, look: Look)
    requires Matches(t, r)
    ensures Matches(PollOnce(t, look).state, Record(r, look))
    ensures Complete(Record(r, look)) == Complete(r) + PollOnce(t, look).out
  {
    hide Lines, Unfinished, AllLines;
    Drained([]);
    if !Unreadable(t.inode, t.offset, look) {
      var now := if Rotated(r.inode, r.offset, look.path)
                 then Reading(look.path.inode, 0, r.past + [r.current], []) else r;
      AllLinesAppend(r.past, r.current);
      assert Complete(now) == Complete(r);
      if look.readOk {
        LinesResume(now.current, look.path.content[now.offset..]);
        Assoc(AllLines(now.past), Lines(now.current), PollOnce(t, look).out);
      }
    }
  }

  /** Over any sequence of polls, with missing files, rotations, truncations and
      failed opens and reads in between, the output is exactly the complete lines
      of the bytes read, file by file, and `pending` the current unfinished one. */
  lemma {:induction false} FollowReportsCompleteLines(t: TailState, r: Reading, looks: seq<Look>)
    requires Matches(t, r)
    ensures Matches(Follow(t, looks).state, Records(r, looks))
    ensures Complete(Records(r, looks)) == Complete(r) + Follow(t, looks).out
    decreases looks
  {
    hide Complete, Matches, PollOnce, Record;
    if looks != [] {
      var first := PollOnce(t, looks[0]);
      PollMatches(t, r, looks[0]);
      FollowReportsCompleteLines(first.state, Record(r, looks[0]), looks[1..]);
      Assoc(Complete(r), first.out, Follow(first.state, looks[1..]).out);
    }
  }

  // ---- a file that only grows ----

  /** Successive looks at one file that is only appended to. */
  predicate Growing(inode: nat, content: seq<byte>, looks: seq<Look>)
    decreases looks
  {
    looks == [] ||
    (&& looks[0].path.Present? && looks[0].path.inode == inode && looks[0].readOk
     && content <= looks[0].path.content
     && Growing(inode, looks[0].path.content, looks[1..]))
  }

  function LastContent(content: seq<byte>, looks: seq<Look>): seq<byte>
    decreases looks
  {
    if looks == [] then content
    else LastContent(if looks[0].path.Present? then looks[0].path.content else content, looks[1..])
  }

  lemma {:induction false} GrowingReading(r: Reading, content: seq<byte>, looks: seq<Look>, from: nat)
    requires Growing(r.inode, content, looks) && r.offset == |content| && from <= |content|
    requires r.current == content[from..]
    ensures var final := LastContent(content, looks);
            from <= |final| && Records(r, looks) == r.(offset := |final|, current := final[from..])
    decreases looks
  {
    if looks != [] {
      var next := looks[0].path.content;
      assert content[from..] + next[|content|..] == next[from..];
      GrowingReading(Record(r, looks[0]), next, looks[1..], from);
    }
  }

  /** However the appends are split across polls, a follower opened at `from`
      reports the complete lines after the opening offset, no more and no less. */
  lemma ChunksDoNotMatter(path: Path, from: nat, looks: seq<Look>)
    requires path.Present? && Growing(path.inode, path.content, looks)
    ensures var start := Opened(path, from).offset;
            var final := LastContent(path.content[..start], looks);
            && start <= |final|
            && Follow(Opened(path, from), looks) ==
               Polled(TailState(path.inode, |final|, Unfinished(final[start..])), Lines(final[start..]))
  {
    hide Lines, Unfinished, Follow, Records;
    Drained([]);
    var t := Opened(path, from);
    var read := path.content[..t.offset];
    var r := Reading(path.inode, t.offset, [], []);
    FollowReportsCompleteLines(t, r, looks);
    assert looks != [] ==> read <= looks[0].path.content;
    assert read[t.offset..] == [];
    GrowingReading(r, read, looks, t.offset);
    assert Complete(r) == [];
    assert Complete(Records(r, looks)) == Lines(LastContent(read, looks)[t.offset..]);
    assert Complete(r) + Follow(t, looks).out == Follow(t, looks).out;
  }

  /** Two schedules that end with the same file report the same lines. */
  lemma AnyTwoSchedulesAgree(path: Path, from: nat, a: seq<Look>, b: seq<Look>)
    requires path.Present? && a != [] && b != []
    requires Growing(path.inode, path.content, a) && Growing(path.inode, path.content, b)
    requires a[|a| - 1].path == b[|b| - 1].path
    ensures Follow(Opened(path, from), a) == Follow(Opened(path, from), b)
  {
    ChunksDoNotMatter(path, from, a);
    ChunksDoNotMatter(path, from, b);
    LastLook(path.content[..Opened(path, from).offset], a);
    LastLook(path.content[..Opened(path, from).offset], b);
    GrowingEndsPresent(path.inode, path.content, a);
  }

  lemma {:induction false} LastLook(content: seq<byte>, looks: seq<Look>)
    requires looks != []
    ensures looks[|looks| - 1].path.Present? ==> LastContent(content, looks) == looks[|looks| - 1].path.content
    decreases looks
  {
    if |looks| > 1 {
      LastLook(if looks[0].path.Present? then looks[0].path.content else content, looks[1..]);
    }
  }

  lemma {:induction false} GrowingEndsPresent(inode: nat, content: seq<byte>, looks: seq<Look>)
    requires looks != [] && Growing(inode, content, looks)
    ensures looks[|looks| - 1].path.Present?
    decreases looks
  {
    if |looks| > 1 {
      GrowingEndsPresent(inode, looks[0].path.content, looks[1..]);
    }
  }
}
