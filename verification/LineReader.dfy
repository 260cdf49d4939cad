/** The cancel-safe line reader: a task cuts the source into `\n`-terminated lines and
queues them; `poll_read` serves the queued lines in pieces of any size. */
module LineReader {
  import opened Options
  import opened Sequences

  const NEWLINE: Byte := 10
  const MAX_LINE_SIZE: nat := 64 * 1024 * 1024

  /** The queue holds 64 messages plus one slot of the sender. */
  const CAPACITY: nat := 65

  // ---------- Lines of a byte string ----------

  /** Length of the first line, its newline included; everything if there is none. */
  function LineLen(s: Bytes): (n: nat)
    ensures n <= |s| && (s != [] ==> n > 0)
  {
    if s == [] then 0 else if s[0] == NEWLINE then 1 else 1 + LineLen(s[1..])
  }

  predicate NoNewline(s: Bytes) { forall k | 0 <= k < |s| :: s[k] != NEWLINE }

  /** A newline can only be the last byte of a line. */
  lemma {:induction false} LineShape(s: Bytes)
    ensures var n := LineLen(s);
            (n > 0 ==> NoNewline(s[..n - 1])) && (n < |s| ==> n > 0 && s[n - 1] == NEWLINE)
  {
    if s != [] && s[0] != NEWLINE {
      LineShape(s[1..]);
      var m := LineLen(s[1..]);
      assert forall k | 0 < k < m :: s[k] == s[1..][..m - 1][k - 1];
      assert m < |s[1..]| ==> s[1..][m - 1] == s[m];
    }
  }

  /** No line is over the cap. */
  predicate WithinCap(s: Bytes)
    decreases |s|
  {
    s == [] || (LineLen(s) <= MAX_LINE_SIZE && WithinCap(s[LineLen(s)..]))
  }

  /** The bytes of one line, or a piece of one: only the last byte can be a newline. */
  predicate LinePiece(s: Bytes) {
    |s| <= MAX_LINE_SIZE && (s != [] ==> NoNewline(s[..|s| - 1]))
  }

  /** `part` consists of whole lines at the front of `whole`. */
  predicate WholeLines(part: Bytes, whole: Bytes) {
    part <= whole && (part == [] || part[|part| - 1] == NEWLINE || part == whole)
  }

  // ---------- The queue ----------

  datatype Message = Line(bytes: Bytes) | TooLong

  datatype Poll = Pending | Data(bytes: Bytes) | Error

  /** The bytes queued, in order. */
  function Payload(rx: seq<Message>): Bytes {
    if rx == [] then [] else (if rx[0].Line? then rx[0].bytes else []) + Payload(rx[1..])
  }

  /** Lines one after the other; only the last can lack its newline, if nothing follows,
      and only an error can be behind it. */
  predicate Queue(rx: seq<Message>, ahead: Bytes, failed: bool) {
    rx == [] ||
    match rx[0]
    case TooLong => |rx| == 1 && failed
    case Line(l) =>
      && l != []
      && LinePiece(l)
      && (l[|l| - 1] == NEWLINE || (|rx| == 1 && ahead == [] && !failed))
      && Queue(rx[1..], ahead, failed)
  }

  lemma {:induction false} QueueLine(rx: seq<Message>, ahead: Bytes, rest: Bytes, l: Bytes)
    requires Queue(rx, ahead, false) && ahead == l + rest && l != [] && LinePiece(l)
    requires l[|l| - 1] == NEWLINE || rest == []
    ensures Queue(rx + [Line(l)], rest, false)
    ensures Payload(rx + [Line(l)]) == Payload(rx) + l
  {
    if rx == [] {
      assert rx + [Line(l)] == [Line(l)] && [Line(l)][1..] == [];
      assert Payload([Line(l)]) == l + Payload([]);
    } else {
      assert (rx + [Line(l)])[1..] == rx[1..] + [Line(l)];
      QueueLine(rx[1..], ahead, rest, l);
    }
  }

  lemma {:induction false} QueueError(rx: seq<Message>, ahead: Bytes)
    requires Queue(rx, ahead, false) && ahead != []
    ensures Queue(rx + [TooLong], ahead, true)
    ensures Payload(rx + [TooLong]) == Payload(rx)
  {
    if rx == [] {
      assert rx + [TooLong] == [TooLong] && [TooLong][1..] == [];
      assert Payload([TooLong]) == [] + Payload([]);
    } else {
      assert (rx + [TooLong])[1..] == rx[1..] + [TooLong];
      QueueError(rx[1..], ahead);
    }
  }

  lemma NothingBehindTheLast(s: Bytes)
    requires s != [] && LineLen(s) <= MAX_LINE_SIZE
    ensures var l := s[..LineLen(s)];
            LinePiece(l) && l != [] && (l[|l| - 1] == NEWLINE || s[LineLen(s)..] == [])
  {
    LineShape(s);
    var n := LineLen(s);
    assert s[..n][..n - 1] == s[..n - 1];
  }

  // ---------- The pipeline ----------

  class LineBufferedRead {
    // the reader task
    var unread: Bytes
    var finished: bool
    // the channel
    var rx: seq<Message>
    // the reader
    var buf: Bytes
    var pos: nat

    ghost const source: Bytes
    ghost var delivered: Bytes
    /** What the reader has taken from the channel. */
    ghost var taken: Bytes
    /** What the reader task has not put into the channel. */
    ghost var ahead: Bytes
    ghost var failed: bool

    /** Delivered, at hand, queued and still ahead: together always the source, in order. */
    ghost predicate Valid()
      reads this
    {
      && pos <= |buf|
      && taken == delivered + buf[pos..]
      && LinePiece(buf[pos..])
      && source == taken + Payload(rx) + ahead
      && WholeLines(taken, source)
      && Queue(rx, ahead, failed)
      && (WithinCap(source) <==> WithinCap(ahead))
      && (!finished ==> unread == ahead && !failed)
      && (finished && !failed ==> ahead == [])
      && (failed ==> finished && LineLen(ahead) > MAX_LINE_SIZE)
    }

    /** What is left to do: three steps for a byte still to be read, one for every byte at
        hand or queued and for every message, and one to notice the end. */
    ghost function Work(): nat
      reads this
      requires pos <= |buf|
    {
      (if finished then 0 else 1 + 3 * |ahead|) + |Payload(rx)| + |rx| + (|buf| - pos)
    }

    constructor (source: Bytes)
      ensures Valid() && this.source == source && delivered == [] && rx == [] && !finished
      ensures Work() == 3 * |source| + 1
    {
      this.source, unread, ahead := source, source, source;
      finished, rx, buf, pos := false, [], [], 0;
      delivered, taken, failed := [], [], false;
    }

    /** Read one line, whatever the sizes in which the source hands out its bytes.  The
        cap is tested after each chunk, so that memory stays bounded. */
    method ReadLineCapped() returns (r: Message)
      modifies this`unread
      ensures var n := LineLen(old(unread));
              if n > MAX_LINE_SIZE then r == TooLong
              else r == Line(old(unread)[..n]) && unread == old(unread)[n..]
    {
      var line: Bytes := [];
      while unread != []
        invariant old(unread) == line + unread
        invariant NoNewline(line) && |line| <= MAX_LINE_SIZE
        decreases |unread|
      {
        var size :| 1 <= size <= |unread|;  // the chunk that is available now
        var available := unread[..size];
        var consumed := LineLen(available);
        var done := available[consumed - 1] == NEWLINE;
        LineOfChunk(line, unread, size);
        line := line + available[..consumed];
        unread := unread[consumed..];
        if |line| > MAX_LINE_SIZE {
          return TooLong;
        }
        if done {
          return Line(line);
        }
      }
      LineWithoutNewline(line);
      assert line + unread == line;
      return Line(line);
    }

    /** One round of the reader task: queue a line, or an error, or end. */
    method ReaderStep()
      requires Valid() && !finished && |rx| < CAPACITY
      modifies this`unread, this`finished, this`rx, this`ahead, this`failed
      ensures Valid()
      ensures |rx| <= CAPACITY && Work() < old(Work())
      ensures var n := LineLen(old(ahead));
              if old(ahead) == [] then finished && rx == old(rx)
              else if n > MAX_LINE_SIZE then failed && rx == old(rx) + [TooLong]
              else !finished && rx == old(rx) + [Line(old(ahead)[..n])] && ahead == old(ahead)[n..]
    {
      hide Queue, Payload, WholeLines, LinePiece, WithinCap;
      var r := ReadLineCapped();
      if r.TooLong? {
        QueueError(rx, ahead);
        rx := rx + [TooLong];
        finished, failed := true, true;
      } else if r.bytes == [] {
        finished := true;
      } else {
        LineQueued(taken, rx, ahead, source);
        rx := rx + [r];
        ahead := unread;
      }
    }

    /** Serve from the line at hand. */
    method ServeBuffered(size: nat) returns (bytes: Bytes)
      requires Valid() && pos < |buf|
      modifies this`buf, this`pos, this`delivered
      ensures Valid()
      ensures delivered == old(delivered) + bytes && LinePiece(bytes)
      ensures |bytes| == if old(|buf| - pos) < size then old(|buf| - pos) else size
      ensures |buf| - pos == old(|buf| - pos) - |bytes| && pos <= |buf|
    {
      ghost var rest := buf[pos..];
      var n := if |buf| - pos < size then |buf| - pos else size;
      bytes := buf[pos..pos + n];
      assert bytes == rest[..n];
      Split(delivered, rest, n);
      pos := pos + n;
      delivered := delivered + bytes;
      assert buf[pos..] == rest[n..];
      if pos >= |buf| {
        buf, pos := [], 0;
        assert buf[pos..] == rest[n..];
      }
    }

    /** Serve the rest of the current line, or take the next one from the channel. */
    method PollRead(size: nat) returns (r: Poll)
      requires Valid()
      modifies this`buf, this`pos, this`rx, this`delivered, this`taken
      ensures Valid()
      ensures r.Data? ==> delivered == old(delivered) + r.bytes && |r.bytes| <= size && LinePiece(r.bytes)
      ensures !r.Data? ==> delivered == old(delivered)
      // the reader is left waiting only between lines, and only while the reader task runs
      ensures r.Pending? ==> WholeLines(delivered, source) && !finished
      // and then the reader task has room to run
      ensures r.Pending? ==> rx == [] && pos == |buf|
      // a read into a non-empty buffer gets something done, unless it waits or is the end
      ensures size > 0 && !r.Pending? && r != Data([]) ==> Work() < old(Work())
      ensures Work() <= old(Work())
      ensures Work() == old(Work()) ==> rx == old(rx) && |buf| - pos == old(|buf| - pos)
      // an empty read into a non-empty buffer is the end of the stream
      ensures r == Data([]) && size > 0 ==> finished && (failed || delivered == source)
      // the error is reported behind the last line before the long one
      ensures r.Error? ==> source == delivered + ahead && WholeLines(delivered, source) && LineLen(ahead) > MAX_LINE_SIZE
    {
      hide WithinCap;
      if pos < |buf| {
        var bytes := ServeBuffered(size);
        return Data(bytes);
      }
      assert delivered + buf[pos..] == delivered;
      if rx == [] {
        if finished {
          return Data([]);
        }
        return Pending;
      }
      var first := rx[0];
      if first.TooLong? {
        assert rx[1..] == [];
        rx := rx[1..];
        return Error;
      }
      var bytes := ServeNext(size);
      return Data(bytes);
    }

    /** Every complete round has got something done; and if the current one has not yet,
        then the task was out of work when it had its turn, and the reader waits. */
    ghost predicate OnTime(t: Turns)
      reads this
      requires pos <= |buf|
    {
      && Work() + t.rounds <= 3 * |source| + 1
      && (Work() + t.rounds == 3 * |source| + 1 ==>
            && (t.ran ==> finished || |rx| >= CAPACITY)
            && (t.polled ==> !finished && rx == [] && pos == |buf|))
    }

    /** One operation of a schedule. */
    method Perform(op: Op, ghost t: Turns) returns (bytes: Bytes, end: bool)
      requires Valid()
      modifies this`unread, this`finished, this`rx, this`ahead, this`failed, this`buf, this`pos, this`delivered, this`taken
      ensures Valid() && delivered == old(delivered) + bytes
      ensures if WithinCap(source) then end ==> delivered == source else delivered != source
      ensures old(OnTime(t)) ==> end || OnTime(Took(t, op))
    {
      hide Queue, Payload, WholeLines, LinePiece, LineLen;
      bytes, end := [], false;
      match op
      case RunTask =>
        if !finished && |rx| < CAPACITY {
          ReaderStep();
        }
      case PollWith(size) =>
        var r := PollRead(size);
        if r.Data? {
          bytes := r.bytes;
          end := bytes == [] && size > 0;
        }
    }

    /** Serve from the next line of the channel, and stash what does not fit. */
    method ServeNext(size: nat) returns (bytes: Bytes)
      requires Valid() && pos == |buf| && rx != [] && rx[0].Line?
      modifies this`buf, this`pos, this`rx, this`delivered, this`taken
      ensures Valid()
      ensures rx == old(rx)[1..]
      ensures delivered == old(delivered) + bytes && LinePiece(bytes)
      ensures |bytes| == if |old(rx)[0].bytes| < size then |old(rx)[0].bytes| else size
      ensures |buf| - pos == |old(rx)[0].bytes| - |bytes|
    {
      hide WithinCap, LineLen, Queue, Payload, WholeLines, LinePiece;
      var line := rx[0].bytes;
      var n := if |line| < size then |line| else size;
      bytes := line[..n];
      assert buf[pos..] == [] && delivered + [] == taken;
      NextServed(taken, rx, ahead, failed, source, n);
      rx := rx[1..];
      taken := taken + line;
      delivered := delivered + bytes;
      Stash(line, n);
    }

    /** Keep what did not fit. */
    method Stash(line: Bytes, n: nat)
      requires pos == |buf| && n <= |line|
      modifies this`buf, this`pos
      ensures pos <= |buf| && buf[pos..] == line[n..]
    {
      if n < |line| {
        buf, pos := line, n;
      }
    }
  }

  lemma Regroup(a: Bytes, b: Bytes, c: Bytes, d: Bytes)
    ensures a + b + (c + d) == a + (b + c) + d
  {
  }

  /** Queueing the next line keeps the account of the source. */
  lemma {:induction false} LineQueued(taken: Bytes, rx: seq<Message>, ahead: Bytes, source: Bytes)
    requires Queue(rx, ahead, false) && source == taken + Payload(rx) + ahead
    requires ahead != [] && LineLen(ahead) <= MAX_LINE_SIZE
    ensures var l, rest := ahead[..LineLen(ahead)], ahead[LineLen(ahead)..];
            && Queue(rx + [Line(l)], rest, false) && source == taken + Payload(rx + [Line(l)]) + rest
            && |Payload(rx + [Line(l)])| == |Payload(rx)| + |l|
            && (WithinCap(ahead) <==> WithinCap(rest))
  {
    var n := LineLen(ahead);
    var l, rest := ahead[..n], ahead[n..];
    NothingBehindTheLast(ahead);
    SplitAt(ahead, n);
    QueueLine(rx, ahead, rest, l);
    Regroup(taken, Payload(rx), l, rest);
  }

  lemma Regroup2(a: Bytes, b: Bytes, c: Bytes, d: Bytes)
    ensures a + (b + c) + d == (a + b) + c + d
    ensures a + (b + c) + d == (a + b) + (c + d)
  {
  }

  /** Delivering the front of a piece. */
  lemma Split(delivered: Bytes, piece: Bytes, n: nat)
    requires n <= |piece| && LinePiece(piece)
    ensures delivered + piece[..n] + piece[n..] == delivered + piece
    ensures LinePiece(piece[..n]) && LinePiece(piece[n..])
  {
    if 0 < n {
      assert forall k | 0 <= k < n - 1 :: piece[..n][k] == piece[..|piece| - 1][k];
    }
    if n < |piece| {
      assert forall k | 0 <= k < |piece| - n - 1 :: piece[n..][k] == piece[..|piece| - 1][k + n];
    }
  }

  /** Taking a line from the channel keeps the account of the source. */
  lemma {:induction false} NextLine(taken: Bytes, rx: seq<Message>, ahead: Bytes, failed: bool, source: Bytes)
    requires rx != [] && rx[0].Line? && Queue(rx, ahead, failed)
    requires source == taken + Payload(rx) + ahead
    ensures var d := taken + rx[0].bytes;
            source == d + Payload(rx[1..]) + ahead && WholeLines(d, source)
  {
    var d := taken + rx[0].bytes;
    Regroup2(taken, rx[0].bytes, Payload(rx[1..]), ahead);
    assert source == d + (Payload(rx[1..]) + ahead);
    if |rx| == 1 && ahead == [] {
      assert Payload(rx[1..]) == [];
      assert d == source;
    }
  }

  lemma {:induction false} NextServed(taken: Bytes, rx: seq<Message>, ahead: Bytes, failed: bool, source: Bytes, n: nat)
    requires rx != [] && rx[0].Line? && Queue(rx, ahead, failed) && n <= |rx[0].bytes|
    requires source == taken + Payload(rx) + ahead
    ensures var line := rx[0].bytes;
            && taken + line == taken + line[..n] + line[n..] && LinePiece(line[..n]) && LinePiece(line[n..])
            && source == taken + line + Payload(rx[1..]) + ahead && WholeLines(taken + line, source)
            && Queue(rx[1..], ahead, failed) && |Payload(rx)| == |line| + |Payload(rx[1..])|
  {
    NextLine(taken, rx, ahead, failed, source);
    Split(taken, rx[0].bytes, n);
  }

  /** Extending a newline-free line by the next chunk stays within the same line of the source. */
  lemma LineOfChunk(line: Bytes, unread: Bytes, size: nat)
    requires NoNewline(line) && 1 <= size <= |unread|
    ensures var consumed := LineLen(unread[..size]);
            var more := line + unread[..size][..consumed];
            && consumed > 0
            && (if unread[..size][consumed - 1] == NEWLINE then LineLen(line + unread) == |more|
                else NoNewline(more) && LineLen(line + unread) >= |more|)
            && more + unread[consumed..] == line + unread
  {
    var chunk := unread[..size];
    var consumed := LineLen(chunk);
    LineShape(chunk);
    var more := line + chunk[..consumed];
    assert more + unread[consumed..] == line + unread;
    if chunk[consumed - 1] == NEWLINE {
      var head := line + chunk[..consumed - 1];
      assert line + unread == head + ([NEWLINE] + unread[consumed..]);
      LineAfter(head, [NEWLINE] + unread[consumed..]);
    } else {
      LineAfter(more, unread[consumed..]);
    }
  }

  lemma {:induction false} LineAfter(a: Bytes, b: Bytes)
    requires NoNewline(a)
    ensures LineLen(a + b) == |a| + LineLen(b)
  {
    if a == [] {
      assert a + b == b;
    } else {
      assert (a + b)[1..] == a[1..] + b;
      LineAfter(a[1..], b);
    }
  }

  lemma LineWithoutNewline(s: Bytes)
    requires NoNewline(s)
    ensures LineLen(s) == |s|
  {
    LineAfter(s, []);
    assert s + [] == s;
  }

  // ---------- Any schedule ----------

  /** Let the reader task run once, or poll with a buffer of the given size. */
  datatype Op = RunTask | PollWith(size: nat)

  /** A scan of a schedule for rounds that give both the reader task and the reader a turn. */
  datatype Turns = Turns(ran: bool, polled: bool, rounds: nat)

  function Took(t: Turns, op: Op): Turns {
    var ran, polled := t.ran || op.RunTask?, t.polled || (op.PollWith? && op.size > 0);
    if ran && polled then Turns(false, false, t.rounds + 1) else Turns(ran, polled, t.rounds)
  }

  function TurnsOf(schedule: seq<Op>): Turns {
    if schedule == [] then Turns(false, false, 0)
    else Took(TurnsOf(schedule[..|schedule| - 1]), schedule[|schedule| - 1])
  }

  /** Under every schedule of the reader task and the polls, the bytes delivered are a prefix
      of the source; once a read into a non-empty buffer has returned nothing they are all
      of it if and only if no line exceeds the cap; and that happens within `3 |source| + 2`
      rounds in which both have a turn, whatever the order and the sizes. */
  method Serve(source: Bytes, schedule: seq<Op>) returns (out: Bytes, ended: bool)
    ensures out <= source
    ensures ended ==> (out == source <==> WithinCap(source))
    ensures TurnsOf(schedule).rounds >= 3 * |source| + 2 ==> ended
  {
    hide Queue, Payload, WholeLines, LinePiece, LineLen, WithinCap;
    var reader := new LineBufferedRead(source);
    out, ended := [], false;
    assert schedule[..0] == [];
    for i := 0 to |schedule|
      invariant reader.Valid() && fresh(reader) && reader.source == source
      invariant out == reader.delivered && out <= source
      invariant ended ==> (out == source <==> WithinCap(source))
      invariant ended || reader.OnTime(TurnsOf(schedule[..i]))
    {
      assert schedule[..i + 1][..i] == schedule[..i];
      var bytes, end := reader.Perform(schedule[i], TurnsOf(schedule[..i]));
      out := out + bytes;
      ended := ended || end;
    }
    assert schedule[..|schedule|] == schedule;
  }
}
