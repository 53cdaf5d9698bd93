/** POSIX files as a process sees them: descriptors, private offsets, read, pread and lseek.

    One definition of every call serves three roles: the kernel of a client process, the kernel
    of a server process, and the ideal machine an application believes it runs on.
 */
module Posix {
  type Path = string
  type Fd = nat
  type Content = seq<bv8>
  type Files = map<Path, Content>

  const TWO_TO_31: int := 0x8000_0000
  const TWO_TO_32: int := 0x1_0000_0000
  const MAX_OFFSET: int := 0x7fff_ffff_ffff_ffff

  /** An open file description: the file and the offset of the next read. */
  datatype Cursor = Cursor(path: Path, pos: nat)

  type Table = map<Fd, Cursor>

  datatype Whence = SeekSet | SeekCur | SeekEnd

  datatype Call =
    | Open(fd: Fd, path: Path)  // fd is the descriptor the kernel hands out
    | Close(fd: Fd)
    | Read(fd: Fd, count: nat)
    | Pread(fd: Fd, count: nat, offset: int)
    | Seek(fd: Fd, offset: int, whence: Whence)

  datatype Io = Io(table: Table, ret: int, data: Content)

  function Bytes(files: Files, path: Path): Content {
    if path in files then files[path] else []
  }

  /** The bytes of c from offset `from`, at most n of them, fewer at the end of the file. */
  function Slice(c: Content, from: nat, n: nat): (r: Content)
    ensures |r| <= n
  {
    if from >= |c| then [] else if from + n <= |c| then c[from..from + n] else c[from..]
  }

  function SeekBase(c: Content, pos: nat, whence: Whence): nat {
    match whence
    case SeekSet => 0
    case SeekCur => pos
    case SeekEnd => |c|
  }

  /** What POSIX says each call does to the table and what it returns. */
  function Perform(files: Files, t: Table, call: Call): Io {
    match call
    case Open(fd, path) => Io(t[fd := Cursor(path, 0)], fd, [])
    case Close(fd) => if fd in t then Io(t - {fd}, 0, []) else Io(t, -1, [])
    case Read(fd, count) =>
      if fd !in t then Io(t, -1, []) else
        var d := Slice(Bytes(files, t[fd].path), t[fd].pos, count);
        Io(t[fd := t[fd].(pos := t[fd].pos + |d|)], |d|, d)
    case Pread(fd, count, offset) =>
      if fd !in t || offset < 0 then Io(t, -1, []) else
        var d := Slice(Bytes(files, t[fd].path), offset, count);
        Io(t, |d|, d)
    case Seek(fd, offset, whence) =>
      if fd !in t then Io(t, -1, []) else
        var target := SeekBase(Bytes(files, t[fd].path), t[fd].pos, whence) + offset;
        if 0 <= target <= MAX_OFFSET then Io(t[fd := t[fd].(pos := target)], target, [])
        else Io(t, -1, [])
  }

  // ---- what the calls do, spelled out ----

  lemma OpenIs(files: Files, t: Table, fd: Fd, path: Path)
    ensures Perform(files, t, Open(fd, path)) == Io(t[fd := Cursor(path, 0)], fd, [])
  {
  }

  lemma CloseIs(files: Files, t: Table, fd: Fd)
    ensures Perform(files, t, Close(fd)) == if fd in t then Io(t - {fd}, 0, []) else Io(t, -1, [])
  {
  }

  /** A read delivers the bytes between the offset and the end of the file, at most count of them,
      and moves the offset behind them. */
  lemma ReadIs(files: Files, t: Table, fd: Fd, count: nat)
    requires fd in t ==> t[fd].path in files
    ensures var io := Perform(files, t, Read(fd, count));
            if fd !in t then io == Io(t, -1, []) else
              var file, p := files[t[fd].path], t[fd].pos;
              && io.ret == |io.data| && io.table == t[fd := Cursor(t[fd].path, p + |io.data|)]
              && (p + count <= |file| ==> io.data == file[p..p + count])
              && (p <= |file| < p + count ==> io.data == file[p..])
              && (|file| < p ==> io.data == [])
  {
  }

  /** A pread delivers them from its own offset, and moves nothing. */
  lemma PreadIs(files: Files, t: Table, fd: Fd, count: nat, offset: int)
    requires fd in t ==> t[fd].path in files
    ensures var io := Perform(files, t, Pread(fd, count, offset));
            if fd !in t || offset < 0 then io == Io(t, -1, []) else
              var file := files[t[fd].path];
              && io.ret == |io.data| && io.table == t
              && (offset + count <= |file| ==> io.data == file[offset..offset + count])
              && (offset <= |file| < offset + count ==> io.data == file[offset..])
              && (|file| < offset ==> io.data == [])
  {
  }

  /** A seek goes to the offset counted from the start, the current offset or the end of the file,
      unless that place is negative or too large. */
  lemma SeekIs(files: Files, t: Table, fd: Fd, offset: int, whence: Whence)
    requires fd in t ==> t[fd].path in files
    ensures var io := Perform(files, t, Seek(fd, offset, whence));
            if fd !in t then io == Io(t, -1, []) else
              var target := match whence
                            case SeekSet => offset
                            case SeekCur => t[fd].pos + offset
                            case SeekEnd => |files[t[fd].path]| + offset;
              io == if 0 <= target <= MAX_OFFSET then Io(t[fd := Cursor(t[fd].path, target)], target, []) else Io(t, -1, [])
  {
  }

  /** Conversion to a 32-bit signed wire field. */
  function ToInt32(x: int): (r: int)
    ensures -TWO_TO_31 <= r < TWO_TO_31
    ensures r == x <==> -TWO_TO_31 <= x < TWO_TO_31
    ensures (x - r) % TWO_TO_32 == 0
  {
    (x + TWO_TO_31) % TWO_TO_32 - TWO_TO_31
  }

  /** A completed call with the result the application saw. */
  datatype Event = Event(call: Call, ret: int, data: Content)

  /** The private descriptor table after a history of completed calls. */
  function TableOf(files: Files, log: seq<Event>): Table {
    if log == [] then map[]
    else Perform(files, TableOf(files, log[..|log| - 1]), log[|log| - 1].call).table
  }

  /** The result an event must carry. What is opened exists and gets a free descriptor. Seek results travel in a 32-bit reply field. */
  predicate Allowed(files: Files, t: Table, e: Event) {
    var io := Perform(files, t, e.call);
    && (e.call.Open? ==> e.call.fd !in t && e.call.path in files)
    && e.data == io.data
    && e.ret == (if e.call.Seek? then ToInt32(io.ret) else io.ret)
  }

  /** Every result in the log is the one a process with private, uncached files would see. */
  predicate Legal(files: Files, log: seq<Event>) {
    log == [] ||
    (Legal(files, log[..|log| - 1]) &&
     Allowed(files, TableOf(files, log[..|log| - 1]), log[|log| - 1]))
  }

  lemma Extend(files: Files, log: seq<Event>, e: Event)
    ensures TableOf(files, log + [e]) == Perform(files, TableOf(files, log), e.call).table
    ensures Legal(files, log + [e]) <==> Legal(files, log) && Allowed(files, TableOf(files, log), e)
  {
    assert (log + [e])[..|log|] == log;
  }

  /** Legality of a history is legality of each of its prefixes. */
  lemma {:induction false} LegalPrefix(files: Files, log: seq<Event>, n: nat)
    requires Legal(files, log) && n <= |log|
    ensures Legal(files, log[..n])
    decreases |log|
  {
    if n == |log| {
      assert log[..n] == log;
    } else {
      var init := log[..|log| - 1];
      LegalPrefix(files, init, n);
      assert init[..n] == log[..n];
    }
  }

  /** Each event of a legal history carries exactly the POSIX result at its own point. */
  lemma LegalAt(files: Files, log: seq<Event>, k: nat)
    requires Legal(files, log) && k < |log|
    ensures Allowed(files, TableOf(files, log[..k]), log[k])
  {
    LegalPrefix(files, log, k + 1);
    assert log[..k + 1][..k] == log[..k];
  }

  /** What a legal history has open exists. */
  lemma {:induction false} LegalPaths(files: Files, log: seq<Event>)
    requires Legal(files, log)
    ensures forall fd <- TableOf(files, log) :: TableOf(files, log)[fd].path in files
    decreases |log|
  {
    if log != [] { LegalPaths(files, log[..|log| - 1]); }
  }

  /** The calls that leave the offset of fd where it is. */
  predicate Keeps(fd: Fd, call: Call) {
    call.fd != fd || call.Pread?
  }

  /** The data the sequential reads on fd returned, in order. */
  function DataRead(fd: Fd, events: seq<Event>): Content {
    if events == [] then []
    else
      var last := events[|events| - 1];
      DataRead(fd, events[..|events| - 1]) + if Keeps(fd, last.call) then [] else last.data
  }

  /** How many bytes the sequential reads on fd asked for. */
  function Wanted(fd: Fd, events: seq<Event>): nat {
    if events == [] then 0
    else
      var call := events[|events| - 1].call;
      Wanted(fd, events[..|events| - 1]) + if call.Read? && call.fd == fd then call.count else 0
  }

  /** data is what there is of the file from an offset on, at most n bytes of it. */
  predicate IsPart(file: Content, from: nat, n: nat, data: Content) {
    && (from + n <= |file| ==> data == file[from..from + n])
    && (from <= |file| < from + n ==> data == file[from..])
    && (|file| < from ==> data == [])
  }

  lemma KeptCursor(files: Files, t: Table, fd: Fd, call: Call)
    requires fd in t && Keeps(fd, call)
    ensures fd in Perform(files, t, call).table && Perform(files, t, call).table[fd] == t[fd]
  {
  }

  lemma PartsJoin(file: Content, from: nat, m: nat, data: Content, n: nat, more: Content)
    requires IsPart(file, from, m, data) && IsPart(file, from + |data|, n, more)
    ensures IsPart(file, from, m + n, data + more)
  {
    if from <= |file| {
      assert data + more == file[from..from + |data + more|];
    }
  }

  lemma ReadGoesOn(files: Files, at: Cursor, t: Table, e: Event, n: nat, data: Content)
    requires e.call.Read? && Allowed(files, t, e) && e.call.fd in t && at.path in files
    requires t[e.call.fd] == Cursor(at.path, at.pos + |data|) && IsPart(files[at.path], at.pos, n, data)
    ensures var t' := Perform(files, t, e.call).table;
            && IsPart(files[at.path], at.pos, n + e.call.count, data + e.data)
            && e.call.fd in t' && t'[e.call.fd] == Cursor(at.path, at.pos + |data + e.data|)
  {
    ReadIs(files, t, e.call.fd, e.call.count);
    hide Perform;
    PartsJoin(files[at.path], at.pos, n, data, e.call.count, e.data);
  }

  /** Between two points of a legal history in which fd is only read, pread, or left alone, the data
      of its reads, joined, is what the file holds from the offset on, as much as the reads asked for
      together or up to the end, and the offset ends just behind it: preads and calls on other
      descriptors never disturb it. */
  lemma {:induction false} ReadsAreContiguous(files: Files, log: seq<Event>, more: seq<Event>, fd: Fd)
    requires Legal(files, log + more)
    requires fd in TableOf(files, log)
    requires forall e <- more :: Keeps(fd, e.call) || e.call.Read?
    ensures var at, data := TableOf(files, log)[fd], DataRead(fd, more);
            && at.path in files && IsPart(files[at.path], at.pos, Wanted(fd, more), data)
            && fd in TableOf(files, log + more) && TableOf(files, log + more)[fd] == Cursor(at.path, at.pos + |data|)
    decreases |more|
  {
    if more == [] {
      assert log + more == log;
      LegalPaths(files, log);
    } else {
      hide Perform, IsPart, Allowed, Legal, TableOf, DataRead, Wanted, Keeps;
      var init, e := more[..|more| - 1], more[|more| - 1];
      assert e in more && log + more == (log + init) + [e] && more == init + [e];
      Extend(files, log + init, e);
      ReadsAreContiguous(files, log, init, fd);
      OneMore(files, TableOf(files, log)[fd], TableOf(files, log + init), fd, init, e);
    }
  }

  lemma OneMore(files: Files, at: Cursor, t: Table, fd: Fd, events: seq<Event>, e: Event)
    requires at.path in files && fd in t && t[fd] == Cursor(at.path, at.pos + |DataRead(fd, events)|)
    requires IsPart(files[at.path], at.pos, Wanted(fd, events), DataRead(fd, events))
    requires Allowed(files, t, e) && (Keeps(fd, e.call) || e.call.Read?)
    ensures var t', data := Perform(files, t, e.call).table, DataRead(fd, events + [e]);
            && IsPart(files[at.path], at.pos, Wanted(fd, events + [e]), data)
            && fd in t' && t'[fd] == Cursor(at.path, at.pos + |data|)
  {
    assert (events + [e])[..|events|] == events;
    assert DataRead(fd, events + [e]) == DataRead(fd, events) + if Keeps(fd, e.call) then [] else e.data;
    assert DataRead(fd, events) + [] == DataRead(fd, events);
    if Keeps(fd, e.call) {
      KeptCursor(files, t, fd, e.call);
    } else {
      ReadGoesOn(files, at, t, e, Wanted(fd, events), DataRead(fd, events));
    }
  }
}
