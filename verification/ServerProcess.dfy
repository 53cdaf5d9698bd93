/** The server process in the form it has: shared tables changed in place by the handlers and by the
    mover's loops. Each method is proved against the step functions of CachingServer.
 */
module ServerProcess {
  import opened Wrappers
  import opened Posix
  import opened CachingServer

  // ---- whole passes, as compositions of steps ----

  /** The close handler run without interference. */
  function CloseWhole(env: Env, srv: Server, fd: Fd): Server {
    var seen := CloseRpc(env, srv, fd);
    if seen.handler.WantLock? && seen.mutex == Free
    then HandlerNext(HandlerNext(HandlerNext(HandlerNext(seen)))) else seen
  }

  /** Uninterrupted, a close of an open descriptor enqueues its path exactly when that path is not
      cached, wakes a waiting mover with it, and forgets the descriptor. */
  lemma CloseWholeIs(env: Env, srv: Server, fd: Fd)
    requires srv.handler.Ready? && srv.mutex == Free && fd in srv.files
    ensures var p, srv' := PathOf(srv, fd), CloseWhole(env, srv, fd);
            && srv'.files == srv.files - {fd} && srv'.fdToPath == srv.fdToPath - {fd}
            && srv'.queue == (if p in srv.cache then srv.queue else srv.queue + [p])
            && srv'.mover == (if p !in srv.cache && srv.mover.Waiting? then Woken(true) else srv.mover)
            && srv'.hist == srv.hist.(closed := srv.hist.closed + [p],
                                      missed := if p in srv.cache then srv.hist.missed else srv.hist.missed + [p],
                                      enqueued := if p in srv.cache then srv.hist.enqueued else srv.hist.enqueued + [p])
            && srv' == srv.(files := srv'.files, fdToPath := srv'.fdToPath, queue := srv'.queue,
                            mover := srv'.mover, hist := srv'.hist)
  {
    var p, seen := PathOf(srv, fd), CloseRpc(env, srv, fd);
    hide CloseRpc;
    assert seen == CloseSeen(srv, fd) by { CloseSeenIs(env, srv, fd); }
    if p !in srv.cache {
      assert srv.fdToPath[fd := p] - {fd} == srv.fdToPath - {fd} by { EraseInserted(srv.fdToPath, fd, p); }
      assert PathOf(seen, fd) == p;
      hide PathOf;
      LateHandler(seen, fd);
    }
  }

  lemma EraseInserted(m: map<Fd, Path>, fd: Fd, path: Path)
    ensures m[fd := path] - {fd} == m - {fd}
  {
  }

  lemma CloseUnopened(env: Env, srv: Server, fd: Fd)
    requires fd !in srv.files && srv.handler.Ready?
    ensures CloseWhole(env, srv, fd) == srv.(halted := true)
  {
  }

  function CloseSeen(srv: Server, fd: Fd): Server {
    var p := PathOf(srv, fd);
    var seen := srv.(files := srv.files - {fd}, hist := srv.hist.(closed := srv.hist.closed + [p]));
    if p in srv.cache then seen.(fdToPath := srv.fdToPath - {fd})
    else seen.(fdToPath := srv.fdToPath[fd := p], handler := WantLock(fd),
               hist := seen.hist.(missed := srv.hist.missed + [p]))
  }

  lemma CloseSeenIs(env: Env, srv: Server, fd: Fd)
    requires fd in srv.files
    ensures CloseRpc(env, srv, fd) == CloseSeen(srv, fd)
  {
  }

  /** The state after the handler's last four steps, back to back. */
  function LateClose(srv: Server, fd: Fd): Server {
    var p := PathOf(srv, fd);
    srv.(handler := Ready, fdToPath := srv.fdToPath - {fd}, queue := srv.queue + [p],
         mover := if srv.mover.Waiting? then Woken(true) else srv.mover,
         hist := srv.hist.(enqueued := srv.hist.enqueued + [p]))
  }

  lemma LateHandler(srv: Server, fd: Fd)
    requires srv.handler == WantLock(fd) && srv.mutex == Free
    ensures HandlerNext(HandlerNext(HandlerNext(HandlerNext(srv)))) == LateClose(srv, fd)
  {
    hide PathOf;
    var locked := HandlerNext(srv);
    var signaled := HandlerNext(locked);
    assert PathOf(signaled, fd) == PathOf(srv, fd) by { SamePath(srv, signaled, fd); }
    var pushed := HandlerNext(signaled);
    assert pushed.queue == srv.queue + [PathOf(srv, fd)] && pushed.handler == Pushed(fd);
  }

  lemma SamePath(srv: Server, srv': Server, fd: Fd)
    requires srv'.fdToPath == srv.fdToPath
    ensures PathOf(srv', fd) == PathOf(srv, fd)
  {
  }

  /** The drain loop: one TakeOne after another until data_queue is empty. */
  function TakeAll(env: Env, srv: Server): (r: Server)
    requires srv.mover.Draining?
    ensures r.queue == [] && r.mover == srv.mover
    decreases |srv.queue|
  {
    if srv.queue == [] then srv else TakeAll(env, MoverNext(env, srv, TakeOne))
  }

  lemma {:induction false} TakeAllIs(env: Env, srv: Server)
    requires srv.mover.Draining?
    ensures TakeAll(env, srv) == srv.(local := srv.local + srv.queue, queue := [])
    decreases |srv.queue|
  {
    if srv.queue == [] {
      assert srv.local + srv.queue == srv.local;
    } else {
      TakeAllIs(env, MoverNext(env, srv, TakeOne));
      assert srv.local + [srv.queue[0]] + srv.queue[1..] == srv.local + srv.queue;
    }
  }

  /** How fs::copy fares when nothing is in its way: it copies the whole file, or throws before it
      has created the target (say, because mkdtemp failed), or throws part of the way. */
  datatype Fate = Completes | CreatesNothing | BreaksAfter(written: nat)

  /** What the file system does to one file of local_list: the directory mkdtemp leaves in newdir,
      and how the copy fares. */
  datatype Plan = Plan(dir: Path, fate: Fate)

  function TargetOf(plan: Plan, p: Path): Path {
    plan.dir + "/" + Filename(p)
  }

  /** The copy keeps the name of its original: what follows the last slash, or all of it. */
  lemma {:induction false} FilenameIs(prefix: Path, name: Path)
    requires '/' !in name && (prefix == "" || prefix[|prefix| - 1] == '/')
    ensures Filename(prefix + name) == name
    decreases |name|
  {
    var p := prefix + name;
    if name == "" {
      assert p == prefix;
    } else {
      var last := name[|name| - 1];
      assert last in name && p[|p| - 1] == last;
      assert p[..|p| - 1] == prefix + name[..|name| - 1];
      FilenameIs(prefix, name[..|name| - 1]);
      assert name == name[..|name| - 1] + [last];
    }
  }

  lemma TargetIs(plan: Plan, prefix: Path, name: Path)
    requires '/' !in name && (prefix == "" || prefix[|prefix| - 1] == '/')
    ensures TargetOf(plan, prefix + name) == plan.dir + "/" + name
  {
    FilenameIs(prefix, name);
  }

  /** fs::copy creates its target: no file is there yet, and it does not throw before. */
  predicate Creates(store: Files, t: Path, plan: Plan) {
    t !in store && !plan.fate.CreatesNothing?
  }

  predicate Succeeds(srv: Server, plan: Plan) {
    srv.local != [] && TargetOf(plan, srv.local[0]) !in srv.store && plan.fate.Completes?
  }

  /** Bytes in the target when fs::copy stops. */
  function WrittenBy(env: Env, p: Path, plan: Plan): nat {
    var size := |Bytes(env.source, p)|;
    match plan.fate
    case Completes => size
    case CreatesNothing => 0
    case BreaksAfter(n) => if n <= size then n else size
  }

  predicate CanMove(env: Env, srv: Server, plan: Plan) {
    srv.mover.Moving? && srv.local != [] && UnderBB(env, plan.dir)
  }

  function Chunk(env: Env, srv: Server, n: nat): Server {
    if n > 0 && MoverCan(env, srv, CopyChunk(n)) then MoverNext(env, srv, CopyChunk(n)) else srv
  }

  lemma ChunkIs(env: Env, srv: Server, t: Path, n: nat)
    requires srv.mover == Copying(t) && srv.local != [] && t in srv.store && srv.store[t] == []
    requires n <= |Bytes(env.source, srv.local[0])|
    ensures Chunk(env, srv, n) == srv.(store := srv.store[t := Slice(Bytes(env.source, srv.local[0]), 0, n)])
  {
    var c := Bytes(env.source, srv.local[0]);
    assert [] + Slice(c, 0, n) == Slice(c, 0, n);
    if n == 0 {
      assert Slice(c, 0, n) == [];
      assert srv.store[t := []] == srv.store;
    }
  }

  /** One turn of the copy loop, as mover steps. */
  function MoveOne(env: Env, srv: Server, plan: Plan): Server
    requires CanMove(env, srv, plan)
  {
    var made := MoverNext(env, srv, MakeDir(plan.dir));
    if !Creates(made.store, made.mover.path, plan) then MoverNext(env, MoverNext(env, made, Throw), Pop) else
      var begun := MoverNext(env, made, BeginCopy);
      var torn := Chunk(env, begun, WrittenBy(env, srv.local[0], plan));
      ChunkIs(env, begun, made.mover.path, WrittenBy(env, srv.local[0], plan));
      LastSteps(env, torn, plan)
  }

  /** fs::copy returns and its target is published, or it throws; then the path is popped. */
  function LastSteps(env: Env, torn: Server, plan: Plan): Server
    requires torn.mover.Copying? && torn.local != [] && torn.mover.path in torn.store
    requires plan.fate.Completes? ==> |torn.store[torn.mover.path]| == |Bytes(env.source, torn.local[0])|
  {
    if !plan.fate.Completes? then MoverNext(env, MoverNext(env, torn, Throw), Pop)
    else MoverNext(env, MoverNext(env, MoverNext(env, torn, EndCopy), Publish), Pop)
  }

  function Popped(srv: Server): Server
    requires srv.local != []
  {
    srv.(local := srv.local[1..], mover := Moving,
         hist := srv.hist.(processed := srv.hist.processed + [srv.local[0]]))
  }

  /** What one turn does: the front path is popped; if the copy succeeded it is published and its
      copy holds the whole file; otherwise nothing is published. */
  lemma MoveOneIs(env: Env, srv: Server, plan: Plan)
    requires CanMove(env, srv, plan)
    ensures var p, srv' := srv.local[0], MoveOne(env, srv, plan);
            var t := TargetOf(plan, p);
            && srv'.cache == (if Succeeds(srv, plan) then srv.cache[p := t] else srv.cache)
            && srv'.store == (if !Creates(srv.store, t, plan) then srv.store
                              else srv.store[t := Slice(Bytes(env.source, p), 0, WrittenBy(env, p, plan))])
            && srv' == srv.(cache := srv'.cache, store := srv'.store, local := srv.local[1..],
                            hist := srv.hist.(processed := srv.hist.processed + [p]))
  {
    var p := srv.local[0];
    if !Creates(srv.store, TargetOf(plan, p), plan) {
      hide Filename;
      assert MoveOne(env, srv, plan) == Popped(srv);
    } else {
      MoveOneFresh(env, srv, plan);
      hide MoveOne, Filename, Slice, WrittenBy;
      var t, bytes := TargetOf(plan, p), Slice(Bytes(env.source, p), 0, WrittenBy(env, p, plan));
      assert MoveOne(env, srv, plan).store == srv.store[t := bytes];
    }
  }

  lemma MoveOneFresh(env: Env, srv: Server, plan: Plan)
    requires CanMove(env, srv, plan) && Creates(srv.store, TargetOf(plan, srv.local[0]), plan)
    ensures var p := srv.local[0];
            var t := TargetOf(plan, p);
            var store := srv.store[t := Slice(Bytes(env.source, p), 0, WrittenBy(env, p, plan))];
            MoveOne(env, srv, plan) == Popped(srv).(store := store,
              cache := if plan.fate.Completes? then srv.cache[p := t] else srv.cache)
  {
    hide Filename, Bytes;
    var p := srv.local[0];
    var t := TargetOf(plan, p);
    var begun := MoverNext(env, MoverNext(env, srv, MakeDir(plan.dir)), BeginCopy);
    var n := WrittenBy(env, p, plan);
    ChunkIs(env, begun, t, n);
    var bytes := Slice(Bytes(env.source, p), 0, n);
    assert begun.store[t := bytes] == srv.store[t := bytes];
    WholeSlice(Bytes(env.source, p));
    hide Chunk, Slice, LastSteps;
    TurnEnds(env, srv.(store := srv.store[t := bytes], mover := Copying(t)), plan);
  }

  lemma TurnEnds(env: Env, torn: Server, plan: Plan)
    requires torn.mover.Copying? && torn.local != [] && torn.mover.path in torn.store
    requires plan.fate.Completes? ==> |torn.store[torn.mover.path]| == |Bytes(env.source, torn.local[0])|
    ensures var popped := Popped(torn);
            LastSteps(env, torn, plan) ==
            if !plan.fate.Completes? then popped else popped.(cache := torn.cache[torn.local[0] := torn.mover.path])
  {
  }

  lemma WholeSlice(c: Content)
    ensures Slice(c, 0, |c|) == c
  {
  }

  predicate CanMoveAll(env: Env, srv: Server, plans: seq<Plan>) {
    srv.mover.Moving? && |plans| == |srv.local| && forall plan <- plans :: UnderBB(env, plan.dir)
  }

  /** The copy loop: one turn for each path of local_list. */
  function MoveAll(env: Env, srv: Server, plans: seq<Plan>): Server
    requires CanMoveAll(env, srv, plans)
    decreases |plans|
  {
    if plans == [] then srv else
      MoveOneIs(env, srv, plans[0]);
      MoveAll(env, MoveOne(env, srv, plans[0]), plans[1..])
  }

  lemma MoveOneKeeps(env: Env, srv: Server, plan: Plan)
    requires ServerInv(env, srv) && CanMove(env, srv, plan)
    ensures ServerInv(env, MoveOne(env, srv, plan)) && Plain(MoveOne(env, srv, plan)) == Plain(srv)
  {
    hide ServerInv, Plain, Filename;
    var made := MoverNext(env, srv, MakeDir(plan.dir));
    MoverKeeps(env, srv, MakeDir(plan.dir));
    if !Creates(made.store, made.mover.path, plan) {
      MoverKeeps(env, made, Throw);
      MoverKeeps(env, MoverNext(env, made, Throw), Pop);
    } else {
      var begun, n := MoverNext(env, made, BeginCopy), WrittenBy(env, srv.local[0], plan);
      MoverKeeps(env, made, BeginCopy);
      ChunkKeeps(env, begun, n);
      ChunkIs(env, begun, made.mover.path, n);
      EndOfTurn(env, Chunk(env, begun, n), plan);
    }
  }

  lemma EndOfTurn(env: Env, torn: Server, plan: Plan)
    requires torn.mover.Copying? && torn.local != [] && torn.mover.path in torn.store
    requires plan.fate.Completes? ==> |torn.store[torn.mover.path]| == |Bytes(env.source, torn.local[0])|
    requires ServerInv(env, torn)
    ensures var last := LastSteps(env, torn, plan); ServerInv(env, last) && Plain(last) == Plain(torn)
  {
    hide ServerInv, Plain;
    if !plan.fate.Completes? {
      MoverKeeps(env, torn, Throw);
      MoverKeeps(env, MoverNext(env, torn, Throw), Pop);
    } else {
      var ended := MoverNext(env, torn, EndCopy);
      MoverKeeps(env, torn, EndCopy);
      MoverKeeps(env, ended, Publish);
      MoverKeeps(env, MoverNext(env, ended, Publish), Pop);
    }
  }

  lemma ChunkKeeps(env: Env, srv: Server, n: nat)
    requires ServerInv(env, srv)
    ensures ServerInv(env, Chunk(env, srv, n)) && Plain(Chunk(env, srv, n)) == Plain(srv)
  {
    hide ServerInv, Plain;
    if n > 0 && MoverCan(env, srv, CopyChunk(n)) {
      MoverKeeps(env, srv, CopyChunk(n));
    }
  }

  /** The directories are new and pairwise different, and no copy throws. */
  predicate Smooth(srv: Server, plans: seq<Plan>) {
    && (forall plan <- plans :: plan.fate.Completes?)
    && (forall i, j | 0 <= i < |plans| && 0 <= j < |srv.local| :: TargetOf(plans[i], srv.local[j]) !in srv.store)
    && (forall i, j, k, l | 0 <= i < k < |plans| && 0 <= j < |srv.local| && 0 <= l < |srv.local| ::
          TargetOf(plans[i], srv.local[j]) != TargetOf(plans[k], srv.local[l]))
  }

  function Elems(s: seq<Path>): set<Path> {
    set p | p in s
  }

  /** A whole pass empties local_list in order, publishes at most its paths, never unpublishes, keeps
      every open descriptor's view, and when nothing goes wrong publishes all of them. */
  lemma {:induction false} MoveAllIs(env: Env, srv: Server, plans: seq<Plan>)
    requires ServerInv(env, srv) && CanMoveAll(env, srv, plans)
    ensures var srv' := MoveAll(env, srv, plans);
            && ServerInv(env, srv') && Plain(srv') == Plain(srv)
            && srv'.local == [] && srv'.mover.Moving? && srv'.queue == srv.queue
            && srv'.hist == srv.hist.(processed := srv.hist.processed + srv.local)
            && srv.cache.Keys <= srv'.cache.Keys <= srv.cache.Keys + Elems(srv.local)
            && (Smooth(srv, plans) ==> srv'.cache.Keys == srv.cache.Keys + Elems(srv.local))
    decreases |plans|
  {
    hide ServerInv, Plain, MoveOne, Succeeds, Slice, Filename, TargetOf;
    if plans == [] {
      assert srv.hist.processed + srv.local == srv.hist.processed;
    } else {
      var next := MoveOne(env, srv, plans[0]);
      MoveOneKeeps(env, srv, plans[0]);
      MoveOneIs(env, srv, plans[0]);
      MoveAllIs(env, next, plans[1..]);
      assert (srv.hist.processed + [srv.local[0]]) + srv.local[1..] == srv.hist.processed + srv.local;
      assert Elems(srv.local) == {srv.local[0]} + Elems(srv.local[1..]);
      if Smooth(srv, plans) { SmoothStep(env, srv, plans); }
    }
  }

  lemma SmoothStep(env: Env, srv: Server, plans: seq<Plan>)
    requires CanMoveAll(env, srv, plans) && plans != [] && Smooth(srv, plans)
    ensures Succeeds(srv, plans[0]) && Smooth(MoveOne(env, srv, plans[0]), plans[1..])
  {
    hide MoveOne, TargetOf;
    var next := MoveOne(env, srv, plans[0]);
    MoveOneIs(env, srv, plans[0]);
    assert Succeeds(srv, plans[0]);
    forall i, j | 0 <= i < |plans| - 1 && 0 <= j < |next.local|
      ensures TargetOf(plans[1..][i], next.local[j]) !in next.store
    {
      assert plans[1..][i] == plans[i + 1] && next.local[j] == srv.local[j + 1];
    }
  }

  /** One wake cycle run through without interruption: everything queued when the mover got the
      mutex, leftovers of signals nobody waited for included, is processed in order and nothing stays
      behind; if nothing goes wrong all of it ends up published. */
  lemma WakeCycle(env: Env, srv: Server, plans: seq<Plan>)
    requires ServerInv(env, srv) && srv.mover.Draining?
    requires |plans| == |srv.local + srv.queue| && forall plan <- plans :: UnderBB(env, plan.dir)
    ensures var woken := MoverNext(env, TakeAll(env, srv), Unlock);
            && CanMoveAll(env, woken, plans)
            && var last := MoveAll(env, woken, plans);
               && ServerInv(env, last) && Plain(last) == Plain(srv)
               && last.queue == [] && last.local == [] && last.hist.processed == srv.hist.enqueued
               && (Smooth(woken, plans) ==> forall p <- srv.local + srv.queue :: p in last.cache)
  {
    hide ServerInv, Plain, MoveAll, Smooth, TakeAll;
    TakeAllIs(env, srv);
    TakeAllKeeps(env, srv);
    var woken := MoverNext(env, TakeAll(env, srv), Unlock);
    MoverKeeps(env, TakeAll(env, srv), Unlock);
    MoveAllIs(env, woken, plans);
    FifoOf(env, srv);
    assert srv.hist.processed + (srv.local + srv.queue) == srv.hist.enqueued;
    forall p <- srv.local + srv.queue ensures p in Elems(woken.local) {}
  }

  lemma FifoOf(env: Env, srv: Server)
    requires ServerInv(env, srv)
    ensures srv.hist.processed + srv.local + srv.queue == srv.hist.enqueued
  {
  }

  lemma {:induction false} TakeAllKeeps(env: Env, srv: Server)
    requires ServerInv(env, srv) && srv.mover.Draining?
    ensures ServerInv(env, TakeAll(env, srv)) && Plain(TakeAll(env, srv)) == Plain(srv)
    decreases |srv.queue|
  {
    hide ServerInv, Plain;
    if srv.queue != [] {
      MoverKeeps(env, srv, TakeOne);
      TakeAllKeeps(env, MoverNext(env, srv, TakeOne));
    }
  }

  // ---- the process ----

  class Process {
    var halted: bool
    var files: Table                  // the kernel's descriptors of this process
    var fdToPath: map<Fd, Path>
    var pathCacheMap: map<Path, Path>
    var store: Files                  // the files under BBPATH
    var dataQueue: seq<Path>
    var localList: seq<Path>
    var mutex: Mutex                  // data_mutex
    ghost var handler: HandlerPc
    ghost var mover: MoverPc
    ghost var hist: History

    constructor ()
      ensures View() == INITIAL
    {
      halted, files, fdToPath, pathCacheMap, store := false, map[], map[], map[], map[];
      dataQueue, localList := [], [];
      mutex, handler, mover, hist := Free, Ready, Start, History([], [], [], []);
    }

    ghost function View(): Server
      reads this
    {
      Server(halted, files, fdToPath, pathCacheMap, store, dataQueue, localList, mutex, handler, mover, hist)
    }

    method OpenHandler(env: Env, path: Path, fd: Fd) returns (ret: int)
      modifies this
      ensures View() == OpenRpc(env, old(View()), path, fd) && ret == fd
    {
      var redirPath := path;
      if redirPath in pathCacheMap {
        redirPath := pathCacheMap[redirPath];
      }
      files := files[fd := Cursor(redirPath, 0)];
      ret := fd;
      fdToPath := fdToPath[fd := path];
    }

    /** readbytes is the size of the transfer that follows, unless the process ended. */
    method ReadHandler(env: Env, fd: Fd, count: int, offset: int) returns (readbytes: int, buffer: Content)
      modifies this`files, this`halted
      ensures Served(View(), readbytes, buffer) == ReadRpc(env, old(View()), fd, count, offset)
    {
      if count < 0 {
        halted := true;
        return -1, [];
      }
      var io;
      if offset == -1 {
        io := Perform(env.source + store, files, Read(fd, count));
      } else {
        io := Perform(env.source + store, files, Pread(fd, count, offset));
      }
      readbytes, buffer := io.ret, io.data;
      if readbytes < 0 {
        halted, buffer := true, [];
      } else {
        files := io.table;
      }
    }

    method SeekHandler(env: Env, fd: Fd, offset: int, whence: Whence) returns (ret: int)
      modifies this`files
      ensures Served(View(), ret, []) == SeekRpc(env, old(View()), fd, offset, whence)
    {
      var io := Perform(env.source + store, files, Seek(fd, offset, whence));
      files := io.table;
      ret := ToInt32(io.ret);
    }

    /** The close handler's part under the mutex, once it has it: signal, push, unlock and erase. */
    method CloseLocked(fd: Fd)
      requires handler == WantLock(fd) && mutex == Free
      modifies this`fdToPath, this`dataQueue, this`handler, this`mover, this`hist
      ensures View() == HandlerNext(HandlerNext(HandlerNext(HandlerNext(old(View())))))
      ensures View() == LateClose(old(View()), fd) && handler == Ready
    {
      hide HandlerNext;
      LateHandler(View(), fd);
      var path := if fd in fdToPath then fdToPath[fd] else "";
      mover := if mover.Waiting? then Woken(true) else mover;
      dataQueue := dataQueue + [path];
      hist := hist.(enqueued := hist.enqueued + [path]);
      fdToPath := fdToPath - {fd};
      handler := Ready;
    }

    /** The whole handler. If the mover has the mutex it waits for it, and CloseLocked is the rest;
        what others do meanwhile is Protocol's business. */
    method CloseHandler(env: Env, fd: Fd) returns (waits: bool)
      requires handler == Ready
      modifies this
      ensures View() == CloseWhole(env, old(View()), fd)
      ensures waits <==> handler == WantLock(fd)
    {
      hide CloseRpc, HandlerNext, LateClose;
      waits := false;
      if fd !in files {
        CloseUnopened(env, View(), fd);
        halted := true;
        return;
      }
      CloseSeenIs(env, View(), fd);
      files := files - {fd};
      var path := if fd in fdToPath then fdToPath[fd] else "";
      hist := hist.(closed := hist.closed + [path]);
      if path in pathCacheMap {
        fdToPath := fdToPath - {fd};
      } else {
        fdToPath := fdToPath[fd := path];
        hist, handler := hist.(missed := hist.missed + [path]), WantLock(fd);
        assert View() == CloseRpc(env, old(View()), fd);
        waits := mutex != Free;
        if !waits {
          CloseLocked(fd);
        }
      }
    }

    /** The drain loop, holding the mutex, and the unlock after it. */
    method DrainQueue(env: Env)
      requires mover == Draining
      modifies this`dataQueue, this`localList, this`mutex, this`mover
      ensures View() == MoverNext(env, TakeAll(env, old(View())), Unlock)
      ensures dataQueue == [] && localList == old(localList) + old(dataQueue)
    {
      while dataQueue != []
        invariant localList + dataQueue == old(localList) + old(dataQueue)
        decreases |dataQueue|
      {
        localList := localList + [dataQueue[0]];
        dataQueue := dataQueue[1..];
      }
      TakeAllIs(env, old(View()));
      mutex, mover := Free, Moving;
    }

    /** fs::copy without options: it refuses an existing target, and may throw before it has created
        its target or half way. */
    method FsCopy(env: Env, from: Path, to: Path, plan: Plan) returns (ok: bool)
      modifies this`store
      ensures ok <==> to !in old(store) && plan.fate.Completes?
      ensures store == if !Creates(old(store), to, plan) then old(store)
                       else old(store)[to := Slice(Bytes(env.source, from), 0, WrittenBy(env, from, plan))]
    {
      ok := to !in store && plan.fate.Completes?;
      if to !in store && !plan.fate.CreatesNothing? {
        store := store[to := Slice(Bytes(env.source, from), 0, WrittenBy(env, from, plan))];
      }
    }

    /** The copy loop. */
    method MoveLocalList(env: Env, plans: seq<Plan>)
      requires CanMoveAll(env, View(), plans)
      modifies this`store, this`pathCacheMap, this`localList, this`hist
      ensures View() == MoveAll(env, old(View()), plans)
      ensures localList == []
    {
      hide Slice, Bytes, Filename, WrittenBy, MoveOne;
      var i := 0;
      while localList != []
        invariant 0 <= i <= |plans| && CanMoveAll(env, View(), plans[i..])
        invariant MoveAll(env, View(), plans[i..]) == MoveAll(env, old(View()), plans)
        decreases |localList|
      {
        ghost var before := View();
        var filename := plans[i].dir + "/" + Filename(localList[0]);
        var ok := FsCopy(env, localList[0], filename, plans[i]);
        if ok {
          pathCacheMap := pathCacheMap[localList[0] := filename];
        }
        hist := hist.(processed := hist.processed + [localList[0]]);
        localList := localList[1..];
        TurnDone(env, before, View(), plans[i..]);
        assert plans[i..][1..] == plans[i + 1..];
        i := i + 1;
      }
      assert plans[i..] == [];
    }
  }

  lemma TurnDone(env: Env, srv: Server, srv': Server, plans: seq<Plan>)
    requires CanMoveAll(env, srv, plans) && plans != []
    requires var p := srv.local[0];
             var t := TargetOf(plans[0], p);
             && srv'.cache == (if Succeeds(srv, plans[0]) then srv.cache[p := t] else srv.cache)
             && srv'.store == (if !Creates(srv.store, t, plans[0]) then srv.store
                               else srv.store[t := Slice(Bytes(env.source, p), 0, WrittenBy(env, p, plans[0]))])
             && srv' == srv.(cache := srv'.cache, store := srv'.store, local := srv.local[1..],
                             hist := srv.hist.(processed := srv.hist.processed + [p]))
    ensures CanMoveAll(env, srv', plans[1..])
    ensures MoveAll(env, srv', plans[1..]) == MoveAll(env, srv, plans)
  {
    MoveOneIs(env, srv, plans[0]);
  }
}
