/** One server process: the RPC handlers run by its progress thread, the mover thread, and the
    state they share. Every function here is one atomic step; Protocol interleaves them.
 */
module CachingServer {
  import opened Posix

  /** The shared file system and BBPATH, the node-local directory copies are made in. */
  datatype Env = Env(source: Files, bb: Path)

  predicate UnderBB(env: Env, p: Path) {
    env.bb + "/" <= p
  }

  /** No application path lies under BBPATH. */
  ghost predicate Disjoint(env: Env) {
    forall p <- env.source :: !UnderBB(env, p)
  }

  /** The last component of a path. */
  function Filename(p: Path): Path {
    if p == "" then "" else if p[|p| - 1] == '/' then "" else Filename(p[..|p| - 1]) + [p[|p| - 1]]
  }

  datatype Mutex = Free | HeldByHandler | HeldByMover

  /** Where the progress thread is. Only the close handler has points at which it can be
      interleaved with the mover: the test of path_cache_map comes before the mutex. */
  datatype HandlerPc =
    | Ready
    | WantLock(fd: Fd)
    | Locked(fd: Fd)
    | Signaled(fd: Fd)
    | Pushed(fd: Fd)

  /** Where the mover thread is. */
  datatype MoverPc =
    | Start                    // about to lock
    | HasLock                  // about to wait
    | Waiting                  // in pthread_cond_wait, mutex released
    | Woken(signaled: bool)    // must take the mutex again; false is a spurious wake-up
    | Draining                 // moving data_queue to local_list
    | Moving                   // at the test of the copy loop
    | Target(path: Path)       // directory made, copy not begun
    | Copying(path: Path)      // some of the file copied
    | Copied(path: Path)       // fs::copy returned
    | Popping                  // published, or the exception was caught

  /** History variables: no step reads them.
      enqueued: every path pushed; processed: every path popped from local_list;
      closed: the path of every close handled; missed: those that found no cached copy. */
  datatype History = History(enqueued: seq<Path>, processed: seq<Path>, closed: seq<Path>, missed: seq<Path>)

  datatype Server = Server(
    halted: bool,              // an assert failed
    files: Table,              // descriptors opened by the handlers
    fdToPath: map<Fd, Path>,
    cache: map<Path, Path>,    // path_cache_map
    store: Files,              // contents of the files under BBPATH
    queue: seq<Path>,          // data_queue
    local: seq<Path>,          // local_list
    mutex: Mutex,
    handler: HandlerPc,
    mover: MoverPc,
    hist: History)

  const INITIAL := Server(false, map[], map[], map[], map[], [], [], Free, Ready, Start, History([], [], [], []))

  /** What the server's kernel reads: the shared files and the node-local ones. */
  function Visible(env: Env, srv: Server): Files {
    env.source + srv.store
  }

  // ---- RPC handlers ----

  function Redirect(srv: Server, path: Path): Path {
    if path in srv.cache then srv.cache[path] else path
  }

  /** hvac_open_rpc_handler; fd is the descriptor the kernel picks. */
  function OpenRpc(env: Env, srv: Server, path: Path, fd: Fd): Server {
    srv.(files := Perform(Visible(env, srv), srv.files, Open(fd, Redirect(srv, path))).table,
         fdToPath := srv.fdToPath[fd := path])
  }

  datatype Served = Served(server: Server, ret: int, data: Content)

  /** hvac_rpc_handler: offset -1 selects read, anything else pread. A negative count becomes a huge
      unsigned size, calloc fails and the assert after it ends the process. A result of -1 becomes a
      transfer size of 2^64 - 1, the transfer fails and the assert after that ends the process. */
  function ReadRpc(env: Env, srv: Server, fd: Fd, count: int, offset: int): Served {
    if count < 0 then Served(srv.(halted := true), -1, []) else
      var call := if offset == -1 then Read(fd, count) else Pread(fd, count, offset);
      var io := Perform(Visible(env, srv), srv.files, call);
      if io.ret < 0 then Served(srv.(halted := true), io.ret, [])
      else Served(srv.(files := io.table), io.ret, io.data)
  }

  /** hvac_seek_rpc_handler; the result is cut to the reply's 32-bit field. */
  function SeekRpc(env: Env, srv: Server, fd: Fd, offset: int, whence: Whence): Served {
    var io := Perform(Visible(env, srv), srv.files, Seek(fd, offset, whence));
    Served(srv.(files := io.table), ToInt32(io.ret), [])
  }

  /** fd_to_path[fd]: operator[] yields the empty string for a missing key. */
  function PathOf(srv: Server, fd: Fd): Path {
    if fd in srv.fdToPath then srv.fdToPath[fd] else ""
  }

  /** hvac_close_rpc_handler up to the test of path_cache_map. */
  function CloseRpc(env: Env, srv: Server, fd: Fd): Server {
    var io := Perform(Visible(env, srv), srv.files, Close(fd));
    if io.ret != 0 then srv.(halted := true) else
      var p := PathOf(srv, fd);
      var seen := srv.(files := io.table, hist := srv.hist.(closed := srv.hist.closed + [p]));
      if p in srv.cache then seen.(fdToPath := srv.fdToPath - {fd})
      else seen.(fdToPath := srv.fdToPath[fd := p], handler := WantLock(fd),
                 hist := seen.hist.(missed := srv.hist.missed + [p]))
  }

  predicate HandlerCan(srv: Server) {
    !srv.handler.Ready? && (srv.handler.WantLock? ==> srv.mutex == Free)
  }

  /** The rest of the close handler: lock, signal, push, unlock and erase. */
  function HandlerNext(srv: Server): Server
    requires HandlerCan(srv)
  {
    match srv.handler
    case WantLock(fd) => srv.(mutex := HeldByHandler, handler := Locked(fd))
    case Locked(fd) =>
      srv.(mover := if srv.mover.Waiting? then Woken(true) else srv.mover, handler := Signaled(fd))
    case Signaled(fd) =>
      var p := PathOf(srv, fd);
      srv.(queue := srv.queue + [p], handler := Pushed(fd),
           hist := srv.hist.(enqueued := srv.hist.enqueued + [p]))
    case Pushed(fd) => srv.(mutex := Free, handler := Ready, fdToPath := srv.fdToPath - {fd})
  }

  // ---- the mover ----

  datatype MoverAct =
    | Lock                 // at Start, and again when woken
    | Wait
    | SpuriousWake
    | TakeOne
    | Unlock
    | Loop                 // local_list is empty: back to the top
    | MakeDir(dir: Path)   // whatever mkdtemp left in newdir
    | BeginCopy
    | CopyChunk(n: nat)
    | EndCopy
    | Throw                // fs::copy threw
    | Publish
    | Pop

  predicate MoverCan(env: Env, srv: Server, a: MoverAct) {
    match a
    case Lock => (srv.mover.Start? || srv.mover.Woken?) && srv.mutex == Free
    case Wait => srv.mover.HasLock?
    case SpuriousWake => srv.mover.Waiting?
    case TakeOne => srv.mover.Draining? && srv.queue != []
    case Unlock => srv.mover.Draining? && srv.queue == []
    case Loop => srv.mover.Moving? && srv.local == []
    case MakeDir(dir) => srv.mover.Moving? && srv.local != [] && UnderBB(env, dir)
    case BeginCopy => srv.mover.Target? && srv.mover.path !in srv.store
    case CopyChunk(n) =>
      && srv.mover.Copying? && srv.local != [] && srv.mover.path in srv.store
      && 0 < n <= |Bytes(env.source, srv.local[0])| - |srv.store[srv.mover.path]|
    case EndCopy =>
      && srv.mover.Copying? && srv.local != [] && srv.mover.path in srv.store
      && |srv.store[srv.mover.path]| == |Bytes(env.source, srv.local[0])|
    case Throw => srv.mover.Target? || srv.mover.Copying?
    case Publish => srv.mover.Copied? && srv.local != []
    case Pop => srv.mover.Popping? && srv.local != []
  }

  /** A copy never overwrites: BeginCopy needs an absent target, otherwise fs::copy throws. */
  function MoverNext(env: Env, srv: Server, a: MoverAct): Server
    requires MoverCan(env, srv, a)
  {
    match a
    case Lock => srv.(mutex := HeldByMover, mover := if srv.mover.Start? then HasLock else Draining)
    case Wait => srv.(mutex := Free, mover := Waiting)
    case SpuriousWake => srv.(mover := Woken(false))
    case TakeOne => srv.(local := srv.local + [srv.queue[0]], queue := srv.queue[1..])
    case Unlock => srv.(mutex := Free, mover := Moving)
    case Loop => srv.(mover := Start)
    case MakeDir(dir) => srv.(mover := Target(dir + "/" + Filename(srv.local[0])))
    case BeginCopy => srv.(store := srv.store[srv.mover.path := []], mover := Copying(srv.mover.path))
    case CopyChunk(n) =>
      var done := srv.store[srv.mover.path];
      srv.(store := srv.store[srv.mover.path := done + Slice(Bytes(env.source, srv.local[0]), |done|, n)])
    case EndCopy => srv.(mover := Copied(srv.mover.path))
    case Throw => srv.(mover := Popping)
    case Publish => srv.(cache := srv.cache[srv.local[0] := srv.mover.path], mover := Popping)
    case Pop =>
      srv.(local := srv.local[1..], mover := Moving,
           hist := srv.hist.(processed := srv.hist.processed + [srv.local[0]]))
  }

  // ---- the invariant ----

  /** t is a finished copy of p, and no longer being written. */
  ghost predicate IsCopy(env: Env, srv: Server, t: Path, p: Path) {
    && p in env.source && t in srv.store && UnderBB(env, t)
    && srv.store[t] == env.source[p]
    && srv.mover != Copying(t)
  }

  ghost predicate MutexInv(srv: Server) {
    && (srv.mutex == HeldByMover <==> srv.mover.HasLock? || srv.mover.Draining?)
    && (srv.mutex == HeldByHandler <==> srv.handler.Locked? || srv.handler.Signaled? || srv.handler.Pushed?)
  }

  /** A mover woken by a signal has something to take, or the signaller, still holding the mutex,
      is about to push it. */
  ghost predicate WakeInv(srv: Server) {
    srv.mover == Woken(true) ==> srv.queue != [] || srv.handler.Signaled?
  }

  ghost function Closing(srv: Server): set<Fd> {
    if srv.handler.Ready? then {} else {srv.handler.fd}
  }

  ghost predicate FilesInv(env: Env, srv: Server) {
    && srv.fdToPath.Keys == srv.files.Keys + Closing(srv)
    && srv.files.Keys !! Closing(srv)
    && (forall fd <- srv.fdToPath :: srv.fdToPath[fd] in env.source)
    && (forall fd <- srv.files ::
          srv.files[fd].path == srv.fdToPath[fd] || IsCopy(env, srv, srv.files[fd].path, srv.fdToPath[fd]))
  }

  ghost predicate CacheInv(env: Env, srv: Server) {
    && (forall p <- srv.cache :: IsCopy(env, srv, srv.cache[p], p))
    && (forall t <- srv.store :: UnderBB(env, t))
  }

  ghost predicate FifoInv(env: Env, srv: Server) {
    && srv.hist.processed + srv.local + srv.queue == srv.hist.enqueued
    && (forall p <- srv.hist.enqueued :: p in env.source)
  }

  predicate InFile(m: MoverPc) {
    m.Target? || m.Copying? || m.Copied? || m.Popping?
  }

  /** Not working: between the copy loop and the drain loop. */
  predicate Resting(m: MoverPc) {
    m.Start? || m.HasLock? || m.Waiting? || m.Woken?
  }

  ghost predicate MoverInv(env: Env, srv: Server) {
    && (Resting(srv.mover) ==> srv.local == [])
    && (InFile(srv.mover) ==> srv.local != [])
    && (srv.mover.Target? || srv.mover.Copying? ==> UnderBB(env, srv.mover.path))
    && (srv.mover.Copying? ==>
          srv.mover.path in srv.store && srv.store[srv.mover.path] <= Bytes(env.source, srv.local[0]))
    && (srv.mover.Copied? ==> IsCopy(env, srv, srv.mover.path, srv.local[0]))
  }

  /** The path the close handler has found uncached but not pushed yet. */
  ghost function Pending(srv: Server): seq<Path> {
    if srv.handler.Ready? || srv.handler.Pushed? then [] else [PathOf(srv, srv.handler.fd)]
  }

  ghost predicate WorkInv(srv: Server) {
    && srv.hist.missed == srv.hist.enqueued + Pending(srv)
    && (forall p :: p !in srv.cache ==> multiset(srv.hist.missed)[p] == multiset(srv.hist.closed)[p])
  }

  ghost predicate ServerInv(env: Env, srv: Server) {
    && Disjoint(env)
    && !srv.halted
    && MutexInv(srv)
    && WakeInv(srv)
    && FilesInv(env, srv)
    && CacheInv(env, srv)
    && FifoInv(env, srv)
    && MoverInv(env, srv)
    && WorkInv(srv)
  }

  /** The same server without cache or mover: each descriptor is an open original. */
  ghost function Plain(srv: Server): Table {
    map fd | fd in srv.files :: Cursor(PathOf(srv, fd), srv.files[fd].pos)
  }

  // ---- every step keeps the invariant, and refines a server without a cache ----

  lemma InitialInv(env: Env)
    requires Disjoint(env)
    ensures ServerInv(env, INITIAL) && Plain(INITIAL) == map[]
  {
  }

  /** srv' differs from srv at most in copying: finished copies stay finished copies. */
  ghost predicate CopiesStay(env: Env, srv: Server, srv': Server) {
    forall t, p :: IsCopy(env, srv, t, p) ==> IsCopy(env, srv', t, p)
  }

  ghost predicate SameService(srv: Server, srv': Server) {
    && srv'.halted == srv.halted && srv'.files == srv.files && srv'.fdToPath == srv.fdToPath
    && srv'.handler == srv.handler
    && srv'.hist.(processed := srv.hist.processed) == srv.hist
  }

  lemma MoverSameService(env: Env, srv: Server, a: MoverAct)
    requires MoverCan(env, srv, a)
    ensures SameService(srv, MoverNext(env, srv, a))
  {
    hide Slice, Bytes, Filename, UnderBB;
  }

  /** Only copying writes to the store, and only to a file that is not finished yet. */
  lemma MoverCopiesStay(env: Env, srv: Server, a: MoverAct)
    requires MoverCan(env, srv, a)
    ensures CopiesStay(env, srv, MoverNext(env, srv, a))
  {
    hide Slice, Bytes, Filename;
    var srv' := MoverNext(env, srv, a);
    forall t, p | IsCopy(env, srv, t, p) ensures IsCopy(env, srv', t, p) {
      assert a.BeginCopy? || a.CopyChunk? ==> t != srv.mover.path;
    }
  }

  lemma MoverKeepsSync(env: Env, srv: Server, a: MoverAct)
    requires MutexInv(srv) && WakeInv(srv) && MoverCan(env, srv, a)
    ensures MutexInv(MoverNext(env, srv, a)) && WakeInv(MoverNext(env, srv, a))
  {
  }

  lemma MoverKeepsFifo(env: Env, srv: Server, a: MoverAct)
    requires FifoInv(env, srv) && MoverCan(env, srv, a)
    ensures FifoInv(env, MoverNext(env, srv, a))
  {
    var done, l, q := srv.hist.processed, srv.local, srv.queue;
    if a.TakeOne? {
      assert done + (l + [q[0]]) + q[1..] == done + l + q;
    } else if a.Pop? {
      assert (done + [l[0]]) + l[1..] + q == done + l + q;
    }
  }

  lemma FrontIsOriginal(env: Env, srv: Server)
    requires FifoInv(env, srv) && srv.local != []
    ensures srv.local[0] in env.source
  {
    assert srv.hist.enqueued[|srv.hist.processed|] == srv.local[0];
  }

  lemma MoverKeepsCache(env: Env, srv: Server, a: MoverAct)
    requires CacheInv(env, srv) && MoverInv(env, srv) && MoverCan(env, srv, a)
    requires CopiesStay(env, srv, MoverNext(env, srv, a))
    ensures CacheInv(env, MoverNext(env, srv, a))
  {
    var srv' := MoverNext(env, srv, a);
    if a.Publish? {
      assert IsCopy(env, srv', srv.mover.path, srv.local[0]);
    }
    forall p <- srv'.cache ensures IsCopy(env, srv', srv'.cache[p], p) {
      if !a.Publish? || p != srv.local[0] {
        assert IsCopy(env, srv, srv.cache[p], p);
      }
    }
  }

  /** Copying goes on: the target stays a prefix of the file, and is the file at the end. */
  lemma MoverKeepsTarget(env: Env, srv: Server, a: MoverAct)
    requires MoverInv(env, srv) && MoverCan(env, srv, a)
    requires srv.local != [] ==> srv.local[0] in env.source
    requires CopiesStay(env, srv, MoverNext(env, srv, a))
    requires forall t <- srv.store :: UnderBB(env, t)
    ensures MoverInv(env, MoverNext(env, srv, a))
  {
    match a
    case MakeDir(dir) => UnderStays(env, dir, "/" + Filename(srv.local[0]));
    case CopyChunk(n) =>
    case _ =>
  }

  lemma UnderStays(env: Env, dir: Path, more: Path)
    requires UnderBB(env, dir)
    ensures UnderBB(env, dir + more)
  {
  }

  lemma MoverKeepsService(env: Env, srv: Server, srv': Server)
    requires FilesInv(env, srv) && WorkInv(srv)
    requires SameService(srv, srv') && CopiesStay(env, srv, srv') && srv.cache.Keys <= srv'.cache.Keys
    ensures FilesInv(env, srv') && WorkInv(srv') && Plain(srv') == Plain(srv)
  {
  }

  /** The mover is invisible: whatever it does, every open descriptor still reads the original. */
  lemma MoverKeeps(env: Env, srv: Server, a: MoverAct)
    requires ServerInv(env, srv) && MoverCan(env, srv, a)
    ensures ServerInv(env, MoverNext(env, srv, a)) && Plain(MoverNext(env, srv, a)) == Plain(srv)
  {
    MoverSameService(env, srv, a);
    MoverCopiesStay(env, srv, a);
    MoverKeepsSync(env, srv, a);
    MoverKeepsFifo(env, srv, a);
    if srv.local != [] { FrontIsOriginal(env, srv); }
    MoverKeepsCache(env, srv, a);
    MoverKeepsTarget(env, srv, a);
    MoverKeepsService(env, srv, MoverNext(env, srv, a));
  }

  /** srv' and srv agree on everything the mover works with. */
  ghost predicate SameBackstage(srv: Server, srv': Server) {
    && srv'.cache == srv.cache && srv'.store == srv.store && srv'.local == srv.local
    && srv'.queue == srv.queue && srv'.mutex == srv.mutex && srv'.mover == srv.mover
    && srv'.hist.enqueued == srv.hist.enqueued && srv'.hist.processed == srv.hist.processed
  }

  lemma BackstageStays(env: Env, srv: Server, srv': Server)
    requires CacheInv(env, srv) && FifoInv(env, srv) && MoverInv(env, srv) && SameBackstage(srv, srv')
    ensures CacheInv(env, srv') && FifoInv(env, srv') && MoverInv(env, srv') && CopiesStay(env, srv, srv')
  {
  }

  /** A descriptor reads the same bytes through the cache as the original holds. */
  lemma SameBytes(env: Env, srv: Server, fd: Fd)
    requires FilesInv(env, srv) && CacheInv(env, srv) && Disjoint(env) && fd in srv.files
    ensures fd in srv.fdToPath && srv.fdToPath[fd] in env.source
    ensures Bytes(Visible(env, srv), srv.files[fd].path) == Bytes(env.source, srv.fdToPath[fd])
  {
  }

  lemma OpenKeepsFiles(env: Env, srv: Server, path: Path, fd: Fd)
    requires FilesInv(env, srv) && CacheInv(env, srv)
    requires srv.handler.Ready? && fd !in srv.files && path in env.source
    ensures FilesInv(env, OpenRpc(env, srv, path, fd))
  {
    OpenIs(Visible(env, srv), srv.files, fd, Redirect(srv, path));
    var srv', target := OpenRpc(env, srv, path, fd), Redirect(srv, path);
    assert srv' == srv.(files := srv.files[fd := Cursor(target, 0)], fdToPath := srv.fdToPath[fd := path]);
    assert target == path || IsCopy(env, srv, target, path);
    assert CopiesStay(env, srv, srv');
    hide OpenRpc, Redirect, IsCopy, CacheInv;
    assert srv'.files.Keys == srv.files.Keys + {fd};
  }

  lemma OpenPlain(env: Env, srv: Server, path: Path, fd: Fd)
    requires srv.handler.Ready? && fd !in srv.files && srv.fdToPath.Keys == srv.files.Keys
    ensures Plain(OpenRpc(env, srv, path, fd)) == Plain(srv)[fd := Cursor(path, 0)]
  {
    OpenIs(Visible(env, srv), srv.files, fd, Redirect(srv, path));
    hide Perform, Visible, Redirect;
  }

  /** Opening, redirected or not, opens the original at offset 0. */
  lemma OpenKeeps(env: Env, srv: Server, path: Path, fd: Fd)
    requires ServerInv(env, srv) && srv.handler.Ready? && fd !in srv.files && path in env.source
    ensures ServerInv(env, OpenRpc(env, srv, path, fd))
    ensures Plain(OpenRpc(env, srv, path, fd)) == Plain(srv)[fd := Cursor(path, 0)]
  {
    OpenKeepsFiles(env, srv, path, fd);
    OpenPlain(env, srv, path, fd);
    BackstageStays(env, srv, OpenRpc(env, srv, path, fd));
  }

  /** The POSIX call a read request stands for. */
  function ReadCall(fd: Fd, count: nat, offset: int): Call {
    if offset == -1 then Read(fd, count) else Pread(fd, count, offset)
  }

  lemma MoveKeepsFiles(env: Env, srv: Server, fd: Fd, pos: nat)
    requires FilesInv(env, srv) && fd in srv.files
    ensures var srv' := srv.(files := srv.files[fd := Cursor(srv.files[fd].path, pos)]);
            FilesInv(env, srv') && Plain(srv') == Plain(srv)[fd := Cursor(srv.fdToPath[fd], pos)]
  {
    assert srv.files.Keys + {fd} == srv.files.Keys;
  }

  /** Moving the offset of one descriptor. */
  lemma MoveKeeps(env: Env, srv: Server, fd: Fd, pos: nat)
    requires ServerInv(env, srv) && fd in srv.files
    ensures var srv' := srv.(files := srv.files[fd := Cursor(srv.files[fd].path, pos)]);
            ServerInv(env, srv') && Plain(srv') == Plain(srv)[fd := Cursor(srv.fdToPath[fd], pos)]
  {
    MoveKeepsFiles(env, srv, fd, pos);
    BackstageStays(env, srv, srv.(files := srv.files[fd := Cursor(srv.files[fd].path, pos)]));
  }

  /** io and plain are the same result, from the same descriptor of two tables. */
  ghost predicate SameResult(srv: Server, fd: Fd, io: Io, plain: Io) {
    && io.ret == plain.ret && io.data == plain.data
    && fd in srv.files && fd in srv.fdToPath && fd in io.table
    && io.table == srv.files[fd := Cursor(srv.files[fd].path, io.table[fd].pos)]
    && plain.table == Plain(srv)[fd := Cursor(srv.fdToPath[fd], io.table[fd].pos)]
  }

  /** A call sees only the bytes behind its descriptor. */
  lemma SameBytesSameResult(env: Env, srv: Server, call: Call)
    requires call.fd in srv.files && call.fd in srv.fdToPath
    requires Bytes(Visible(env, srv), srv.files[call.fd].path) == Bytes(env.source, srv.fdToPath[call.fd])
    requires call.Read? || call.Pread? || call.Seek?
    ensures SameResult(srv, call.fd, Perform(Visible(env, srv), srv.files, call),
                       Perform(env.source, Plain(srv), call))
  {
    hide Bytes, Slice, Visible;
    var fd := call.fd;
    assert Plain(srv)[fd] == Cursor(srv.fdToPath[fd], srv.files[fd].pos);
    assert srv.files[fd := srv.files[fd]] == srv.files;
    assert Plain(srv)[fd := Plain(srv)[fd]] == Plain(srv);
    hide Plain;
    match call
    case Read(_, count) =>
    case Pread(_, count, offset) =>
    case Seek(_, offset, whence) =>
  }

  /** A call through the cache and the same call on the originals. */
  lemma SameIo(env: Env, srv: Server, call: Call)
    requires FilesInv(env, srv) && CacheInv(env, srv) && Disjoint(env)
    requires call.fd in srv.files && (call.Read? || call.Pread? || call.Seek?)
    ensures SameResult(srv, call.fd, Perform(Visible(env, srv), srv.files, call),
                       Perform(env.source, Plain(srv), call))
  {
    SameBytes(env, srv, call.fd);
    hide *;
    SameBytesSameResult(env, srv, call);
  }

  lemma ReadKeeps(env: Env, srv: Server, fd: Fd, count: nat, offset: int)
    requires ServerInv(env, srv) && fd in srv.files && offset >= -1
    ensures var out := ReadRpc(env, srv, fd, count, offset);
            var io := Perform(env.source, Plain(srv), ReadCall(fd, count, offset));
            ServerInv(env, out.server) && Plain(out.server) == io.table
            && out.ret == io.ret == |io.data| && out.data == io.data
  {
    var call := ReadCall(fd, count, offset);
    SameIo(env, srv, call);
    ReadAnswers(Visible(env, srv), srv.files, call);
    hide FilesInv, CacheInv, FifoInv, MoverInv, WorkInv, MutexInv, WakeInv, Disjoint, Plain, Perform, Visible;
    MoveKeeps(env, srv, fd, Perform(Visible(env, srv), srv.files, call).table[fd].pos);
  }

  lemma ReadAnswers(files: Files, t: Table, call: Call)
    requires call.fd in t && (call.Read? || (call.Pread? && call.offset >= 0))
    ensures var io := Perform(files, t, call); io.ret == |io.data|
  {
    hide Bytes, Slice;
  }

  lemma SeekKeeps(env: Env, srv: Server, fd: Fd, offset: int, whence: Whence)
    requires ServerInv(env, srv) && fd in srv.files
    ensures var out := SeekRpc(env, srv, fd, offset, whence);
            var io := Perform(env.source, Plain(srv), Seek(fd, offset, whence));
            ServerInv(env, out.server) && Plain(out.server) == io.table && out.ret == ToInt32(io.ret)
  {
    var call := Seek(fd, offset, whence);
    SameIo(env, srv, call);
    hide FilesInv, CacheInv, FifoInv, MoverInv, WorkInv, MutexInv, WakeInv, Disjoint, Plain, Perform, Visible, ToInt32;
    MoveKeeps(env, srv, fd, Perform(Visible(env, srv), srv.files, call).table[fd].pos);
  }

  lemma CloseKeepsFiles(env: Env, srv: Server, fd: Fd)
    requires FilesInv(env, srv) && srv.handler.Ready? && fd in srv.files
    ensures FilesInv(env, CloseRpc(env, srv, fd))
  {
    CloseIs(Visible(env, srv), srv.files, fd);
    hide Perform, Visible;
    var srv' := CloseRpc(env, srv, fd);
    assert srv'.files.Keys == srv.files.Keys - {fd};
    assert srv.fdToPath[fd := srv.fdToPath[fd]] == srv.fdToPath;
  }

  lemma ClosePlain(env: Env, srv: Server, fd: Fd)
    requires srv.handler.Ready? && fd in srv.files && srv.fdToPath.Keys == srv.files.Keys
    ensures Plain(CloseRpc(env, srv, fd)) == Plain(srv) - {fd}
  {
  }

  lemma CountAppended(s: seq<Path>, p: Path, q: Path)
    ensures multiset(s + [p])[q] == multiset(s)[q] + if p == q then 1 else 0
  {
    assert multiset(s + [p]) == multiset(s) + multiset{p};
  }

  lemma CloseKeepsWork(env: Env, srv: Server, fd: Fd)
    requires WorkInv(srv) && srv.handler.Ready? && fd in srv.files
    ensures WorkInv(CloseRpc(env, srv, fd))
  {
    CloseIs(Visible(env, srv), srv.files, fd);
    hide Perform, Visible;
    var h, p, srv' := srv.hist, PathOf(srv, fd), CloseRpc(env, srv, fd);
    assert h.enqueued + [] == h.enqueued;
    assert Pending(srv') == if p in srv.cache then [] else [p];
    assert srv'.cache == srv.cache && srv'.hist.closed == h.closed + [p];
    assert srv'.hist.missed == if p in srv.cache then h.missed else h.missed + [p];
    hide PathOf, Pending, CloseRpc;
    forall q | q !in srv'.cache ensures multiset(srv'.hist.missed)[q] == multiset(srv'.hist.closed)[q] {
      CountAppended(h.closed, p, q);
      CountAppended(h.missed, p, q);
    }
  }

  lemma CloseKeepsSync(env: Env, srv: Server, fd: Fd)
    requires MutexInv(srv) && WakeInv(srv) && !srv.halted && srv.handler.Ready? && fd in srv.files
    ensures var srv' := CloseRpc(env, srv, fd);
            MutexInv(srv') && WakeInv(srv') && !srv'.halted && SameBackstage(srv, srv')
  {
    CloseIs(Visible(env, srv), srv.files, fd);
    hide Perform, Visible, PathOf;
  }

  lemma CloseKeeps(env: Env, srv: Server, fd: Fd)
    requires ServerInv(env, srv) && srv.handler.Ready? && fd in srv.files
    ensures ServerInv(env, CloseRpc(env, srv, fd))
    ensures Plain(CloseRpc(env, srv, fd)) == Plain(srv) - {fd}
  {
    ClosePlain(env, srv, fd);
    CloseKeepsFiles(env, srv, fd);
    hide FilesInv, CacheInv, FifoInv, MoverInv, WorkInv, Plain, CloseRpc;
    CloseKeepsWork(env, srv, fd);
    CloseKeepsSync(env, srv, fd);
    BackstageStays(env, srv, CloseRpc(env, srv, fd));
  }

  lemma HandlerKeepsFiles(env: Env, srv: Server)
    requires FilesInv(env, srv) && HandlerCan(srv)
    ensures FilesInv(env, HandlerNext(srv))
  {
    var srv' := HandlerNext(srv);
    assert CopiesStay(env, srv, srv');
    if srv.handler.Pushed? {
      assert srv'.fdToPath.Keys == srv.files.Keys;
    }
  }

  lemma HandlerPlain(env: Env, srv: Server)
    requires HandlerCan(srv) && srv.files.Keys !! Closing(srv)
    ensures Plain(HandlerNext(srv)) == Plain(srv)
  {
  }

  lemma HandlerKeepsQueue(env: Env, srv: Server)
    requires FifoInv(env, srv) && WorkInv(srv) && FilesInv(env, srv) && HandlerCan(srv)
    ensures FifoInv(env, HandlerNext(srv)) && WorkInv(HandlerNext(srv))
  {
    var h := srv.hist;
    if srv.handler.Signaled? {
      var p := PathOf(srv, srv.handler.fd);
      assert h.processed + srv.local + (srv.queue + [p]) == h.enqueued + [p];
      assert h.missed == (h.enqueued + [p]) + [];
    } else if srv.handler.Pushed? {
      assert h.missed == h.enqueued + [];
    }
  }

  lemma HandlerKeepsSync(srv: Server)
    requires MutexInv(srv) && WakeInv(srv) && HandlerCan(srv)
    ensures var srv' := HandlerNext(srv); MutexInv(srv') && WakeInv(srv') && srv'.halted == srv.halted
  {
    hide PathOf;
  }

  lemma HandlerKeepsCopies(env: Env, srv: Server)
    requires CacheInv(env, srv) && MoverInv(env, srv) && HandlerCan(srv)
    ensures CacheInv(env, HandlerNext(srv)) && MoverInv(env, HandlerNext(srv))
  {
    var srv' := HandlerNext(srv);
    HandlerBackstage(srv);
    hide HandlerNext;
    assert CopiesStay(env, srv, srv');
  }

  lemma HandlerBackstage(srv: Server)
    requires HandlerCan(srv)
    ensures var srv' := HandlerNext(srv);
            && srv'.cache == srv.cache && srv'.store == srv.store && srv'.local == srv.local
            && (srv'.mover == srv.mover || (srv.mover.Waiting? && srv'.mover.Woken?))
  {
    hide PathOf;
  }

  lemma HandlerKeeps(env: Env, srv: Server)
    requires ServerInv(env, srv) && HandlerCan(srv)
    ensures ServerInv(env, HandlerNext(srv)) && Plain(HandlerNext(srv)) == Plain(srv)
  {
    HandlerPlain(env, srv);
    hide FilesInv, CacheInv, FifoInv, MoverInv, WorkInv, Plain, HandlerNext, MutexInv, WakeInv;
    HandlerKeepsFiles(env, srv);
    HandlerKeepsQueue(env, srv);
    HandlerKeepsSync(srv);
    HandlerKeepsCopies(env, srv);
  }
}
