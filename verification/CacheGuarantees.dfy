/** What the cache of a server guarantees in every reachable state and along every run, and exactly
    which reads, preads and seeks its handlers answer the way POSIX would.
 */
module CacheGuarantees {
  import opened Posix
  import opened Protocol
  import opened ProtocolInvariant
  import opened ProtocolSteps
  import opened ProtocolSafety
  import opened CachingServer
  import ClientSide

  // ---- one reachable server ----

  lemma ReachableServer(cfg: Config, sys: Sys, s: nat)
    requires Reachable(cfg, sys) && Wf(cfg, sys) && s < cfg.servers
    ensures ServerInv(cfg.env, sys.servers[s])
  {
    hide LinkInv, ServersInv, ServerInv;
    ReachableInv(cfg, sys);
    ServerAt(cfg, sys, s);
  }

  /** Whatever is published is a whole copy, and nothing is being written where it lies. */
  lemma PublishedIsComplete(cfg: Config, sys: Sys, s: nat, p: Path)
    requires Reachable(cfg, sys) && Wf(cfg, sys) && s < cfg.servers && p in sys.servers[s].cache
    ensures var srv := sys.servers[s];
            && p in cfg.env.source && srv.cache[p] in srv.store
            && srv.store[srv.cache[p]] == cfg.env.source[p]
            && srv.mover != Copying(srv.cache[p])
  {
    ReachableServer(cfg, sys, s);
  }

  /** Keys of path_cache_map, queued paths and fd_to_path values are originals, values are copies:
      one lookup is enough, and no copy is ever copied. When no close is half done, fd_to_path
      lists exactly the open descriptors. */
  lemma SingleHop(cfg: Config, sys: Sys, s: nat)
    requires Reachable(cfg, sys) && Wf(cfg, sys) && s < cfg.servers
    ensures var srv := sys.servers[s];
            && srv.cache.Keys !! srv.cache.Values
            && (forall p <- srv.cache :: srv.cache[p] !in srv.cache)
            && (forall p <- srv.hist.enqueued + srv.queue + srv.local :: !UnderBB(cfg.env, p) && p !in srv.store)
            && (forall fd <- srv.fdToPath :: srv.fdToPath[fd] !in srv.store)
            && (srv.handler.Ready? ==> srv.fdToPath.Keys == srv.files.Keys)
  {
    ReachableServer(cfg, sys, s);
    var srv := sys.servers[s];
    forall p <- srv.queue ensures p in srv.hist.enqueued {
      assert p in srv.hist.processed + srv.local + srv.queue;
    }
    forall p <- srv.local ensures p in srv.hist.enqueued {
      assert p in srv.hist.processed + srv.local + srv.queue;
    }
  }

  /** The two queues are one FIFO: what was processed, then local_list, then data_queue is what was
      enqueued, in order, also while the mover copies. And what was enqueued is, in order, every
      close that found no cached copy, but for the one a close handler is still working on. */
  lemma OneFifo(cfg: Config, sys: Sys, s: nat)
    requires Reachable(cfg, sys) && Wf(cfg, sys) && s < cfg.servers
    ensures var srv := sys.servers[s];
            && srv.hist.enqueued == srv.hist.processed + srv.local + srv.queue
            && srv.hist.missed == srv.hist.enqueued + Pending(srv)
            && (srv.handler.Ready? ==> srv.hist.missed == srv.hist.enqueued)
  {
    ReachableServer(cfg, sys, s);
  }

  /** The close handler signals before it pushes, yet a mover woken by the signal finds the queue
      non-empty when it gets the mutex back; and only one thread is ever inside the mutex. */
  lemma WokenFindsWork(cfg: Config, sys: Sys, s: nat)
    requires Reachable(cfg, sys) && Wf(cfg, sys) && s < cfg.servers
    ensures var srv := sys.servers[s];
            && (srv.mover == Woken(true) && MoverCan(cfg.env, srv, Lock) ==>
                  srv.queue != [] && MoverNext(cfg.env, srv, Lock).mover.Draining?)
            && !((srv.mover.HasLock? || srv.mover.Draining?) && (srv.handler.Locked? || srv.handler.Signaled? || srv.handler.Pushed?))
  {
    ReachableServer(cfg, sys, s);
  }

  // ---- along a run ----

  /** srv' comes later: nothing is unpublished, and a published path misses no more. */
  ghost predicate Later(srv: Server, srv': Server) {
    && srv.cache.Keys <= srv'.cache.Keys
    && (forall p <- srv.cache :: multiset(srv'.hist.missed)[p] == multiset(srv.hist.missed)[p])
  }

  lemma LaterTrans(a: Server, b: Server, c: Server)
    requires Later(a, b) && Later(b, c)
    ensures Later(a, c)
  {
  }

  lemma RpcLater(env: Env, srv: Server, path: Path, fd: Fd, count: int, offset: int, whence: Whence)
    ensures Later(srv, OpenRpc(env, srv, path, fd))
    ensures Later(srv, ReadRpc(env, srv, fd, count, offset).server)
    ensures Later(srv, SeekRpc(env, srv, fd, offset, whence).server)
  {
    hide Perform;
  }

  lemma CloseLater(env: Env, srv: Server, fd: Fd)
    ensures Later(srv, CloseRpc(env, srv, fd))
  {
    hide Perform;
    var p := PathOf(srv, fd);
    assert multiset(srv.hist.missed + [p]) == multiset(srv.hist.missed) + multiset{p};
  }

  lemma HandlerLater(srv: Server)
    requires HandlerCan(srv)
    ensures Later(srv, HandlerNext(srv)) && HandlerNext(srv).cache == srv.cache
  {
    var srv' := HandlerNext(srv);
    assert srv'.hist.missed == srv.hist.missed && srv'.cache == srv.cache by { hide Later, PathOf; }
  }

  lemma MoverLater(env: Env, srv: Server, a: MoverAct)
    requires MoverCan(env, srv, a)
    ensures Later(srv, MoverNext(env, srv, a))
    ensures !a.Publish? ==> MoverNext(env, srv, a).cache == srv.cache
  {
    var srv' := MoverNext(env, srv, a);
    assert srv'.hist.missed == srv.hist.missed && srv.cache.Keys <= srv'.cache.Keys by { hide Later, Slice, Filename; }
  }

  lemma RpcBackstage(env: Env, srv: Server, path: Path, fd: Fd, count: int, offset: int, whence: Whence)
    ensures SameBackstage(srv, OpenRpc(env, srv, path, fd))
    ensures SameBackstage(srv, ReadRpc(env, srv, fd, count, offset).server)
    ensures SameBackstage(srv, SeekRpc(env, srv, fd, offset, whence).server)
    ensures SameBackstage(srv, CloseRpc(env, srv, fd))
  {
    hide Perform, Redirect, PathOf, Visible, ToInt32;
  }

  lemma DeliverLater(cfg: Config, sys: Sys, m: Msg, fd: Fd, s: nat)
    requires Wf(cfg, sys) && Enabled(cfg, sys, Deliver(m, fd)) && s < cfg.servers
    ensures Later(sys.servers[s], RunDeliver(cfg, sys, m, fd).servers[s])
  {
    hide Later, OpenRpc, ReadRpc, SeekRpc, CloseRpc;
    var srv := sys.servers[m.s];
    Same(srv, srv.(halted := true));
    Same(sys.servers[s], sys.servers[s]);
    match m
    case OpenReq(_, _, _, path) => RpcLater(cfg.env, srv, path, fd, 0, 0, SeekSet);
    case ReadReq(_, _, remote, count, offset) => RpcLater(cfg.env, srv, "", remote, count, offset, SeekSet);
    case SeekReq(_, _, remote, offset, whence) => RpcLater(cfg.env, srv, "", remote, 0, offset, whence);
    case CloseReq(_, remote) => CloseLater(cfg.env, srv, remote);
    case _ =>
  }

  lemma Same(srv: Server, srv': Server)
    requires srv'.cache == srv.cache && srv'.hist == srv.hist
    ensures Later(srv, srv')
  {
  }

  lemma StepLater(cfg: Config, sys: Sys, step: Step, s: nat)
    requires Wf(cfg, sys) && Enabled(cfg, sys, step) && s < cfg.servers
    ensures Later(sys.servers[s], Apply(cfg, sys, step).servers[s])
  {
    hide Later, HandlerNext, MoverNext, RunDeliver, ClientSide.Finish, Perform;
    Same(sys.servers[s], sys.servers[s]);
    match step
    case Deliver(m, fd) => DeliverLater(cfg, sys, m, fd, s);
    case Handler(r) => HandlerLater(sys.servers[r]);
    case Mover(r, a) => MoverLater(cfg.env, sys.servers[r], a);
    case _ =>
  }

  /** The domain of path_cache_map only grows, and no close handled after its path was published
      misses the cache. */
  lemma {:induction false} RunLater(cfg: Config, sys: Sys, steps: seq<Step>, s: nat)
    requires Wf(cfg, sys) && IsRun(cfg, sys, steps) && s < cfg.servers
    ensures Later(sys.servers[s], Execute(cfg, sys, steps).servers[s])
    decreases |steps|
  {
    hide Later, Apply, Enabled;
    Same(sys.servers[s], sys.servers[s]);
    if steps != [] {
      var sys' := Apply(cfg, sys, steps[0]);
      StepLater(cfg, sys, steps[0], s);
      RunLater(cfg, sys', steps[1..], s);
      LaterTrans(sys.servers[s], sys'.servers[s], Execute(cfg, sys, steps).servers[s]);
    }
  }

  /** The copies of p begun so far, whether they succeeded or not. */
  ghost function Copies(srv: Server, p: Path): nat {
    multiset(srv.hist.processed)[p] + if InFile(srv.mover) && srv.local != [] && srv.local[0] == p then 1 else 0
  }

  lemma CopiesAreMisses(env: Env, srv: Server, p: Path)
    requires FifoInv(env, srv) && MoverInv(env, srv) && WorkInv(srv)
    ensures Copies(srv, p) <= multiset(srv.hist.missed)[p]
    ensures p !in srv.cache ==> multiset(srv.hist.missed)[p] == multiset(srv.hist.closed)[p]
  {
    hide PathOf, IsCopy;
    var h := srv.hist;
    assert multiset(h.missed) == multiset(h.enqueued) + multiset(Pending(srv));
    assert multiset(h.enqueued) == multiset(h.processed) + multiset(srv.local) + multiset(srv.queue);
    if srv.local != [] {
      assert srv.local[0] in multiset(srv.local);
    }
  }

  /** Bounded work: in all the future of the step that first publishes p, the server begins at most
      as many copies of p as closes of p it had handled before that step; and p stays published. */
  lemma BoundedCopies(cfg: Config, sys: Sys, step: Step, after: seq<Step>, s: nat, p: Path)
    requires Reachable(cfg, sys) && Wf(cfg, sys) && Enabled(cfg, sys, step) && s < cfg.servers
    requires p !in sys.servers[s].cache && p in Apply(cfg, sys, step).servers[s].cache
    requires IsRun(cfg, Apply(cfg, sys, step), after)
    ensures var last := Execute(cfg, Apply(cfg, sys, step), after).servers[s];
            p in last.cache && Copies(last, p) <= multiset(sys.servers[s].hist.closed)[p]
  {
    hide LinkInv, ServersInv, IsRun, Execute, Copies;
    ReachableInv(cfg, sys);
    StepKeeps(cfg, sys, step);
    var sys1 := Apply(cfg, sys, step);
    RunKeeps(cfg, sys1, after);
    var sys2 := Execute(cfg, sys1, after);
    RunLater(cfg, sys1, after, s);
    PublishingStep(cfg, sys, step, s, p);
    WorkOf(cfg, sys, s, p);
    WorkOf(cfg, sys2, s, p);
  }

  lemma WorkOf(cfg: Config, sys: Sys, s: nat, p: Path)
    requires Wf(cfg, sys) && ServersInv(cfg, sys) && s < cfg.servers
    ensures Copies(sys.servers[s], p) <= multiset(sys.servers[s].hist.missed)[p]
    ensures p !in sys.servers[s].cache ==>
      multiset(sys.servers[s].hist.missed)[p] == multiset(sys.servers[s].hist.closed)[p]
  {
    ServerAt(cfg, sys, s);
    hide ServersInv, Copies, WorkInv, FifoInv, MoverInv;
    CopiesAreMisses(cfg.env, sys.servers[s], p);
  }

  /** Only the mover's Publish adds to path_cache_map, and it leaves the history alone. */
  lemma PublishingStep(cfg: Config, sys: Sys, step: Step, s: nat, p: Path)
    requires Wf(cfg, sys) && Enabled(cfg, sys, step) && s < cfg.servers
    requires p !in sys.servers[s].cache && p in Apply(cfg, sys, step).servers[s].cache
    ensures step.Mover? && step.act.Publish? && sys.servers[s].local[..1] == [p]
    ensures Apply(cfg, sys, step).servers[s].hist == sys.servers[s].hist
  {
    hide ClientSide.Finish, Perform, HandlerNext, RunDeliver, Later;
    match step
    case Deliver(m, fd) => DeliverBackstage(cfg, sys, m, fd, s);
    case Handler(r) => HandlerLater(sys.servers[r]);
    case Mover(r, a) => MoverLater(cfg.env, sys.servers[r], a);
    case _ =>
  }

  /** A delivery touches nothing the mover works with. */
  lemma DeliverBackstage(cfg: Config, sys: Sys, m: Msg, fd: Fd, s: nat)
    requires Wf(cfg, sys) && Enabled(cfg, sys, Deliver(m, fd)) && s < cfg.servers
    ensures SameBackstage(sys.servers[s], RunDeliver(cfg, sys, m, fd).servers[s])
  {
    hide OpenRpc, ReadRpc, SeekRpc, CloseRpc, ToInt32, Bytes, SameBackstage;
    var srv := sys.servers[m.s];
    Unmoved(sys.servers[s]);
    match m
    case OpenReq(_, _, _, path) => RpcBackstage(cfg.env, srv, path, fd, 0, 0, SeekSet);
    case ReadReq(_, _, remote, count, offset) => RpcBackstage(cfg.env, srv, "", remote, count, offset, SeekSet);
    case SeekReq(_, _, remote, offset, whence) => RpcBackstage(cfg.env, srv, "", remote, 0, offset, whence);
    case CloseReq(_, remote) => RpcBackstage(cfg.env, srv, "", remote, 0, 0, SeekSet);
    case _ =>
  }

  lemma Unmoved(srv: Server)
    ensures SameBackstage(srv, srv)
  {
  }

  // ---- exactly which requests are answered as POSIX would ----

  /** A pread whose count crosses the 32-bit field and whose offset the 64-bit one is answered as
      POSIX demands, leaving the server up and every offset alone, if and only if its offset is not
      negative (-1 is taken for a sequential read, the others end the server), the count does not
      turn negative in its field (that ends the server too), and it either survives the field or
      what is left of it still reaches the end of the file. */
  lemma PreadServedIff(env: Env, srv: Server, fd: Fd, count: nat, offset: int)
    requires ServerInv(env, srv) && fd in srv.files
    ensures PathOf(srv, fd) in env.source
    ensures var k, file := ToInt32(count), env.source[PathOf(srv, fd)];
            var out := ReadRpc(env, srv, fd, k, offset);
            var right := if offset < 0 then out.ret == -1 && out.data == []
                         else out.ret == |out.data| && IsPart(file, offset, count, out.data);
            (right && !out.server.halted && Plain(out.server) == Plain(srv))
            <==> offset >= 0 && k >= 0 && (k == count || |file| <= offset + k)
  {
    hide ServerInv, ReadRpc, ToInt32, Perform, Plain, PathOf, IsPart;
    var k := ToInt32(count);
    Original(env, srv, fd);
    if offset < -1 || k < 0 {
      NegativeHalts(env, srv, fd, k, offset);
    } else {
      ReadAnswered(env, srv, fd, k, offset);
      if offset >= 0 { ShortOrWhole(env.source[PathOf(srv, fd)], offset, k, count, ReadRpc(env, srv, fd, k, offset).data); }
    }
  }

  /** A sequential read likewise, from the offset its descriptor has. */
  lemma ReadServedIff(env: Env, srv: Server, fd: Fd, count: nat)
    requires ServerInv(env, srv) && fd in srv.files
    ensures PathOf(srv, fd) in env.source
    ensures var k, file, p := ToInt32(count), env.source[PathOf(srv, fd)], srv.files[fd].pos;
            var out := ReadRpc(env, srv, fd, k, -1);
            (&& out.ret == |out.data| && IsPart(file, p, count, out.data) && !out.server.halted
             && Plain(out.server) == Plain(srv)[fd := Cursor(PathOf(srv, fd), p + |out.data|)])
            <==> k >= 0 && (k == count || |file| <= p + k)
  {
    hide ServerInv, ReadRpc, ToInt32, Perform, Plain, PathOf, IsPart;
    var k := ToInt32(count);
    Original(env, srv, fd);
    if k < 0 {
      NegativeHalts(env, srv, fd, k, -1);
    } else {
      ReadAnswered(env, srv, fd, k, -1);
      ShortOrWhole(env.source[PathOf(srv, fd)], srv.files[fd].pos, k, count, ReadRpc(env, srv, fd, k, -1).data);
    }
  }

  /** What a request with a count and an offset that cannot end the server is answered. */
  lemma ReadAnswered(env: Env, srv: Server, fd: Fd, k: nat, offset: int)
    requires ServerInv(env, srv) && fd in srv.files && offset >= -1
    ensures PathOf(srv, fd) in env.source
    ensures var file, p := env.source[PathOf(srv, fd)], if offset == -1 then srv.files[fd].pos else offset;
            var out := ReadRpc(env, srv, fd, k, offset);
            && out.ret == |out.data| && IsPart(file, p, k, out.data) && !out.server.halted
            && Plain(out.server) ==
               if offset == -1 then Plain(srv)[fd := Cursor(PathOf(srv, fd), p + |out.data|)] else Plain(srv)
  {
    hide ServerInv, ReadRpc, Perform, Plain, PathOf;
    Original(env, srv, fd);
    ReadKeeps(env, srv, fd, k, offset);
    NotHalted(env, ReadRpc(env, srv, fd, k, offset).server);
    if offset == -1 {
      ReadIs(env.source, Plain(srv), fd, k);
    } else {
      PreadIs(env.source, Plain(srv), fd, k, offset);
    }
  }

  lemma Original(env: Env, srv: Server, fd: Fd)
    requires ServerInv(env, srv) && fd in srv.files
    ensures PathOf(srv, fd) in env.source
    ensures fd in Plain(srv) && Plain(srv)[fd] == Cursor(PathOf(srv, fd), srv.files[fd].pos)
  {
  }

  /** A smaller count cuts a part short unless it too reaches the end. */
  lemma ShortOrWhole(file: Content, from: nat, k: nat, count: nat, data: Content)
    requires IsPart(file, from, k, data)
    ensures k <= count ==> (IsPart(file, from, count, data) <==> k == count || |file| <= from + k)
  {
  }

  lemma NotHalted(env: Env, srv: Server)
    requires ServerInv(env, srv)
    ensures !srv.halted
  {
  }

  lemma NegativeHalts(env: Env, srv: Server, fd: Fd, count: int, offset: int)
    requires offset < -1 || count < 0
    ensures ReadRpc(env, srv, fd, count, offset).server.halted
  {
  }

  /** One byte at offset -1 of an open two-byte file: POSIX refuses, the handler delivers. */
  lemma PreadAtMinusOne()
    ensures var env, srv := Env(map["/d/f" := [7, 8]], "/bb"), OpenRpc(Env(map["/d/f" := [7, 8]], "/bb"), INITIAL, "/d/f", 3);
            && Perform(env.source, Plain(srv), Pread(3, 1, -1)).ret == -1
            && ReadRpc(env, srv, 3, 1, -1).ret == 1 && ReadRpc(env, srv, 3, 1, -1).data == [7]
  {
  }

  /** Reading at most 2 GiB of an open one-byte file ends the server; reading at most 4 GiB returns
      nothing. POSIX delivers the byte both times. */
  lemma PreadTwoGiB()
    ensures var env, srv := Env(map["/d/f" := [7]], "/bb"), OpenRpc(Env(map["/d/f" := [7]], "/bb"), INITIAL, "/d/f", 3);
            && ReadRpc(env, srv, 3, ToInt32(TWO_TO_31), 0).server.halted
            && ReadRpc(env, srv, 3, ToInt32(TWO_TO_32), 0).ret == 0
            && Perform(env.source, Plain(srv), Pread(3, TWO_TO_31, 0)).data == [7]
            && Perform(env.source, Plain(srv), Pread(3, TWO_TO_32, 0)).data == [7]
  {
    var c: Content := [7];
    assert c[0..] == c;
  }

  /** A seek goes where POSIX says, from the start, the current offset or the end of the file, or
      nowhere if that place is negative or too large; and its reply is the POSIX result if and only if
      the place is below 2^31 or too large. */
  lemma SeekServedIff(env: Env, srv: Server, fd: Fd, offset: int, whence: Whence)
    requires ServerInv(env, srv) && fd in srv.files
    ensures PathOf(srv, fd) in env.source
    ensures var target := match whence
                          case SeekSet => offset
                          case SeekCur => srv.files[fd].pos + offset
                          case SeekEnd => |env.source[PathOf(srv, fd)]| + offset;
            var out, allowed := SeekRpc(env, srv, fd, offset, whence), 0 <= target <= MAX_OFFSET;
            && !out.server.halted
            && Plain(out.server) == (if allowed then Plain(srv)[fd := Cursor(PathOf(srv, fd), target)] else Plain(srv))
            && (out.ret == (if allowed then target else -1) <==> target < 0x8000_0000 || target > MAX_OFFSET)
  {
    hide ServerInv, SeekRpc, Perform, ToInt32, Plain, PathOf;
    Original(env, srv, fd);
    SeekKeeps(env, srv, fd, offset, whence);
    NotHalted(env, SeekRpc(env, srv, fd, offset, whence).server);
    SeekIs(env.source, Plain(srv), fd, offset, whence);
  }

  /** One step past the largest 32-bit offset: the reply says -2^31. */
  lemma SeekPastTwoGiB()
    ensures var env := Env(map["/d/f" := []], "/bb");
            var srv := SeekRpc(env, OpenRpc(env, INITIAL, "/d/f", 3), 3, TWO_TO_31 - 1, SeekSet).server;
            && Perform(env.source, Plain(srv), Seek(3, 1, SeekCur)).ret == TWO_TO_31
            && SeekRpc(env, srv, 3, 1, SeekCur).ret == -TWO_TO_31
  {
  }
}
