/** What a server's longer operations do when everybody else takes steps in between: a whole wake
    cycle of the mover, a whole close, and opens and closes long after a path was published.
 */
module Interleaving {
  import opened Posix
  import opened Protocol
  import opened ProtocolInvariant
  import opened ProtocolSafety
  import opened CachingServer
  import opened CacheGuarantees
  import ClientSide

  // ---- what one step does to the mover's side ----

  predicate MoverOf(step: Step, s: nat) {
    step.Mover? && step.s == s
  }

  /** Somebody else's step, as the mover sees it: at most a wake-up and paths pushed, and none of
      these while the mover has the mutex. */
  ghost predicate Aside(srv: Server, srv': Server) {
    && srv'.cache == srv.cache && srv'.store == srv.store && srv'.local == srv.local
    && srv'.hist.processed == srv.hist.processed && srv.hist.enqueued <= srv'.hist.enqueued
    && (srv'.mover == srv.mover || (srv.mover.Waiting? && srv'.mover.Woken?))
    && (srv.mover.Draining? ==> srv'.queue == srv.queue)
  }

  lemma BackstageIsAside(srv: Server, srv': Server)
    requires SameBackstage(srv, srv')
    ensures Aside(srv, srv')
  {
  }

  lemma HandlerAside(srv: Server)
    requires MutexInv(srv) && HandlerCan(srv)
    ensures Aside(srv, HandlerNext(srv))
  {
    hide PathOf;
  }

  lemma StepAside(cfg: Config, sys: Sys, step: Step, s: nat)
    requires Wf(cfg, sys) && Enabled(cfg, sys, step) && s < cfg.servers && !MoverOf(step, s)
    requires MutexInv(sys.servers[s])
    ensures Aside(sys.servers[s], Apply(cfg, sys, step).servers[s])
  {
    hide Aside, SameBackstage, MutexInv, HandlerNext, MoverNext, RunDeliver, ClientSide.Finish, Perform;
    Unmoved(sys.servers[s]);
    BackstageIsAside(sys.servers[s], sys.servers[s]);
    match step
    case Deliver(m, fd) =>
      DeliverBackstage(cfg, sys, m, fd, s);
      BackstageIsAside(sys.servers[s], RunDeliver(cfg, sys, m, fd).servers[s]);
    case Handler(r) => if r == s { HandlerAside(sys.servers[s]); }
    case _ =>
  }

  lemma MoverAlone(cfg: Config, sys: Sys, step: Step, s: nat)
    requires Wf(cfg, sys) && Enabled(cfg, sys, step) && s < cfg.servers && MoverOf(step, s)
    ensures MoverCan(cfg.env, sys.servers[s], step.act)
    ensures Apply(cfg, sys, step).servers[s] == MoverNext(cfg.env, sys.servers[s], step.act)
  {
  }

  /** The parts of the invariant the mover's progress rests on. */
  lemma ServerParts(cfg: Config, sys: Sys, s: nat)
    requires Inv(cfg, sys) && s < cfg.servers
    ensures Wf(cfg, sys) && !sys.servers[s].halted
    ensures MutexInv(sys.servers[s]) && FifoInv(cfg.env, sys.servers[s]) && MoverInv(cfg.env, sys.servers[s])
    ensures CacheInv(cfg.env, sys.servers[s]) && FilesInv(cfg.env, sys.servers[s]) && Disjoint(cfg.env) && WorkInv(sys.servers[s])
  {
    hide LinkInv, ServersInv;
    Shape(cfg, sys);
    ServerAt(cfg, sys, s);
  }

  // ---- a wake cycle loses nothing ----

  /** The paths `due` were enqueued, and unless the mover is still draining they have all left
      data_queue. */
  ghost predicate Taken(srv: Server, due: seq<Path>) {
    && due <= srv.hist.enqueued
    && (srv.mover.Draining? || |due| <= |srv.hist.processed| + |srv.local|)
  }

  lemma MoverTakes(env: Env, srv: Server, a: MoverAct, due: seq<Path>)
    requires FifoInv(env, srv) && MoverCan(env, srv, a) && Taken(srv, due)
    ensures Taken(MoverNext(env, srv, a), due)
  {
    hide Slice, Bytes, Filename, UnderBB;
  }

  /** Since the first `from` paths, whatever has been processed is published, the file just done
      included. */
  ghost predicate PublishedFrom(srv: Server, from: nat) {
    && from <= |srv.hist.processed|
    && (forall k | from <= k < |srv.hist.processed| :: srv.hist.processed[k] in srv.cache)
    && (srv.mover.Popping? ==> srv.local != [] && srv.local[0] in srv.cache)
  }

  lemma MoverPublishes(env: Env, srv: Server, a: MoverAct, from: nat)
    requires MoverInv(env, srv) && MoverCan(env, srv, a) && !a.Throw? && PublishedFrom(srv, from)
    ensures PublishedFrom(MoverNext(env, srv, a), from)
  {
    hide Slice, Bytes, Filename, UnderBB, IsCopy;
  }

  lemma StepTakes(cfg: Config, sys: Sys, step: Step, s: nat, due: seq<Path>, from: nat)
    requires Inv(cfg, sys) && Wf(cfg, sys) && Enabled(cfg, sys, step) && s < cfg.servers
    requires Taken(sys.servers[s], due)
    ensures Taken(Apply(cfg, sys, step).servers[s], due)
    ensures PublishedFrom(sys.servers[s], from) && step != Mover(s, Throw) ==> PublishedFrom(Apply(cfg, sys, step).servers[s], from)
  {
    hide Inv, Apply, MoverNext, MoverCan, MutexInv, FifoInv, MoverInv, CacheInv, FilesInv, WorkInv;
    ServerParts(cfg, sys, s);
    var srv := sys.servers[s];
    if MoverOf(step, s) {
      MoverAlone(cfg, sys, step, s);
      MoverTakes(cfg.env, srv, step.act, due);
      if PublishedFrom(srv, from) && step != Mover(s, Throw) { MoverPublishes(cfg.env, srv, step.act, from); }
    } else {
      StepAside(cfg, sys, step, s);
    }
  }

  lemma {:induction false} RunTakes(cfg: Config, sys: Sys, steps: seq<Step>, s: nat, due: seq<Path>, from: nat)
    requires Inv(cfg, sys) && Wf(cfg, sys) && IsRun(cfg, sys, steps) && s < cfg.servers
    requires Taken(sys.servers[s], due)
    ensures Taken(Execute(cfg, sys, steps).servers[s], due)
    ensures PublishedFrom(sys.servers[s], from) && Mover(s, Throw) !in steps ==>
      PublishedFrom(Execute(cfg, sys, steps).servers[s], from)
    decreases |steps|
  {
    hide Inv, Apply, Enabled, Taken, PublishedFrom;
    if steps != [] {
      StepKeeps(cfg, sys, steps[0]);
      StepTakes(cfg, sys, steps[0], s, due, from);
      RunTakes(cfg, Apply(cfg, sys, steps[0]), steps[1..], s, due, from);
    }
  }

  /** Once a mover that was draining is back at rest, whatever the handlers, the clients, the network
      and the other servers did meanwhile, every path enqueued when it was draining has been
      processed, in order; and if no copy of its threw, every path that was still to be processed has
      a finished copy published. */
  lemma EveryWakeCycle(cfg: Config, sys: Sys, steps: seq<Step>, s: nat)
    requires Reachable(cfg, sys) && Wf(cfg, sys) && IsRun(cfg, sys, steps) && s < cfg.servers
    requires sys.servers[s].mover.Draining? && Resting(Execute(cfg, sys, steps).servers[s].mover)
    ensures var srv, last := sys.servers[s], Execute(cfg, sys, steps).servers[s];
            && srv.hist.enqueued <= last.hist.processed
            && (Mover(s, Throw) !in steps ==>
                  forall p <- srv.local + srv.queue :: p in last.cache && IsCopy(cfg.env, last, last.cache[p], p))
  {
    hide Inv, IsRun, Execute, Reachable, IsCopy, MutexInv, FilesInv, WorkInv;
    var srv, last := sys.servers[s], Execute(cfg, sys, steps).servers[s];
    ReachableInv(cfg, sys);
    ServerParts(cfg, sys, s);
    RunKeeps(cfg, sys, steps);
    ServerParts(cfg, Execute(cfg, sys, steps), s);
    var due, from := srv.hist.enqueued, |srv.hist.processed|;
    RunTakes(cfg, sys, steps, s, due, from);
    assert last.local == [] && last.hist.processed <= last.hist.enqueued;
    assert due <= last.hist.processed by { PrefixOfBoth(due, last.hist.processed, last.hist.enqueued); }
    if Mover(s, Throw) !in steps {
      forall p <- srv.local + srv.queue ensures p in last.cache {
        var k :| 0 <= k < |srv.local + srv.queue| && (srv.local + srv.queue)[k] == p;
        assert due == srv.hist.processed + (srv.local + srv.queue);
        assert last.hist.processed[from + k] == due[from + k] == p;
      }
    }
  }

  lemma PrefixOfBoth(a: seq<Path>, b: seq<Path>, c: seq<Path>)
    requires a <= c && b <= c && |a| <= |b|
    ensures a <= b
  {
  }

  // ---- and it ends ----

  predicate Working(m: MoverPc) {
    m.Draining? || m.Moving? || InFile(m)
  }

  /** The most steps the copy loop can take over these paths: one per byte and five more each. */
  function Cost(env: Env, paths: seq<Path>): nat {
    if paths == [] then 0 else 5 + |Bytes(env.source, paths[0])| + Cost(env, paths[1..])
  }

  /** The most steps left for the file in hand. */
  function CostNow(env: Env, srv: Server): int
    requires InFile(srv.mover) && srv.local != []
  {
    var size := |Bytes(env.source, srv.local[0])|;
    match srv.mover
    case Target(_) => 4 + size
    case Copying(t) => 3 + size - if t in srv.store then |srv.store[t]| else 0
    case Copied(_) => 2
    case _ => 1
  }

  /** The most steps the mover can still take before it rests. */
  function Budget(env: Env, srv: Server): int {
    if srv.mover.Draining? then 2 + |srv.queue| + Cost(env, srv.local + srv.queue)
    else if srv.mover.Moving? then 1 + Cost(env, srv.local)
    else if InFile(srv.mover) && srv.local != [] then 1 + CostNow(env, srv) + Cost(env, srv.local[1..])
    else 0
  }

  lemma BudgetNotNegative(env: Env, srv: Server)
    requires MoverInv(env, srv)
    ensures Budget(env, srv) >= 0
    ensures Working(srv.mover) ==> Budget(env, srv) > 0
  {
    hide IsCopy;
  }

  lemma MoverSpends(env: Env, srv: Server, a: MoverAct)
    requires MoverInv(env, srv) && MoverCan(env, srv, a) && Working(srv.mover)
    ensures Budget(env, MoverNext(env, srv, a)) < Budget(env, srv)
  {
    hide Bytes, Filename, UnderBB, IsCopy;
    match a
    case TakeOne => assert srv.local + [srv.queue[0]] + srv.queue[1..] == srv.local + srv.queue;
    case Unlock => assert srv.local + srv.queue == srv.local;
    case _ =>
  }

  /** A step of the mover at work uses some of its budget; nobody else's step changes it, or makes the
      mover start working. */
  lemma StepSpends(cfg: Config, sys: Sys, step: Step, s: nat)
    requires Inv(cfg, sys) && Wf(cfg, sys) && Enabled(cfg, sys, step) && s < cfg.servers && Working(sys.servers[s].mover)
    ensures var before, after := Budget(cfg.env, sys.servers[s]), Budget(cfg.env, Apply(cfg, sys, step).servers[s]);
            if MoverOf(step, s) then after < before else after == before
  {
    hide Inv, Apply, MoverNext, MoverCan, MutexInv, FifoInv, MoverInv, CacheInv, FilesInv, WorkInv, Cost, Bytes;
    ServerParts(cfg, sys, s);
    if MoverOf(step, s) {
      MoverAlone(cfg, sys, step, s);
      hide Budget;
      MoverSpends(cfg.env, sys.servers[s], step.act);
    } else {
      StepAside(cfg, sys, step, s);
    }
  }

  /** The steps server s's mover takes in a run. */
  function MoverSteps(steps: seq<Step>, s: nat): nat {
    if steps == [] then 0 else (if MoverOf(steps[0], s) then 1 else 0) + MoverSteps(steps[1..], s)
  }

  /** Server s's mover is at work before every step of the run. */
  predicate AtWork(cfg: Config, sys: Sys, steps: seq<Step>, s: nat)
    requires Wf(cfg, sys) && IsRun(cfg, sys, steps) && s < cfg.servers
    decreases |steps|
  {
    steps == [] || (Working(sys.servers[s].mover) && AtWork(cfg, Apply(cfg, sys, steps[0]), steps[1..], s))
  }

  /** A wake cycle ends: however the run goes, the mover takes no more steps in it than its budget,
      which counts the paths queued and the bytes to copy when it started. */
  lemma {:induction false} CycleEnds(cfg: Config, sys: Sys, steps: seq<Step>, s: nat)
    requires Inv(cfg, sys) && Wf(cfg, sys) && IsRun(cfg, sys, steps) && s < cfg.servers && AtWork(cfg, sys, steps, s)
    ensures MoverSteps(steps, s) <= Budget(cfg.env, sys.servers[s])
    decreases |steps|
  {
    hide Inv, Apply, Enabled, Budget, MoverInv, MutexInv, FifoInv, CacheInv, FilesInv, WorkInv, Working;
    if steps == [] {
      ServerParts(cfg, sys, s);
      BudgetNotNegative(cfg.env, sys.servers[s]);
    } else {
      StepKeeps(cfg, sys, steps[0]);
      StepSpends(cfg, sys, steps[0], s);
      CycleEnds(cfg, Apply(cfg, sys, steps[0]), steps[1..], s);
    }
  }

  /** The mover at work is never stuck: it has a next step, which is not an exception unless its
      target is taken. */
  function NextAct(env: Env, srv: Server): MoverAct {
    match srv.mover
    case Draining => if srv.queue != [] then TakeOne else Unlock
    case Moving => if srv.local == [] then Loop else MakeDir(env.bb + "/")
    case Target(t) => if t in srv.store then Throw else BeginCopy
    case Copying(t) =>
      if t in srv.store && srv.local != [] && |srv.store[t]| < |Bytes(env.source, srv.local[0])|
      then CopyChunk(|Bytes(env.source, srv.local[0])| - |srv.store[t]|) else EndCopy
    case Copied(_) => Publish
    case _ => Pop
  }

  lemma NeverStuck(cfg: Config, sys: Sys, s: nat)
    requires Reachable(cfg, sys) && Wf(cfg, sys) && s < cfg.servers && Working(sys.servers[s].mover)
    ensures Enabled(cfg, sys, Mover(s, NextAct(cfg.env, sys.servers[s])))
    ensures NextAct(cfg.env, sys.servers[s]).Throw? ==>
      sys.servers[s].mover.Target? && sys.servers[s].mover.path in sys.servers[s].store
  {
    hide Inv, IsCopy, CacheInv, FilesInv, WorkInv, FifoInv, MutexInv, Reachable;
    ReachableInv(cfg, sys);
    ServerParts(cfg, sys, s);
  }

  // ---- a whole close ----

  /** Server s's handler is at work before every step of the run, and ready at the end. */
  predicate UntilReady(cfg: Config, sys: Sys, steps: seq<Step>, s: nat)
    requires Wf(cfg, sys) && IsRun(cfg, sys, steps) && s < cfg.servers
    decreases |steps|
  {
    if steps == [] then sys.servers[s].handler.Ready?
    else !sys.servers[s].handler.Ready? && UntilReady(cfg, Apply(cfg, sys, steps[0]), steps[1..], s)
  }

  /** The tables as the open handler of srv will leave them: its descriptor forgotten. */
  ghost function Forgotten(srv: Server): map<Fd, Path> {
    srv.fdToPath - Closing(srv)
  }

  /** What a step leaves alone while the handler is at work. */
  ghost predicate CloseGoesOn(srv: Server, srv': Server) {
    && srv'.files == srv.files && Forgotten(srv') == Forgotten(srv)
    && srv'.hist.closed == srv.hist.closed && srv'.hist.missed == srv.hist.missed
  }

  lemma HandlerGoesOn(srv: Server)
    requires HandlerCan(srv)
    ensures CloseGoesOn(srv, HandlerNext(srv))
  {
    hide PathOf;
    var srv' := HandlerNext(srv);
    assert srv'.files == srv.files && srv'.hist.closed == srv.hist.closed && srv'.hist.missed == srv.hist.missed;
    assert srv.handler.Pushed? || (srv'.fdToPath == srv.fdToPath && Closing(srv') == Closing(srv));
    hide HandlerNext, HandlerCan;
  }

  lemma StepGoesOn(cfg: Config, sys: Sys, step: Step, s: nat)
    requires Wf(cfg, sys) && Enabled(cfg, sys, step) && s < cfg.servers && !sys.servers[s].handler.Ready?
    ensures CloseGoesOn(sys.servers[s], Apply(cfg, sys, step).servers[s])
  {
    hide HandlerNext, MoverNext, ClientSide.Finish, Perform, OpenRpc, ReadRpc, SeekRpc, CloseRpc, CloseGoesOn;
    Still(sys.servers[s]);
    match step
    case Handler(r) => if r == s { HandlerGoesOn(sys.servers[s]); }
    case Mover(r, a) => if r == s { MoverGoesOn(cfg.env, sys.servers[s], a); }
    case _ =>
  }

  lemma Still(srv: Server)
    ensures CloseGoesOn(srv, srv)
  {
  }

  lemma MoverGoesOn(env: Env, srv: Server, a: MoverAct)
    requires MoverCan(env, srv, a)
    ensures CloseGoesOn(srv, MoverNext(env, srv, a))
  {
    MoverSameService(env, srv, a);
    hide MoverNext;
  }

  lemma {:induction false} RunGoesOn(cfg: Config, sys: Sys, steps: seq<Step>, s: nat)
    requires Wf(cfg, sys) && IsRun(cfg, sys, steps) && s < cfg.servers && UntilReady(cfg, sys, steps, s)
    ensures CloseGoesOn(sys.servers[s], Execute(cfg, sys, steps).servers[s])
    ensures Execute(cfg, sys, steps).servers[s].handler.Ready?
    decreases |steps|
  {
    hide Apply, Enabled, CloseGoesOn;
    Still(sys.servers[s]);
    if steps != [] {
      StepGoesOn(cfg, sys, steps[0], s);
      RunGoesOn(cfg, Apply(cfg, sys, steps[0]), steps[1..], s);
      GoesOnTrans(sys.servers[s], Apply(cfg, sys, steps[0]).servers[s], Execute(cfg, sys, steps).servers[s]);
    }
  }

  lemma GoesOnTrans(a: Server, b: Server, c: Server)
    requires CloseGoesOn(a, b) && CloseGoesOn(b, c)
    ensures CloseGoesOn(a, c)
  {
  }

  /** From the delivery of a close to the moment its handler is done, whatever the mover, the other
      servers and the clients do in between, the server has closed and forgotten exactly that
      descriptor, and enqueued its path exactly if it was not published when the handler looked. */
  lemma WholeClose(cfg: Config, sys: Sys, m: Msg, fd: Fd, steps: seq<Step>)
    requires Reachable(cfg, sys) && Wf(cfg, sys) && m.CloseReq? && Enabled(cfg, sys, Deliver(m, fd))
    requires IsRun(cfg, Apply(cfg, sys, Deliver(m, fd)), steps)
    requires UntilReady(cfg, Apply(cfg, sys, Deliver(m, fd)), steps, m.s)
    ensures var srv, last := sys.servers[m.s], Execute(cfg, Apply(cfg, sys, Deliver(m, fd)), steps).servers[m.s];
            var p := PathOf(srv, m.remote);
            && last.files == srv.files - {m.remote} && last.fdToPath == srv.fdToPath - {m.remote}
            && last.hist.closed == srv.hist.closed + [p]
            && last.hist.enqueued == if p in srv.cache then srv.hist.enqueued else srv.hist.enqueued + [p]
  {
    hide Inv, IsRun, Execute, UntilReady, Reachable, PathOf, CloseRpc, CloseGoesOn, WorkInv;
    hide FilesInv, CacheInv, MoverInv, FifoInv, MutexInv;
    var sys1 := Apply(cfg, sys, Deliver(m, fd));
    ReachableInv(cfg, sys);
    ServerParts(cfg, sys, m.s);
    StepKeeps(cfg, sys, Deliver(m, fd));
    RunKeeps(cfg, sys1, steps);
    var last := Execute(cfg, sys1, steps);
    ServerParts(cfg, last, m.s);
    RunGoesOn(cfg, sys1, steps, m.s);
    CloseOpened(cfg, sys, m);
    assert sys1.servers[m.s] == CloseRpc(cfg.env, sys.servers[m.s], m.remote);
    hide Apply, Enabled;
    CloseIsWhole(cfg.env, sys.servers[m.s], m.remote, last.servers[m.s]);
  }

  lemma CloseIsWhole(env: Env, srv: Server, fd: Fd, last: Server)
    requires srv.handler.Ready? && fd in srv.files && WorkInv(srv)
    requires CloseGoesOn(CloseRpc(env, srv, fd), last) && last.handler.Ready? && WorkInv(last)
    ensures var p := PathOf(srv, fd);
            && last.files == srv.files - {fd} && last.fdToPath == srv.fdToPath - {fd}
            && last.hist.closed == srv.hist.closed + [p]
            && last.hist.enqueued == if p in srv.cache then srv.hist.enqueued else srv.hist.enqueued + [p]
  {
    CloseBegins(env, srv, fd);
    hide CloseRpc, PathOf;
    assert last.fdToPath == Forgotten(last);
    assert last.hist.enqueued + [] == last.hist.enqueued && srv.hist.enqueued + [] == srv.hist.enqueued;
  }

  lemma CloseOpened(cfg: Config, sys: Sys, m: Msg)
    requires Inv(cfg, sys) && m.CloseReq? && m in sys.msgs && m.s < |sys.servers|
    ensures m.remote in sys.servers[m.s].files
  {
  }

  lemma CloseBegins(env: Env, srv: Server, fd: Fd)
    requires srv.handler.Ready? && fd in srv.files
    ensures var srv', p := CloseRpc(env, srv, fd), PathOf(srv, fd);
            && srv'.files == srv.files - {fd} && Forgotten(srv') == srv.fdToPath - {fd}
            && srv'.hist.closed == srv.hist.closed + [p]
            && srv'.hist.missed == if p in srv.cache then srv.hist.missed else srv.hist.missed + [p]
  {
    CloseIs(Visible(env, srv), srv.files, fd);
    hide Perform, Visible, PathOf;
    var p := PathOf(srv, fd);
    assert srv.fdToPath[fd := p] - {fd} == srv.fdToPath - {fd};
  }

  // ---- long after a path was published ----

  /** Every open of p delivered any time after p was published opens a finished copy of it. */
  lemma LaterOpens(cfg: Config, sys: Sys, steps: seq<Step>, m: Msg, fd: Fd)
    requires Reachable(cfg, sys) && Wf(cfg, sys) && IsRun(cfg, sys, steps) && m.OpenReq?
    requires Enabled(cfg, Execute(cfg, sys, steps), Deliver(m, fd)) && m.path in sys.servers[m.s].cache
    ensures var srv := Apply(cfg, Execute(cfg, sys, steps), Deliver(m, fd)).servers[m.s];
            && fd in srv.files && m.path in srv.cache && srv.files[fd] == Cursor(srv.cache[m.path], 0)
            && srv.cache[m.path] != m.path && IsCopy(cfg.env, srv, srv.cache[m.path], m.path)
  {
    hide Inv, IsRun, Execute, Reachable, MutexInv, FilesInv, WorkInv, FifoInv, MoverInv;
    var last := Execute(cfg, sys, steps);
    ReachableInv(cfg, sys);
    RunKeeps(cfg, sys, steps);
    RunLater(cfg, sys, steps, m.s);
    ServerParts(cfg, last, m.s);
    OpenIs(Visible(cfg.env, last.servers[m.s]), last.servers[m.s].files, fd, Redirect(last.servers[m.s], m.path));
    hide Perform, Visible;
    assert IsCopy(cfg.env, last.servers[m.s], last.servers[m.s].cache[m.path], m.path);
  }

  /** Every close of p delivered any time after p was published is done at once and enqueues
      nothing. */
  lemma LaterCloses(cfg: Config, sys: Sys, steps: seq<Step>, m: Msg, fd: Fd)
    requires Reachable(cfg, sys) && Wf(cfg, sys) && IsRun(cfg, sys, steps) && m.CloseReq?
    requires Enabled(cfg, Execute(cfg, sys, steps), Deliver(m, fd))
    requires PathOf(Execute(cfg, sys, steps).servers[m.s], m.remote) in sys.servers[m.s].cache
    ensures var before := Execute(cfg, sys, steps);
            var srv := Apply(cfg, before, Deliver(m, fd)).servers[m.s];
            && srv.handler.Ready? && srv.queue == before.servers[m.s].queue && srv.hist.enqueued == before.servers[m.s].hist.enqueued
  {
    hide Inv, IsRun, Execute, Reachable;
    var last := Execute(cfg, sys, steps);
    ReachableInv(cfg, sys);
    RunKeeps(cfg, sys, steps);
    RunLater(cfg, sys, steps, m.s);
    CloseOpened(cfg, last, m);
    CloseIs(Visible(cfg.env, last.servers[m.s]), last.servers[m.s].files, m.remote);
    hide Perform, Visible, PathOf;
  }
}
