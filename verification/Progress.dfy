/** What can always happen: no reachable state is a dead end for a client inside a call, and tracked
    opens and remote reads do complete. Whether they do is up to the scheduler and the network.
 */
module Progress {
  import opened Wrappers
  import opened Posix
  import opened Protocol
  import opened ProtocolInvariant
  import opened ProtocolSafety
  import opened Guarantees
  import opened Interleaving
  import opened Calls
  import CachingServer
  import ClientSide

  // ---- runs, one step longer ----

  lemma {:induction false} RunThenStep(cfg: Config, sys: Sys, steps: seq<Step>, step: Step)
    requires Wf(cfg, sys) && IsRun(cfg, sys, steps) && Enabled(cfg, Execute(cfg, sys, steps), step)
    ensures IsRun(cfg, sys, steps + [step])
    ensures Execute(cfg, sys, steps + [step]) == Apply(cfg, Execute(cfg, sys, steps), step)
    decreases |steps|
  {
    hide Enabled, Apply;
    if steps == [] {
      assert steps + [step] == [step] && [step][1..] == [];
    } else {
      assert (steps + [step])[1..] == steps[1..] + [step];
      RunThenStep(cfg, Apply(cfg, sys, steps[0]), steps[1..], step);
    }
  }

  lemma ReachableStep(cfg: Config, sys: Sys, step: Step)
    requires Reachable(cfg, sys) && Wf(cfg, sys) && Enabled(cfg, sys, step)
    ensures Reachable(cfg, Apply(cfg, sys, step)) && Wf(cfg, Apply(cfg, sys, step))
  {
    hide Enabled, Apply, IsRun, Execute;
    var steps :| IsRun(cfg, InitialSys(cfg), steps) && sys == Execute(cfg, InitialSys(cfg), steps);
    RunThenStep(cfg, InitialSys(cfg), steps, step);
  }

  // ---- a call can always complete ----

  /** Deliveries left before the call is answered. */
  function Hops(m: Msg): nat {
    match m
    case OpenReq(_, _, _, _) => 2
    case OpenResp(_, _, _, _) => 1
    case ReadReq(_, _, _, _, _) => 3
    case BulkPush(_, _, _) => 2
    case ReadResp(_, _, _) => 1
    case SeekReq(_, _, _, _, _) => 2
    case SeekResp(_, _, _) => 1
    case CloseReq(_, _) => 0
  }

  /** Steps left before the server's close handler is done. */
  function Handling(srv: Server): nat {
    match srv.handler
    case Ready => 0
    case Pushed(_) => 1
    case Signaled(_) => 2
    case Locked(_) => 3
    case WantLock(_) => 4
  }

  /** Steps left before its mover lets go of the mutex. */
  function Holding(srv: Server): nat {
    if srv.mover.HasLock? then 1 else if srv.mover.Draining? then 1 + |srv.queue| else 0
  }

  lemma {:induction false} Above(s: set<nat>) returns (n: nat)
    ensures forall x <- s :: x < n
    decreases |s|
  {
    n := 0;
    if s != {} {
      var x :| x in s;
      var rest := Above(s - {x});
      n := if x < rest then rest else x + 1;
      forall y <- s ensures y < n { assert y == x || y in s - {x}; }
    }
  }

  /** A step of server s, taken while message m waits for it, brings its delivery nearer. */
  lemma ServerMoves(cfg: Config, sys: Sys, s: nat) returns (step: Step)
    requires Reachable(cfg, sys) && Wf(cfg, sys) && s < cfg.servers && !sys.servers[s].handler.Ready?
    ensures Enabled(cfg, sys, step) && (step.Handler? || step.Mover?)
    ensures var sys' := Apply(cfg, sys, step);
            && sys'.msgs == sys.msgs && sys'.clients == sys.clients && sys'.hist.logs == sys.hist.logs
            && (Handling(sys'.servers[s]) < Handling(sys.servers[s])
                || (Handling(sys'.servers[s]) == Handling(sys.servers[s]) && Holding(sys'.servers[s]) < Holding(sys.servers[s])))
  {
    hide Inv, CachingServer.CacheInv, CachingServer.FilesInv, CachingServer.WorkInv, CachingServer.FifoInv;
    hide CachingServer.MoverInv, Reachable, CachingServer.PathOf;
    ReachableInv(cfg, sys);
    ServerParts(cfg, sys, s);
    var srv := sys.servers[s];
    if CachingServer.HandlerCan(srv) {
      step := Handler(s);
    } else if srv.mover.HasLock? {
      step := Mover(s, CachingServer.Wait);
    } else {
      step := Mover(s, if srv.queue != [] then CachingServer.TakeOne else CachingServer.Unlock);
    }
  }

  /** A delivery of message m that its server can take at once. */
  lemma MessageMoves(cfg: Config, sys: Sys, m: Msg) returns (step: Step)
    requires Reachable(cfg, sys) && Wf(cfg, sys) && m in sys.msgs && !m.CloseReq?
    requires m.s < cfg.servers && m.c < cfg.clients && sys.servers[m.s].handler.Ready?
    ensures Enabled(cfg, sys, step)
    ensures var sys' := Apply(cfg, sys, step);
            var cl, cl' := sys.clients[m.c], sys'.clients[m.c];
            && sys'.hist.logs == sys.hist.logs && cl'.fdMap == cl.fdMap && cl'.kernel == cl.kernel
            && cl.pc.Busy? && cl'.pc.Busy? && cl'.pc.call == cl.pc.call
            && (cl'.done == 1 ||
                  exists m' <- sys'.msgs :: !m'.CloseReq? && m'.c == m.c && Hops(m') < Hops(m))
  {
    hide Reachable, Apply, Enabled, IsPart, CachingServer.PathOf, CachingServer.Plain;
    InFlight(cfg, sys, m);
    var fd := 0;
    match m {
      case OpenReq(c, s, lfd, path) =>
        fd := Above(sys.servers[s].files.Keys);
        OpenDelivered(cfg, sys, m, fd);
        assert OpenResp(c, s, lfd, fd) in Apply(cfg, sys, Deliver(m, fd)).msgs;
      case ReadReq(c, s, _, _, _) =>
        var data := ReadDelivered(cfg, sys, m);
        assert BulkPush(c, s, data) in Apply(cfg, sys, Deliver(m, 0)).msgs;
      case SeekReq(c, s, _, _, _) =>
        var ret := SeekDelivered(cfg, sys, m);
        assert SeekResp(c, s, ret) in Apply(cfg, sys, Deliver(m, 0)).msgs;
      case BulkPush(c, s, data) =>
        TransferDelivered(cfg, sys, m);
        assert ReadResp(c, s, |data|) in Apply(cfg, sys, Deliver(m, 0)).msgs;
      case _ => ReplyDelivered(cfg, sys, m);
    }
    step := Deliver(m, fd);
  }

  /** What the thread of client c waits for. */
  lemma Awaited(cfg: Config, sys: Sys, c: nat) returns (m: Msg)
    requires Reachable(cfg, sys) && Wf(cfg, sys) && c < cfg.clients && sys.clients[c].pc.Busy? && sys.clients[c].done != 1
    ensures m in sys.msgs && !m.CloseReq? && m.c == c && m.s < cfg.servers
    ensures forall m' <- sys.msgs :: !m'.CloseReq? && m'.c == c ==> m' == m
  {
    hide Reachable;
    Rendezvous(cfg, sys, c);
    m :| m in sys.msgs && !m.CloseReq? && m.c == c;
    InFlight(cfg, sys, m);
  }

  /** From every reachable state in which a client is inside a call there is a run to a state in which
      that call has returned and is logged: no reachable state is a dead end, whatever close handlers
      and movers were in the middle of. */
  lemma {:induction false} CallCanComplete(cfg: Config, sys: Sys, c: nat) returns (steps: seq<Step>)
    requires Reachable(cfg, sys) && Wf(cfg, sys) && c < cfg.clients && sys.clients[c].pc.Busy?
    ensures IsRun(cfg, sys, steps)
    ensures var sys' := Execute(cfg, sys, steps);
            && Reachable(cfg, sys') && sys'.clients[c].pc == ClientSide.Idle
            && LogGrew(sys.hist.logs[c], sys'.hist.logs[c], sys.clients[c].pc.call)
            && sys'.clients[c].fdMap == sys.clients[c].fdMap && sys'.clients[c].kernel == sys.clients[c].kernel
  {
    if sys.clients[c].done == 1 {
      steps := [Return(c)];
      Returned(cfg, sys, c);
    } else {
      var m := Awaited(cfg, sys, c);
      steps := AwaitedCompletes(cfg, sys, m);
    }
  }

  lemma Returned(cfg: Config, sys: Sys, c: nat)
    requires Reachable(cfg, sys) && Wf(cfg, sys) && c < cfg.clients && sys.clients[c].pc.Busy? && sys.clients[c].done == 1
    ensures IsRun(cfg, sys, [Return(c)])
    ensures var sys' := Execute(cfg, sys, [Return(c)]);
            && Reachable(cfg, sys') && sys'.clients[c].pc == ClientSide.Idle
            && LogGrew(sys.hist.logs[c], sys'.hist.logs[c], sys.clients[c].pc.call)
            && sys'.clients[c].fdMap == sys.clients[c].fdMap && sys'.clients[c].kernel == sys.clients[c].kernel
  {
    hide Reachable, Apply, Enabled;
    CallReturns(cfg, sys, c);
    ReachableStep(cfg, sys, Return(c));
    assert [Return(c)][1..] == [];
  }

  lemma {:induction false} AwaitedCompletes(cfg: Config, sys: Sys, m: Msg) returns (steps: seq<Step>)
    requires Reachable(cfg, sys) && Wf(cfg, sys) && m in sys.msgs && !m.CloseReq?
    requires m.s < cfg.servers && m.c < cfg.clients && sys.clients[m.c].pc.Busy?
    ensures IsRun(cfg, sys, steps)
    ensures var sys' := Execute(cfg, sys, steps);
            && Reachable(cfg, sys') && sys'.clients[m.c].pc == ClientSide.Idle
            && LogGrew(sys.hist.logs[m.c], sys'.hist.logs[m.c], sys.clients[m.c].pc.call)
            && sys'.clients[m.c].fdMap == sys.clients[m.c].fdMap && sys'.clients[m.c].kernel == sys.clients[m.c].kernel
    decreases Hops(m), Handling(sys.servers[m.s]), Holding(sys.servers[m.s])
  {
    hide Reachable, Apply, Enabled, Hops, Handling, Holding, LogGrew;
    var step, rest;
    if !sys.servers[m.s].handler.Ready? {
      step := ServerMoves(cfg, sys, m.s);
      ReachableStep(cfg, sys, step);
      rest := AwaitedCompletes(cfg, Apply(cfg, sys, step), m);
    } else {
      step := MessageMoves(cfg, sys, m);
      ReachableStep(cfg, sys, step);
      var sys' := Apply(cfg, sys, step);
      if sys'.clients[m.c].done == 1 {
        rest := [Return(m.c)];
        Returned(cfg, sys', m.c);
      } else {
        var m' :| m' in sys'.msgs && !m'.CloseReq? && m'.c == m.c && Hops(m') < Hops(m);
        InFlight(cfg, sys', m');
        rest := AwaitedCompletes(cfg, sys', m');
      }
    }
    steps := [step] + rest;
    assert steps[0] == step && steps[1..] == rest;
  }

  // ---- what the schedule may do ----

  /** The schedule is as free as the code leaves it: a waiting mover may wake for no reason, a copy may
      advance by any amount or throw at any time, and directories may be named anyhow below BBPATH; a
      mover that wants the mutex gets it when it is free, and a close handler never stops. */
  lemma ServerMay(cfg: Config, sys: Sys, s: nat)
    requires Reachable(cfg, sys) && Wf(cfg, sys) && s < cfg.servers
    ensures var srv := sys.servers[s];
            && (srv.mover.Start? || srv.mover.Woken? ==>
                  (Enabled(cfg, sys, Mover(s, CachingServer.Lock)) <==> srv.mutex == CachingServer.Free))
            && (srv.mover.HasLock? ==> Enabled(cfg, sys, Mover(s, CachingServer.Wait)))
            && (srv.mover.Waiting? ==> Enabled(cfg, sys, Mover(s, CachingServer.SpuriousWake)))
            && (srv.mover.Target? || srv.mover.Copying? ==> Enabled(cfg, sys, Mover(s, CachingServer.Throw)))
            && (srv.mover.Copying? ==>
                  && srv.mover.path in srv.store && srv.local != [] && srv.local[0] in cfg.env.source
                  && forall n: nat | 0 < n && |srv.store[srv.mover.path]| + n <= |cfg.env.source[srv.local[0]]| ::
                       Enabled(cfg, sys, Mover(s, CachingServer.CopyChunk(n))))
            && (srv.mover.Moving? && srv.local != [] ==>
                  forall name: Path :: Enabled(cfg, sys, Mover(s, CachingServer.MakeDir(cfg.env.bb + "/" + name))))
            && (!srv.handler.Ready? ==>
                  (Enabled(cfg, sys, Handler(s)) <==> !srv.handler.WantLock? || srv.mutex == CachingServer.Free))
            && (srv.handler.Ready? ==>
                  forall m <- sys.msgs, fd: Fd :: m.CloseReq? && m.s == s ==> Enabled(cfg, sys, Deliver(m, fd)))
  {
    hide Inv, CachingServer.FilesInv, CachingServer.WorkInv, CachingServer.MutexInv, CachingServer.CacheInv, Reachable;
    hide CachingServer.IsCopy;
    ReachableInv(cfg, sys);
    ServerParts(cfg, sys, s);
    if sys.servers[s].local != [] { CachingServer.FrontIsOriginal(cfg.env, sys.servers[s]); }
  }

  /** A waiting client sleeps at any time before its callback, never after, and may wake for no
      reason. */
  lemma ClientMay(cfg: Config, sys: Sys, c: nat)
    requires Reachable(cfg, sys) && Wf(cfg, sys) && c < cfg.clients && sys.clients[c].pc.Busy?
    ensures if sys.clients[c].pc.asleep
            then sys.clients[c].done == 0 && Enabled(cfg, sys, Wake(c))
            else (Enabled(cfg, sys, Sleep(c)) <==> sys.clients[c].done == 0)
                 && (Enabled(cfg, sys, Return(c)) <==> sys.clients[c].done == 1)
  {
    hide Reachable;
    Rendezvous(cfg, sys, c);
  }

  // ---- and it does happen ----

  lemma Begins(cfg: Config)
    requires ConfigOk(cfg)
    ensures Reachable(cfg, InitialSys(cfg)) && Wf(cfg, InitialSys(cfg))
  {
    assert IsRun(cfg, InitialSys(cfg), []) && Execute(cfg, InitialSys(cfg), []) == InitialSys(cfg);
  }

  /** In every configuration any client can open any file, tracked, and read it through the server its
      path's hash chooses: a state with the read request in flight is reachable, and one in which open
      and read have both returned, the read with the first bytes of the file. */
  lemma TrackedReadHappens(cfg: Config, c: nat, fd: Fd, path: Path, count: nat) returns (asking: Sys, done: Sys)
    requires ConfigOk(cfg) && c < cfg.clients && path in cfg.env.source && count < 0x8000_0000
    ensures Reachable(cfg, asking) && Reachable(cfg, done) && c < |asking.clients| && c < |done.hist.logs|
    ensures fd in asking.clients[c].redir &&
            ReadReq(c, cfg.hash(path) % cfg.servers, asking.clients[c].redir[fd], count, -1) in asking.msgs
    ensures var file := cfg.env.source[path];
            var data := if count <= |file| then file[..count] else file;
            done.hist.logs[c] == [Event(Open(fd, path), fd, []), Event(Read(fd, count), |data|, data)]
  {
    hide Reachable, Apply, Enabled, IsRun, Execute, LogGrew, TableOf;
    var sys := InitialSys(cfg);
    Begins(cfg);
    OpenStarts(cfg, sys, c, fd, path, true);
    ReachableStep(cfg, sys, App(c, Open(fd, path), true));
    var sys1 := Apply(cfg, sys, App(c, Open(fd, path), true));
    var steps1 := CallCanComplete(cfg, sys1, c);
    var sys2 := Execute(cfg, sys1, steps1);
    TransferStarts(cfg, sys2, c, Read(fd, count));
    ReachableStep(cfg, sys2, App(c, Read(fd, count), true));
    asking := Apply(cfg, sys2, App(c, Read(fd, count), true));
    var steps3 := CallCanComplete(cfg, asking, c);
    done := Execute(cfg, asking, steps3);
    TwoCalls(cfg, sys2, asking, done, c, fd, path, count);
  }

  lemma TwoCalls(cfg: Config, sys2: Sys, asking: Sys, done: Sys, c: nat, fd: Fd, path: Path, count: nat)
    requires Reachable(cfg, done) && Wf(cfg, done) && Wf(cfg, asking) && Wf(cfg, sys2) && c < cfg.clients
    requires path in cfg.env.source && LogGrew([], sys2.hist.logs[c], Open(fd, path))
    requires asking.hist.logs[c] == sys2.hist.logs[c] && LogGrew(asking.hist.logs[c], done.hist.logs[c], Read(fd, count))
    ensures var file := cfg.env.source[path];
            var data := if count <= |file| then file[..count] else file;
            done.hist.logs[c] == [Event(Open(fd, path), fd, []), Event(Read(fd, count), |data|, data)]
  {
    hide Reachable;
    var log := done.hist.logs[c];
    OpenIsExact(cfg, done, c, 0);
    ReadIsExact(cfg, done, c, 1);
    assert log[..2][..1] == log[..1] && log[..1] == sys2.hist.logs[c];
    assert TableOf(cfg.env.source, log[..0]) == map[];
    assert cfg.env.source[path][0..] == cfg.env.source[path];
    assert log == [log[0], log[1]];
  }

  const TWO_SERVERS := Config(CachingServer.Env(map["/d/f" := [7, 8]], "/bb"), (p: Path) => 1, 2, 1)

  lemma TwoServersOk()
    ensures ConfigOk(TWO_SERVERS)
  {
    assert "/bb/"[1] != "/d/f"[1];
  }

  /** One such state, with two servers of which the second serves the file. */
  lemma Sample() returns (sys: Sys)
    ensures Reachable(TWO_SERVERS, sys) && |sys.hist.logs| > 0
    ensures sys.hist.logs[0] == [Event(Open(3, "/d/f"), 3, []), Event(Read(3, 1), 1, [7])]
  {
    hide Reachable, ConfigOk;
    TwoServersOk();
    var asking;
    asking, sys := TrackedReadHappens(TWO_SERVERS, 0, 3, "/d/f", 1);
    var file := TWO_SERVERS.env.source["/d/f"];
    assert file == [7, 8] && file[..1] == [7];
  }
}
