/** The invariant holds in every reachable state, and what follows from it for users of the system. */
module ProtocolSafety {
  import opened Posix
  import opened Protocol
  import opened ProtocolInvariant
  import opened ProtocolSteps
  import opened ProtocolDelivery
  import opened ProtocolReplies
  import CachingServer
  import ClientSide

  // ---- one step ----

  lemma AppKeeps(cfg: Config, sys: Sys, c: nat, call: Call, accepted: bool)
    requires LinkInv(cfg, sys) && Enabled(cfg, sys, App(c, call, accepted))
    ensures LinkInv(cfg, RunApp(cfg, sys, c, call, accepted)) && RunApp(cfg, sys, c, call, accepted).servers == sys.servers
  {
    hide ClientsInv, OwnersInv, MsgsInv;
    var cl := sys.clients[c];
    if ClientSide.IsRemote(cl, call, accepted) {
      StartRemoteKeeps(cfg, sys, c, call);
    } else if call.Close? && call.fd in cl.fdMap {
      CloseTrackedKeeps(cfg, sys, c, call.fd);
    } else {
      RunLocalKeeps(cfg, sys, c, call);
    }
  }

  lemma ServerAt(cfg: Config, sys: Sys, s: nat)
    requires Wf(cfg, sys) && ServersInv(cfg, sys) && s < cfg.servers
    ensures CachingServer.ServerInv(cfg.env, sys.servers[s])
  {
  }

  lemma OpenReqPath(cfg: Config, sys: Sys, m: Msg)
    requires LinkInv(cfg, sys) && m in sys.msgs && m.OpenReq?
    ensures m.s < cfg.servers && m.c < cfg.clients && m.path in cfg.env.source
  {
    hide ClientsInv, OwnersInv, MsgsInv;
    Flying(cfg, sys, m);
    ClientAt(cfg, sys, m.c);
  }

  lemma DeliverOpen(cfg: Config, sys: Sys, m: Msg, fd: Fd)
    requires Inv(cfg, sys) && m.OpenReq? && Enabled(cfg, sys, Deliver(m, fd))
    ensures Inv(cfg, RunDeliver(cfg, sys, m, fd))
  {
    hide LinkInv, ServersInv, CachingServer.ServerInv, CachingServer.OpenRpc, CachingServer.Plain;
    Shape(cfg, sys);
    var srv := sys.servers[m.s];
    var srv' := CachingServer.OpenRpc(cfg.env, srv, m.path, fd);
    OpenReqPath(cfg, sys, m);
    ServerAt(cfg, sys, m.s);
    CachingServer.OpenKeeps(cfg.env, srv, m.path, fd);
    PlainKeys(srv);
    PlainKeys(srv');
    OpenReqKeeps(cfg, sys, m, fd, srv');
    ServersUpdate(cfg, sys, RunDeliver(cfg, sys, m, fd), m.s);
  }

  lemma Shape(cfg: Config, sys: Sys)
    requires LinkInv(cfg, sys)
    ensures Wf(cfg, sys)
  {
  }

  lemma DeliverRead(cfg: Config, sys: Sys, m: Msg, fd: Fd)
    requires Inv(cfg, sys) && m.ReadReq? && Enabled(cfg, sys, Deliver(m, fd))
    ensures Inv(cfg, RunDeliver(cfg, sys, m, fd))
  {
    hide LinkInv, ServersInv, CachingServer.ServerInv, CachingServer.ReadRpc, CachingServer.Plain, FlyingInv;
    Shape(cfg, sys);
    RequestTarget(cfg, sys, m);
    Flying(cfg, sys, m);
    ReadCallOf(cfg, m.c, sys.clients[m.c], TableOf(cfg.env.source, sys.hist.logs[m.c]), PlainServers(sys.servers), sys.hist.owners, m);
    var srv := sys.servers[m.s];
    var out := CachingServer.ReadRpc(cfg.env, srv, m.remote, m.count, m.offset);
    ServerAt(cfg, sys, m.s);
    CachingServer.ReadKeeps(cfg.env, srv, m.remote, m.count, m.offset);
    ReadFrame(cfg, srv, m.remote, m.count, m.offset);
    ReadReqKeeps(cfg, sys, m, out.server, out.data);
    ServersUpdate(cfg, sys, RunDeliver(cfg, sys, m, fd), m.s);
  }

  lemma ReadFrame(cfg: Config, srv: Server, fd: Fd, count: int, offset: int)
    requires fd in srv.files
    ensures CachingServer.ReadRpc(cfg.env, srv, fd, count, offset).server.files.Keys == srv.files.Keys
  {
  }

  lemma DeliverSeek(cfg: Config, sys: Sys, m: Msg, fd: Fd)
    requires Inv(cfg, sys) && m.SeekReq? && Enabled(cfg, sys, Deliver(m, fd))
    ensures Inv(cfg, RunDeliver(cfg, sys, m, fd))
  {
    hide LinkInv, ServersInv, CachingServer.ServerInv, CachingServer.SeekRpc, CachingServer.Plain;
    Shape(cfg, sys);
    RequestTarget(cfg, sys, m);
    var srv := sys.servers[m.s];
    var out := CachingServer.SeekRpc(cfg.env, srv, m.remote, m.offset, m.whence);
    ServerAt(cfg, sys, m.s);
    CachingServer.SeekKeeps(cfg.env, srv, m.remote, m.offset, m.whence);
    SeekFrame(cfg, srv, m.remote, m.offset, m.whence);
    SeekReqKeeps(cfg, sys, m, out.server, out.ret);
    ServersUpdate(cfg, sys, RunDeliver(cfg, sys, m, fd), m.s);
  }

  lemma SeekFrame(cfg: Config, srv: Server, fd: Fd, offset: int, whence: Whence)
    requires fd in srv.files
    ensures CachingServer.SeekRpc(cfg.env, srv, fd, offset, whence).server.files.Keys == srv.files.Keys
  {
  }

  lemma DeliverClose(cfg: Config, sys: Sys, m: Msg, fd: Fd)
    requires Inv(cfg, sys) && m.CloseReq? && Enabled(cfg, sys, Deliver(m, fd))
    ensures Inv(cfg, RunDeliver(cfg, sys, m, fd))
  {
    hide ClientsInv, OwnersInv, MsgsInv, ServersInv, CachingServer.ServerInv, CachingServer.CloseRpc, CachingServer.Plain;
    var srv := sys.servers[m.s];
    var srv' := CachingServer.CloseRpc(cfg.env, srv, m.remote);
    CloseReqTarget(cfg, sys, m);
    ServerAt(cfg, sys, m.s);
    CachingServer.CloseKeeps(cfg.env, srv, m.remote);
    PlainKeys(srv);
    PlainKeys(srv');
    CloseReqKeeps(cfg, sys, m, srv');
    ServersUpdate(cfg, sys, RunDeliver(cfg, sys, m, fd), m.s);
  }

  lemma DeliverKeeps(cfg: Config, sys: Sys, m: Msg, fd: Fd)
    requires Inv(cfg, sys) && Enabled(cfg, sys, Deliver(m, fd))
    ensures Inv(cfg, RunDeliver(cfg, sys, m, fd))
  {
    match m
    case OpenReq(_, _, _, _) => DeliverOpen(cfg, sys, m, fd);
    case ReadReq(_, _, _, _, _) => DeliverRead(cfg, sys, m, fd);
    case SeekReq(_, _, _, _, _) => DeliverSeek(cfg, sys, m, fd);
    case CloseReq(_, _) => DeliverClose(cfg, sys, m, fd);
    case _ => DeliverReply(cfg, sys, m, fd);
  }

  lemma DeliverReply(cfg: Config, sys: Sys, m: Msg, fd: Fd)
    requires Inv(cfg, sys) && Enabled(cfg, sys, Deliver(m, fd)) && !IsRequest(m)
    ensures Inv(cfg, RunDeliver(cfg, sys, m, fd))
  {
    hide LinkInv, ServersInv, CachingServer.ServerInv;
    Shape(cfg, sys);
    var sys' := RunDeliver(cfg, sys, m, fd);
    if m.BulkPush? {
      BulkPushKeeps(cfg, sys, m);
      assert sys.servers[m.s := sys.servers[m.s]] == sys.servers;
    } else if m.OpenResp? {
      OpenedKeeps(cfg, sys, m);
    } else {
      ResultKeeps(cfg, sys, m);
    }
    SameServers(cfg, sys, sys');
  }

  lemma MoverStepKeeps(cfg: Config, sys: Sys, s: nat, a: CachingServer.MoverAct, srv': Server)
    requires Wf(cfg, sys) && s < cfg.servers && CachingServer.MoverCan(cfg.env, sys.servers[s], a)
    requires srv' == CachingServer.MoverNext(cfg.env, sys.servers[s], a)
    requires Inv(cfg, sys)
    ensures Inv(cfg, sys.(servers := sys.servers[s := srv']))
  {
    hide LinkInv, ServersInv, CachingServer.ServerInv, CachingServer.MoverNext, CachingServer.MoverCan, CachingServer.Plain;
    ServerAt(cfg, sys, s);
    CachingServer.MoverKeeps(cfg.env, sys.servers[s], a);
    BackgroundKeeps(cfg, sys, s, srv');
    ServersUpdate(cfg, sys, sys.(servers := sys.servers[s := srv']), s);
  }

  lemma HandlerStepKeeps(cfg: Config, sys: Sys, s: nat, srv': Server)
    requires Wf(cfg, sys) && s < cfg.servers && CachingServer.HandlerCan(sys.servers[s])
    requires srv' == CachingServer.HandlerNext(sys.servers[s])
    requires Inv(cfg, sys)
    ensures Inv(cfg, sys.(servers := sys.servers[s := srv']))
  {
    hide LinkInv, ServersInv, CachingServer.ServerInv, CachingServer.HandlerNext, CachingServer.Plain;
    ServerAt(cfg, sys, s);
    CachingServer.HandlerKeeps(cfg.env, sys.servers[s]);
    BackgroundKeeps(cfg, sys, s, srv');
    ServersUpdate(cfg, sys, sys.(servers := sys.servers[s := srv']), s);
  }

  /** Every step, of anybody, keeps the invariant. */
  lemma StepKeeps(cfg: Config, sys: Sys, step: Step)
    requires Inv(cfg, sys) && Enabled(cfg, sys, step)
    ensures Inv(cfg, Apply(cfg, sys, step))
  {
    hide LinkInv, ServersInv, RunApp, RunReturn, RunDeliver, CachingServer.MoverNext, CachingServer.HandlerNext;
    Shape(cfg, sys);
    var sys' := Apply(cfg, sys, step);
    match step
    case App(c, call, accepted) =>
      AppKeeps(cfg, sys, c, call, accepted);
      SameServers(cfg, sys, sys');
    case Sleep(c) =>
      SleepKeeps(cfg, sys, c, true);
      SameServers(cfg, sys, sys');
    case Wake(c) =>
      SleepKeeps(cfg, sys, c, false);
      SameServers(cfg, sys, sys');
    case Return(c) =>
      ReturnKeeps(cfg, sys, c);
      ReturnServers(cfg, sys, c);
      SameServers(cfg, sys, sys');
    case Deliver(m, fd) => DeliverKeeps(cfg, sys, m, fd);
    case Handler(s) => HandlerStepKeeps(cfg, sys, s, sys'.servers[s]);
    case Mover(s, a) => MoverStepKeeps(cfg, sys, s, a, sys'.servers[s]);
  }

  lemma ReturnServers(cfg: Config, sys: Sys, c: nat)
    requires Wf(cfg, sys) && c < cfg.clients && sys.clients[c].pc.Busy?
    ensures RunReturn(cfg, sys, c).servers == sys.servers
  {
  }

  /** Every run from a state with the invariant ends in one. */
  lemma {:induction false} RunKeeps(cfg: Config, sys: Sys, steps: seq<Step>)
    requires Inv(cfg, sys) && IsRun(cfg, sys, steps)
    ensures Inv(cfg, Execute(cfg, sys, steps))
    decreases |steps|
  {
    hide LinkInv, ServersInv, Apply, Enabled;
    Shape(cfg, sys);
    if steps != [] {
      StepKeeps(cfg, sys, steps[0]);
      RunKeeps(cfg, Apply(cfg, sys, steps[0]), steps[1..]);
    }
  }

  ghost predicate Reachable(cfg: Config, sys: Sys) {
    ConfigOk(cfg) && exists steps :: IsRun(cfg, InitialSys(cfg), steps) && sys == Execute(cfg, InitialSys(cfg), steps)
  }

  lemma ReachableInv(cfg: Config, sys: Sys)
    requires Reachable(cfg, sys)
    ensures Inv(cfg, sys)
  {
    var steps :| IsRun(cfg, InitialSys(cfg), steps) && sys == Execute(cfg, InitialSys(cfg), steps);
    InitInv(cfg);
    RunKeeps(cfg, InitialSys(cfg), steps);
  }
}
