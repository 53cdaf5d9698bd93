/** The whole system as a labelled transition system: any number of clients and servers, and a
    multiset of messages in flight, delivered in any order.
 */
module Protocol {
  import opened Wrappers
  import opened Posix
  import CachingServer
  import ClientSide

  type Server = CachingServer.Server
  type Client = ClientSide.Client

  /** servers is HVAC_SERVER_COUNT; hash is std::hash of a path. */
  datatype Config = Config(env: CachingServer.Env, hash: Path -> nat, servers: nat, clients: nat)

  ghost predicate ConfigOk(cfg: Config) {
    cfg.servers > 0 && CachingServer.Disjoint(cfg.env)
  }

  /** The server a path is routed to; recomputed by the client for every call. */
  function Host(cfg: Config, path: Path): (s: nat)
    requires cfg.servers > 0
    ensures s < cfg.servers
  {
    cfg.hash(path) % cfg.servers
  }

  /** c is the client, s the server. A response carries what its callback receives. */
  datatype Msg =
    | OpenReq(c: nat, s: nat, fd: Fd, path: Path)
    | OpenResp(c: nat, s: nat, fd: Fd, remote: Fd)
    | ReadReq(c: nat, s: nat, remote: Fd, count: int, offset: int)
    | BulkPush(c: nat, s: nat, data: Content)  // the transfer that precedes the response
    | ReadResp(c: nat, s: nat, ret: int)
    | SeekReq(c: nat, s: nat, remote: Fd, offset: int, whence: Whence)
    | SeekResp(c: nat, s: nat, ret: int)
    | CloseReq(s: nat, remote: Fd)             // has no response

  predicate IsRequest(m: Msg) {
    m.OpenReq? || m.ReadReq? || m.SeekReq? || m.CloseReq?
  }

  /** Who an open server descriptor belongs to: an open reply under way, an fd_redir_map entry,
      or a close under way. */
  datatype Owner = Reply(c: nat, fd: Fd) | Entry(c: nat, fd: Fd) | InClose

  type Owners = map<Fd, Owner>

  /** History variables; no step is enabled or steered by them.
      logs: the completed calls of each client; flying: the message its current call waits on;
      owners: for each server, the owner of each descriptor. */
  datatype History = History(logs: seq<seq<Event>>, flying: seq<Option<Msg>>, owners: seq<Owners>)

  datatype Sys = Sys(servers: seq<Server>, clients: seq<Client>, msgs: multiset<Msg>, hist: History)

  datatype Step =
    | App(c: nat, call: Call, accepted: bool)  // accepted: hvac_track_file's test of the path
    | Sleep(c: nat)
    | Wake(c: nat)                             // spurious
    | Return(c: nat)
    | Deliver(m: Msg, fd: Fd)                  // fd: the descriptor an open gets
    | Handler(s: nat)
    | Mover(s: nat, act: CachingServer.MoverAct)

  function InitialSys(cfg: Config): Sys {
    Sys(seq(cfg.servers, i => CachingServer.INITIAL),
        seq(cfg.clients, i => ClientSide.INITIAL),
        multiset{},
        History(seq(cfg.clients, i => []), seq(cfg.clients, i => None), seq(cfg.servers, i => map[])))
  }

  /** Counts and offsets fit their wire fields, and positioned reads have an offset. */
  predicate Fits(call: Call) {
    match call
    case Open(_, _) => true
    case Close(_) => true
    case Read(_, count) => count < TWO_TO_31
    case Pread(_, count, offset) => count < TWO_TO_31 && 0 <= offset <= MAX_OFFSET
    case Seek(_, offset, _) => -TWO_TO_31 <= offset < TWO_TO_31
  }

  /** The calls an application may make: open hands out a free descriptor for an existing file,
      and seeks go through hvac_remote_lseek on tracked descriptors. */
  predicate AppCan(cfg: Config, cl: Client, call: Call) {
    && cl.pc.Idle?
    && Fits(call)
    && (call.Open? ==> call.fd !in cl.kernel && call.path in cfg.env.source)
    && (call.Seek? ==> call.fd in cl.fdMap)
  }

  predicate Wf(cfg: Config, sys: Sys) {
    && cfg.servers > 0
    && |sys.servers| == |sys.hist.owners| == cfg.servers
    && |sys.clients| == |sys.hist.logs| == |sys.hist.flying| == cfg.clients
  }

  predicate ServerReady(srv: Server) {
    !srv.halted && srv.handler.Ready?
  }

  predicate Enabled(cfg: Config, sys: Sys, step: Step)
    requires Wf(cfg, sys)
  {
    match step
    case App(c, call, _) => c < cfg.clients && AppCan(cfg, sys.clients[c], call)
    case Sleep(c) => c < cfg.clients && sys.clients[c].pc.Busy? && !sys.clients[c].pc.asleep && sys.clients[c].done != 1
    case Wake(c) => c < cfg.clients && sys.clients[c].pc.Busy? && sys.clients[c].pc.asleep
    case Return(c) => c < cfg.clients && sys.clients[c].pc.Busy? && !sys.clients[c].pc.asleep && sys.clients[c].done == 1
    case Deliver(m, fd) =>
      && m in sys.msgs && m.s < cfg.servers && (m.CloseReq? || m.c < cfg.clients)
      && (IsRequest(m) || m.BulkPush? ==> ServerReady(sys.servers[m.s]))
      && (m.OpenReq? ==> fd !in sys.servers[m.s].files)
    case Handler(s) => s < cfg.servers && !sys.servers[s].halted && CachingServer.HandlerCan(sys.servers[s])
    case Mover(s, a) => s < cfg.servers && !sys.servers[s].halted && CachingServer.MoverCan(cfg.env, sys.servers[s], a)
  }

  // ---- what each step does ----

  /** The request a remote call sends. */
  function Request(cfg: Config, c: nat, cl: Client, call: Call): (m: Msg)
    requires cfg.servers > 0 && !call.Close?
    requires call.Open? || call.fd in cl.fdMap
    ensures IsRequest(m) && !m.CloseReq? && m.c == c
    ensures m.s == Host(cfg, if call.Open? then call.path else cl.fdMap[call.fd])
  {
    match call
    case Open(fd, path) => OpenReq(c, Host(cfg, path), fd, path)
    case Read(fd, count) => ReadReq(c, Host(cfg, cl.fdMap[fd]), ClientSide.Redir(cl, fd), ToInt32(count), -1)
    case Pread(fd, count, offset) =>
      ReadReq(c, Host(cfg, cl.fdMap[fd]), ClientSide.Redir(cl, fd), ToInt32(count), offset)
    case Seek(fd, offset, whence) =>
      SeekReq(c, Host(cfg, cl.fdMap[fd]), ClientSide.Redir(cl, fd), ToInt32(offset), whence)
  }

  function Begin(cfg: Config, cl: Client, call: Call): Client
    requires !call.Close?
  {
    match call
    case Open(fd, path) => ClientSide.BeginOpen(cfg.env.source, cl, fd, path)
    case Read(_, count) => ClientSide.BeginRead(cl, call, count)
    case Pread(_, count, _) => ClientSide.BeginRead(cl, call, count)
    case Seek(_, _, _) => ClientSide.BeginSeek(cl, call)
  }

  function Logged(h: History, c: nat, e: Event): History
    requires c < |h.logs|
  {
    h.(logs := h.logs[c := h.logs[c] + [e]])
  }

  function WithOwner(owners: Owners, remote: Fd, owner: Owner): Owners {
    owners[remote := owner]
  }

  /** A call that needs a server: the request is sent, the thread will block. */
  function StartRemote(cfg: Config, sys: Sys, c: nat, call: Call): (sys': Sys)
    requires Wf(cfg, sys) && c < cfg.clients && !call.Close?
    requires call.Open? || call.fd in sys.clients[c].fdMap
    ensures Wf(cfg, sys')
  {
    var m := Request(cfg, c, sys.clients[c], call);
    sys.(clients := sys.clients[c := Begin(cfg, sys.clients[c], call)],
         msgs := sys.msgs + multiset{m},
         hist := sys.hist.(flying := sys.hist.flying[c := Some(m)]))
  }

  /** A call the local kernel completes. */
  function RunLocal(cfg: Config, sys: Sys, c: nat, call: Call): (sys': Sys)
    requires Wf(cfg, sys) && c < cfg.clients
    ensures Wf(cfg, sys')
  {
    var io := Perform(cfg.env.source, sys.clients[c].kernel, call);
    sys.(clients := sys.clients[c := ClientSide.RunLocal(cfg.env.source, sys.clients[c], call)],
         hist := Logged(sys.hist, c, Event(call, io.ret, io.data)))
  }

  /** Close of a tracked descriptor: the request is sent and nobody waits for it. */
  function CloseTracked(cfg: Config, sys: Sys, c: nat, fd: Fd): (sys': Sys)
    requires Wf(cfg, sys) && c < cfg.clients && fd in sys.clients[c].fdMap
    ensures Wf(cfg, sys')
  {
    var cl := sys.clients[c];
    var s, remote := Host(cfg, cl.fdMap[fd]), ClientSide.Redir(cl, fd);
    var io := Perform(cfg.env.source, cl.kernel, Close(fd));
    sys.(clients := sys.clients[c := ClientSide.RemoveFd(cfg.env.source, cl, fd)],
         msgs := sys.msgs + multiset{CloseReq(s, remote)},
         hist := Logged(sys.hist, c, Event(Close(fd), io.ret, io.data)).(
           owners := sys.hist.owners[s := WithOwner(sys.hist.owners[s], remote, InClose)]))
  }

  function RunApp(cfg: Config, sys: Sys, c: nat, call: Call, accepted: bool): (sys': Sys)
    requires Wf(cfg, sys) && c < cfg.clients
    ensures Wf(cfg, sys')
  {
    if ClientSide.IsRemote(sys.clients[c], call, accepted) then StartRemote(cfg, sys, c, call)
    else if call.Close? && call.fd in sys.clients[c].fdMap then CloseTracked(cfg, sys, c, call.fd)
    else RunLocal(cfg, sys, c, call)
  }

  function RunReturn(cfg: Config, sys: Sys, c: nat): (sys': Sys)
    requires Wf(cfg, sys) && c < cfg.clients && sys.clients[c].pc.Busy?
    ensures Wf(cfg, sys')
  {
    var out := ClientSide.Finish(cfg.env.source, sys.clients[c]);
    sys.(clients := sys.clients[c := out.client],
         hist := Logged(sys.hist, c, Event(sys.clients[c].pc.call, out.ret, out.data)))
  }

  /** The server answers m with m'. */
  function Answer(sys: Sys, m: Msg, srv: Server, m': Msg): Sys
    requires m in sys.msgs && m.s < |sys.servers| && !m.CloseReq? && m.c < |sys.hist.flying|
  {
    sys.(servers := sys.servers[m.s := srv],
         msgs := sys.msgs - multiset{m} + multiset{m'},
         hist := sys.hist.(flying := sys.hist.flying[m.c := Some(m')]))
  }

  /** A handler that sends nothing: a close, or one that failed an assert. */
  function Consume(sys: Sys, m: Msg, srv: Server): Sys
    requires m in sys.msgs && m.s < |sys.servers|
  {
    sys.(servers := sys.servers[m.s := srv], msgs := sys.msgs - multiset{m})
  }

  /** The client's callback consumes the response. */
  function CallBack(sys: Sys, m: Msg, cl: Client): Sys
    requires m in sys.msgs && !m.CloseReq? && m.c < |sys.clients| == |sys.hist.flying|
  {
    sys.(clients := sys.clients[m.c := cl],
         msgs := sys.msgs - multiset{m},
         hist := sys.hist.(flying := sys.hist.flying[m.c := None]))
  }

  function Owned(sys: Sys, s: nat, remote: Fd, owner: Owner): Sys
    requires s < |sys.hist.owners|
  {
    sys.(hist := sys.hist.(owners := sys.hist.owners[s := WithOwner(sys.hist.owners[s], remote, owner)]))
  }

  function RunDeliver(cfg: Config, sys: Sys, m: Msg, fd: Fd): (sys': Sys)
    requires Wf(cfg, sys) && Enabled(cfg, sys, Deliver(m, fd))
    ensures Wf(cfg, sys')
  {
    var srv := sys.servers[m.s];
    match m
    case OpenReq(c, s, lfd, path) =>
      Owned(Answer(sys, m, CachingServer.OpenRpc(cfg.env, srv, path, fd), OpenResp(c, s, lfd, fd)),
            s, fd, Reply(c, lfd))
    case ReadReq(c, s, remote, count, offset) =>
      var out := CachingServer.ReadRpc(cfg.env, srv, remote, count, offset);
      if out.ret < 0 then Consume(sys, m, out.server)
      else Answer(sys, m, out.server, BulkPush(c, s, out.data))
    case BulkPush(c, s, data) =>
      var landed := sys.(clients := sys.clients[c := ClientSide.BulkWrite(sys.clients[c], data)]);
      Answer(landed, m, srv, ReadResp(c, s, ToInt32(|data|)))
    case SeekReq(c, s, remote, offset, whence) =>
      var out := CachingServer.SeekRpc(cfg.env, srv, remote, offset, whence);
      Answer(sys, m, out.server, SeekResp(c, s, out.ret))
    case CloseReq(s, remote) =>
      var sys' := Consume(sys, m, CachingServer.CloseRpc(cfg.env, srv, remote));
      sys'.(hist := sys.hist.(owners := sys.hist.owners[s := sys.hist.owners[s] - {remote}]))
    case OpenResp(c, s, lfd, remote) =>
      Owned(CallBack(sys, m, ClientSide.OpenCallback(sys.clients[c], lfd, remote)), s, remote, Entry(c, lfd))
    case ReadResp(c, s, ret) => CallBack(sys, m, ClientSide.ResultCallback(sys.clients[c], ret))
    case SeekResp(c, s, ret) => CallBack(sys, m, ClientSide.ResultCallback(sys.clients[c], ret))
  }

  function Apply(cfg: Config, sys: Sys, step: Step): (sys': Sys)
    requires Wf(cfg, sys) && Enabled(cfg, sys, step)
    ensures Wf(cfg, sys')
  {
    match step
    case App(c, call, accepted) => RunApp(cfg, sys, c, call, accepted)
    case Sleep(c) => sys.(clients := sys.clients[c := sys.clients[c].(pc := sys.clients[c].pc.(asleep := true))])
    case Wake(c) => sys.(clients := sys.clients[c := sys.clients[c].(pc := sys.clients[c].pc.(asleep := false))])
    case Return(c) => RunReturn(cfg, sys, c)
    case Deliver(m, fd) => RunDeliver(cfg, sys, m, fd)
    case Handler(s) => sys.(servers := sys.servers[s := CachingServer.HandlerNext(sys.servers[s])])
    case Mover(s, a) => sys.(servers := sys.servers[s := CachingServer.MoverNext(cfg.env, sys.servers[s], a)])
  }

  // ---- runs ----

  predicate IsRun(cfg: Config, sys: Sys, steps: seq<Step>)
    requires Wf(cfg, sys)
    decreases |steps|
  {
    steps == [] || (Enabled(cfg, sys, steps[0]) && IsRun(cfg, Apply(cfg, sys, steps[0]), steps[1..]))
  }

  function Execute(cfg: Config, sys: Sys, steps: seq<Step>): (sys': Sys)
    requires Wf(cfg, sys) && IsRun(cfg, sys, steps)
    ensures Wf(cfg, sys')
    decreases |steps|
  {
    if steps == [] then sys else Execute(cfg, Apply(cfg, sys, steps[0]), steps[1..])
  }
}
