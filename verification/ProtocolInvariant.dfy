/** The inductive invariant of Protocol: what ties the clients' tables, the messages in flight and
    the servers' descriptors together.
 */
module ProtocolInvariant {
  import opened Wrappers
  import opened Posix
  import opened Protocol
  import CachingServer
  import ClientSide

  /** The servers seen without cache and mover. */
  ghost function PlainServers(servers: seq<Server>): (plain: seq<Table>)
    ensures |plain| == |servers|
    ensures forall s | 0 <= s < |servers| :: plain[s] == CachingServer.Plain(servers[s])
  {
    seq(|servers|, s requires 0 <= s < |servers| => CachingServer.Plain(servers[s]))
  }

  /** The server has done its part of the current call. */
  predicate Served(flying: Option<Msg>) {
    flying.None? || !IsRequest(flying.value)
  }

  /** The client's private table, advanced by the current call once its server has run it. */
  function Ahead(files: Files, cl: Client, log: seq<Event>, flying: Option<Msg>): Table {
    var t := TableOf(files, log);
    if cl.pc.Busy? && Served(flying) then Perform(files, t, cl.pc.call).table else t
  }

  function Opening(cl: Client): set<Fd> {
    if cl.pc.Busy? && cl.pc.call.Open? then {cl.pc.call.fd} else {}
  }

  /** The local tables agree with the private table t of the client's history. */
  ghost predicate LocalInv(files: Files, cl: Client, t: Table) {
    && cl.redir.Keys <= cl.fdMap.Keys <= cl.kernel.Keys
    && (forall fd <- cl.kernel :: cl.kernel[fd].path in files)
    && (forall fd <- cl.fdMap :: cl.fdMap[fd] == cl.kernel[fd].path)
    && t.Keys == cl.kernel.Keys - Opening(cl)
    && (forall fd <- t :: t[fd].path == cl.kernel[fd].path)
    && (forall fd <- t :: fd !in cl.fdMap ==> t[fd] == cl.kernel[fd])
    && (forall fd <- cl.fdMap :: fd in cl.redir || (fd in Opening(cl) && cl.done == 0))
  }

  /** Entry fd of fd_redir_map names a descriptor this client owns at the server its path is
      routed to, with the offset its private file has. */
  ghost predicate EntryInv(cfg: Config, c: nat, cl: Client, ahead: Table, plain: seq<Table>, owners: seq<Owners>, fd: Fd)
    requires cfg.servers > 0 && |plain| == |owners| == cfg.servers && fd in cl.redir
  {
    && fd in cl.fdMap && fd in ahead
    && var s := Host(cfg, cl.fdMap[fd]);
      && cl.redir[fd] in owners[s] && owners[s][cl.redir[fd]] == Entry(c, fd)
      && cl.redir[fd] in plain[s] && plain[s][cl.redir[fd]] == ahead[fd]
  }

  /** What a message in flight for client c must be. */
  ghost predicate FlyingInv(cfg: Config, c: nat, cl: Client, t: Table, plain: seq<Table>, owners: seq<Owners>, m: Msg)
    requires cfg.servers > 0 && |plain| == |owners| == cfg.servers && cl.pc.Busy?
  {
    var call := cl.pc.call;
    var io := Perform(cfg.env.source, t, call);
    && !m.CloseReq? && m.c == c
    && !call.Close? && call.fd in cl.fdMap && m.s == Host(cfg, cl.fdMap[call.fd])
    && match m
       case OpenReq(_, _, fd, path) => call == Open(fd, path) && fd !in cl.redir
       case OpenResp(_, s, fd, remote) =>
         && call.Open? && call.fd == fd && fd !in cl.redir
         && remote in owners[s] && owners[s][remote] == Reply(c, fd)
         && remote in plain[s] && plain[s][remote] == Cursor(call.path, 0)
       case ReadReq(_, _, remote, count, offset) =>
         && ((call.Read? && offset == -1) || (call.Pread? && offset == call.offset)) && count == call.count
         && call.fd in cl.redir && cl.redir[call.fd] == remote && |cl.buf| == count
       case BulkPush(_, _, data) =>
         (call.Read? || call.Pread?) && data == io.data && io.ret == |data| <= |cl.buf| == call.count
       case ReadResp(_, _, ret) =>
         (call.Read? || call.Pread?) && ret == io.ret == |io.data| <= |cl.buf| && cl.buf[..ret] == io.data
       case SeekReq(_, _, remote, offset, whence) =>
         && call == Seek(call.fd, offset, whence)
         && call.fd in cl.redir && cl.redir[call.fd] == remote
       case SeekResp(_, _, ret) => call.Seek? && ret == ToInt32(io.ret)
       case CloseReq(_, _) => false
  }

  /** The result is in place: this is what the block functions return. */
  ghost predicate AnsweredInv(files: Files, cl: Client, t: Table)
    requires cl.pc.Busy?
  {
    var call := cl.pc.call;
    var io := Perform(files, t, call);
    && !call.Close? && call.fd in cl.fdMap
    && (call.Open? ==> call.fd in cl.redir)
    && (call.Read? || call.Pread? ==> cl.readRet == io.ret == |io.data| <= |cl.buf| && cl.buf[..cl.readRet] == io.data)
    && (call.Seek? ==> cl.readRet == ToInt32(io.ret))
  }

  /** The rendezvous: done is 0 or 1, and 1 only after the callback of the current call. */
  ghost predicate RendezvousInv(cfg: Config, c: nat, cl: Client, t: Table, flying: Option<Msg>, plain: seq<Table>, owners: seq<Owners>)
    requires cfg.servers > 0 && |plain| == |owners| == cfg.servers
  {
    && (cl.done == 0 || cl.done == 1)
    && match cl.pc
       case Idle => flying.None?
       case Busy(call, asleep) =>
         && Fits(call)
         && (cl.done == 0 <==> flying.Some?)
         && (asleep ==> cl.done == 0)
         && (call.Open? ==> call.fd in cl.kernel && call.path == cl.kernel[call.fd].path)
         && match flying
            case None => AnsweredInv(cfg.env.source, cl, t)
            case Some(m) => FlyingInv(cfg, c, cl, t, plain, owners, m)
  }

  ghost predicate ClientInv(cfg: Config, c: nat, cl: Client, log: seq<Event>, flying: Option<Msg>, plain: seq<Table>, owners: seq<Owners>)
    requires cfg.servers > 0 && |plain| == |owners| == cfg.servers
  {
    var files := cfg.env.source;
    && Legal(files, log)
    && LocalInv(files, cl, TableOf(files, log))
    && (forall fd <- cl.redir :: EntryInv(cfg, c, cl, Ahead(files, cl, log, flying), plain, owners, fd))
    && RendezvousInv(cfg, c, cl, TableOf(files, log), flying, plain, owners)
  }

  ghost predicate OwnerInv(cfg: Config, sys: Sys, s: nat, remote: Fd)
    requires Wf(cfg, sys) && s < cfg.servers && remote in sys.hist.owners[s]
  {
    match sys.hist.owners[s][remote]
    case Entry(c, fd) =>
      && c < cfg.clients && fd in sys.clients[c].redir && sys.clients[c].redir[fd] == remote
      && fd in sys.clients[c].fdMap && Host(cfg, sys.clients[c].fdMap[fd]) == s
    case Reply(c, fd) => c < cfg.clients && sys.hist.flying[c] == Some(OpenResp(c, s, fd, remote))
    case InClose => CloseReq(s, remote) in sys.msgs
  }

  ghost predicate OwnersInv(cfg: Config, sys: Sys)
    requires Wf(cfg, sys)
  {
    forall s | 0 <= s < cfg.servers ::
      && sys.hist.owners[s].Keys == sys.servers[s].files.Keys
      && (forall remote <- sys.hist.owners[s] :: OwnerInv(cfg, sys, s, remote))
  }

  ghost predicate MsgInv(cfg: Config, sys: Sys, m: Msg)
    requires Wf(cfg, sys)
  {
    && sys.msgs[m] == 1
    && m.s < cfg.servers
    && if m.CloseReq? then m.remote in sys.hist.owners[m.s] && sys.hist.owners[m.s][m.remote] == InClose
       else m.c < cfg.clients && sys.hist.flying[m.c] == Some(m)
  }

  ghost predicate MsgsInv(cfg: Config, sys: Sys)
    requires Wf(cfg, sys)
  {
    && (forall m <- sys.msgs :: MsgInv(cfg, sys, m))
    && (forall c | 0 <= c < cfg.clients :: sys.hist.flying[c].Some? ==>
          var m := sys.hist.flying[c].value; m in sys.msgs && !m.CloseReq? && m.c == c)
  }

  ghost predicate ServersInv(cfg: Config, sys: Sys)
    requires Wf(cfg, sys)
  {
    forall s | 0 <= s < cfg.servers :: CachingServer.ServerInv(cfg.env, sys.servers[s])
  }

  ghost predicate ClientsInv(cfg: Config, sys: Sys)
    requires Wf(cfg, sys)
  {
    forall c | 0 <= c < cfg.clients ::
      ClientInv(cfg, c, sys.clients[c], sys.hist.logs[c], sys.hist.flying[c], PlainServers(sys.servers), sys.hist.owners)
  }

  /** All that does not concern the inside of a server. */
  ghost predicate LinkInv(cfg: Config, sys: Sys) {
    && Wf(cfg, sys)
    && OwnersInv(cfg, sys)
    && MsgsInv(cfg, sys)
    && ClientsInv(cfg, sys)
  }

  ghost predicate Inv(cfg: Config, sys: Sys) {
    ConfigOk(cfg) && LinkInv(cfg, sys) && ServersInv(cfg, sys)
  }

  lemma ClientAt(cfg: Config, sys: Sys, c: nat)
    requires Wf(cfg, sys) && ClientsInv(cfg, sys) && c < cfg.clients
    ensures ClientInv(cfg, c, sys.clients[c], sys.hist.logs[c], sys.hist.flying[c], PlainServers(sys.servers), sys.hist.owners)
  {
  }

  lemma InitInv(cfg: Config)
    requires ConfigOk(cfg)
    ensures Inv(cfg, InitialSys(cfg))
  {
    CachingServer.InitialInv(cfg.env);
  }

  // ---- what a step leaves alone ----

  /** Nothing client c owns changed between the two views of the servers. */
  ghost predicate Untouched(c: nat, plain: seq<Table>, owners: seq<Owners>, plain': seq<Table>, owners': seq<Owners>)
    requires |plain| == |owners| == |plain'| == |owners'|
  {
    forall s, r | 0 <= s < |plain| && r in owners[s] && !owners[s][r].InClose? && owners[s][r].c == c ::
      r in owners'[s] && owners'[s][r] == owners[s][r] && (r in plain[s] ==> r in plain'[s] && plain'[s][r] == plain[s][r])
  }

  lemma ClientFrame(cfg: Config, c: nat, cl: Client, log: seq<Event>, flying: Option<Msg>,
                    plain: seq<Table>, owners: seq<Owners>, plain': seq<Table>, owners': seq<Owners>)
    requires cfg.servers > 0 && |plain| == |owners| == |plain'| == |owners'| == cfg.servers
    requires ClientInv(cfg, c, cl, log, flying, plain, owners)
    requires Untouched(c, plain, owners, plain', owners')
    ensures ClientInv(cfg, c, cl, log, flying, plain', owners')
  {
    forall fd <- cl.redir
      ensures EntryInv(cfg, c, cl, Ahead(cfg.env.source, cl, log, flying), plain', owners', fd)
    {
      assert EntryInv(cfg, c, cl, Ahead(cfg.env.source, cl, log, flying), plain, owners, fd);
    }
  }

  /** All clients but c keep their invariant when nothing they own changed. */
  lemma OthersFrame(cfg: Config, sys: Sys, sys': Sys, c: nat)
    requires Wf(cfg, sys) && Wf(cfg, sys') && ClientsInv(cfg, sys)
    requires forall d | 0 <= d < cfg.clients && d != c ::
      && sys'.clients[d] == sys.clients[d] && sys'.hist.logs[d] == sys.hist.logs[d]
      && sys'.hist.flying[d] == sys.hist.flying[d]
      && Untouched(d, PlainServers(sys.servers), sys.hist.owners, PlainServers(sys'.servers), sys'.hist.owners)
    requires c < cfg.clients ==>
      ClientInv(cfg, c, sys'.clients[c], sys'.hist.logs[c], sys'.hist.flying[c], PlainServers(sys'.servers), sys'.hist.owners)
    ensures ClientsInv(cfg, sys')
  {
    forall d | 0 <= d < cfg.clients && d != c
      ensures ClientInv(cfg, d, sys'.clients[d], sys'.hist.logs[d], sys'.hist.flying[d], PlainServers(sys'.servers), sys'.hist.owners)
    {
      ClientFrame(cfg, d, sys.clients[d], sys.hist.logs[d], sys.hist.flying[d],
                  PlainServers(sys.servers), sys.hist.owners, PlainServers(sys'.servers), sys'.hist.owners);
    }
  }

  /** The two views differ at most at descriptor r of server s, which was c's, or nobody's. */
  ghost predicate OnlyTouched(c: nat, s: nat, r: Fd, plain: seq<Table>, owners: seq<Owners>, plain': seq<Table>, owners': seq<Owners>)
    requires |plain| == |owners| == |plain'| == |owners'| && s < |plain|
  {
    && plain' == plain[s := plain'[s]] && owners' == owners[s := owners'[s]]
    && (forall x <- owners[s] :: x != r ==> x in owners'[s] && owners'[s][x] == owners[s][x])
    && (forall x <- plain[s] :: x != r ==> x in plain'[s] && plain'[s][x] == plain[s][x])
    && (r in owners[s] ==> owners[s][r].InClose? || owners[s][r].c == c)
  }

  /** A step that touches one descriptor of client c leaves every other client alone. */
  lemma OthersKeep(cfg: Config, sys: Sys, sys': Sys, c: nat, s: nat, r: Fd)
    requires Wf(cfg, sys) && Wf(cfg, sys') && ClientsInv(cfg, sys) && s < cfg.servers
    requires forall d | 0 <= d < cfg.clients && d != c ::
      && sys'.clients[d] == sys.clients[d] && sys'.hist.logs[d] == sys.hist.logs[d]
      && sys'.hist.flying[d] == sys.hist.flying[d]
    requires OnlyTouched(c, s, r, PlainServers(sys.servers), sys.hist.owners, PlainServers(sys'.servers), sys'.hist.owners)
    requires c < cfg.clients ==>
      ClientInv(cfg, c, sys'.clients[c], sys'.hist.logs[c], sys'.hist.flying[c], PlainServers(sys'.servers), sys'.hist.owners)
    ensures ClientsInv(cfg, sys')
  {
    hide ClientInv;
    var plain, plain' := PlainServers(sys.servers), PlainServers(sys'.servers);
    forall d | 0 <= d < cfg.clients && d != c ensures Untouched(d, plain, sys.hist.owners, plain', sys'.hist.owners) {}
    OthersFrame(cfg, sys, sys', c);
  }

  // ---- steps of a server on its own ----

  lemma PlainUpdate(servers: seq<Server>, s: nat, srv: Server)
    requires s < |servers|
    ensures PlainServers(servers[s := srv]) == PlainServers(servers)[s := CachingServer.Plain(srv)]
  {
  }

  lemma ServersUpdate(cfg: Config, sys: Sys, sys': Sys, s: nat)
    requires Wf(cfg, sys) && Wf(cfg, sys') && ServersInv(cfg, sys) && s < cfg.servers
    requires sys'.servers == sys.servers[s := sys'.servers[s]]
    requires CachingServer.ServerInv(cfg.env, sys'.servers[s])
    ensures ServersInv(cfg, sys')
  {
    forall r | 0 <= r < cfg.servers ensures CachingServer.ServerInv(cfg.env, sys'.servers[r]) {
      if r != s { assert sys'.servers[r] == sys.servers[r]; }
    }
  }

  lemma PlainKeys(srv: Server)
    ensures CachingServer.Plain(srv).Keys == srv.files.Keys
  {
  }

  lemma BackgroundOwners(cfg: Config, sys: Sys, s: nat, srv: Server)
    requires Wf(cfg, sys) && OwnersInv(cfg, sys) && s < cfg.servers
    requires srv.files.Keys == sys.servers[s].files.Keys
    ensures OwnersInv(cfg, sys.(servers := sys.servers[s := srv]))
  {
    var sys' := sys.(servers := sys.servers[s := srv]);
    forall r, remote | 0 <= r < cfg.servers && remote in sys'.hist.owners[r] ensures OwnerInv(cfg, sys', r, remote) {
      assert OwnerInv(cfg, sys, r, remote);
    }
  }

  lemma BackgroundMsgs(cfg: Config, sys: Sys, s: nat, srv: Server)
    requires Wf(cfg, sys) && MsgsInv(cfg, sys) && s < cfg.servers
    ensures MsgsInv(cfg, sys.(servers := sys.servers[s := srv]))
  {
    forall m <- sys.msgs ensures MsgInv(cfg, sys.(servers := sys.servers[s := srv]), m) {
      assert MsgInv(cfg, sys, m);
    }
  }

  /** A handler's later steps and the mover change nothing a client can see. */
  lemma BackgroundKeeps(cfg: Config, sys: Sys, s: nat, srv: Server)
    requires LinkInv(cfg, sys) && s < cfg.servers
    requires CachingServer.Plain(srv) == CachingServer.Plain(sys.servers[s])
    ensures LinkInv(cfg, sys.(servers := sys.servers[s := srv]))
  {
    hide ClientInv, OwnersInv, MsgsInv, CachingServer.Plain;
    PlainKeys(srv);
    PlainKeys(sys.servers[s]);
    BackgroundOwners(cfg, sys, s, srv);
    BackgroundMsgs(cfg, sys, s, srv);
    PlainUpdate(sys.servers, s, srv);
    assert PlainServers(sys.servers[s := srv]) == PlainServers(sys.servers);
  }
}
