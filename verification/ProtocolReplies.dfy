/** Requests at the server, replies at the client, and late closes keep the invariant. */
module ProtocolReplies {
  import opened Wrappers
  import opened Posix
  import opened Protocol
  import opened ProtocolInvariant
  import opened ProtocolSteps
  import opened ProtocolDelivery
  import CachingServer
  import ClientSide

  /** What the request of a read in flight says about the call behind it. */
  lemma ReadCallOf(cfg: Config, c: nat, cl: Client, t: Table, plain: seq<Table>, owners: seq<Owners>, m: Msg)
    requires cfg.servers > 0 && |plain| == |owners| == cfg.servers && cl.pc.Busy? && Fits(cl.pc.call)
    requires FlyingInv(cfg, c, cl, t, plain, owners, m)
    ensures m.ReadReq? ==>
      && 0 <= m.count && m.offset >= -1 && (cl.pc.call.Read? || cl.pc.call.Pread?) && |cl.buf| == cl.pc.call.count
      && On(cl.pc.call, m.remote) == CachingServer.ReadCall(m.remote, m.count, m.offset)
    ensures m.SeekReq? ==> On(cl.pc.call, m.remote) == Seek(m.remote, m.offset, m.whence)
  {
  }

  lemma BulkFlying(cfg: Config, c: nat, cl: Client, t: Table, plain: seq<Table>, plain': seq<Table>, owners: seq<Owners>, m: Msg, data: Content)
    requires cfg.servers > 0 && |plain| == |plain'| == |owners| == cfg.servers && cl.pc.Busy? && Fits(cl.pc.call)
    requires m.ReadReq? && m.s < cfg.servers && FlyingInv(cfg, c, cl, t, plain, owners, m)
    requires cl.pc.call.fd in t && m.remote in plain[m.s] && plain[m.s][m.remote] == t[cl.pc.call.fd]
    requires data == Perform(cfg.env.source, plain[m.s], On(cl.pc.call, m.remote)).data
    ensures FlyingInv(cfg, c, cl, t, plain', owners, BulkPush(c, m.s, data))
  {
    ReadCallOf(cfg, c, cl, t, plain, owners, m);
    SameCursorSameIo(cfg.env.source, t, cl.pc.call, plain[m.s], m.remote);
  }

  lemma SeekFlying(cfg: Config, c: nat, cl: Client, t: Table, plain: seq<Table>, plain': seq<Table>, owners: seq<Owners>, m: Msg, ret: int)
    requires cfg.servers > 0 && |plain| == |plain'| == |owners| == cfg.servers && cl.pc.Busy? && Fits(cl.pc.call)
    requires m.SeekReq? && m.s < cfg.servers && FlyingInv(cfg, c, cl, t, plain, owners, m)
    requires cl.pc.call.fd in t && m.remote in plain[m.s] && plain[m.s][m.remote] == t[cl.pc.call.fd]
    requires ret == ToInt32(Perform(cfg.env.source, plain[m.s], On(cl.pc.call, m.remote)).ret)
    ensures FlyingInv(cfg, c, cl, t, plain', owners, SeekResp(c, m.s, ret))
  {
    ReadCallOf(cfg, c, cl, t, plain, owners, m);
    SameCursorSameIo(cfg.env.source, t, cl.pc.call, plain[m.s], m.remote);
  }

  /** A read or seek request in flight names an open descriptor whose cursor is the one its
      client expects. */
  lemma RequestTarget(cfg: Config, sys: Sys, m: Msg)
    requires LinkInv(cfg, sys) && m in sys.msgs && (m.ReadReq? || m.SeekReq?)
    ensures m.s < cfg.servers && m.c < cfg.clients && sys.hist.flying[m.c] == Some(m)
    ensures sys.clients[m.c].pc.Busy? && m.remote in sys.servers[m.s].files
    ensures var t, call := TableOf(cfg.env.source, sys.hist.logs[m.c]), sys.clients[m.c].pc.call;
            && call.fd in t && m.remote in CachingServer.Plain(sys.servers[m.s])
            && CachingServer.Plain(sys.servers[m.s])[m.remote] == t[call.fd]
  {
    hide ClientInv, ClientsInv, OwnersInv, MsgsInv, FlyingInv;
    Flying(cfg, sys, m);
    ClientAt(cfg, sys, m.c);
    OwnersAt(cfg, sys, m.s);
    RequestEntry(cfg, m.c, sys.clients[m.c], sys.hist.logs[m.c], m, PlainServers(sys.servers), sys.hist.owners);
  }

  lemma ReadReqKeeps(cfg: Config, sys: Sys, m: Msg, srv: Server, data: Content)
    requires LinkInv(cfg, sys) && m in sys.msgs && m.ReadReq? && m.s < cfg.servers
    requires srv.files.Keys == sys.servers[m.s].files.Keys && m.count >= 0
    requires var io := Perform(cfg.env.source, CachingServer.Plain(sys.servers[m.s]), CachingServer.ReadCall(m.remote, m.count, m.offset));
             CachingServer.Plain(srv) == io.table && data == io.data
    ensures m.c < cfg.clients && LinkInv(cfg, Answer(sys, m, srv, BulkPush(m.c, m.s, data)))
  {
    hide ClientInv, ClientsInv, OwnersInv, MsgsInv, FlyingInv, Perform;
    RequestTarget(cfg, sys, m);
    Flying(cfg, sys, m);
    var c, cl, t := m.c, sys.clients[m.c], TableOf(cfg.env.source, sys.hist.logs[m.c]);
    var plain, plain' := PlainServers(sys.servers), PlainServers(sys.servers[m.s := srv]);
    ReadCallOf(cfg, c, cl, t, plain, sys.hist.owners, m);
    BulkFlying(cfg, c, cl, t, plain, plain', sys.hist.owners, m, data);
    RequestServed(cfg, sys, m, srv, BulkPush(c, m.s, data));
  }

  lemma SeekReqKeeps(cfg: Config, sys: Sys, m: Msg, srv: Server, ret: int)
    requires LinkInv(cfg, sys) && m in sys.msgs && m.SeekReq? && m.s < cfg.servers
    requires srv.files.Keys == sys.servers[m.s].files.Keys
    requires var io := Perform(cfg.env.source, CachingServer.Plain(sys.servers[m.s]), Seek(m.remote, m.offset, m.whence));
             CachingServer.Plain(srv) == io.table && ret == ToInt32(io.ret)
    ensures m.c < cfg.clients && LinkInv(cfg, Answer(sys, m, srv, SeekResp(m.c, m.s, ret)))
  {
    hide ClientInv, ClientsInv, OwnersInv, MsgsInv, FlyingInv, Perform;
    RequestTarget(cfg, sys, m);
    Flying(cfg, sys, m);
    var c, cl, t := m.c, sys.clients[m.c], TableOf(cfg.env.source, sys.hist.logs[m.c]);
    var plain, plain' := PlainServers(sys.servers), PlainServers(sys.servers[m.s := srv]);
    ReadCallOf(cfg, c, cl, t, plain, sys.hist.owners, m);
    SeekFlying(cfg, c, cl, t, plain, plain', sys.hist.owners, m, ret);
    RequestServed(cfg, sys, m, srv, SeekResp(c, m.s, ret));
  }

  // ---- the bulk transfer lands ----

  lemma SameEntry(cfg: Config, c: nat, cl: Client, cl': Client, ahead: Table, plain: seq<Table>, owners: seq<Owners>, x: Fd)
    requires cfg.servers > 0 && |plain| == |owners| == cfg.servers
    requires x in cl.redir && EntryInv(cfg, c, cl, ahead, plain, owners, x)
    requires cl'.redir == cl.redir && cl'.fdMap == cl.fdMap
    ensures EntryInv(cfg, c, cl', ahead, plain, owners, x)
  {
  }

  lemma BulkRendezvous(cfg: Config, c: nat, cl: Client, t: Table, m: Msg, plain: seq<Table>, owners: seq<Owners>)
    requires cfg.servers > 0 && |plain| == |owners| == cfg.servers && m.BulkPush? && m.c == c
    requires RendezvousInv(cfg, c, cl, t, Some(m), plain, owners) && LocalInv(cfg.env.source, cl, t)
    ensures cl.pc.Busy? && LocalInv(cfg.env.source, ClientSide.BulkWrite(cl, m.data), t)
    ensures RendezvousInv(cfg, c, ClientSide.BulkWrite(cl, m.data), t, Some(ReadResp(c, m.s, ToInt32(|m.data|))), plain, owners)
  {
    hide Perform;
  }

  lemma ResultRendezvous(cfg: Config, c: nat, cl: Client, t: Table, m: Msg, plain: seq<Table>, owners: seq<Owners>)
    requires cfg.servers > 0 && |plain| == |owners| == cfg.servers && (m.ReadResp? || m.SeekResp?)
    requires RendezvousInv(cfg, c, cl, t, Some(m), plain, owners) && LocalInv(cfg.env.source, cl, t)
    ensures cl.pc.Busy? && LocalInv(cfg.env.source, ClientSide.ResultCallback(cl, m.ret), t)
    ensures RendezvousInv(cfg, c, ClientSide.ResultCallback(cl, m.ret), t, None, plain, owners)
  {
    hide Perform;
  }

  lemma BulkClient(cfg: Config, c: nat, cl: Client, log: seq<Event>, m: Msg, plain: seq<Table>, owners: seq<Owners>)
    requires cfg.servers > 0 && |plain| == |owners| == cfg.servers && m.BulkPush? && m.c == c
    requires ClientInv(cfg, c, cl, log, Some(m), plain, owners)
    ensures ClientInv(cfg, c, ClientSide.BulkWrite(cl, m.data), log, Some(ReadResp(c, m.s, ToInt32(|m.data|))), plain, owners)
  {
    hide Perform, EntryInv, LocalInv;
    BulkRendezvous(cfg, c, cl, TableOf(cfg.env.source, log), m, plain, owners);
    hide RendezvousInv;
    var cl', files := ClientSide.BulkWrite(cl, m.data), cfg.env.source;
    var m' := ReadResp(c, m.s, ToInt32(|m.data|));
    forall x <- cl.redir ensures EntryInv(cfg, c, cl', Ahead(files, cl', log, Some(m')), plain, owners, x) {
      SameEntry(cfg, c, cl, cl', Ahead(files, cl, log, Some(m)), plain, owners, x);
    }
  }

  lemma BulkEntry(cfg: Config, c: nat, cl: Client, log: seq<Event>, m: Msg, plain: seq<Table>, owners: seq<Owners>)
    requires cfg.servers > 0 && |plain| == |owners| == cfg.servers && m.BulkPush?
    requires ClientInv(cfg, c, cl, log, Some(m), plain, owners) && cl.pc.Busy? && m.s < cfg.servers
    ensures cl.pc.call.fd in cl.redir
    ensures var r := cl.redir[cl.pc.call.fd]; r in owners[m.s] && owners[m.s][r] == Entry(c, cl.pc.call.fd)
  {
    hide Perform;
    assert cl.pc.call.fd in cl.fdMap && cl.pc.call.fd !in Opening(cl);
    assert EntryInv(cfg, c, cl, Ahead(cfg.env.source, cl, log, Some(m)), plain, owners, cl.pc.call.fd);
  }

  lemma BulkPushKeeps(cfg: Config, sys: Sys, m: Msg)
    requires LinkInv(cfg, sys) && m in sys.msgs && m.BulkPush? && m.s < cfg.servers && m.c < cfg.clients
    ensures var landed := sys.(clients := sys.clients[m.c := ClientSide.BulkWrite(sys.clients[m.c], m.data)]);
            LinkInv(cfg, Answer(landed, m, sys.servers[m.s], ReadResp(m.c, m.s, ToInt32(|m.data|))))
  {
    hide ClientInv, ClientsInv, OwnersInv, MsgsInv, FlyingInv;
    var cl, log, plain := sys.clients[m.c], sys.hist.logs[m.c], PlainServers(sys.servers);
    Flying(cfg, sys, m);
    ClientAt(cfg, sys, m.c);
    BulkEntry(cfg, m.c, cl, log, m, plain, sys.hist.owners);
    BulkClient(cfg, m.c, cl, log, m, plain, sys.hist.owners);
    assert sys.servers[m.s := sys.servers[m.s]] == sys.servers;
    AnswerKeeps(cfg, sys, m, sys.servers[m.s], cl.redir[cl.pc.call.fd], ClientSide.BulkWrite(cl, m.data), ReadResp(m.c, m.s, ToInt32(|m.data|)));
  }

  // ---- callbacks ----

  lemma ResultClient(cfg: Config, c: nat, cl: Client, log: seq<Event>, m: Msg, plain: seq<Table>, owners: seq<Owners>)
    requires cfg.servers > 0 && |plain| == |owners| == cfg.servers && (m.ReadResp? || m.SeekResp?)
    requires ClientInv(cfg, c, cl, log, Some(m), plain, owners)
    ensures ClientInv(cfg, c, ClientSide.ResultCallback(cl, m.ret), log, None, plain, owners)
  {
    hide Perform, EntryInv, LocalInv;
    ResultRendezvous(cfg, c, cl, TableOf(cfg.env.source, log), m, plain, owners);
    hide RendezvousInv;
    var cl', files := ClientSide.ResultCallback(cl, m.ret), cfg.env.source;
    forall x <- cl.redir ensures EntryInv(cfg, c, cl', Ahead(files, cl', log, None), plain, owners, x) {
      SameEntry(cfg, c, cl, cl', Ahead(files, cl, log, Some(m)), plain, owners, x);
    }
  }

  lemma CallbackOwners(cfg: Config, sys: Sys, sys': Sys, m: Msg)
    requires Wf(cfg, sys) && Wf(cfg, sys') && OwnersInv(cfg, sys)
    requires m in sys.msgs && (m.ReadResp? || m.SeekResp?) && m.c < cfg.clients && sys.hist.flying[m.c] == Some(m)
    requires sys'.msgs == sys.msgs - multiset{m} && sys'.servers == sys.servers
    requires sys'.hist.flying == sys.hist.flying[m.c := None] && sys'.hist.owners == sys.hist.owners
    requires forall c | 0 <= c < cfg.clients ::
      sys'.clients[c].redir == sys.clients[c].redir && sys'.clients[c].fdMap == sys.clients[c].fdMap
    ensures OwnersInv(cfg, sys')
  {
    forall s, r | 0 <= s < cfg.servers && r in sys'.hist.owners[s] ensures OwnerInv(cfg, sys', s, r) {
      assert OwnerInv(cfg, sys, s, r);
    }
  }

  /** hvac_read_cb and hvac_seek_cb. */
  lemma ResultKeeps(cfg: Config, sys: Sys, m: Msg)
    requires LinkInv(cfg, sys) && m in sys.msgs && (m.ReadResp? || m.SeekResp?) && m.c < cfg.clients
    ensures LinkInv(cfg, CallBack(sys, m, ClientSide.ResultCallback(sys.clients[m.c], m.ret)))
  {
    hide ClientInv, ClientsInv, OwnersInv, MsgsInv, FlyingInv;
    var sys' := CallBack(sys, m, ClientSide.ResultCallback(sys.clients[m.c], m.ret));
    Flying(cfg, sys, m);
    ClientAt(cfg, sys, m.c);
    ResultClient(cfg, m.c, sys.clients[m.c], sys.hist.logs[m.c], m, PlainServers(sys.servers), sys.hist.owners);
    CallbackOwners(cfg, sys, sys', m);
    TakeKeepsMsgs(cfg, sys, sys', m);
    OthersFrame(cfg, sys, sys', m.c);
  }

  lemma OpenedRendezvous(cfg: Config, c: nat, cl: Client, t: Table, m: Msg, plain: seq<Table>, owners: seq<Owners>, owners': seq<Owners>)
    requires cfg.servers > 0 && |plain| == |owners| == |owners'| == cfg.servers && m.OpenResp?
    requires RendezvousInv(cfg, c, cl, t, Some(m), plain, owners) && LocalInv(cfg.env.source, cl, t)
    ensures cl.pc.Busy? && cl.pc.call.Open? && cl.pc.call.fd == m.fd && m.fd in cl.fdMap
    ensures LocalInv(cfg.env.source, ClientSide.OpenCallback(cl, m.fd, m.remote), t)
    ensures RendezvousInv(cfg, c, ClientSide.OpenCallback(cl, m.fd, m.remote), t, None, plain, owners')
  {
  }

  lemma OpenedEntry(cfg: Config, c: nat, cl: Client, t: Table, m: Msg, plain: seq<Table>, owners: seq<Owners>, x: Fd)
    requires cfg.servers > 0 && |plain| == |owners| == cfg.servers && m.OpenResp? && m.s < cfg.servers && m.c == c
    requires RendezvousInv(cfg, c, cl, t, Some(m), plain, owners) && LocalInv(cfg.env.source, cl, t) && cl.pc.Busy?
    requires x == m.fd || (x in cl.redir && EntryInv(cfg, c, cl, Perform(cfg.env.source, t, cl.pc.call).table, plain, owners, x))
    ensures EntryInv(cfg, c, ClientSide.OpenCallback(cl, m.fd, m.remote), Perform(cfg.env.source, t, cl.pc.call).table, plain,
                     owners[m.s := WithOwner(owners[m.s], m.remote, Entry(c, m.fd))], x)
  {
  }

  lemma OpenedClient(cfg: Config, c: nat, cl: Client, log: seq<Event>, m: Msg, plain: seq<Table>, owners: seq<Owners>)
    requires cfg.servers > 0 && |plain| == |owners| == cfg.servers && m.OpenResp? && m.s < cfg.servers && m.c == c
    requires ClientInv(cfg, c, cl, log, Some(m), plain, owners)
    ensures ClientInv(cfg, c, ClientSide.OpenCallback(cl, m.fd, m.remote), log, None, plain,
                      owners[m.s := WithOwner(owners[m.s], m.remote, Entry(c, m.fd))])
  {
    hide Perform, EntryInv, LocalInv, RendezvousInv;
    var cl', files := ClientSide.OpenCallback(cl, m.fd, m.remote), cfg.env.source;
    var t, owners' := TableOf(files, log), owners[m.s := WithOwner(owners[m.s], m.remote, Entry(c, m.fd))];
    OpenedRendezvous(cfg, c, cl, t, m, plain, owners, owners');
    forall x <- cl'.redir ensures EntryInv(cfg, c, cl', Perform(files, t, cl.pc.call).table, plain, owners', x) {
      OpenedEntry(cfg, c, cl, t, m, plain, owners, x);
    }
  }

  lemma OpenedOwners(cfg: Config, sys: Sys, sys': Sys, m: Msg)
    requires Wf(cfg, sys) && Wf(cfg, sys') && OwnersInv(cfg, sys)
    requires m in sys.msgs && m.OpenResp? && m.s < cfg.servers && m.c < cfg.clients && sys.hist.flying[m.c] == Some(m)
    requires m.remote in sys.hist.owners[m.s] && sys.hist.owners[m.s][m.remote] == Reply(m.c, m.fd)
    requires m.fd !in sys.clients[m.c].redir && m.fd in sys.clients[m.c].fdMap
    requires Host(cfg, sys.clients[m.c].fdMap[m.fd]) == m.s
    requires sys'.msgs == sys.msgs - multiset{m} && sys'.servers == sys.servers
    requires sys'.hist.flying == sys.hist.flying[m.c := None]
    requires sys'.hist.owners == sys.hist.owners[m.s := WithOwner(sys.hist.owners[m.s], m.remote, Entry(m.c, m.fd))]
    requires sys'.clients == sys.clients[m.c := sys'.clients[m.c]]
    requires sys'.clients[m.c].redir == sys.clients[m.c].redir[m.fd := m.remote] && sys'.clients[m.c].fdMap == sys.clients[m.c].fdMap
    ensures OwnersInv(cfg, sys')
  {
    assert sys'.hist.owners[m.s].Keys == sys.hist.owners[m.s].Keys;
    forall s, r | 0 <= s < cfg.servers && r in sys'.hist.owners[s] ensures OwnerInv(cfg, sys', s, r) {
      assert r in sys.hist.owners[s] && OwnerInv(cfg, sys, s, r);
    }
  }

  lemma OpenReplyOf(cfg: Config, c: nat, cl: Client, log: seq<Event>, m: Msg, plain: seq<Table>, owners: seq<Owners>)
    requires cfg.servers > 0 && |plain| == |owners| == cfg.servers && m.OpenResp? && m.s < cfg.servers
    requires ClientInv(cfg, c, cl, log, Some(m), plain, owners)
    ensures m.c == c && m.remote in owners[m.s] && owners[m.s][m.remote] == Reply(c, m.fd)
    ensures m.fd !in cl.redir && m.fd in cl.fdMap && Host(cfg, cl.fdMap[m.fd]) == m.s
  {
  }

  /** hvac_open_cb. */
  lemma OpenedKeeps(cfg: Config, sys: Sys, m: Msg)
    requires LinkInv(cfg, sys) && m in sys.msgs && m.OpenResp? && m.s < cfg.servers && m.c < cfg.clients
    ensures LinkInv(cfg, Owned(CallBack(sys, m, ClientSide.OpenCallback(sys.clients[m.c], m.fd, m.remote)), m.s, m.remote, Entry(m.c, m.fd)))
  {
    hide ClientInv, ClientsInv, OwnersInv, MsgsInv, FlyingInv;
    var cl, log, plain := sys.clients[m.c], sys.hist.logs[m.c], PlainServers(sys.servers);
    var sys' := Owned(CallBack(sys, m, ClientSide.OpenCallback(cl, m.fd, m.remote)), m.s, m.remote, Entry(m.c, m.fd));
    Flying(cfg, sys, m);
    ClientAt(cfg, sys, m.c);
    OpenReplyOf(cfg, m.c, cl, log, m, plain, sys.hist.owners);
    OpenedClient(cfg, m.c, cl, log, m, plain, sys.hist.owners);
    OpenedOwners(cfg, sys, sys', m);
    TakeKeepsMsgs(cfg, sys, sys', m);
    OthersKeep(cfg, sys, sys', m.c, m.s, m.remote);
  }

  // ---- a close arrives, however late ----

  lemma CloseReqTarget(cfg: Config, sys: Sys, m: Msg)
    requires Wf(cfg, sys) && OwnersInv(cfg, sys) && MsgsInv(cfg, sys) && m in sys.msgs && m.CloseReq?
    ensures m.s < cfg.servers && m.remote in sys.servers[m.s].files
    ensures m.remote in sys.hist.owners[m.s] && sys.hist.owners[m.s][m.remote] == InClose && sys.msgs[m] == 1
  {
    assert MsgInv(cfg, sys, m);
  }

  lemma CloseReqOwners(cfg: Config, sys: Sys, sys': Sys, m: Msg)
    requires Wf(cfg, sys) && Wf(cfg, sys') && OwnersInv(cfg, sys) && MsgsInv(cfg, sys)
    requires m in sys.msgs && m.CloseReq? && m.s < cfg.servers
    requires sys'.msgs == sys.msgs - multiset{m} && sys'.hist.flying == sys.hist.flying && sys'.clients == sys.clients
    requires sys'.hist.owners == sys.hist.owners[m.s := sys.hist.owners[m.s] - {m.remote}]
    requires sys'.servers == sys.servers[m.s := sys'.servers[m.s]]
    requires sys'.servers[m.s].files.Keys == sys.servers[m.s].files.Keys - {m.remote}
    ensures OwnersInv(cfg, sys')
  {
    assert MsgInv(cfg, sys, m);
    forall s | 0 <= s < cfg.servers ensures sys'.hist.owners[s].Keys == sys'.servers[s].files.Keys {}
    forall s, r | 0 <= s < cfg.servers && r in sys'.hist.owners[s] ensures OwnerInv(cfg, sys', s, r) {
      assert r in sys.hist.owners[s] && OwnerInv(cfg, sys, s, r);
    }
  }

  /** Any other message still finds what it refers to: two closes of one descriptor are one message. */
  lemma CloseReqOther(cfg: Config, sys: Sys, sys': Sys, m: Msg, x: Msg)
    requires Wf(cfg, sys) && Wf(cfg, sys') && m.CloseReq? && m.s < cfg.servers
    requires x in sys.msgs && x != m && MsgInv(cfg, sys, x)
    requires sys'.msgs == sys.msgs - multiset{m} && sys'.hist.flying == sys.hist.flying
    requires sys'.hist.owners == sys.hist.owners[m.s := sys.hist.owners[m.s] - {m.remote}]
    ensures x in sys'.msgs && MsgInv(cfg, sys', x)
  {
    assert sys'.msgs[x] == sys.msgs[x];
    if x.CloseReq? {
      assert x.s != m.s || x.remote != m.remote;
    }
  }

  lemma CloseReqLinks(cfg: Config, sys: Sys, sys': Sys, m: Msg)
    requires Wf(cfg, sys) && Wf(cfg, sys') && OwnersInv(cfg, sys) && MsgsInv(cfg, sys)
    requires m in sys.msgs && m.CloseReq? && m.s < cfg.servers
    requires sys'.msgs == sys.msgs - multiset{m} && sys'.hist.flying == sys.hist.flying && sys'.clients == sys.clients
    requires sys'.hist.owners == sys.hist.owners[m.s := sys.hist.owners[m.s] - {m.remote}]
    requires sys'.servers == sys.servers[m.s := sys'.servers[m.s]]
    requires sys'.servers[m.s].files.Keys == sys.servers[m.s].files.Keys - {m.remote}
    ensures OwnersInv(cfg, sys') && MsgsInv(cfg, sys')
  {
    CloseReqOwners(cfg, sys, sys', m);
    hide OwnersInv;
    assert sys'.msgs[m] == 0 by { assert MsgInv(cfg, sys, m); }
    hide MsgInv;
    forall x | x in sys.msgs && x != m ensures x in sys'.msgs && MsgInv(cfg, sys', x) {
      CloseReqOther(cfg, sys, sys', m, x);
    }
  }

  lemma CloseReqView(cfg: Config, sys: Sys, sys': Sys, m: Msg, srv: Server)
    requires Wf(cfg, sys) && Wf(cfg, sys') && m.CloseReq? && m.s < cfg.servers
    requires m.remote in sys.hist.owners[m.s] && sys.hist.owners[m.s][m.remote] == InClose
    requires sys'.servers == sys.servers[m.s := srv]
    requires sys'.hist.owners == sys.hist.owners[m.s := sys.hist.owners[m.s] - {m.remote}]
    requires CachingServer.Plain(srv) == CachingServer.Plain(sys.servers[m.s]) - {m.remote}
    ensures OnlyTouched(cfg.clients, m.s, m.remote, PlainServers(sys.servers), sys.hist.owners, PlainServers(sys'.servers), sys'.hist.owners)
  {
    PlainUpdate(sys.servers, m.s, srv);
  }

  lemma CloseReqKeeps(cfg: Config, sys: Sys, m: Msg, srv: Server)
    requires LinkInv(cfg, sys) && m in sys.msgs && m.CloseReq? && m.s < cfg.servers
    requires srv.files.Keys == sys.servers[m.s].files.Keys - {m.remote}
    requires CachingServer.Plain(srv) == CachingServer.Plain(sys.servers[m.s]) - {m.remote}
    ensures LinkInv(cfg, Consume(sys, m, srv).(
              hist := sys.hist.(owners := sys.hist.owners[m.s := sys.hist.owners[m.s] - {m.remote}])))
  {
    hide ClientInv, ClientsInv, OwnersInv, MsgsInv, PlainServers, OnlyTouched, CachingServer.Plain;
    var sys' := Consume(sys, m, srv).(
      hist := sys.hist.(owners := sys.hist.owners[m.s := sys.hist.owners[m.s] - {m.remote}]));
    CloseReqTarget(cfg, sys, m);
    CloseReqLinks(cfg, sys, sys', m);
    CloseReqView(cfg, sys, sys', m, srv);
    OthersKeep(cfg, sys, sys', cfg.clients, m.s, m.remote);
  }
}
