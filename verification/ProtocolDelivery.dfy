/** Deliveries and closes keep the invariant. */
module ProtocolDelivery {
  import opened Wrappers
  import opened Posix
  import opened Protocol
  import opened ProtocolInvariant
  import opened ProtocolSteps
  import CachingServer
  import ClientSide

  // ---- close of a tracked descriptor ----

  lemma CloseEntry(cfg: Config, c: nat, cl: Client, log: seq<Event>, fd: Fd, plain: seq<Table>, owners: seq<Owners>)
    requires cfg.servers > 0 && |plain| == |owners| == cfg.servers
    requires ClientInv(cfg, c, cl, log, None, plain, owners) && cl.pc.Idle? && fd in cl.fdMap
    ensures fd in cl.redir && EntryInv(cfg, c, cl, TableOf(cfg.env.source, log), plain, owners, fd)
    ensures var s, r := Host(cfg, cl.fdMap[fd]), cl.redir[fd]; r in owners[s] && owners[s][r] == Entry(c, fd)
  {
  }

  lemma CloseTables(files: Files, cl: Client, t: Table, fd: Fd)
    requires LocalInv(files, cl, t) && cl.pc.Idle? && fd in cl.fdMap
    ensures LocalInv(files, ClientSide.RemoveFd(files, cl, fd), Perform(files, t, Close(fd)).table)
    ensures Perform(files, t, Close(fd)) == Io(t - {fd}, 0, [])
    ensures Perform(files, cl.kernel, Close(fd)) == Io(cl.kernel - {fd}, 0, [])
  {
    assert (t - {fd}).Keys == (cl.kernel - {fd}).Keys;
  }

  lemma CloseOtherEntries(cfg: Config, c: nat, cl: Client, t: Table, fd: Fd, plain: seq<Table>, owners: seq<Owners>, x: Fd)
    requires cfg.servers > 0 && |plain| == |owners| == cfg.servers
    requires fd in cl.redir && EntryInv(cfg, c, cl, t, plain, owners, fd)
    requires x in cl.redir && EntryInv(cfg, c, cl, t, plain, owners, x) && x != fd
    ensures var s := Host(cfg, cl.fdMap[fd]);
            EntryInv(cfg, c, ClientSide.RemoveFd(cfg.env.source, cl, fd), t - {fd}, plain,
                     owners[s := WithOwner(owners[s], ClientSide.Redir(cl, fd), InClose)], x)
  {
  }

  lemma CloseClient(cfg: Config, c: nat, cl: Client, log: seq<Event>, fd: Fd, plain: seq<Table>, owners: seq<Owners>)
    requires cfg.servers > 0 && |plain| == |owners| == cfg.servers
    requires ClientInv(cfg, c, cl, log, None, plain, owners) && cl.pc.Idle? && fd in cl.fdMap
    ensures var files, s := cfg.env.source, Host(cfg, cl.fdMap[fd]);
            var io := Perform(files, cl.kernel, Close(fd));
            ClientInv(cfg, c, ClientSide.RemoveFd(files, cl, fd), log + [Event(Close(fd), io.ret, io.data)], None, plain,
                      owners[s := WithOwner(owners[s], ClientSide.Redir(cl, fd), InClose)])
  {
    var files, s := cfg.env.source, Host(cfg, cl.fdMap[fd]);
    var t, io, cl' := TableOf(files, log), Perform(files, cl.kernel, Close(fd)), ClientSide.RemoveFd(files, cl, fd);
    var owners' := owners[s := WithOwner(owners[s], ClientSide.Redir(cl, fd), InClose)];
    CloseEntry(cfg, c, cl, log, fd, plain, owners);
    CloseTables(files, cl, t, fd);
    Extend(files, log, Event(Close(fd), io.ret, io.data));
    hide EntryInv, LocalInv;
    forall x <- cl'.redir ensures EntryInv(cfg, c, cl', t - {fd}, plain, owners', x) {
      assert EntryInv(cfg, c, cl, t, plain, owners, x);
      CloseOtherEntries(cfg, c, cl, t, fd, plain, owners, x);
    }
  }

  lemma CloseMsgs(cfg: Config, sys: Sys, sys': Sys, s: nat, r: Fd)
    requires Wf(cfg, sys) && Wf(cfg, sys') && MsgsInv(cfg, sys) && s < cfg.servers
    requires r in sys.hist.owners[s] && !sys.hist.owners[s][r].InClose?
    requires sys'.msgs == sys.msgs + multiset{CloseReq(s, r)} && sys'.hist.flying == sys.hist.flying
    requires sys'.hist.owners == sys.hist.owners[s := WithOwner(sys.hist.owners[s], r, InClose)]
    ensures MsgsInv(cfg, sys')
  {
    var m := CloseReq(s, r);
    forall x <- sys.msgs ensures x != m && MsgInv(cfg, sys', x) {
      assert MsgInv(cfg, sys, x);
    }
    assert MsgInv(cfg, sys', m);
  }

  lemma CloseOwners(cfg: Config, sys: Sys, sys': Sys, c: nat, fd: Fd, s: nat, r: Fd)
    requires Wf(cfg, sys) && Wf(cfg, sys') && OwnersInv(cfg, sys) && c < cfg.clients && s < cfg.servers
    requires r in sys.hist.owners[s] && sys.hist.owners[s][r] == Entry(c, fd)
    requires sys'.servers == sys.servers && sys'.hist.flying == sys.hist.flying
    requires sys'.msgs == sys.msgs + multiset{CloseReq(s, r)}
    requires sys'.hist.owners == sys.hist.owners[s := WithOwner(sys.hist.owners[s], r, InClose)]
    requires sys'.clients == sys.clients[c := sys'.clients[c]]
    requires sys'.clients[c].redir == sys.clients[c].redir - {fd} && sys'.clients[c].fdMap == sys.clients[c].fdMap - {fd}
    ensures OwnersInv(cfg, sys')
  {
    assert OwnerInv(cfg, sys, s, r);
    assert sys'.hist.owners[s].Keys == sys.hist.owners[s].Keys;
    forall s', r' | 0 <= s' < cfg.servers && r' in sys'.hist.owners[s'] ensures OwnerInv(cfg, sys', s', r') {
      assert r' in sys.hist.owners[s'] && OwnerInv(cfg, sys, s', r');
    }
  }

  lemma CloseTrackedKeeps(cfg: Config, sys: Sys, c: nat, fd: Fd)
    requires LinkInv(cfg, sys) && c < cfg.clients && sys.clients[c].pc.Idle? && fd in sys.clients[c].fdMap
    ensures LinkInv(cfg, CloseTracked(cfg, sys, c, fd))
  {
    hide ClientInv, ClientsInv, EntryInv, OwnersInv, MsgsInv, Perform;
    ClientAt(cfg, sys, c);
    var sys', cl := CloseTracked(cfg, sys, c, fd), sys.clients[c];
    var plain, owners := PlainServers(sys.servers), sys.hist.owners;
    IdleClient(cfg, c, cl, sys.hist.logs[c], sys.hist.flying[c], plain, owners);
    CloseEntry(cfg, c, cl, sys.hist.logs[c], fd, plain, owners);
    CloseClient(cfg, c, cl, sys.hist.logs[c], fd, plain, owners);
    var s, r := Host(cfg, cl.fdMap[fd]), cl.redir[fd];
    CloseMsgs(cfg, sys, sys', s, r);
    CloseOwners(cfg, sys, sys', c, fd, s, r);
    OthersKeep(cfg, sys, sys', c, s, r);
  }

  // ---- messages ----

  lemma OwnersAt(cfg: Config, sys: Sys, s: nat)
    requires Wf(cfg, sys) && OwnersInv(cfg, sys) && s < cfg.servers
    ensures sys.hist.owners[s].Keys == sys.servers[s].files.Keys
  {
  }

  /** A message for client c in flight is the one its current call waits on. */
  lemma Flying(cfg: Config, sys: Sys, m: Msg)
    requires LinkInv(cfg, sys) && m in sys.msgs && !m.CloseReq?
    ensures m.s < cfg.servers && m.c < cfg.clients && sys.hist.flying[m.c] == Some(m)
    ensures var cl := sys.clients[m.c];
            && cl.pc.Busy? && Fits(cl.pc.call) && cl.done == 0
            && cl.redir.Keys <= cl.fdMap.Keys
            && FlyingInv(cfg, m.c, cl, TableOf(cfg.env.source, sys.hist.logs[m.c]), PlainServers(sys.servers), sys.hist.owners, m)
  {
    assert MsgInv(cfg, sys, m);
  }

  /** The server's part of the call is done: m becomes m', and at most the descriptor `remote`,
      which client c owns, is touched at the server. */
  lemma AnswerKeeps(cfg: Config, sys: Sys, m: Msg, srv: Server, remote: Fd, cl: Client, m': Msg)
    requires LinkInv(cfg, sys) && m in sys.msgs && !m.CloseReq? && !m.OpenReq? && !m.OpenResp?
    requires m.s < cfg.servers && m.c < cfg.clients && sys.hist.flying[m.c] == Some(m)
    requires !m'.CloseReq? && !m'.OpenResp? && m'.c == m.c && m'.s == m.s && m' != m
    requires srv.files.Keys == sys.servers[m.s].files.Keys
    requires cl.redir == sys.clients[m.c].redir && cl.fdMap == sys.clients[m.c].fdMap
    requires remote in sys.hist.owners[m.s] ==> sys.hist.owners[m.s][remote].InClose? || sys.hist.owners[m.s][remote].c == m.c
    requires CachingServer.Plain(srv) - {remote} == CachingServer.Plain(sys.servers[m.s]) - {remote}
    requires ClientInv(cfg, m.c, cl, sys.hist.logs[m.c], Some(m'),
                       PlainServers(sys.servers[m.s := srv]), sys.hist.owners)
    ensures LinkInv(cfg, Answer(sys.(clients := sys.clients[m.c := cl]), m, srv, m'))
  {
    hide ClientInv, ClientsInv, OwnersInv, MsgsInv, PlainServers, OnlyTouched, CachingServer.Plain;
    var sys' := Answer(sys.(clients := sys.clients[m.c := cl]), m, srv, m');
    AnswerOwners(cfg, sys, sys', m, m');
    SwapKeepsMsgs(cfg, sys, sys', m, m');
    AnswerView(cfg, sys, sys', m, srv, remote);
    OthersKeep(cfg, sys, sys', m.c, m.s, remote);
  }

  lemma AnswerView(cfg: Config, sys: Sys, sys': Sys, m: Msg, srv: Server, remote: Fd)
    requires Wf(cfg, sys) && Wf(cfg, sys') && m.s < cfg.servers && !m.CloseReq?
    requires sys'.servers == sys.servers[m.s := srv] && sys'.hist.owners == sys.hist.owners
    requires remote in sys.hist.owners[m.s] ==> sys.hist.owners[m.s][remote].InClose? || sys.hist.owners[m.s][remote].c == m.c
    requires CachingServer.Plain(srv) - {remote} == CachingServer.Plain(sys.servers[m.s]) - {remote}
    ensures OnlyTouched(m.c, m.s, remote, PlainServers(sys.servers), sys.hist.owners, PlainServers(sys'.servers), sys'.hist.owners)
  {
    var p, p' := CachingServer.Plain(sys.servers[m.s]), CachingServer.Plain(srv);
    PlainUpdate(sys.servers, m.s, srv);
    forall x <- p | x != remote ensures x in p' && p'[x] == p[x] {
      assert x in p - {remote} && (p - {remote})[x] == p[x];
    }
  }

  lemma AnswerOwners(cfg: Config, sys: Sys, sys': Sys, m: Msg, m': Msg)
    requires Wf(cfg, sys) && Wf(cfg, sys') && OwnersInv(cfg, sys)
    requires m in sys.msgs && !m.CloseReq? && !m.OpenResp? && m.c < cfg.clients && sys.hist.flying[m.c] == Some(m)
    requires sys'.msgs == sys.msgs - multiset{m} + multiset{m'}
    requires sys'.hist.flying == sys.hist.flying[m.c := Some(m')] && sys'.hist.owners == sys.hist.owners
    requires forall s | 0 <= s < cfg.servers :: sys'.servers[s].files.Keys == sys.servers[s].files.Keys
    requires forall c | 0 <= c < cfg.clients ::
      sys'.clients[c].redir == sys.clients[c].redir && sys'.clients[c].fdMap == sys.clients[c].fdMap
    ensures OwnersInv(cfg, sys')
  {
    forall s, r | 0 <= s < cfg.servers && r in sys'.hist.owners[s] ensures OwnerInv(cfg, sys', s, r) {
      assert OwnerInv(cfg, sys, s, r);
    }
  }

  // ---- a request reaches its server ----

  lemma OpenReqView(cfg: Config, sys: Sys, sys': Sys, m: Msg, fd: Fd, srv: Server)
    requires Wf(cfg, sys) && Wf(cfg, sys') && m.OpenReq? && m.s < cfg.servers
    requires sys'.servers == sys.servers[m.s := srv] && fd !in sys.hist.owners[m.s]
    requires sys'.hist.owners == sys.hist.owners[m.s := WithOwner(sys.hist.owners[m.s], fd, Reply(m.c, m.fd))]
    requires CachingServer.Plain(srv) == CachingServer.Plain(sys.servers[m.s])[fd := Cursor(m.path, 0)]
    ensures var plain := PlainServers(sys.servers);
            PlainServers(sys'.servers) == plain[m.s := WithCursor(plain[m.s], fd, Cursor(m.path, 0))]
    ensures OnlyTouched(m.c, m.s, fd, PlainServers(sys.servers), sys.hist.owners, PlainServers(sys'.servers), sys'.hist.owners)
  {
    PlainUpdate(sys.servers, m.s, srv);
  }

  lemma OpenReqKeeps(cfg: Config, sys: Sys, m: Msg, fd: Fd, srv: Server)
    requires LinkInv(cfg, sys) && m in sys.msgs && m.OpenReq? && m.s < cfg.servers && m.c < cfg.clients
    requires fd !in sys.servers[m.s].files && srv.files.Keys == sys.servers[m.s].files.Keys + {fd}
    requires CachingServer.Plain(srv) == CachingServer.Plain(sys.servers[m.s])[fd := Cursor(m.path, 0)]
    ensures LinkInv(cfg, Owned(Answer(sys, m, srv, OpenResp(m.c, m.s, m.fd, fd)), m.s, fd, Reply(m.c, m.fd)))
  {
    hide ClientInv, ClientsInv, FlyingInv, OwnersInv, MsgsInv, PlainServers, OnlyTouched, CachingServer.Plain;
    var m' := OpenResp(m.c, m.s, m.fd, fd);
    var sys' := Owned(Answer(sys, m, srv, m'), m.s, fd, Reply(m.c, m.fd));
    Flying(cfg, sys, m);
    ClientAt(cfg, sys, m.c);
    OwnersAt(cfg, sys, m.s);
    OpenReqOwners(cfg, sys, sys', m, fd);
    OpenReqView(cfg, sys, sys', m, fd, srv);
    OpenReqClient(cfg, m.c, sys.clients[m.c], sys.hist.logs[m.c], m, fd, PlainServers(sys.servers), sys.hist.owners);
    SwapKeepsMsgs(cfg, sys, sys', m, m');
    OthersKeep(cfg, sys, sys', m.c, m.s, fd);
  }

  lemma OpenReqOwners(cfg: Config, sys: Sys, sys': Sys, m: Msg, fd: Fd)
    requires Wf(cfg, sys) && Wf(cfg, sys') && OwnersInv(cfg, sys)
    requires m.OpenReq? && m.s < cfg.servers && m.c < cfg.clients && sys.hist.flying[m.c] == Some(m)
    requires sys'.clients == sys.clients && sys'.msgs == sys.msgs - multiset{m} + multiset{OpenResp(m.c, m.s, m.fd, fd)}
    requires sys'.hist.flying == sys.hist.flying[m.c := Some(OpenResp(m.c, m.s, m.fd, fd))]
    requires sys'.hist.owners == sys.hist.owners[m.s := WithOwner(sys.hist.owners[m.s], fd, Reply(m.c, m.fd))]
    requires sys'.servers == sys.servers[m.s := sys'.servers[m.s]]
    requires fd !in sys.servers[m.s].files && sys'.servers[m.s].files.Keys == sys.servers[m.s].files.Keys + {fd}
    ensures OwnersInv(cfg, sys')
  {
    forall s | 0 <= s < cfg.servers ensures sys'.hist.owners[s].Keys == sys'.servers[s].files.Keys {}
    forall s, r | 0 <= s < cfg.servers && r in sys'.hist.owners[s] ensures OwnerInv(cfg, sys', s, r) {
      if s != m.s || r != fd { assert OwnerInv(cfg, sys, s, r); }
    }
  }

  function WithCursor(t: Table, fd: Fd, at: Cursor): Table {
    t[fd := at]
  }

  lemma OpenReqClient(cfg: Config, c: nat, cl: Client, log: seq<Event>, m: Msg, fd: Fd, plain: seq<Table>, owners: seq<Owners>)
    requires cfg.servers > 0 && |plain| == |owners| == cfg.servers && m.OpenReq? && m.s < cfg.servers && m.c == c
    requires ClientInv(cfg, c, cl, log, Some(m), plain, owners) && fd !in owners[m.s]
    ensures ClientInv(cfg, c, cl, log, Some(OpenResp(c, m.s, m.fd, fd)),
                      plain[m.s := WithCursor(plain[m.s], fd, Cursor(m.path, 0))],
                      owners[m.s := WithOwner(owners[m.s], fd, Reply(c, m.fd))])
  {
    var m' := OpenResp(c, m.s, m.fd, fd);
    var plain' := plain[m.s := WithCursor(plain[m.s], fd, Cursor(m.path, 0))];
    var owners' := owners[m.s := WithOwner(owners[m.s], fd, Reply(c, m.fd))];
    var t := TableOf(cfg.env.source, log);
    forall x <- cl.redir ensures EntryInv(cfg, c, cl, Ahead(cfg.env.source, cl, log, Some(m')), plain', owners', x) {
      assert EntryInv(cfg, c, cl, t, plain, owners, x);
    }
  }

  function On(call: Call, fd: Fd): Call {
    match call
    case Open(_, path) => Open(fd, path)
    case Close(_) => Close(fd)
    case Read(_, count) => Read(fd, count)
    case Pread(_, count, offset) => Pread(fd, count, offset)
    case Seek(_, offset, whence) => Seek(fd, offset, whence)
  }

  /** Equal cursors give equal results, and stay equal. */
  lemma SameCursorSameIo(files: Files, t: Table, call: Call, u: Table, fd: Fd)
    requires call.Read? || call.Pread? || call.Seek?
    requires call.fd in t && fd in u && t[call.fd] == u[fd]
    ensures var io, io' := Perform(files, t, call), Perform(files, u, On(call, fd));
            && io.ret == io'.ret && io.data == io'.data
            && call.fd in io.table && fd in io'.table && io.table[call.fd] == io'.table[fd]
            && io.table == t[call.fd := io.table[call.fd]] && io'.table == u[fd := io'.table[fd]]
  {
    assert t[call.fd := t[call.fd]] == t && u[fd := u[fd]] == u;
  }

  lemma ServedEntry(cfg: Config, c: nat, cl: Client, t: Table, t': Table, plain: seq<Table>, plain': seq<Table>,
                    owners: seq<Owners>, fd: Fd, x: Fd)
    requires cfg.servers > 0 && |plain| == |plain'| == |owners| == cfg.servers
    requires fd in cl.redir && EntryInv(cfg, c, cl, t, plain, owners, fd)
    requires x in cl.redir && EntryInv(cfg, c, cl, t, plain, owners, x)
    requires fd in t' && t' == t[fd := t'[fd]]
    requires var s := Host(cfg, cl.fdMap[fd]); plain' == plain[s := WithCursor(plain[s], cl.redir[fd], t'[fd])]
    ensures EntryInv(cfg, c, cl, t', plain', owners, x)
  {
  }

  lemma NextRendezvous(cfg: Config, c: nat, cl: Client, t: Table, m: Msg, m': Msg, plain: seq<Table>, plain': seq<Table>, owners: seq<Owners>)
    requires cfg.servers > 0 && |plain| == |plain'| == |owners| == cfg.servers && cl.pc.Busy?
    requires RendezvousInv(cfg, c, cl, t, Some(m), plain, owners)
    requires FlyingInv(cfg, c, cl, t, plain', owners, m')
    ensures RendezvousInv(cfg, c, cl, t, Some(m'), plain', owners)
    ensures m'.BulkPush? || m'.SeekResp? ==> cl.pc.call.Read? || cl.pc.call.Pread? || cl.pc.call.Seek?
  {
  }

  lemma CallEntry(cfg: Config, c: nat, cl: Client, t: Table, plain: seq<Table>, owners: seq<Owners>, fd: Fd)
    requires cfg.servers > 0 && |plain| == |owners| == cfg.servers
    requires fd in cl.redir && EntryInv(cfg, c, cl, t, plain, owners, fd)
    ensures fd in cl.fdMap
    ensures var s := Host(cfg, cl.fdMap[fd]);
            fd in t && cl.redir[fd] in plain[s] && plain[s][cl.redir[fd]] == t[fd]
  {
  }

  /** Client c's invariant once its server has run the request on the descriptor it owns. */
  lemma ServedClient(cfg: Config, c: nat, cl: Client, log: seq<Event>, m: Msg, s: nat, remote: Fd, m': Msg,
                     plain: seq<Table>, plain': seq<Table>, owners: seq<Owners>)
    requires cfg.servers > 0 && |plain| == |plain'| == |owners| == cfg.servers
    requires ClientInv(cfg, c, cl, log, Some(m), plain, owners)
    requires m.ReadReq? || m.SeekReq?
    requires m'.BulkPush? || m'.SeekResp?
    requires cl.pc.Busy? && cl.pc.call.fd in cl.redir && cl.redir[cl.pc.call.fd] == remote
    requires s == Host(cfg, cl.fdMap[cl.pc.call.fd])
    requires remote in plain[s]
    requires plain' == plain[s := Perform(cfg.env.source, plain[s], On(cl.pc.call, remote)).table]
    requires FlyingInv(cfg, c, cl, TableOf(cfg.env.source, log), plain', owners, m')
    ensures ClientInv(cfg, c, cl, log, Some(m'), plain', owners)
  {
    hide FlyingInv, Perform, LocalInv, EntryInv, RendezvousInv;
    var files := cfg.env.source;
    var t, call := TableOf(files, log), cl.pc.call;
    CallEntry(cfg, c, cl, t, plain, owners, call.fd);
    NextRendezvous(cfg, c, cl, t, m, m', plain, plain', owners);
    SameCursorSameIo(files, t, call, plain[s], remote);
    var t' := Perform(files, t, call).table;
    forall x <- cl.redir ensures EntryInv(cfg, c, cl, t', plain', owners, x) {
      assert EntryInv(cfg, c, cl, t, plain, owners, x);
      ServedEntry(cfg, c, cl, t, t', plain, plain', owners, call.fd, x);
    }
  }

  lemma RequestEntry(cfg: Config, c: nat, cl: Client, log: seq<Event>, m: Msg, plain: seq<Table>, owners: seq<Owners>)
    requires cfg.servers > 0 && |plain| == |owners| == cfg.servers
    requires ClientInv(cfg, c, cl, log, Some(m), plain, owners) && cl.pc.Busy? && (m.ReadReq? || m.SeekReq?)
    ensures var call := cl.pc.call;
            && call.fd in cl.redir && cl.redir[call.fd] == m.remote && call.fd in cl.fdMap
            && m.s == Host(cfg, cl.fdMap[call.fd]) && m.c == c
            && EntryInv(cfg, c, cl, TableOf(cfg.env.source, log), plain, owners, call.fd)
    ensures FlyingInv(cfg, c, cl, TableOf(cfg.env.source, log), plain, owners, m)
  {
  }

  /** The request reaches the server: it runs the call on an equal cursor. */
  lemma RequestServed(cfg: Config, sys: Sys, m: Msg, srv: Server, m': Msg)
    requires LinkInv(cfg, sys) && m in sys.msgs && (m.ReadReq? || m.SeekReq?)
    requires m.s < cfg.servers && m.c < cfg.clients && sys.hist.flying[m.c] == Some(m)
    requires sys.clients[m.c].pc.Busy? && (m'.BulkPush? || m'.SeekResp?) && m'.c == m.c && m'.s == m.s
    requires srv.files.Keys == sys.servers[m.s].files.Keys && m.remote in sys.servers[m.s].files
    requires CachingServer.Plain(srv) ==
      Perform(cfg.env.source, CachingServer.Plain(sys.servers[m.s]), On(sys.clients[m.c].pc.call, m.remote)).table
    requires FlyingInv(cfg, m.c, sys.clients[m.c], TableOf(cfg.env.source, sys.hist.logs[m.c]),
                       PlainServers(sys.servers[m.s := srv]), sys.hist.owners, m')
    ensures LinkInv(cfg, Answer(sys, m, srv, m'))
  {
    hide ClientInv, ClientsInv, OwnersInv, MsgsInv, FlyingInv;
    var c, cl, log := m.c, sys.clients[m.c], sys.hist.logs[m.c];
    var plain, plain' := PlainServers(sys.servers), PlainServers(sys.servers[m.s := srv]);
    ClientAt(cfg, sys, c);
    RequestEntry(cfg, c, cl, log, m, plain, sys.hist.owners);
    PlainUpdate(sys.servers, m.s, srv);
    SameCursorSameIo(cfg.env.source, TableOf(cfg.env.source, log), cl.pc.call, plain[m.s], m.remote);
    hide Perform;
    ServedClient(cfg, c, cl, log, m, m.s, m.remote, m', plain, plain', sys.hist.owners);
    assert sys.clients[c := cl] == sys.clients;
    AnswerKeeps(cfg, sys, m, srv, m.remote, cl, m');
  }
}
