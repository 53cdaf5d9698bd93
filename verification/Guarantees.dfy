/** What every reachable state of the whole system guarantees, in terms of its messages, tables and
    files. History variables appear only where a statement is about the past.
 */
module Guarantees {
  import opened Wrappers
  import opened Posix
  import opened Protocol
  import opened ProtocolInvariant
  import opened ProtocolSteps
  import opened ProtocolDelivery
  import opened ProtocolReplies
  import opened ProtocolSafety
  import CachingServer
  import ClientSide

  // ---- transparency ----

  /** The calls a client has completed are a legal history of a process with private, uncached
      files, whatever the other clients, the movers and the network did meanwhile. */
  lemma Transparency(cfg: Config, sys: Sys, c: nat)
    requires Reachable(cfg, sys) && c < cfg.clients
    ensures Wf(cfg, sys) && Legal(cfg.env.source, sys.hist.logs[c])
  {
    hide LinkInv, ServersInv, Legal;
    ReachableInv(cfg, sys);
    Shape(cfg, sys);
    LegalLog(cfg, sys, c);
  }

  lemma LegalLog(cfg: Config, sys: Sys, c: nat)
    requires LinkInv(cfg, sys) && c < cfg.clients
    ensures Legal(cfg.env.source, sys.hist.logs[c])
  {
    hide OwnersInv, MsgsInv;
    ClientAt(cfg, sys, c);
  }

  /** Each completed call met its own private table, and left the next one. */
  lemma CompletedAt(cfg: Config, sys: Sys, c: nat, k: nat)
    requires Reachable(cfg, sys) && c < cfg.clients && Wf(cfg, sys) && k < |sys.hist.logs[c]|
    ensures var files, log := cfg.env.source, sys.hist.logs[c];
            && Allowed(files, TableOf(files, log[..k]), log[k])
            && TableOf(files, log[..k + 1]) == Perform(files, TableOf(files, log[..k]), log[k].call).table
            && forall fd <- TableOf(files, log[..k]) :: TableOf(files, log[..k])[fd].path in files
  {
    hide Reachable, Legal, Allowed, Perform;
    var files, log := cfg.env.source, sys.hist.logs[c];
    Transparency(cfg, sys, c);
    LegalAt(files, log, k);
    LegalPrefix(files, log, k);
    LegalPaths(files, log[..k]);
    assert log[..k + 1] == log[..k] + [log[k]];
    Extend(files, log[..k], log[k]);
  }

  /** A completed open returned its descriptor, which was free, on an existing file at offset 0. */
  lemma OpenIsExact(cfg: Config, sys: Sys, c: nat, k: nat)
    requires Reachable(cfg, sys) && c < cfg.clients && Wf(cfg, sys) && k < |sys.hist.logs[c]|
    requires sys.hist.logs[c][k].call.Open?
    ensures var files, log, e := cfg.env.source, sys.hist.logs[c], sys.hist.logs[c][k];
            var t, t' := TableOf(files, log[..k]), TableOf(files, log[..k + 1]);
            && e.ret == e.call.fd && e.data == [] && e.call.path in files
            && e.call.fd !in t && t' == t[e.call.fd := Cursor(e.call.path, 0)]
  {
    hide Reachable, TableOf;
    CompletedAt(cfg, sys, c, k);
  }

  /** A completed close returned 0 and closed exactly its descriptor, or -1 if it was not open. */
  lemma CloseIsExact(cfg: Config, sys: Sys, c: nat, k: nat)
    requires Reachable(cfg, sys) && c < cfg.clients && Wf(cfg, sys) && k < |sys.hist.logs[c]|
    requires sys.hist.logs[c][k].call.Close?
    ensures var files, log, e := cfg.env.source, sys.hist.logs[c], sys.hist.logs[c][k];
            var t, t' := TableOf(files, log[..k]), TableOf(files, log[..k + 1]);
            && e.data == []
            && if e.call.fd in t then e.ret == 0 && t' == t - {e.call.fd} else e.ret == -1 && t' == t
  {
    hide Reachable, TableOf;
    CompletedAt(cfg, sys, c, k);
  }

  /** A completed read returned exactly the bytes the original file holds from the private offset on,
      as many as asked for or up to the end, and moved the offset behind them. */
  lemma ReadIsExact(cfg: Config, sys: Sys, c: nat, k: nat)
    requires Reachable(cfg, sys) && c < cfg.clients && Wf(cfg, sys) && k < |sys.hist.logs[c]|
    requires sys.hist.logs[c][k].call.Read?
    ensures var files, log, e := cfg.env.source, sys.hist.logs[c], sys.hist.logs[c][k];
            var t, t' := TableOf(files, log[..k]), TableOf(files, log[..k + 1]);
            if e.call.fd !in t then e.ret == -1 && e.data == [] && t' == t else
              && t[e.call.fd].path in files
              && var file, p := files[t[e.call.fd].path], t[e.call.fd].pos;
                && e.ret == |e.data|
                && (p + e.call.count <= |file| ==> e.data == file[p..p + e.call.count])
                && (p <= |file| < p + e.call.count ==> e.data == file[p..])
                && (|file| < p ==> e.data == [])
                && t' == t[e.call.fd := Cursor(t[e.call.fd].path, p + |e.data|)]
  {
    hide Reachable, TableOf;
    CompletedAt(cfg, sys, c, k);
    var t, call := TableOf(cfg.env.source, sys.hist.logs[c][..k]), sys.hist.logs[c][k].call;
    ReadIs(cfg.env.source, t, call.fd, call.count);
    hide Perform;
  }

  /** A completed pread returned exactly the bytes the original file holds at its offset, as many as
      asked for or up to the end, and left the private offset alone. */
  lemma PreadIsExact(cfg: Config, sys: Sys, c: nat, k: nat)
    requires Reachable(cfg, sys) && c < cfg.clients && Wf(cfg, sys) && k < |sys.hist.logs[c]|
    requires sys.hist.logs[c][k].call.Pread?
    ensures var files, log, e := cfg.env.source, sys.hist.logs[c], sys.hist.logs[c][k];
            var t, t' := TableOf(files, log[..k]), TableOf(files, log[..k + 1]);
            && t' == t
            && if e.call.fd !in t || e.call.offset < 0 then e.ret == -1 && e.data == [] else
                && t[e.call.fd].path in files
                && var file, p := files[t[e.call.fd].path], e.call.offset;
                  && e.ret == |e.data|
                  && (p + e.call.count <= |file| ==> e.data == file[p..p + e.call.count])
                  && (p <= |file| < p + e.call.count ==> e.data == file[p..])
                  && (|file| < p ==> e.data == [])
  {
    hide Reachable, TableOf;
    CompletedAt(cfg, sys, c, k);
    var t, call := TableOf(cfg.env.source, sys.hist.logs[c][..k]), sys.hist.logs[c][k].call;
    PreadIs(cfg.env.source, t, call.fd, call.count, call.offset);
    hide Perform;
  }

  /** A completed seek went to the place its offset and whence say and returned it, if that is below
      2^31; a larger one was reached, but returned cut to 32 bits; a negative or too large one was
      refused. */
  lemma SeekIsExact(cfg: Config, sys: Sys, c: nat, k: nat)
    requires Reachable(cfg, sys) && c < cfg.clients && Wf(cfg, sys) && k < |sys.hist.logs[c]|
    requires sys.hist.logs[c][k].call.Seek?
    ensures var files, log, e := cfg.env.source, sys.hist.logs[c], sys.hist.logs[c][k];
            var t, t' := TableOf(files, log[..k]), TableOf(files, log[..k + 1]);
            && e.data == []
            && if e.call.fd !in t then e.ret == -1 && t' == t else
                && t[e.call.fd].path in files
                && var target := match e.call.whence
                                 case SeekSet => e.call.offset
                                 case SeekCur => t[e.call.fd].pos + e.call.offset
                                 case SeekEnd => |files[t[e.call.fd].path]| + e.call.offset;
                  if 0 <= target <= MAX_OFFSET
                  then (e.ret == target <==> target < 0x8000_0000) && -0x8000_0000 <= e.ret < 0x8000_0000
                       && (e.ret - target) % 0x1_0000_0000 == 0
                       && t' == t[e.call.fd := Cursor(t[e.call.fd].path, target)]
                  else e.ret == -1 && t' == t
  {
    hide Reachable, TableOf;
    CompletedAt(cfg, sys, c, k);
    var t, call := TableOf(cfg.env.source, sys.hist.logs[c][..k]), sys.hist.logs[c][k].call;
    SeekIs(cfg.env.source, t, call.fd, call.offset, call.whence);
    hide Perform, ToInt32;
  }

  /** A client's successive reads of a descriptor return, together, what the file holds from the
      offset on, as many bytes as they asked for together or up to the end. */
  lemma ReadsStream(cfg: Config, sys: Sys, c: nat, from: nat, to: nat, fd: Fd)
    requires Reachable(cfg, sys) && c < cfg.clients && Wf(cfg, sys) && from <= to <= |sys.hist.logs[c]|
    requires fd in TableOf(cfg.env.source, sys.hist.logs[c][..from])
    requires forall e <- sys.hist.logs[c][from..to] :: Keeps(fd, e.call) || e.call.Read?
    ensures var files, log := cfg.env.source, sys.hist.logs[c];
            var at, data, n := TableOf(files, log[..from])[fd], DataRead(fd, log[from..to]), Wanted(fd, log[from..to]);
            && at.path in files
            && var file := files[at.path];
              && (at.pos + n <= |file| ==> data == file[at.pos..at.pos + n])
              && (at.pos <= |file| < at.pos + n ==> data == file[at.pos..])
              && (|file| < at.pos ==> data == [])
              && fd in TableOf(files, log[..to]) && TableOf(files, log[..to])[fd] == Cursor(at.path, at.pos + |data|)
  {
    hide Reachable, Legal, TableOf, DataRead, Wanted;
    var log := sys.hist.logs[c];
    Transparency(cfg, sys, c);
    LegalPrefix(cfg.env.source, log, to);
    assert log[..from] + log[from..to] == log[..to];
    ReadsAreContiguous(cfg.env.source, log[..from], log[from..to], fd);
  }

  // ---- descriptors ----

  /** o holds descriptor r of server s: by an open reply in flight, an entry of a client's
      fd_redir_map, or a close in flight. */
  predicate Holds(cfg: Config, sys: Sys, s: nat, r: Fd, o: Owner)
    requires Wf(cfg, sys)
  {
    match o
    case Reply(c, fd) => OpenResp(c, s, fd, r) in sys.msgs
    case Entry(c, fd) =>
      && c < cfg.clients && fd in sys.clients[c].redir && sys.clients[c].redir[fd] == r
      && fd in sys.clients[c].fdMap && cfg.hash(sys.clients[c].fdMap[fd]) % cfg.servers == s
    case InClose => CloseReq(s, r) in sys.msgs
  }

  lemma HolderIsOwner(cfg: Config, sys: Sys, s: nat, r: Fd, o: Owner)
    requires Inv(cfg, sys) && s < cfg.servers && Holds(cfg, sys, s, r, o)
    ensures r in sys.servers[s].files && r in sys.hist.owners[s] && sys.hist.owners[s][r] == o
    ensures o.Reply? ==> sys.msgs[OpenResp(o.c, s, o.fd, r)] == 1
    ensures o.InClose? ==> sys.msgs[CloseReq(s, r)] == 1
  {
    hide ClientsInv, OwnersInv, MsgsInv, ServersInv, FlyingInv, ClientInv;
    OwnersAt(cfg, sys, s);
    match o
    case Reply(c, fd) =>
      var m := OpenResp(c, s, fd, r);
      Flying(cfg, sys, m);
      ClientAt(cfg, sys, c);
      OpenReplyOf(cfg, c, sys.clients[c], sys.hist.logs[c], m, PlainServers(sys.servers), sys.hist.owners);
      Once(cfg, sys, m);
    case Entry(c, fd) =>
      ClientAt(cfg, sys, c);
      EntryOwner(cfg, c, sys.clients[c], sys.hist.logs[c], sys.hist.flying[c], PlainServers(sys.servers), sys.hist.owners, fd);
    case InClose => CloseReqTarget(cfg, sys, CloseReq(s, r));
  }

  lemma Once(cfg: Config, sys: Sys, m: Msg)
    requires Wf(cfg, sys) && MsgsInv(cfg, sys) && m in sys.msgs
    ensures sys.msgs[m] == 1
  {
    assert MsgInv(cfg, sys, m);
  }

  /** A client's view of a descriptor names the tracked path, also while a call is under way. */
  lemma AheadPath(cfg: Config, c: nat, cl: Client, log: seq<Event>, flying: Option<Msg>, plain: seq<Table>, owners: seq<Owners>, fd: Fd)
    requires cfg.servers > 0 && |plain| == |owners| == cfg.servers
    requires LocalInv(cfg.env.source, cl, TableOf(cfg.env.source, log))
    requires RendezvousInv(cfg, c, cl, TableOf(cfg.env.source, log), flying, plain, owners)
    requires fd in cl.fdMap && fd in Ahead(cfg.env.source, cl, log, flying)
    ensures Ahead(cfg.env.source, cl, log, flying)[fd].path == cl.fdMap[fd]
  {
    hide FlyingInv, AnsweredInv;
  }

  lemma EntryOwner(cfg: Config, c: nat, cl: Client, log: seq<Event>, flying: Option<Msg>, plain: seq<Table>, owners: seq<Owners>, fd: Fd)
    requires cfg.servers > 0 && |plain| == |owners| == cfg.servers && fd in cl.redir
    requires ClientInv(cfg, c, cl, log, flying, plain, owners)
    ensures fd in cl.fdMap
    ensures var s, r := Host(cfg, cl.fdMap[fd]), cl.redir[fd];
            && r in owners[s] && owners[s][r] == Entry(c, fd)
            && r in plain[s] && plain[s][r].path == cl.fdMap[fd]
  {
    hide RendezvousInv, Legal, LocalInv, Perform, TableOf;
    assert EntryInv(cfg, c, cl, Ahead(cfg.env.source, cl, log, flying), plain, owners, fd);
    AheadPath(cfg, c, cl, log, flying, plain, owners, fd);
  }

  lemma OwnerHolds(cfg: Config, sys: Sys, s: nat, r: Fd)
    requires LinkInv(cfg, sys) && s < cfg.servers && r in sys.servers[s].files
    ensures r in sys.hist.owners[s] && Holds(cfg, sys, s, r, sys.hist.owners[s][r])
  {
    hide ClientsInv;
    assert OwnerInv(cfg, sys, s, r);
  }

  /** Every descriptor a server has open for clients has exactly one holder, every holder holds an
      open one, and no reply or close is in flight twice. */
  lemma OneHolder(cfg: Config, sys: Sys, s: nat, r: Fd)
    requires Reachable(cfg, sys) && Wf(cfg, sys) && s < cfg.servers
    ensures r in sys.servers[s].files <==> exists o :: Holds(cfg, sys, s, r, o)
    ensures forall o, o' :: Holds(cfg, sys, s, r, o) && Holds(cfg, sys, s, r, o') ==> o == o'
    ensures forall c, fd :: sys.msgs[OpenResp(c, s, fd, r)] <= 1
    ensures sys.msgs[CloseReq(s, r)] <= 1
  {
    hide LinkInv, ServersInv, Holds;
    ReachableInv(cfg, sys);
    forall o | Holds(cfg, sys, s, r, o)
      ensures r in sys.servers[s].files && r in sys.hist.owners[s] && o == sys.hist.owners[s][r]
    {
      HolderIsOwner(cfg, sys, s, r, o);
    }
    if r in sys.servers[s].files { OwnerHolds(cfg, sys, s, r); }
    forall c, fd ensures sys.msgs[OpenResp(c, s, fd, r)] <= 1 {
      if OpenResp(c, s, fd, r) in sys.msgs { AnyOnce(cfg, sys, OpenResp(c, s, fd, r)); }
    }
    if CloseReq(s, r) in sys.msgs { AnyOnce(cfg, sys, CloseReq(s, r)); }
  }

  lemma AnyOnce(cfg: Config, sys: Sys, m: Msg)
    requires LinkInv(cfg, sys) && m in sys.msgs
    ensures sys.msgs[m] == 1
  {
    hide ClientsInv, OwnersInv;
    Once(cfg, sys, m);
  }

  /** However late a close arrives, its descriptor is still the one its client closed: nobody else
      has it or is being given it, and delivering the close changes no other open descriptor. */
  lemma LateClose(cfg: Config, sys: Sys, m: Msg, fd: Fd)
    requires Reachable(cfg, sys) && Wf(cfg, sys) && m.CloseReq? && Enabled(cfg, sys, Deliver(m, fd))
    ensures m.remote in sys.servers[m.s].files
    ensures forall c, x | 0 <= c < cfg.clients && x in sys.clients[c].redir && x in sys.clients[c].fdMap ::
      !(cfg.hash(sys.clients[c].fdMap[x]) % cfg.servers == m.s && sys.clients[c].redir[x] == m.remote)
    ensures forall c, x :: OpenResp(c, m.s, x, m.remote) !in sys.msgs
    ensures var sys' := Apply(cfg, sys, Deliver(m, fd));
            && sys'.servers == sys.servers[m.s := sys'.servers[m.s]] && sys'.clients == sys.clients
            && !sys'.servers[m.s].halted
            && CachingServer.Plain(sys'.servers[m.s]) == CachingServer.Plain(sys.servers[m.s]) - {m.remote}
  {
    hide LinkInv, ServersInv, CachingServer.ServerInv, CachingServer.CloseRpc, CachingServer.Plain;
    ReachableInv(cfg, sys);
    OneHolder(cfg, sys, m.s, m.remote);
    assert Holds(cfg, sys, m.s, m.remote, InClose);
    forall c, x | 0 <= c < cfg.clients && x in sys.clients[c].redir && x in sys.clients[c].fdMap
      ensures !(cfg.hash(sys.clients[c].fdMap[x]) % cfg.servers == m.s && sys.clients[c].redir[x] == m.remote)
    {
      var o: Owner := Entry(c, x);
      assert o != InClose && !Holds(cfg, sys, m.s, m.remote, o);
    }
    forall c, x ensures OpenResp(c, m.s, x, m.remote) !in sys.msgs {
      var o: Owner := Reply(c, x);
      assert o != InClose && !Holds(cfg, sys, m.s, m.remote, o);
    }
    ServerAt(cfg, sys, m.s);
    CachingServer.CloseKeeps(cfg.env, sys.servers[m.s], m.remote);
    Unhalted(cfg, CachingServer.CloseRpc(cfg.env, sys.servers[m.s], m.remote));
  }

  lemma Unhalted(cfg: Config, srv: Server)
    requires CachingServer.ServerInv(cfg.env, srv)
    ensures !srv.halted
  {
  }

  /** No server ever fails an assert: every request that names a descriptor finds it open. */
  lemma NoServerHalts(cfg: Config, sys: Sys, s: nat)
    requires Reachable(cfg, sys) && Wf(cfg, sys) && s < cfg.servers
    ensures !sys.servers[s].halted
    ensures forall m <- sys.msgs :: m.s == s && (m.ReadReq? || m.SeekReq? || m.CloseReq?) ==> m.remote in sys.servers[s].files
  {
    hide LinkInv, ServersInv, CachingServer.ServerInv;
    ReachableInv(cfg, sys);
    ServerAt(cfg, sys, s);
    Unhalted(cfg, sys.servers[s]);
    forall m <- sys.msgs | m.s == s && (m.ReadReq? || m.SeekReq? || m.CloseReq?) ensures m.remote in sys.servers[s].files {
      if m.CloseReq? {
        OneHolder(cfg, sys, s, m.remote);
        assert Holds(cfg, sys, s, m.remote, InClose);
      } else {
        RequestTarget(cfg, sys, m);
      }
    }
  }

  /** fd_redir_map holds, for a tracked descriptor, one that the server chosen by the path's hash
      has open on that very path; requests of a call under way go there and name it. */
  lemma Routing(cfg: Config, sys: Sys, c: nat, fd: Fd)
    requires Reachable(cfg, sys) && Wf(cfg, sys) && c < cfg.clients && fd in sys.clients[c].redir
    ensures fd in sys.clients[c].fdMap
    ensures var s, r := cfg.hash(sys.clients[c].fdMap[fd]) % cfg.servers, sys.clients[c].redir[fd];
            && r in sys.servers[s].files && CachingServer.PathOf(sys.servers[s], r) == sys.clients[c].fdMap[fd]
            && (forall m <- sys.msgs :: (m.ReadReq? || m.SeekReq?) && m.c == c && m.remote == r && m.s == s ==>
                  sys.clients[c].pc.Busy? && sys.clients[c].pc.call.fd == fd)
            && (forall m <- sys.msgs :: (m.ReadReq? || m.SeekReq?) && m.c == c && sys.clients[c].pc.Busy? && sys.clients[c].pc.call.fd == fd ==>
                  m.s == s && m.remote == r)
  {
    hide ClientsInv, OwnersInv, MsgsInv, ServersInv, ClientInv, FlyingInv, EntryInv;
    ReachableInv(cfg, sys);
    var cl, log, plain := sys.clients[c], sys.hist.logs[c], PlainServers(sys.servers);
    ClientAt(cfg, sys, c);
    EntryOwner(cfg, c, cl, log, sys.hist.flying[c], plain, sys.hist.owners, fd);
    var s, r := Host(cfg, cl.fdMap[fd]), cl.redir[fd];
    OwnersAt(cfg, sys, s);
    forall m <- sys.msgs | (m.ReadReq? || m.SeekReq?) && m.c == c
      ensures cl.pc.Busy? && cl.pc.call.fd in cl.redir
      ensures cl.pc.call.fd == fd ==> m.s == s && m.remote == r
      ensures m.s == s && m.remote == r ==> cl.pc.call.fd == fd
    {
      Flying(cfg, sys, m);
      RequestEntry(cfg, c, cl, log, m, plain, sys.hist.owners);
      EntryOwner(cfg, c, cl, log, sys.hist.flying[c], plain, sys.hist.owners, cl.pc.call.fd);
    }
  }

  /** The close of a tracked descriptor sends one request, to the server that has the client's
      descriptor open on the path being closed, and names it. */
  lemma CloseRouting(cfg: Config, sys: Sys, c: nat, fd: Fd, accepted: bool)
    requires Reachable(cfg, sys) && Wf(cfg, sys) && c < cfg.clients
    requires fd in sys.clients[c].fdMap && Enabled(cfg, sys, App(c, Close(fd), accepted))
    ensures fd in sys.clients[c].redir
    ensures var s, r := cfg.hash(sys.clients[c].fdMap[fd]) % cfg.servers, sys.clients[c].redir[fd];
            && r in sys.servers[s].files && CachingServer.PathOf(sys.servers[s], r) == sys.clients[c].fdMap[fd]
            && Apply(cfg, sys, App(c, Close(fd), accepted)).msgs == sys.msgs + multiset{CloseReq(s, r)}
  {
    hide ClientsInv, OwnersInv, MsgsInv, ServersInv, ClientInv, EntryInv, Perform;
    ReachableInv(cfg, sys);
    var cl, log, plain := sys.clients[c], sys.hist.logs[c], PlainServers(sys.servers);
    ClientAt(cfg, sys, c);
    IdleClient(cfg, c, cl, log, sys.hist.flying[c], plain, sys.hist.owners);
    CloseEntry(cfg, c, cl, log, fd, plain, sys.hist.owners);
    Routing(cfg, sys, c, fd);
  }

  // ---- the rendezvous ----

  /** done is 0 or 1. A client that waits with done 0 has exactly one message of its own in flight,
      so it cannot have missed the wake-up; a client that may return has none, and the
      result in place is the one POSIX gives for its own call. Closes in flight never matter. */
  lemma Rendezvous(cfg: Config, sys: Sys, c: nat)
    requires Reachable(cfg, sys) && Wf(cfg, sys) && c < cfg.clients
    ensures var cl := sys.clients[c];
            && (cl.done == 0 || cl.done == 1)
            && (cl.pc.Busy? && cl.pc.asleep ==> cl.done == 0)
            && (cl.pc.Busy? && cl.done == 0 <==> exists m <- sys.msgs :: !m.CloseReq? && m.c == c)
            && (forall m, m' | m in sys.msgs && m' in sys.msgs && !m.CloseReq? && !m'.CloseReq? && m.c == m'.c == c ::
                  m == m' && sys.msgs[m] == 1)
    ensures var cl := sys.clients[c];
            cl.pc.Busy? && cl.done == 1 ==>
              var out := ClientSide.Finish(cfg.env.source, cl);
              Allowed(cfg.env.source, TableOf(cfg.env.source, sys.hist.logs[c]), Event(cl.pc.call, out.ret, out.data))
  {
    hide ClientsInv, OwnersInv, MsgsInv, ServersInv, FlyingInv, ClientInv, Allowed, ClientSide.Finish;
    ReachableInv(cfg, sys);
    ClientAt(cfg, sys, c);
    var cl, log := sys.clients[c], sys.hist.logs[c];
    RendezvousOf(cfg, c, cl, log, sys.hist.flying[c], PlainServers(sys.servers), sys.hist.owners);
    forall m <- sys.msgs | !m.CloseReq? && m.c == c ensures sys.hist.flying[c] == Some(m) && sys.msgs[m] == 1 {
      Flying(cfg, sys, m);
      Once(cfg, sys, m);
    }
    FlyingIsSent(cfg, sys, c);
  }

  lemma FlyingIsSent(cfg: Config, sys: Sys, c: nat)
    requires Wf(cfg, sys) && MsgsInv(cfg, sys) && c < cfg.clients
    ensures sys.hist.flying[c].Some? ==>
      var m := sys.hist.flying[c].value; m in sys.msgs && !m.CloseReq? && m.c == c
  {
  }

  lemma RendezvousOf(cfg: Config, c: nat, cl: Client, log: seq<Event>, flying: Option<Msg>, plain: seq<Table>, owners: seq<Owners>)
    requires cfg.servers > 0 && |plain| == |owners| == cfg.servers
    requires ClientInv(cfg, c, cl, log, flying, plain, owners)
    ensures cl.done == 0 || cl.done == 1
    ensures cl.pc.Busy? && cl.pc.asleep ==> cl.done == 0
    ensures cl.pc.Busy? && cl.done == 0 <==> flying.Some?
    ensures cl.pc.Busy? && cl.done == 1 ==>
      var out := ClientSide.Finish(cfg.env.source, cl);
      Allowed(cfg.env.source, TableOf(cfg.env.source, log), Event(cl.pc.call, out.ret, out.data))
  {
    hide LocalInv, FlyingInv, Perform, Legal, EntryInv;
    if cl.pc.Busy? && cl.done == 1 {
      FinishAllowed(cfg.env.source, cl, TableOf(cfg.env.source, log));
    }
  }
}
