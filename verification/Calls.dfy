/** What each intercepted call sends and changes when it starts, how its messages travel, and what it
    leaves when it returns: one lemma for each kind of step, from every reachable state.
 */
module Calls {
  import opened Wrappers
  import opened Posix
  import opened Protocol
  import opened ProtocolInvariant
  import opened ProtocolSteps
  import opened ProtocolDelivery
  import opened ProtocolReplies
  import opened ProtocolSafety
  import opened Guarantees
  import opened ClientSide
  import CachingServer
  import CacheGuarantees

  /** Only client c and what is logged and sent on its behalf may differ. */
  ghost predicate OnlyClient(c: nat, sys: Sys, sys': Sys) {
    && |sys'.clients| == |sys.clients| && |sys'.hist.logs| == |sys.hist.logs|
    && sys'.servers == sys.servers
    && (forall d | 0 <= d < |sys.clients| && d != c :: sys'.clients[d] == sys.clients[d])
    && (forall d | 0 <= d < |sys.hist.logs| && d != c :: sys'.hist.logs[d] == sys.hist.logs[d])
  }

  /** The log has grown by one completed call. */
  predicate LogGrew(log: seq<Event>, log': seq<Event>, call: Call) {
    |log'| == |log| + 1 && log'[..|log|] == log && log'[|log|].call == call
  }

  /** What is known of a client that is not inside a call. */
  lemma IdleAt(cfg: Config, sys: Sys, c: nat)
    requires Reachable(cfg, sys) && Wf(cfg, sys) && c < cfg.clients && sys.clients[c].pc.Idle?
    ensures sys.clients[c].redir.Keys == sys.clients[c].fdMap.Keys <= sys.clients[c].kernel.Keys
  {
    hide ClientsInv, OwnersInv, MsgsInv, ServersInv, ClientInv, Reachable;
    ReachableInv(cfg, sys);
    ClientAt(cfg, sys, c);
    IdleClient(cfg, c, sys.clients[c], sys.hist.logs[c], sys.hist.flying[c], PlainServers(sys.servers), sys.hist.owners);
  }

  // ---- calls start ----

  /** Any open of an existing file may happen; it opens the file locally, and if the path is accepted
      it tracks the descriptor, asks the server the path's hash chooses and waits. A refused path is
      done at once and sends nothing. */
  lemma OpenStarts(cfg: Config, sys: Sys, c: nat, fd: Fd, path: Path, accepted: bool)
    requires Reachable(cfg, sys) && Wf(cfg, sys) && c < cfg.clients && sys.clients[c].pc == Idle
    requires fd !in sys.clients[c].kernel && path in cfg.env.source
    ensures Enabled(cfg, sys, App(c, Open(fd, path), accepted))
    ensures var sys' := Apply(cfg, sys, App(c, Open(fd, path), accepted));
            var cl, cl' := sys.clients[c], sys'.clients[c];
            && OnlyClient(c, sys, sys') && cl'.redir == cl.redir && cl'.kernel == cl.kernel[fd := Cursor(path, 0)]
            && if accepted
               then && sys'.msgs == sys.msgs + multiset{OpenReq(c, cfg.hash(path) % cfg.servers, fd, path)}
                    && cl'.fdMap == cl.fdMap[fd := path] && cl'.pc == Busy(Open(fd, path), false) && cl'.done == 0
                    && sys'.hist.logs[c] == sys.hist.logs[c]
               else && sys'.msgs == sys.msgs && cl'.fdMap == cl.fdMap && cl'.pc == Idle
                    && LogGrew(sys.hist.logs[c], sys'.hist.logs[c], Open(fd, path))
  {
  }

  /** A read of a tracked descriptor, and a pread of one whose server descriptor is not 0, asks the
      server its path's hash chooses, naming that server's descriptor, and waits; every other read and
      pread is served locally and sends nothing. */
  lemma TransferStarts(cfg: Config, sys: Sys, c: nat, call: Call)
    requires Reachable(cfg, sys) && Wf(cfg, sys) && c < cfg.clients && sys.clients[c].pc == Idle
    requires call.Read? || (call.Pread? && 0 <= call.offset <= MAX_OFFSET)
    requires call.count < 0x8000_0000
    ensures call.fd in sys.clients[c].fdMap <==> call.fd in sys.clients[c].redir
    ensures Enabled(cfg, sys, App(c, call, true)) && Enabled(cfg, sys, App(c, call, false))
    ensures Apply(cfg, sys, App(c, call, true)) == Apply(cfg, sys, App(c, call, false))
    ensures var sys' := Apply(cfg, sys, App(c, call, true));
            var cl, cl' := sys.clients[c], sys'.clients[c];
            && OnlyClient(c, sys, sys') && cl'.redir == cl.redir && cl'.fdMap == cl.fdMap
            && if call.fd in cl.fdMap && (call.Read? || cl.redir[call.fd] != 0)
               then && sys'.msgs == sys.msgs + multiset{
                         ReadReq(c, cfg.hash(cl.fdMap[call.fd]) % cfg.servers, cl.redir[call.fd], call.count,
                                 if call.Read? then -1 else call.offset)}
                    && cl'.pc == Busy(call, false) && cl'.done == 0 && |cl'.buf| == call.count
                    && cl'.kernel == cl.kernel && sys'.hist.logs[c] == sys.hist.logs[c]
               else && sys'.msgs == sys.msgs && cl'.pc == Idle
                    && LogGrew(sys.hist.logs[c], sys'.hist.logs[c], call)
  {
    IdleAt(cfg, sys, c);
    hide Reachable, Perform;
    assert ToInt32(call.count) == call.count;
  }

  /** A remote seek of a tracked descriptor asks its server and waits. */
  lemma SeekStarts(cfg: Config, sys: Sys, c: nat, call: Call, accepted: bool)
    requires Reachable(cfg, sys) && Wf(cfg, sys) && c < cfg.clients && sys.clients[c].pc == Idle
    requires call.Seek? && call.fd in sys.clients[c].fdMap && -0x8000_0000 <= call.offset < 0x8000_0000
    ensures call.fd in sys.clients[c].redir && Enabled(cfg, sys, App(c, call, accepted))
    ensures var sys' := Apply(cfg, sys, App(c, call, accepted));
            var cl, cl' := sys.clients[c], sys'.clients[c];
            && OnlyClient(c, sys, sys') && cl'.redir == cl.redir && cl'.fdMap == cl.fdMap && cl'.kernel == cl.kernel
            && sys'.msgs == sys.msgs + multiset{
                 SeekReq(c, cfg.hash(cl.fdMap[call.fd]) % cfg.servers, cl.redir[call.fd], call.offset, call.whence)}
            && cl'.pc == Busy(call, false) && cl'.done == 0 && sys'.hist.logs[c] == sys.hist.logs[c]
  {
    IdleAt(cfg, sys, c);
    hide Reachable, Perform;
    assert ToInt32(call.offset) == call.offset;
  }

  /** A close never waits: it forgets the descriptor everywhere in the client, and if it was tracked
      sends one close to its server. */
  lemma CloseStarts(cfg: Config, sys: Sys, c: nat, fd: Fd, accepted: bool)
    requires Reachable(cfg, sys) && Wf(cfg, sys) && c < cfg.clients && sys.clients[c].pc == Idle
    ensures Enabled(cfg, sys, App(c, Close(fd), accepted))
    ensures fd in sys.clients[c].fdMap <==> fd in sys.clients[c].redir
    ensures var sys' := Apply(cfg, sys, App(c, Close(fd), accepted));
            var cl, cl' := sys.clients[c], sys'.clients[c];
            && OnlyClient(c, sys, sys') && cl'.pc == Idle && LogGrew(sys.hist.logs[c], sys'.hist.logs[c], Close(fd))
            && cl'.kernel == cl.kernel - {fd} && cl'.fdMap == cl.fdMap - {fd} && cl'.redir == cl.redir - {fd}
            && sys'.msgs == sys.msgs + if fd in cl.fdMap
                                       then multiset{CloseReq(cfg.hash(cl.fdMap[fd]) % cfg.servers, cl.redir[fd])}
                                       else multiset{}
  {
    IdleAt(cfg, sys, c);
    hide Reachable;
    var cl := sys.clients[c];
    assert fd !in cl.kernel ==> cl.kernel - {fd} == cl.kernel;
    assert fd !in cl.fdMap ==> cl.fdMap - {fd} == cl.fdMap && cl.redir - {fd} == cl.redir;
  }

  // ---- messages travel ----

  /** What is known when a message for a client is in flight: whose it is, and who waits for it. */
  lemma InFlight(cfg: Config, sys: Sys, m: Msg)
    requires Reachable(cfg, sys) && Wf(cfg, sys) && m in sys.msgs && !m.CloseReq?
    ensures m.s < cfg.servers && m.c < cfg.clients && sys.msgs[m] == 1 && !sys.servers[m.s].halted
    ensures var cl := sys.clients[m.c];
            && cl.pc.Busy? && cl.done == 0 && !cl.pc.call.Close? && cl.pc.call.fd in cl.fdMap
            && m.s == cfg.hash(cl.fdMap[cl.pc.call.fd]) % cfg.servers
            && (m.OpenReq? ==> cl.pc.call == Open(m.fd, m.path) && cl.fdMap[m.fd] == m.path)
            && (m.OpenResp? ==> cl.pc.call.Open? && cl.pc.call.fd == m.fd)
            && (m.ReadReq? || m.SeekReq? ==> cl.pc.call.fd in cl.redir && cl.redir[cl.pc.call.fd] == m.remote)
            && (m.ReadReq? || m.BulkPush? || m.ReadResp? <==> cl.pc.call.Read? || cl.pc.call.Pread?)
            && (m.SeekReq? || m.SeekResp? <==> cl.pc.call.Seek?)
            && (m.ReadReq? ==> m.count == cl.pc.call.count >= 0 && m.offset == if cl.pc.call.Read? then -1 else cl.pc.call.offset)
            && (m.BulkPush? ==> |m.data| <= |cl.buf| && |m.data| < TWO_TO_31)
  {
    hide ClientsInv, OwnersInv, MsgsInv, ServersInv, ClientInv, Reachable, CachingServer.ServerInv;
    ReachableInv(cfg, sys);
    Flying(cfg, sys, m);
    AnyOnce(cfg, sys, m);
    ServerAt(cfg, sys, m.s);
    Unhalted(cfg, sys.servers[m.s]);
    ClientAt(cfg, sys, m.c);
    FlyingIs(cfg, m.c, sys.clients[m.c], sys.hist.logs[m.c], m, PlainServers(sys.servers), sys.hist.owners);
  }

  lemma FlyingIs(cfg: Config, c: nat, cl: Client, log: seq<Event>, m: Msg, plain: seq<Table>, owners: seq<Owners>)
    requires cfg.servers > 0 && |plain| == |owners| == cfg.servers
    requires ClientInv(cfg, c, cl, log, Some(m), plain, owners) && cl.pc.Busy?
    ensures m.OpenReq? ==> cl.pc.call == Open(m.fd, m.path) && m.fd in cl.fdMap && cl.fdMap[m.fd] == m.path
    ensures m.BulkPush? ==> |m.data| < TWO_TO_31
  {
  }

  /** Only server s, client c and the messages may differ. */
  ghost predicate OnlyBetween(c: nat, s: nat, sys: Sys, sys': Sys) {
    && |sys'.servers| == |sys.servers| && |sys'.clients| == |sys.clients| && sys'.hist.logs == sys.hist.logs
    && (forall r | 0 <= r < |sys.servers| && r != s :: sys'.servers[r] == sys.servers[r])
    && (forall d | 0 <= d < |sys.clients| && d != c :: sys'.clients[d] == sys.clients[d])
  }

  /** An open request can be delivered once the server's handler is free, with any free descriptor, and
      is answered with it. */
  lemma OpenDelivered(cfg: Config, sys: Sys, m: Msg, fd: Fd)
    requires Reachable(cfg, sys) && Wf(cfg, sys) && m in sys.msgs && m.OpenReq?
    requires m.s < cfg.servers ==> sys.servers[m.s].handler.Ready? && fd !in sys.servers[m.s].files
    ensures m.s < cfg.servers && m.c < cfg.clients && Enabled(cfg, sys, Deliver(m, fd))
    ensures var sys' := Apply(cfg, sys, Deliver(m, fd));
            && OnlyBetween(m.c, m.s, sys, sys') && sys'.clients[m.c] == sys.clients[m.c]
            && sys'.msgs == sys.msgs - multiset{m} + multiset{OpenResp(m.c, m.s, m.fd, fd)}
            && sys'.servers[m.s].handler.Ready?
            && CachingServer.Plain(sys'.servers[m.s]) == CachingServer.Plain(sys.servers[m.s])[fd := Cursor(m.path, 0)]
  {
    hide Inv, CachingServer.ServerInv, CachingServer.Plain, Reachable, Perform;
    InFlight(cfg, sys, m);
    ReachableInv(cfg, sys);
    OpenedPlain(cfg, sys, m, fd);
  }

  lemma OpenedPlain(cfg: Config, sys: Sys, m: Msg, fd: Fd)
    requires Inv(cfg, sys) && m in sys.msgs && m.OpenReq? && m.s < |sys.servers|
    requires sys.servers[m.s].handler.Ready? && fd !in sys.servers[m.s].files
    ensures CachingServer.Plain(CachingServer.OpenRpc(cfg.env, sys.servers[m.s], m.path, fd)) ==
            CachingServer.Plain(sys.servers[m.s])[fd := Cursor(m.path, 0)]
  {
    hide LinkInv, ServersInv, CachingServer.ServerInv, CachingServer.Plain, CachingServer.OpenRpc;
    Shape(cfg, sys);
    OpenReqPath(cfg, sys, m);
    ServerAt(cfg, sys, m.s);
    CachingServer.OpenKeeps(cfg.env, sys.servers[m.s], m.path, fd);
  }

  /** A read request can be delivered once the handler is free, and makes the server push the bytes the
      original file has at the descriptor's offset, or at the request's own, and no others. */
  lemma ReadDelivered(cfg: Config, sys: Sys, m: Msg) returns (data: Content)
    requires Reachable(cfg, sys) && Wf(cfg, sys) && m in sys.msgs && m.ReadReq?
    requires m.s < cfg.servers ==> sys.servers[m.s].handler.Ready?
    ensures m.s < cfg.servers && m.c < cfg.clients && m.remote in sys.servers[m.s].files
    ensures Enabled(cfg, sys, Deliver(m, 0)) && CachingServer.PathOf(sys.servers[m.s], m.remote) in cfg.env.source
    ensures var sys', srv := Apply(cfg, sys, Deliver(m, 0)), sys.servers[m.s];
            var path := CachingServer.PathOf(srv, m.remote);
            var p := if m.offset == -1 then srv.files[m.remote].pos else m.offset;
            && OnlyBetween(m.c, m.s, sys, sys') && sys'.clients[m.c] == sys.clients[m.c]
            && sys'.servers[m.s].handler.Ready? && p >= 0 && m.count >= 0
            && sys'.msgs == sys.msgs - multiset{m} + multiset{BulkPush(m.c, m.s, data)}
            && IsPart(cfg.env.source[path], p, m.count, data)
            && CachingServer.Plain(sys'.servers[m.s]) ==
               if m.offset == -1 then CachingServer.Plain(srv)[m.remote := Cursor(path, p + |data|)]
               else CachingServer.Plain(srv)
  {
    hide Inv, CachingServer.ServerInv, CachingServer.Plain, CachingServer.PathOf, Reachable, Perform, IsPart;
    hide ToInt32, Bytes, BulkWrite, OpenCallback, ResultCallback;
    InFlight(cfg, sys, m);
    ReachableInv(cfg, sys);
    NoServerHalts(cfg, sys, m.s);
    OffsetOf(cfg, sys, m);
    InvServerAt(cfg, sys, m.s);
    CacheGuarantees.ReadAnswered(cfg.env, sys.servers[m.s], m.remote, m.count, m.offset);
    ReadStaysReady(cfg.env, sys.servers[m.s], m.remote, m.count, m.offset);
    ReadStep(cfg, sys, m);
    hide CachingServer.ReadRpc, Apply, RunDeliver;
    data := CachingServer.ReadRpc(cfg.env, sys.servers[m.s], m.remote, m.count, m.offset).data;
  }

  lemma ReadStep(cfg: Config, sys: Sys, m: Msg)
    requires Wf(cfg, sys) && m.ReadReq? && Enabled(cfg, sys, Deliver(m, 0))
    ensures var out := CachingServer.ReadRpc(cfg.env, sys.servers[m.s], m.remote, m.count, m.offset);
            out.ret >= 0 ==> Apply(cfg, sys, Deliver(m, 0)) == Answer(sys, m, out.server, BulkPush(m.c, m.s, out.data))
  {
    hide CachingServer.ReadRpc;
  }

  lemma InvServerAt(cfg: Config, sys: Sys, s: nat)
    requires Inv(cfg, sys) && s < |sys.servers|
    ensures CachingServer.ServerInv(cfg.env, sys.servers[s])
  {
    hide LinkInv, ServersInv, CachingServer.ServerInv;
    Shape(cfg, sys);
    ServerAt(cfg, sys, s);
  }

  lemma OffsetOf(cfg: Config, sys: Sys, m: Msg)
    requires Inv(cfg, sys) && m in sys.msgs && m.ReadReq?
    ensures m.count >= 0 && m.offset >= -1
  {
    hide ClientsInv, OwnersInv, MsgsInv, ServersInv, ClientInv;
    Flying(cfg, sys, m);
  }

  lemma ReadStaysReady(env: CachingServer.Env, srv: Server, fd: Fd, count: int, offset: int)
    ensures CachingServer.ReadRpc(env, srv, fd, count, offset).server.handler == srv.handler
  {
    hide Perform;
  }

  /** A seek request can be delivered once the handler is free. It moves the descriptor to the place
      asked for, if there is one, and the reply is that place if it is below 2^31. */
  lemma SeekDelivered(cfg: Config, sys: Sys, m: Msg) returns (ret: int)
    requires Reachable(cfg, sys) && Wf(cfg, sys) && m in sys.msgs && m.SeekReq?
    requires m.s < cfg.servers ==> sys.servers[m.s].handler.Ready?
    ensures m.s < cfg.servers && m.c < cfg.clients && m.remote in sys.servers[m.s].files
    ensures Enabled(cfg, sys, Deliver(m, 0)) && CachingServer.PathOf(sys.servers[m.s], m.remote) in cfg.env.source
    ensures var sys', srv := Apply(cfg, sys, Deliver(m, 0)), sys.servers[m.s];
            var path := CachingServer.PathOf(srv, m.remote);
            var target := match m.whence
                          case SeekSet => m.offset
                          case SeekCur => srv.files[m.remote].pos + m.offset
                          case SeekEnd => |cfg.env.source[path]| + m.offset;
            && OnlyBetween(m.c, m.s, sys, sys') && sys'.clients[m.c] == sys.clients[m.c]
            && sys'.servers[m.s].handler.Ready?
            && (0 <= target <= MAX_OFFSET ==>
                  CachingServer.Plain(sys'.servers[m.s]) == CachingServer.Plain(srv)[m.remote := Cursor(path, target)])
            && (target < 0 || target > MAX_OFFSET ==> CachingServer.Plain(sys'.servers[m.s]) == CachingServer.Plain(srv))
            && sys'.msgs == sys.msgs - multiset{m} + multiset{SeekResp(m.c, m.s, ret)}
            && (0 <= target < 0x8000_0000 ==> ret == target)
            && (target < 0 || target > MAX_OFFSET ==> ret == -1)
  {
    hide Inv, CachingServer.ServerInv, CachingServer.Plain, CachingServer.PathOf, Reachable, Perform;
    InFlight(cfg, sys, m);
    ReachableInv(cfg, sys);
    NoServerHalts(cfg, sys, m.s);
    InvServerAt(cfg, sys, m.s);
    CacheGuarantees.SeekServedIff(cfg.env, sys.servers[m.s], m.remote, m.offset, m.whence);
    SeekStaysReady(cfg.env, sys.servers[m.s], m.remote, m.offset, m.whence);
    hide CachingServer.SeekRpc;
    ret := CachingServer.SeekRpc(cfg.env, sys.servers[m.s], m.remote, m.offset, m.whence).ret;
  }

  lemma SeekStaysReady(env: CachingServer.Env, srv: Server, fd: Fd, offset: int, whence: Whence)
    ensures CachingServer.SeekRpc(env, srv, fd, offset, whence).server.handler == srv.handler
  {
    hide Perform, ToInt32;
  }

  /** The transfer lands at the start of the buffer, and the response that follows carries its size. */
  lemma TransferDelivered(cfg: Config, sys: Sys, m: Msg)
    requires Reachable(cfg, sys) && Wf(cfg, sys) && m in sys.msgs && m.BulkPush?
    requires m.s < cfg.servers ==> sys.servers[m.s].handler.Ready?
    ensures m.s < cfg.servers && m.c < cfg.clients && Enabled(cfg, sys, Deliver(m, 0))
    ensures var sys', cl := Apply(cfg, sys, Deliver(m, 0)), sys.clients[m.c];
            && OnlyBetween(m.c, m.s, sys, sys') && sys'.servers == sys.servers
            && sys'.msgs == sys.msgs - multiset{m} + multiset{ReadResp(m.c, m.s, |m.data|)}
            && |m.data| <= |cl.buf| && sys'.clients[m.c] == cl.(buf := m.data + cl.buf[|m.data|..])
  {
    InFlight(cfg, sys, m);
    hide Reachable;
    assert ToInt32(|m.data|) == |m.data|;
    assert sys.servers[m.s := sys.servers[m.s]] == sys.servers;
  }

  /** A response can always be delivered: it records the server's descriptor or the result, and wakes
      the client, whose call is then answered. */
  lemma ReplyDelivered(cfg: Config, sys: Sys, m: Msg)
    requires Reachable(cfg, sys) && Wf(cfg, sys) && m in sys.msgs && (m.OpenResp? || m.ReadResp? || m.SeekResp?)
    ensures m.s < cfg.servers && m.c < cfg.clients && Enabled(cfg, sys, Deliver(m, 0))
    ensures var sys', cl := Apply(cfg, sys, Deliver(m, 0)), sys.clients[m.c];
            var cl' := sys'.clients[m.c];
            && OnlyBetween(m.c, m.s, sys, sys') && sys'.servers == sys.servers && sys'.msgs == sys.msgs - multiset{m}
            && cl.pc.Busy? && cl'.pc == Busy(cl.pc.call, false) && cl'.done == 1
            && cl'.kernel == cl.kernel && cl'.fdMap == cl.fdMap && cl'.buf == cl.buf
            && cl'.redir == (if m.OpenResp? then cl.redir[m.fd := m.remote] else cl.redir)
            && (!m.OpenResp? ==> cl'.readRet == m.ret)
  {
    InFlight(cfg, sys, m);
    hide Reachable;
  }

  // ---- calls return ----

  /** An answered call can return. An open returns its descriptor; a read, pread or seek the result the
      response carried, reads with that many bytes of the buffer; and the completed call is logged. */
  lemma CallReturns(cfg: Config, sys: Sys, c: nat)
    requires Reachable(cfg, sys) && Wf(cfg, sys) && c < cfg.clients
    requires sys.clients[c].pc.Busy? && sys.clients[c].done == 1
    ensures Enabled(cfg, sys, Return(c))
    ensures var sys', cl := Apply(cfg, sys, Return(c)), sys.clients[c];
            var log, log', call := sys.hist.logs[c], sys'.hist.logs[c], cl.pc.call;
            && OnlyClient(c, sys, sys') && sys'.msgs == sys.msgs && sys'.clients[c] == cl.(pc := Idle)
            && LogGrew(log, log', call)
            && (call.Open? ==> log'[|log|] == Event(call, call.fd, []))
            && (call.Seek? ==> log'[|log|] == Event(call, cl.readRet, []))
            && (call.Read? || call.Pread? ==>
                  0 <= cl.readRet <= |cl.buf| && log'[|log|] == Event(call, cl.readRet, cl.buf[..cl.readRet]))
  {
    hide ClientsInv, OwnersInv, MsgsInv, ServersInv, ClientInv, Reachable;
    ReachableInv(cfg, sys);
    ClientAt(cfg, sys, c);
    AnsweredAt(cfg, c, sys.clients[c], sys.hist.logs[c], sys.hist.flying[c], PlainServers(sys.servers), sys.hist.owners);
  }

  lemma AnsweredAt(cfg: Config, c: nat, cl: Client, log: seq<Event>, flying: Option<Msg>, plain: seq<Table>, owners: seq<Owners>)
    requires cfg.servers > 0 && |plain| == |owners| == cfg.servers
    requires ClientInv(cfg, c, cl, log, flying, plain, owners) && cl.pc.Busy? && cl.done == 1
    ensures !cl.pc.asleep && !cl.pc.call.Close?
    ensures cl.pc.call.Read? || cl.pc.call.Pread? ==> 0 <= cl.readRet <= |cl.buf|
  {
  }
}
