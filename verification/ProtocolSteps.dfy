/** The steps of a client, and what messages sent and taken do, keep the invariant. */
module ProtocolSteps {
  import opened Wrappers
  import opened Posix
  import opened Protocol
  import opened ProtocolInvariant
  import CachingServer
  import ClientSide

  // ---- messages ----

  /** A call starts: its request joins the messages in flight. */
  lemma SendKeepsMsgs(cfg: Config, sys: Sys, sys': Sys, c: nat, m: Msg)
    requires Wf(cfg, sys) && Wf(cfg, sys') && MsgsInv(cfg, sys)
    requires c < cfg.clients && sys.hist.flying[c].None? && !m.CloseReq? && m.c == c && m.s < cfg.servers
    requires sys'.msgs == sys.msgs + multiset{m} && sys'.hist.flying == sys.hist.flying[c := Some(m)]
    requires sys'.hist.owners == sys.hist.owners
    ensures MsgsInv(cfg, sys')
  {
    forall x <- sys.msgs ensures x != m { assert MsgInv(cfg, sys, x); }
    forall x <- sys'.msgs ensures MsgInv(cfg, sys', x) {
      if x != m { assert MsgInv(cfg, sys, x); }
    }
  }

  /** A server or a transfer turns the message of client c into the next one. */
  lemma SwapKeepsMsgs(cfg: Config, sys: Sys, sys': Sys, m: Msg, m': Msg)
    requires Wf(cfg, sys) && Wf(cfg, sys') && MsgsInv(cfg, sys) && m in sys.msgs
    requires !m.CloseReq? && !m'.CloseReq? && m.c == m'.c < cfg.clients && m'.s < cfg.servers && m != m'
    requires sys'.msgs == sys.msgs - multiset{m} + multiset{m'}
    requires sys'.hist.flying == sys.hist.flying[m.c := Some(m')]
    requires forall s, r | 0 <= s < cfg.servers && r in sys.hist.owners[s] && sys.hist.owners[s][r].InClose? ::
      r in sys'.hist.owners[s] && sys'.hist.owners[s][r].InClose?
    ensures MsgsInv(cfg, sys')
  {
    forall x <- sys.msgs ensures x != m' && sys.msgs[x] == 1 && (x != m ==> MsgInv(cfg, sys', x)) {
      assert MsgInv(cfg, sys, x);
      assert MsgInv(cfg, sys, m);
    }
    assert MsgInv(cfg, sys', m');
  }

  /** A callback consumes the message of client c. */
  lemma TakeKeepsMsgs(cfg: Config, sys: Sys, sys': Sys, m: Msg)
    requires Wf(cfg, sys) && Wf(cfg, sys') && MsgsInv(cfg, sys) && m in sys.msgs
    requires !m.CloseReq? && m.c < cfg.clients
    requires sys'.msgs == sys.msgs - multiset{m} && sys'.hist.flying == sys.hist.flying[m.c := None]
    requires forall s, r | 0 <= s < cfg.servers && r in sys.hist.owners[s] && sys.hist.owners[s][r].InClose? ::
      r in sys'.hist.owners[s] && sys'.hist.owners[s][r].InClose?
    ensures MsgsInv(cfg, sys')
  {
    assert MsgInv(cfg, sys, m);
    forall x <- sys'.msgs ensures MsgInv(cfg, sys', x) {
      assert x in sys.msgs && MsgInv(cfg, sys, x);
    }
    forall c | 0 <= c < cfg.clients && sys'.hist.flying[c].Some?
      ensures sys'.hist.flying[c].value in sys'.msgs
    {
      assert c != m.c && sys'.hist.flying[c].value != m;
    }
  }

  // ---- steps inside one client ----

  lemma SameServers(cfg: Config, sys: Sys, sys': Sys)
    requires Wf(cfg, sys) && Wf(cfg, sys') && ServersInv(cfg, sys) && sys'.servers == sys.servers
    ensures ServersInv(cfg, sys')
  {
  }

  lemma SameOwners(cfg: Config, sys: Sys, sys': Sys)
    requires Wf(cfg, sys) && Wf(cfg, sys') && OwnersInv(cfg, sys) && MsgsInv(cfg, sys)
    requires sys'.servers == sys.servers && sys'.msgs == sys.msgs
    requires sys'.hist.flying == sys.hist.flying && sys'.hist.owners == sys.hist.owners
    requires forall c | 0 <= c < cfg.clients ::
      sys'.clients[c].redir == sys.clients[c].redir && sys'.clients[c].fdMap == sys.clients[c].fdMap
    ensures OwnersInv(cfg, sys') && MsgsInv(cfg, sys')
  {
    forall s, r | 0 <= s < cfg.servers && r in sys'.hist.owners[s] ensures OwnerInv(cfg, sys', s, r) {
      assert OwnerInv(cfg, sys, s, r);
    }
    forall m <- sys'.msgs ensures MsgInv(cfg, sys', m) { assert MsgInv(cfg, sys, m); }
  }

  /** A step that changes only client c, not its redirections, and its log. */
  lemma ClientStepKeeps(cfg: Config, sys: Sys, c: nat, cl: Client, log: seq<Event>)
    requires LinkInv(cfg, sys) && c < cfg.clients
    requires cl.redir == sys.clients[c].redir && cl.fdMap == sys.clients[c].fdMap
    requires ClientInv(cfg, c, cl, log, sys.hist.flying[c], PlainServers(sys.servers), sys.hist.owners)
    ensures LinkInv(cfg, sys.(clients := sys.clients[c := cl], hist := sys.hist.(logs := sys.hist.logs[c := log])))
  {
    hide ClientInv, OwnersInv, MsgsInv, ClientsInv;
    var sys' := sys.(clients := sys.clients[c := cl], hist := sys.hist.(logs := sys.hist.logs[c := log]));
    SameOwners(cfg, sys, sys');
    OthersFrame(cfg, sys, sys', c);
  }

  lemma SleepKeeps(cfg: Config, sys: Sys, c: nat, asleep: bool)
    requires LinkInv(cfg, sys) && c < cfg.clients && sys.clients[c].pc.Busy?
    requires asleep ==> sys.clients[c].done != 1
    ensures LinkInv(cfg, sys.(clients := sys.clients[c := sys.clients[c].(pc := sys.clients[c].pc.(asleep := asleep))]))
  {
    hide ClientInv;
    var cl := sys.clients[c];
    var cl' := cl.(pc := cl.pc.(asleep := asleep));
    assert sys.hist.logs[c := sys.hist.logs[c]] == sys.hist.logs;
    AsleepKeeps(cfg, c, cl, asleep, sys.hist.logs[c], sys.hist.flying[c], PlainServers(sys.servers), sys.hist.owners);
    ClientStepKeeps(cfg, sys, c, cl', sys.hist.logs[c]);
  }

  lemma AsleepKeeps(cfg: Config, c: nat, cl: Client, asleep: bool, log: seq<Event>, flying: Option<Msg>,
                    plain: seq<Table>, owners: seq<Owners>)
    requires cfg.servers > 0 && |plain| == |owners| == cfg.servers
    requires ClientInv(cfg, c, cl, log, flying, plain, owners) && cl.pc.Busy? && (asleep ==> cl.done != 1)
    ensures ClientInv(cfg, c, cl.(pc := cl.pc.(asleep := asleep)), log, flying, plain, owners)
  {
    var cl' := cl.(pc := cl.pc.(asleep := asleep));
    forall fd <- cl'.redir ensures EntryInv(cfg, c, cl', Ahead(cfg.env.source, cl', log, flying), plain, owners, fd) {
      assert EntryInv(cfg, c, cl, Ahead(cfg.env.source, cl, log, flying), plain, owners, fd);
    }
  }

  /** The calls an idle client's own kernel serves. */
  predicate IsLocal(files: Files, cl: Client, call: Call) {
    && cl.pc.Idle? && Fits(call) && !call.Seek?
    && (call.Open? ==> call.fd !in cl.kernel && call.path in files)
    && (call.Close? || call.Read? ==> call.fd !in cl.fdMap)
  }

  /** A call served by the local kernel gives the result the private table promises. */
  lemma LocalResult(files: Files, cl: Client, t: Table, call: Call)
    requires LocalInv(files, cl, t) && IsLocal(files, cl, call)
    ensures var io := Perform(files, cl.kernel, call); Allowed(files, t, Event(call, io.ret, io.data))
  {
    if call.fd in t {
      assert t[call.fd].path == cl.kernel[call.fd].path;
    }
  }

  lemma LocalTables(files: Files, cl: Client, t: Table, call: Call)
    requires LocalInv(files, cl, t) && IsLocal(files, cl, call)
    ensures LocalInv(files, ClientSide.RunLocal(files, cl, call), Perform(files, t, call).table)
  {
    var cl', t' := ClientSide.RunLocal(files, cl, call), Perform(files, t, call).table;
    assert t.Keys == cl.kernel.Keys;
    assert t'.Keys == cl'.kernel.Keys;
  }

  lemma LocalLeavesEntries(files: Files, cl: Client, t: Table, call: Call, fd: Fd)
    requires LocalInv(files, cl, t) && IsLocal(files, cl, call) && fd in cl.redir && fd in t
    ensures var t' := Perform(files, t, call).table; fd in t' && t'[fd] == t[fd]
  {
  }

  lemma LocalClient(cfg: Config, c: nat, cl: Client, log: seq<Event>, call: Call, plain: seq<Table>, owners: seq<Owners>)
    requires cfg.servers > 0 && |plain| == |owners| == cfg.servers
    requires ClientInv(cfg, c, cl, log, None, plain, owners) && IsLocal(cfg.env.source, cl, call)
    ensures var files := cfg.env.source;
            var io := Perform(files, cl.kernel, call);
            ClientInv(cfg, c, ClientSide.RunLocal(files, cl, call), log + [Event(call, io.ret, io.data)], None, plain, owners)
  {
    var files := cfg.env.source;
    var t, io := TableOf(files, log), Perform(files, cl.kernel, call);
    LocalResult(files, cl, t, call);
    LocalTables(files, cl, t, call);
    Extend(files, log, Event(call, io.ret, io.data));
    forall fd <- cl.redir
      ensures EntryInv(cfg, c, ClientSide.RunLocal(files, cl, call), Perform(files, t, call).table, plain, owners, fd)
    {
      assert EntryInv(cfg, c, cl, t, plain, owners, fd);
      LocalLeavesEntries(files, cl, t, call, fd);
    }
  }

  lemma RunLocalKeeps(cfg: Config, sys: Sys, c: nat, call: Call)
    requires LinkInv(cfg, sys) && c < cfg.clients && IsLocal(cfg.env.source, sys.clients[c], call)
    ensures LinkInv(cfg, RunLocal(cfg, sys, c, call))
  {
    var sys' := RunLocal(cfg, sys, c, call);
    LocalClient(cfg, c, sys.clients[c], sys.hist.logs[c], call, PlainServers(sys.servers), sys.hist.owners);
    ClientStepKeeps(cfg, sys, c, sys'.clients[c], sys'.hist.logs[c]);
  }

  /** The answer in place is the answer POSIX gives. */
  lemma FinishAllowed(files: Files, cl: Client, t: Table)
    requires cl.pc.Busy? && LocalInv(files, cl, t) && AnsweredInv(files, cl, t)
    requires cl.pc.call.Open? ==> cl.pc.call.fd in cl.kernel && cl.pc.call.path == cl.kernel[cl.pc.call.fd].path
    ensures var out := ClientSide.Finish(files, cl);
            && Allowed(files, t, Event(cl.pc.call, out.ret, out.data))
            && out.client == cl.(pc := ClientSide.Idle)
            && LocalInv(files, out.client, Perform(files, t, cl.pc.call).table)
  {
  }

  lemma ReturnClient(cfg: Config, c: nat, cl: Client, log: seq<Event>, flying: Option<Msg>, plain: seq<Table>, owners: seq<Owners>)
    requires cfg.servers > 0 && |plain| == |owners| == cfg.servers
    requires ClientInv(cfg, c, cl, log, flying, plain, owners) && cl.pc.Busy? && cl.done == 1
    ensures var out := ClientSide.Finish(cfg.env.source, cl);
            && out.client == cl.(pc := ClientSide.Idle)
            && ClientInv(cfg, c, out.client, log + [Event(cl.pc.call, out.ret, out.data)], flying, plain, owners)
  {
    var files := cfg.env.source;
    FinishAllowed(files, cl, TableOf(files, log));
    var out := ClientSide.Finish(files, cl);
    Extend(files, log, Event(cl.pc.call, out.ret, out.data));
    var t' := TableOf(files, log + [Event(cl.pc.call, out.ret, out.data)]);
    forall fd <- cl.redir ensures EntryInv(cfg, c, out.client, t', plain, owners, fd) {
      assert EntryInv(cfg, c, cl, Ahead(files, cl, log, flying), plain, owners, fd);
    }
  }

  lemma ReturnKeeps(cfg: Config, sys: Sys, c: nat)
    requires LinkInv(cfg, sys) && Enabled(cfg, sys, Return(c))
    ensures LinkInv(cfg, RunReturn(cfg, sys, c))
  {
    hide ClientInv, ClientSide.Finish;
    var sys' := RunReturn(cfg, sys, c);
    ReturnClient(cfg, c, sys.clients[c], sys.hist.logs[c], sys.hist.flying[c], PlainServers(sys.servers), sys.hist.owners);
    ClientStepKeeps(cfg, sys, c, sys'.clients[c], sys'.hist.logs[c]);
  }

  // ---- a call that goes to a server ----

  /** What IsRemote and AppCan leave for a request. */
  predicate IsRemoteCall(files: Files, cl: Client, call: Call) {
    && cl.pc.Idle? && Fits(call) && !call.Close?
    && (call.Open? ==> call.fd !in cl.kernel && call.path in files)
    && (!call.Open? ==> call.fd in cl.fdMap)
  }

  lemma StartTables(cfg: Config, cl: Client, t: Table, call: Call)
    requires LocalInv(cfg.env.source, cl, t) && IsRemoteCall(cfg.env.source, cl, call)
    ensures LocalInv(cfg.env.source, Begin(cfg, cl, call), t)
  {
    var cl' := Begin(cfg, cl, call);
    if call.Open? {
      assert cl'.kernel.Keys - {call.fd} == cl.kernel.Keys;
    }
  }

  lemma StartFlying(cfg: Config, c: nat, cl: Client, t: Table, call: Call, plain: seq<Table>, owners: seq<Owners>)
    requires cfg.servers > 0 && |plain| == |owners| == cfg.servers
    requires LocalInv(cfg.env.source, cl, t) && IsRemoteCall(cfg.env.source, cl, call)
    ensures RendezvousInv(cfg, c, Begin(cfg, cl, call), t, Some(Request(cfg, c, cl, call)), plain, owners)
  {
  }

  lemma StartEntry(cfg: Config, c: nat, cl: Client, t: Table, call: Call, plain: seq<Table>, owners: seq<Owners>, x: Fd)
    requires cfg.servers > 0 && |plain| == |owners| == cfg.servers
    requires LocalInv(cfg.env.source, cl, t) && IsRemoteCall(cfg.env.source, cl, call)
    requires x in cl.redir && EntryInv(cfg, c, cl, t, plain, owners, x)
    ensures x in Begin(cfg, cl, call).redir && EntryInv(cfg, c, Begin(cfg, cl, call), t, plain, owners, x)
  {
  }

  lemma StartShape(cfg: Config, cl: Client, call: Call)
    requires IsRemoteCall(cfg.env.source, cl, call)
    ensures Begin(cfg, cl, call).redir == cl.redir && Begin(cfg, cl, call).pc == ClientSide.Busy(call, false)
  {
  }

  lemma StartClient(cfg: Config, c: nat, cl: Client, log: seq<Event>, call: Call, plain: seq<Table>, owners: seq<Owners>)
    requires cfg.servers > 0 && |plain| == |owners| == cfg.servers
    requires ClientInv(cfg, c, cl, log, None, plain, owners) && IsRemoteCall(cfg.env.source, cl, call)
    ensures ClientInv(cfg, c, Begin(cfg, cl, call), log, Some(Request(cfg, c, cl, call)), plain, owners)
  {
    hide Begin, LocalInv, EntryInv, RendezvousInv, Request, Perform;
    var t := TableOf(cfg.env.source, log);
    StartShape(cfg, cl, call);
    StartTables(cfg, cl, t, call);
    StartFlying(cfg, c, cl, t, call, plain, owners);
    forall x <- Begin(cfg, cl, call).redir ensures EntryInv(cfg, c, Begin(cfg, cl, call), t, plain, owners, x) {
      StartEntry(cfg, c, cl, t, call, plain, owners, x);
    }
  }

  lemma StartOwners(cfg: Config, sys: Sys, c: nat, call: Call)
    requires Wf(cfg, sys) && OwnersInv(cfg, sys) && c < cfg.clients && IsRemoteCall(cfg.env.source, sys.clients[c], call)
    requires sys.hist.flying[c].None? && sys.clients[c].fdMap.Keys <= sys.clients[c].kernel.Keys
    ensures OwnersInv(cfg, StartRemote(cfg, sys, c, call))
  {
    var sys' := StartRemote(cfg, sys, c, call);
    forall s, r | 0 <= s < cfg.servers && r in sys'.hist.owners[s] ensures OwnerInv(cfg, sys', s, r) {
      assert OwnerInv(cfg, sys, s, r);
    }
  }

  lemma StartRemoteKeeps(cfg: Config, sys: Sys, c: nat, call: Call)
    requires LinkInv(cfg, sys) && c < cfg.clients && IsRemoteCall(cfg.env.source, sys.clients[c], call)
    ensures LinkInv(cfg, StartRemote(cfg, sys, c, call))
  {
    hide ClientInv, ClientsInv, OwnersInv, MsgsInv, Begin, Request;
    var sys' := StartRemote(cfg, sys, c, call);
    var cl, m := sys.clients[c], Request(cfg, c, sys.clients[c], call);
    ClientAt(cfg, sys, c);
    IdleClient(cfg, c, cl, sys.hist.logs[c], sys.hist.flying[c], PlainServers(sys.servers), sys.hist.owners);
    StartClient(cfg, c, cl, sys.hist.logs[c], call, PlainServers(sys.servers), sys.hist.owners);
    StartOwners(cfg, sys, c, call);
    SendKeepsMsgs(cfg, sys, sys', c, m);
    OthersFrame(cfg, sys, sys', c);
  }

  lemma IdleClient(cfg: Config, c: nat, cl: Client, log: seq<Event>, flying: Option<Msg>, plain: seq<Table>, owners: seq<Owners>)
    requires cfg.servers > 0 && |plain| == |owners| == cfg.servers
    requires ClientInv(cfg, c, cl, log, flying, plain, owners) && cl.pc.Idle?
    ensures flying.None? && cl.redir.Keys == cl.fdMap.Keys <= cl.kernel.Keys
  {
  }
}
