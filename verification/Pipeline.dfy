/** What holds in every reachable state of the server, down to the packets its sessions hand over. */
module Pipeline {
  import opened Bytes
  import opened Framing
  import opened Reassembly = Session
  import opened EndToEnd
  import opened CompletionPort
  import opened PortInvariant
  import opened PortBound
  import opened PortRuns
  import opened Server
  import opened ServerFrames
  import opened ServerSafety
  import opened ServerCommands

  // ---------------------------------------------------------------- the invariant holds throughout

  lemma KeepServerNext(v: Server, v': Server)
    requires ServerInv(v) && ServerNext(v, v')
    ensures ServerInv(v')
  {
    hide ServerInv, MayProcess, DoProcess, DoReply, Enabled, IsUpcall, Apply;
    if a: Step :| Can(v, Port(a)) && v' == DoPort(v, a) {
      if IsUpcall(v.port, a) { KeepSays(v, a); } else { KeepSilent(v, a); }
    } else if cmd: Command :| Can(v, Push(cmd)) && v' == Pushed(v, cmd) {
      KeepPush(v, cmd);
    } else if Can(v, Lock) && v' == v.(draining := true, at := 0) {
      KeepLock(v);
    } else if Can(v, Unlock) && v' == v.(list := [], draining := false, at := 0) {
      KeepUnlock(v);
    } else if Can(v, Process) && MayProcess(v, v.list[v.at]) && v' == DoProcess(v) {
      KeepProcess(v);
    } else {
      var i: SessionId, packet: Packet :|
        Can(v, Reply(i, packet)) && MayProcess(v, SendData(i, packet)) && v' == DoReply(v, i, packet);
      KeepReply(v, i, packet);
    }
  }

  lemma {:induction false} ServerRunInv(states: seq<Server>, n: nat)
    requires ServerRun(states) && n < |states|
    ensures ServerInv(states[n])
  {
    hide ServerInv, ServerNext, Start;
    if n == 0 {
      ServerInvStart(states[0]);
    } else {
      ServerRunInv(states, n - 1);
      assert ServerNext(states[n - 1], states[n - 1 + 1]);
      KeepServerNext(states[n - 1], states[n]);
    }
  }

  lemma ServerInvReachable(v: Server)
    requires ServerReachable(v)
    ensures ServerInv(v)
  {
    hide ServerInv;
    var states :| ServerRun(states) && states[|states| - 1] == v;
    ServerRunInv(states, |states| - 1);
  }

  // ---------------------------------------------------------------- the network layer below

  /** Whatever a command makes the command thread call, the calls are steps of the network layer. */
  lemma ProcessReaches(v: Server)
    requires Reachable(v.port, ORDERLY) && v.at < |v.list| && MayProcess(v, v.list[v.at])
    ensures Reachable(DoProcess(v).port, ORDERLY)
  {
    hide Reachable, Enabled, Apply, DoAppPop;
    match v.list[v.at] {
      case Told(OnConnection(c)) => ReachStep(v.port, AppBind(c, Allocated(v), SESSION_REF_MAX), ORDERLY);
      case Told(OnData(c, data)) =>
      case Told(OnDisconnect(c)) =>
        if ClientOf(v, c).Some? && v.sessions[ClientOf(v, c).value].conn.Some? {
          ReachStep(v.port, AppClose(v.sessions[ClientOf(v, c).value].conn.value), ORDERLY);
        }
      case SendData(i, packet) =>
        if i < |v.sessions| && !SendFaults(v, i, packet) {
          Popping(v.port);
          ReachStep(v.port, AppPop, ORDERLY);
          ReachStep(DoAppPop(v.port), SendStep(v, v.sessions[i].conn.value, packet), ORDERLY);
        }
      case Disconnect(i) =>
        if i < |v.sessions| && v.sessions[i].conn.Some? {
          ReachStep(v.port, AppDisconnect(Commander(v.port), v.sessions[i].conn.value), ORDERLY);
        }
    }
  }

  lemma ReplyReaches(v: Server, i: SessionId, packet: Packet)
    requires Reachable(v.port, ORDERLY) && MayProcess(v, SendData(i, packet))
    ensures Reachable(DoReply(v, i, packet).port, ORDERLY)
  {
    hide Reachable, Enabled, Apply, DoAppPop;
    if i < |v.sessions| && !SendFaults(v, i, packet) {
      Popping(v.port);
      ReachStep(v.port, AppPop, ORDERLY);
      ReachStep(DoAppPop(v.port), SendStep(v, v.sessions[i].conn.value, packet), ORDERLY);
    }
  }

  lemma PortFollows(v: Server, v': Server)
    requires ServerNext(v, v') && Reachable(v.port, ORDERLY)
    ensures Reachable(v'.port, ORDERLY)
  {
    hide Reachable, MayProcess, DoProcess, DoReply, Enabled, IsUpcall, Apply;
    if a: Step :| Can(v, Port(a)) && v' == DoPort(v, a) {
      ReachStep(v.port, a, ORDERLY);
    } else if Can(v, Process) && MayProcess(v, v.list[v.at]) && v' == DoProcess(v) {
      ProcessReaches(v);
    } else if i: SessionId, packet: Packet :|
      Can(v, Reply(i, packet)) && MayProcess(v, SendData(i, packet)) && v' == DoReply(v, i, packet) {
      ReplyReaches(v, i, packet);
    }
  }

  lemma {:induction false} PortRun(states: seq<Server>, n: nat)
    requires ServerRun(states) && n < |states|
    ensures Reachable(states[n].port, ORDERLY)
  {
    hide ServerNext, Reachable, Init;
    if n == 0 {
      ReachInit(states[0].port, ORDERLY);
    } else {
      PortRun(states, n - 1);
      assert ServerNext(states[n - 1], states[n - 1 + 1]);
      PortFollows(states[n - 1], states[n]);
    }
  }

  /** The server keeps the rules of the network layer: what holds of all its orderly runs holds below the server. */
  lemma PortReachable(v: Server)
    requires ServerReachable(v)
    ensures Reachable(v.port, ORDERLY)
  {
    hide Reachable;
    var states :| ServerRun(states) && states[|states| - 1] == v;
    PortRun(states, |states| - 1);
  }

  /** The server's connections never hold more than 256 references, one for each thread, and one. */
  lemma ServerReferenceBound(v: Server, c: ConnId)
    requires ServerReachable(v) && c < |v.port.conns|
    ensures v.port.conns[c].iorefs <= SESSION_REF_MAX + |v.port.threads| + 1
  {
    ServerInvReachable(v);
    PortReachable(v);
    hide Inv, InOrder, Ledger, Served, Reachable, ServerReachable;
    assert Limited(v.port, c);
    ReferenceBound(v.port, c);
  }

  // ---------------------------------------------------------------- the queue

  /**
   * At every moment the commands processed, then those queued, are the commands pushed, in order, and the upcalls
   * among them are those the network layer has made.
   */
  lemma QueueOrder(v: Server)
    requires ServerReachable(v)
    ensures v.done + Waiting(v) == v.pushed && Heard(v.pushed) == v.port.log
    ensures Heard(v.done) + Heard(Waiting(v)) == v.port.log
  {
    ServerInvReachable(v);
    hide Inv, Ledger, Served, Heard, Calls;
    LogSplit(v);
  }

  /**
   * Each command finds its session, and what the command thread asks of the network layer is allowed: it binds a
   * connection that is live and not bound, closes one on which nobody is inside AsyncSend, and sends or disconnects
   * on one that is live.
   */
  lemma CommandsServed(v: Server)
    requires ServerReachable(v) && Can(v, Process)
    ensures MayProcess(v, v.list[v.at])
    ensures v.list[v.at].Told? ==>
      var e := v.list[v.at].e;
      && e.c < |v.port.conns|
      && (e.OnConnection? ==> v.port.conns[e.c].live && !v.port.conns[e.c].bound)
      && (!e.OnConnection? ==>
            var client := v.port.conns[e.c].client;
            && v.port.conns[e.c].bound && client.Some? && client.value < |v.sessions|
            && v.sessions[client.value].conn == Some(e.c))
      && (e.OnDisconnect? ==> forall t | 0 <= t < |v.port.threads| :: !Sending(v.port.threads[t], e.c))
  {
    ServerInvReachable(v);
    CommandFindsSession(v);
    if v.list[v.at].Told? { Unsending(v, v.list[v.at].e.c); }
    hide ServerInv, MayProcess, Enabled, Scan, Heard;
  }

  // ---------------------------------------------------------------- sending

  /** A session has no connection exactly while it is in the pool. */
  lemma PooledIsFree(v: Server, i: SessionId)
    requires ServerInv(v) && i < |v.sessions|
    ensures i in v.pool <==> v.sessions[i].conn.None?
  {
    hide Inv, InOrder, Calls, Served, FaceOf;
    assert Owned(v, i);
    assert i in v.pool <==> multiset(v.pool)[i] > 0;
  }

  /**
   * A SendData command keeps to its memory, if and only if its session is not in the pool and the packet fits an
   * output buffer.
   */
  lemma SendFaultsIff(v: Server, i: SessionId, packet: Packet)
    requires ServerReachable(v) && Can(v, Process) && v.list[v.at] == SendData(i, packet) && i < |v.sessions|
    ensures MayProcess(v, v.list[v.at])
    ensures !DoProcess(v).faulted <==> i !in v.pool && PACKET_HEAD + |packet.body| <= MAX_OUTPUT_BUFFER
  {
    hide ServerInv, ServerReachable, Enabled, Apply, DoAppPop;
    ServerInvReachable(v);
    CommandFindsSession(v);
    PooledIsFree(v, i);
  }

  lemma ServerReachStart(v: Server)
    requires Start(v)
    ensures ServerReachable(v)
  {
    assert ServerRun([v]);
  }

  lemma ServerReachNext(v: Server, v': Server)
    requires ServerReachable(v) && ServerNext(v, v')
    ensures ServerReachable(v')
  {
    hide Start, ServerNext;
    var states :| ServerRun(states) && states[|states| - 1] == v;
    var longer := states + [v'];
    forall i | 0 <= i < |longer| - 1 ensures ServerNext(longer[i], longer[i + 1]) {
      if i < |states| - 1 { assert ServerNext(states[i], states[i + 1]); }
    }
    assert ServerRun(longer);
  }

  const EARLY_SEND := SendData(0, Packet(0, []))

  /** Before anybody has connected: one session in the pool, and some commands. */
  function Fresh(list: seq<Command>, draining: bool): (v: Server) {
    var port := State(0, [Pc.Idle], [], [], false, 0, 0, 0, 0, [], [], [], multiset{}, 0, 0, map[], [], NOTHING);
    Server(port, list, draining, 0, [0], [Session(None, [])], false, list, [], Book([0], [None]), [])
  }

  lemma NobodyConnected()
    ensures ServerReachable(Fresh([], false))
  {
    hide ServerReachable;
    ServerReachStart(Fresh([], false));
  }

  lemma SendQueued()
    ensures ServerReachable(Fresh([EARLY_SEND], false))
  {
    hide ServerReachable;
    NobodyConnected();
    var v := Fresh([], false);
    assert Pushed(v, EARLY_SEND) == Fresh([EARLY_SEND], false);
    assert Can(v, Push(EARLY_SEND));
    hide Can, Pushed, Fresh;
    ServerReachNext(v, Fresh([EARLY_SEND], false));
  }

  lemma SendTaken()
    ensures ServerReachable(Fresh([EARLY_SEND], true))
  {
    hide ServerReachable;
    SendQueued();
    var v := Fresh([EARLY_SEND], false);
    assert v.(draining := true, at := 0) == Fresh([EARLY_SEND], true);
    assert Can(v, Lock);
    hide Can, Fresh;
    ServerReachNext(v, Fresh([EARLY_SEND], true));
  }

  /** Sending to a session that has no connection is possible: the application's command is simply queued. */
  lemma SendFaultsReached() returns (v: Server)
    ensures ServerReachable(v) && v.faulted
  {
    hide ServerReachable;
    SendTaken();
    var u := Fresh([EARLY_SEND], true);
    assert Can(u, Process);
    assert MayProcess(u, u.list[u.at]) && DoProcess(u).faulted;
    v := DoProcess(u);
    hide Can, MayProcess, DoProcess, Fresh;
    ServerReachNext(u, v);
  }

  // ---------------------------------------------------------------- sessions

  /** Connection c is bound to session i. */
  predicate BoundTo(v: Server, c: ConnId, i: SessionId) {
    c < |v.port.conns| && v.port.conns[c].bound && v.port.conns[c].client == Some(i)
  }

  /**
   * A session is on the pool's list, once, and bound to no connection; or it is not on the list and bound to
   * exactly one connection, which is the one it names.
   */
  lemma SessionOwnership(v: Server, i: SessionId)
    requires ServerReachable(v) && i < |v.sessions|
    ensures multiset(v.pool)[i] <= 1
    ensures i in v.pool <==> v.sessions[i].conn.None?
    ensures forall c: ConnId :: BoundTo(v, c, i) <==> v.sessions[i].conn == Some(c)
  {
    ServerInvReachable(v);
    assert Owned(v, i);
    forall c: ConnId ensures BoundTo(v, c, i) <==> v.sessions[i].conn == Some(c) {
      assert Served(v, c);
    }
    hide Inv, Scan, Served, InOrder;
    assert i in v.pool <==> multiset(v.pool)[i] > 0;
  }

  /** Every bound connection has a session of its own. */
  lemma ConnectionHasSession(v: Server, c: ConnId) returns (i: SessionId)
    requires ServerReachable(v) && c < |v.port.conns| && v.port.conns[c].bound
    ensures i < |v.sessions| && BoundTo(v, c, i) && i !in v.pool
    ensures forall d: ConnId | d != c :: !BoundTo(v, d, i)
  {
    ServerInvReachable(v);
    assert Served(v, c);
    hide Inv, Scan, InOrder;
    i := v.port.conns[c].client.value;
    SessionOwnership(v, i);
  }

  // ---------------------------------------------------------------- data

  lemma {:induction false} FlattenPrefix(a: seq<Chunk>, b: seq<Chunk>)
    requires a <= b
    ensures Flatten(a) + Flatten(b[|a|..]) == Flatten(b)
  {
    assert a + b[|a|..] == b;
    FlattenAppend(a, b[|a|..]);
  }

  /**
   * What a bound session has been fed, then what still waits in the queue for it, is what the network layer
   * handed over, a prefix of what arrived: no payload is lost, repeated, reordered or given to another session.
   */
  lemma FedInOrder(v: Server, c: ConnId, i: SessionId)
    requires ServerReachable(v) && i < |v.sessions| && v.sessions[i].conn == Some(c)
    ensures c < |v.port.conns|
    ensures v.sessions[i].fed + DataOf(Heard(Waiting(v)), c) == v.port.conns[c].given
    ensures v.port.conns[c].given <= v.port.conns[c].arrived
    ensures Flatten(v.sessions[i].fed) <= Flatten(v.port.conns[c].arrived)
  {
    ServerInvReachable(v);
    assert Owned(v, i);
    assert Served(v, c);
    assert ConnAt(v.port, c);
    hide Inv, Scan, InOrder, Ledger, Calls, Opens, DataOf, Heard, Flatten;
    FlattenPrefix(v.sessions[i].fed, v.port.conns[c].arrived);
  }

  /** No receive completes with more than a receive buffer's worth. */
  predicate SmallArrived(s: State) {
    forall c | 0 <= c < |s.conns| :: SmallChunks(s.conns[c].arrived)
  }

  predicate SmallChunks(chunks: seq<Chunk>) {
    forall d | d in chunks :: |d| <= MAX_INPUT_BUFFER
  }

  lemma SmallStart(s: State, t: nat, ok: bool)
    requires CanGo(s, t) && SmallArrived(s)
    requires var p := s.threads[t]; p.Idle? || p.StWait? || p.PopFree? || p.RefAccept? || p.PostAccept?
    ensures SmallArrived(Advance(s, t, ok))
  {
    var nothing: seq<Chunk> := [];
    assert SmallChunks(nothing) && NewConn.arrived == nothing;
    hide SmallChunks;
    assert s.free != [] ==> s.free[0] in s.free;
  }

  lemma SmallAccept(s: State, t: nat, ok: bool)
    requires CanGo(s, t) && SmallArrived(s)
    requires var p := s.threads[t]; p.AcUp? || p.AcCall? || p.AcCtx? || p.AcDec?
    ensures SmallArrived(Advance(s, t, ok))
  {
    var nothing: seq<Chunk> := [];
    assert SmallChunks(nothing);
    hide SmallChunks;
  }

  lemma SmallReceive(s: State, t: nat, ok: bool)
    requires CanGo(s, t) && SmallArrived(s)
    requires var p := s.threads[t]; p.RvGot? || p.RvInc? || p.RvPost? || p.RvFail?
    ensures SmallArrived(Advance(s, t, ok))
  {
    hide SmallChunks;
  }

  lemma SmallDisconnect(s: State, t: nat, ok: bool)
    requires CanGo(s, t) && SmallArrived(s)
    requires var p := s.threads[t]; p.DsCas? || p.DsPost? || p.CnDec? || p.DiTest? || p.DiRepost? || p.DiCall?
    ensures SmallArrived(Advance(s, t, ok))
  {
    hide SmallChunks;
  }

  lemma SmallSend(s: State, t: nat, ok: bool)
    requires CanGo(s, t) && SmallArrived(s)
    requires var p := s.threads[t]; p.SnGot? || p.SdTest? || p.SdInc? || p.SdPost? || p.SdFail? || p.SdOver?
    ensures SmallArrived(Advance(s, t, ok))
  {
    hide SmallChunks;
  }

  lemma SmallGo(s: State, t: nat, ok: bool)
    requires CanGo(s, t) && SmallArrived(s)
    ensures SmallArrived(Advance(s, t, ok))
  {
    var p := s.threads[t];
    hide SmallArrived, Advance, CanGo;
    if p.Idle? || p.StWait? || p.PopFree? || p.RefAccept? || p.PostAccept? {
      SmallStart(s, t, ok);
    } else if p.AcUp? || p.AcCall? || p.AcCtx? || p.AcDec? {
      SmallAccept(s, t, ok);
    } else if p.RvGot? || p.RvInc? || p.RvPost? || p.RvFail? {
      SmallReceive(s, t, ok);
    } else if p.DsCas? || p.DsPost? || p.CnDec? || p.DiTest? || p.DiRepost? || p.DiCall? {
      SmallDisconnect(s, t, ok);
    } else {
      SmallSend(s, t, ok);
    }
  }

  lemma SmallKernel(s: State, a: Step)
    requires Enabled(s, a, ORDERLY) && SmallArrived(s) && (a.KernelAccept? || a.KernelSend? || a.KernelDisconnect?)
    ensures SmallArrived(Apply(s, a, ORDERLY))
  {
    hide SmallChunks;
  }

  lemma SmallTaken(s: State, a: Step)
    requires Enabled(s, a, ORDERLY) && SmallArrived(s) && (a.TakeAccept? || a.TakeIo? || a.TakeDisconnect?)
    ensures SmallArrived(Apply(s, a, ORDERLY))
  {
    hide SmallChunks;
  }

  lemma SmallCall(s: State, a: Step)
    requires Enabled(s, a, ORDERLY) && SmallArrived(s)
    requires a.AppBind? || a.AppPop? || a.AppPush? || a.AppSend? || a.AppDisconnect? || a.AppClose? || a.AppStart?
        || a.AppStop?
    ensures SmallArrived(Apply(s, a, ORDERLY))
  {
    hide SmallChunks;
  }

  lemma SmallRecv(s: State, i: nat, data: Chunk)
    requires Enabled(s, KernelRecv(i, data), ORDERLY) && SmallArrived(s)
    ensures SmallArrived(DoKernelRecv(s, i, data))
  {
  }

  lemma KeepSmall(s: State, s': State)
    requires Next(s, s', ORDERLY) && SmallArrived(s)
    ensures SmallArrived(s')
  {
    hide SmallArrived, Advance;
    var a :| Enabled(s, a, ORDERLY) && s' == Apply(s, a, ORDERLY);
    match a {
      case KernelRecv(i, data) => SmallRecv(s, i, data);
      case Go(t, ok) => SmallGo(s, t, ok);
      case KernelAccept => SmallKernel(s, a);
      case KernelSend(_) => SmallKernel(s, a);
      case KernelDisconnect(_) => SmallKernel(s, a);
      case TakeAccept(_) => SmallTaken(s, a);
      case TakeIo(_, _) => SmallTaken(s, a);
      case TakeDisconnect(_, _) => SmallTaken(s, a);
      case _ => SmallCall(s, a);
    }
  }

  lemma {:induction false} SmallRun(states: seq<State>, n: nat)
    requires Run(states, ORDERLY) && n < |states|
    ensures SmallArrived(states[n])
  {
    hide Next;
    if n > 0 {
      SmallRun(states, n - 1);
      assert Next(states[n - 1], states[n - 1 + 1], ORDERLY);
      KeepSmall(states[n - 1], states[n]);
    }
  }

  lemma SmallReachable(s: State)
    requires Reachable(s, ORDERLY)
    ensures SmallArrived(s)
  {
    hide SmallArrived;
    var states :| Run(states, ORDERLY) && states[|states| - 1] == s;
    SmallRun(states, |states| - 1);
  }

  /**
   * The whole pipeline. If what arrives on a connection is the stream of some short messages as far as the peer
   * has got, then at every moment of every interleaving the bound session's reassembly has stayed in bounds and
   * has handed over a prefix of exactly those messages' packets; and all of them, each read to the last
   * field by the function its type selects, once the stream has arrived and the queue holds nothing more for the
   * connection.
   */
  lemma MessagesDelivered(v: Server, c: ConnId, i: SessionId, reg: Registry, ms: seq<Message>, rest: seq<byte>)
    requires ServerReachable(v) && i < |v.sessions| && v.sessions[i].conn == Some(c) && c < |v.port.conns|
    requires AllShort(ms) && AllUnderstood(reg, ms) && Flatten(v.port.conns[c].arrived) + rest ==
        EncodeAll(PacketsOf(ms))
    ensures AllFit([], v.sessions[i].fed)
    ensures Packets(Flatten(v.sessions[i].fed)) <= PacketsOf(ms)
    ensures rest == [] && v.sessions[i].fed == v.port.conns[c].arrived ==>
      var got := Packets(Flatten(v.sessions[i].fed));
      && |got| == |ms|
      && forall k | 0 <= k < |ms| :: Dispatched(reg, got[k]) == Handled(Content(ms[k]))
  {
    FedInOrder(v, c, i);
    PortReachable(v);
    SmallReachable(v.port);
    var fed, arrived := v.sessions[i].fed, v.port.conns[c].arrived;
    hide ServerReachable, Packets, EncodeAll, AllFit, DataOf, Dispatched, AllUnderstood, Content, PacketsOf, AllShort;
    Delivered(fed, arrived, reg, ms, rest);
  }

  lemma Delivered(fed: seq<Chunk>, arrived: seq<Chunk>, reg: Registry, ms: seq<Message>, rest: seq<byte>)
    requires fed <= arrived && SmallChunks(arrived)
    requires AllShort(ms) && AllUnderstood(reg, ms) && Flatten(arrived) + rest == EncodeAll(PacketsOf(ms))
    ensures AllFit([], fed)
    ensures Packets(Flatten(fed)) <= PacketsOf(ms)
    ensures rest == [] && fed == arrived ==>
      var got := Packets(Flatten(fed));
      && |got| == |ms|
      && forall k | 0 <= k < |ms| :: Dispatched(reg, got[k]) == Handled(Content(ms[k]))
  {
    hide Packets, EncodeAll, AllFit, Dispatched, AllUnderstood, Content, PacketsOf, AllShort, Flatten;
    SmallPrefix(fed, arrived);
    FlattenPrefix(fed, arrived);
    var later := Flatten(arrived[|fed|..]);
    Regrouped(Flatten(fed), later, rest);
    PrefixArrives(ms, fed, later + rest);
    if rest == [] && fed == arrived {
      NothingAfter(Flatten(fed));
      AllArrive(reg, ms, fed);
    }
  }

  lemma SmallPrefix(a: seq<Chunk>, b: seq<Chunk>)
    requires a <= b && SmallChunks(b)
    ensures SmallChunks(a)
  {
    forall d | d in a ensures |d| <= MAX_INPUT_BUFFER { assert d in b; }
  }

  lemma NothingAfter(s: seq<byte>)
    ensures s + [] == s
  {
  }

  lemma Regrouped(a: seq<byte>, b: seq<byte>, c: seq<byte>)
    ensures (a + b) + c == a + (b + c)
  {
  }
}
