/** Processing a command keeps the server's invariant, and every command finds its session. */
module ServerCommands {
  import opened Bytes
  import opened CompletionPort
  import opened Framing
  import opened PortInvariant
  import opened PortSafety
  import opened Server
  import opened ServerFrames
  import opened ServerSafety

  /** v with the given port, sessions and pool, and its next command processed. */
  function Onward(v: Server, port: State, sessions: seq<Session>, pool: seq<SessionId>): (v': Server)
    requires v.at < |v.list|
  {
    var cmd := v.list[v.at];
    v.(port := port, sessions := sessions, pool := pool, at := v.at + 1, done := v.done + [cmd],
       acts := v.acts + [Act(cmd, true)])
  }

  // ---------------------------------------------------------------- the next command

  lemma Rests(v: Server)
    requires InOrder(v) && v.draining && v.at < |v.list|
    ensures var cmd, rest := v.list[v.at], v.list[v.at + 1..];
      && Waiting(v) == [cmd] + rest && (v.done + [cmd]) + rest == v.pushed
      && Heard(Waiting(v)) == (if cmd.Told? then [cmd.e] else []) + Heard(rest)
      && Heard(v.done + [cmd]) == Heard(v.done) + (if cmd.Told? then [cmd.e] else [])
      && Heard(v.done + [cmd]) + Heard(rest) == v.port.log
  {
    var cmd, rest := v.list[v.at], v.list[v.at + 1..];
    hide Heard;
    assert [cmd] + rest == v.list[v.at..];
    assert (v.done + [cmd]) + rest == v.done + ([cmd] + rest);
    HeardBoth([cmd], rest);
    HeardOne(cmd);
    HeardAdd(v.done, cmd);
    HeardBoth(v.done + [cmd], rest);
  }

  /** What processing a command leaves of the list and the log, whatever it does. */
  lemma KeepInOrder(v: Server, port: State, sessions: seq<Session>, pool: seq<SessionId>)
    requires InOrder(v) && v.draining && v.at < |v.list| && port.log == v.port.log
    ensures var v' := Onward(v, port, sessions, pool); InOrder(v') && Waiting(v') == v.list[v.at + 1..]
  {
    hide Heard;
    Rests(v);
  }

  /** The next upcall on a list, taken off it. */
  lemma OneOff(e: Event, rest: seq<Event>, c: ConnId)
    ensures Opens([e] + rest, c) == (if e == OnConnection(c) then 1 else 0) + Opens(rest, c)
    ensures DataOf([e] + rest, c) == (if e.OnData? && e.c == c then [e.data] else []) + DataOf(rest, c)
  {
    assert ([e] + rest)[1..] == rest;
  }

  /** The next upcall fits what has been heard of its connection. */
  lemma NextFits(v: Server, c: ConnId)
    requires ServerInv(v) && v.draining && v.at < |v.list| && v.list[v.at].Told?
    ensures var e, rest := v.list[v.at].e, Heard(v.list[v.at + 1..]);
      var w := Scan(Heard(v.done), c);
      var w' := if e.c == c then Hear(w, e) else w;
      && Scan(Heard(v.done + [v.list[v.at]]), c) == w' && !w'.Broken?
      && (Opens(rest, c) == 0 && w' == Shut ==> Scan(v.port.log, c) == Shut)
  {
    hide Inv, Scan, Hear, Calls, Ledger, Served, Heard, TalkOf;
    var e, rest := v.list[v.at].e, Heard(v.list[v.at + 1..]);
    Rests(v);
    ScanAdd(Heard(v.done), e, c);
    LogTalk(v.port, c);
    Unbroken(v.port, c);
    Goes(Heard(v.done + [v.list[v.at]]), rest, c);
  }

  /** Of a log that is not broken no beginning is, and what is over and not opened again stays over. */
  lemma Goes(done: seq<Event>, rest: seq<Event>, c: ConnId)
    requires !Scan(done + rest, c).Broken?
    ensures !Scan(done, c).Broken?
    ensures Opens(rest, c) == 0 && Scan(done, c) == Shut ==> Scan(done + rest, c) == Shut
  {
    hide Scan;
    ScanSplit(done, rest, c);
    if Scan(done, c).Broken? {
      BrokenStays(rest, c);
    } else if Opens(rest, c) == 0 && Scan(done, c) == Shut {
      ShutStays(rest, c);
    }
  }

  // ---------------------------------------------------------------- what a command finds

  /** The front of the pool is a session that nobody has. */
  lemma PoolFront(v: Server)
    requires Ledger(v)
    ensures forall i | i in v.pool :: i < |v.sessions|
    ensures v.pool != [] ==> v.pool[0] < |v.sessions| && v.sessions[v.pool[0]] == Session(None, [])
  {
    hide FaceOf;
    if v.pool != [] {
      assert v.pool[0] in v.pool;
      assert Owned(v, v.pool[0]) && multiset(v.pool)[v.pool[0]] >= 1;
    }
  }

  /** What the server knows of the connection of an upcall and of the session that will handle it. */
  ghost predicate Found(v: Server, e: Event) {
    && e.c < |v.port.conns|
    && (if e.OnConnection? then
          && FaceOf(v.port, e.c) == Face(true, false, None, FaceOf(v.port, e.c).given)
          && (Allocated(v) < |v.sessions| ==> v.sessions[Allocated(v)] == Session(None, []))
        else
          && Scan(Heard(v.done), e.c).Open? && ClientOf(v, e.c).Some?
          && FaceOf(v.port, e.c) == Face(true, true, ClientOf(v, e.c), FaceOf(v.port, e.c).given)
          && v.sessions[ClientOf(v, e.c).value] == Session(Some(e.c), Scan(Heard(v.done), e.c).given))
  }

  lemma Finds(v: Server)
    requires ServerInv(v) && v.draining && v.at < |v.list| && v.list[v.at].Told?
    ensures Found(v, v.list[v.at].e)
    ensures v.list[v.at].e.OnDisconnect? ==> v.port.conns[v.list[v.at].e.c].phase.Down?
  {
    hide Inv, Scan, Calls, Opens, DataOf, Heard;
    var e, rest := v.list[v.at].e, Heard(v.list[v.at + 1..]);
    NextFits(v, e.c);
    Rests(v);
    OneOff(e, rest, e.c);
    LogTalk(v.port, e.c);
    PoolFront(v);
    assert Served(v, e.c);
    hide InOrder, Ledger;
    FindsOne(v, e, rest);
  }

  lemma FindsOne(v: Server, e: Event, rest: seq<Event>)
    requires Served(v, e.c) && Heard(Waiting(v)) == [e] + rest
    requires Opens([e] + rest, e.c) == (if e == OnConnection(e.c) then 1 else 0) + Opens(rest, e.c)
    requires var w := Scan(Heard(v.done), e.c);
      !Hear(w, e).Broken? && (Opens(rest, e.c) == 0 && Hear(w, e) == Shut ==> TalkOf(v.port, e.c) == Shut)
    requires v.pool != [] ==> v.pool[0] < |v.sessions| && v.sessions[v.pool[0]] == Session(None, [])
    ensures Found(v, e) && (e.OnDisconnect? ==> v.port.conns[e.c].phase.Down?)
  {
    hide Scan, Opens, DataOf, Heard;
  }

  /** A session that has a connection is bound to it, and so the connection is live. */
  lemma Holding(v: Server, i: SessionId)
    requires ServerInv(v) && i < |v.sessions| && v.sessions[i].conn.Some?
    ensures var c := v.sessions[i].conn.value;
      c < |v.port.conns| && FaceOf(v.port, c).bound && v.port.conns[c].bound && v.port.conns[c].live
  {
    hide Inv, InOrder, Calls, Scan, Opens, DataOf, Heard, Waiting;
    assert Owned(v, i);
    assert Served(v, v.sessions[i].conn.value);
  }

  /** The buffer PopOutputBuffer gives is then the application's. */
  lemma BufferHeld(s: State)
    ensures NextOut(s) in DoAppPop(s).held
  {
  }

  /**
   * Whatever the interleaving, a command finds its session: OnConnection a connection that is live and not
   * bound and a session that is not bound; OnData and OnDisconnect the session bound to their connection. What
   * the command thread then asks of the network layer is allowed; above all nobody is inside AsyncSend on a
   * connection it closes.
   */
  lemma CommandFindsSession(v: Server)
    requires ServerInv(v) && v.draining && v.at < |v.list| && Ready(v)
    ensures MayProcess(v, v.list[v.at]) && (v.list[v.at].Told? ==> Found(v, v.list[v.at].e))
  {
    hide ServerInv;
    match v.list[v.at]
    case Told(e) => MayHandle(v);
    case SendData(i, packet) => if i < |v.sessions| && !SendFaults(v, i, packet) { SendAllowed(v, i, packet); }
    case Disconnect(i) => if i < |v.sessions| { DisconnectAllowed(v, i); }
  }

  lemma PoolKnown(v: Server)
    requires ServerInv(v)
    ensures forall i | i in v.pool :: i < |v.sessions|
  {
    hide Inv, Calls, InOrder, Served;
    PoolFront(v);
  }

  lemma Unsending(v: Server, c: ConnId)
    requires ServerInv(v) && Ready(v)
    ensures forall t | 0 <= t < |v.port.threads| :: !Sending(v.port.threads[t], c)
  {
    hide Inv, Ledger, InOrder, Served;
    Quiet(v.port, c);
  }

  lemma MayOne(v: Server, e: Event)
    requires Found(v, e) && (forall i | i in v.pool :: i < |v.sessions|)
    requires e.OnDisconnect? ==> e.c < |v.port.conns| && v.port.conns[e.c].phase.Down?
    requires forall t | 0 <= t < |v.port.threads| :: !Sending(v.port.threads[t], e.c)
    ensures MayProcess(v, Command.Told(e))
  {
    hide Scan, Heard, Sending;
  }

  lemma MayHandle(v: Server)
    requires ServerInv(v) && v.draining && v.at < |v.list| && Ready(v) && v.list[v.at].Told?
    ensures MayProcess(v, v.list[v.at]) && Found(v, v.list[v.at].e)
  {
    hide ServerInv, Scan, Heard;
    Finds(v);
    PoolKnown(v);
    Unsending(v, v.list[v.at].e.c);
    MayOne(v, v.list[v.at].e);
  }

  lemma SendAllowed(v: Server, i: SessionId, packet: Packet)
    requires ServerInv(v) && Ready(v) && i < |v.sessions| && !SendFaults(v, i, packet)
    ensures MaySend(v, v.sessions[i].conn.value, packet)
  {
    hide ServerInv;
    Holding(v, i);
    BufferHeld(v.port);
  }

  lemma DisconnectAllowed(v: Server, i: SessionId)
    requires ServerInv(v) && Ready(v) && i < |v.sessions|
    ensures MayDisconnect(v, i)
  {
    hide ServerInv;
    if v.sessions[i].conn.Some? { Holding(v, i); }
  }

  // ---------------------------------------------------------------- upcalls processed

  /** A connection the command is not about. */
  lemma ServedElsewhere(v: Server, port: State, sessions: seq<Session>, pool: seq<SessionId>, c: ConnId)
    requires InOrder(v) && Served(v, c) && v.draining && v.at < |v.list|
    requires v.list[v.at].Told? ==> v.list[v.at].e.c != c
    requires FaceOf(port, c) == FaceOf(v.port, c) && port.log == v.port.log && |v.sessions| <= |sessions|
    requires forall i: SessionId | i < |v.sessions| && v.sessions[i].conn == Some(c) :: sessions[i] == v.sessions[i]
    ensures Served(Onward(v, port, sessions, pool), c)
  {
    hide Scan, Opens, DataOf, Heard, FaceOf;
    var v' := Onward(v, port, sessions, pool);
    var cmd := v.list[v.at];
    Rests(v);
    KeepInOrder(v, port, sessions, pool);
    hide Waiting, InOrder;
    if cmd.Told? {
      ScanAdd(Heard(v.done), cmd.e, c);
      OneOff(cmd.e, Heard(v.list[v.at + 1..]), c);
    } else {
      assert [] + Heard(Waiting(v')) == Heard(Waiting(v')) && Heard(v.done) + [] == Heard(v.done);
    }
    AgreeElsewhere(FaceOf(v.port, c), Scan(Heard(v.done), c), Heard(Waiting(v)), Heard(Waiting(v')), c, v.sessions,
      sessions);
  }

  lemma AgreeElsewhere(f: Face, w: Talk, waiting: seq<Event>, rest: seq<Event>, c: ConnId,
                       sessions: seq<Session>, sessions': seq<Session>)
    requires Agree(f, w, waiting, c, sessions) && Opens(waiting, c) == Opens(rest, c)
        && DataOf(waiting, c) == DataOf(rest, c)
    requires |sessions| <= |sessions'|
    requires forall i: SessionId | i < |sessions| && sessions[i].conn == Some(c) :: sessions'[i] == sessions[i]
    ensures Agree(f, w, rest, c, sessions')
  {
    hide Opens, DataOf;
  }

  /** The port changed only as far as connection c has face f now. */
  ghost predicate Faces(s: State, s': State, c: ConnId, f: Face) {
    s'.log == s.log && forall d: ConnId :: FaceOf(s', d) == if d == c then f else FaceOf(s, d)
  }

  /** All connections are served if the one the upcall is about is. */
  lemma ServedAll(v: Server, port: State, sessions: seq<Session>, pool: seq<SessionId>, f: Face)
    requires InOrder(v) && (forall c: ConnId :: Served(v, c)) && v.draining && v.at < |v.list| && v.list[v.at].Told?
    requires Faces(v.port, port, v.list[v.at].e.c, f) && |v.sessions| <= |sessions|
    requires forall i: SessionId | i < |v.sessions| && v.sessions[i].conn.Some?
        && v.sessions[i].conn.value != v.list[v.at].e.c ::
      sessions[i] == v.sessions[i]
    requires Served(Onward(v, port, sessions, pool), v.list[v.at].e.c)
    ensures forall d: ConnId :: Served(Onward(v, port, sessions, pool), d)
  {
    hide FaceOf, InOrder, Served;
    forall d: ConnId ensures Served(Onward(v, port, sessions, pool), d) {
      if d != v.list[v.at].e.c { ServedElsewhere(v, port, sessions, pool, d); }
    }
  }

  lemma AgreeConnected(given: seq<Chunk>, w: Talk, waiting: seq<Event>, rest: seq<Event>, c: ConnId, i: SessionId,
                       sessions: seq<Session>, sessions': seq<Session>)
    requires Agree(Face(true, false, None, given), w, waiting, c, sessions) && !Hear(w, OnConnection(c)).Broken?
    requires Opens(waiting, c) == 1 + Opens(rest, c) && DataOf(waiting, c) == DataOf(rest, c)
    requires i < |sessions'| && sessions'[i] == Session(Some(c), [])
    ensures Agree(Face(true, true, Some(i), given), Hear(w, OnConnection(c)), rest, c, sessions')
  {
    hide Opens, DataOf;
    assert w.Shut?;
  }

  /** The sessions with the allocated one bound to c. */
  function Taking(v: Server, c: ConnId): (sessions: seq<Session>) {
    var w := AfterAllocate(v).sessions;
    if Allocated(v) < |w| then w[Allocated(v) := Session(Some(c), [])] else w
  }

  lemma TakingFits(v: Server, c: ConnId)
    requires v.pool != [] ==> v.pool[0] < |v.sessions| && v.sessions[v.pool[0]] == Session(None, [])
    ensures Allocated(v) < |Taking(v, c)| && |v.sessions| <= |Taking(v, c)|
    ensures Taking(v, c)[Allocated(v)] == Session(Some(c), [])
    ensures forall i: SessionId | i < |v.sessions| && i != Allocated(v) :: Taking(v, c)[i] == v.sessions[i]
  {
  }

  lemma ConnectServed(v: Server, port: State, c: ConnId)
    requires ServerInv(v) && v.draining && v.at < |v.list| && v.list[v.at] == Command.Told(OnConnection(c))
    requires Found(v, OnConnection(c))
    requires Faces(v.port, port, c, Face(true, true, Some(Allocated(v)), FaceOf(v.port, c).given))
    ensures Served(Onward(v, port, Taking(v, c), AfterAllocate(v).pool), c)
  {
    hide Inv, Calls, Scan, Opens, DataOf, FaceOf, Agree, Hear, Heard, Taking;
    var rest := Heard(v.list[v.at + 1..]);
    assert Served(v, c);
    PoolFront(v);
    TakingFits(v, c);
    hide Ledger;
    NextFits(v, c);
    Rests(v);
    KeepInOrder(v, port, Taking(v, c), AfterAllocate(v).pool);
    hide Waiting, InOrder;
    OneOff(OnConnection(c), rest, c);
    assert [] + DataOf(rest, c) == DataOf(rest, c);
    AgreeConnected(FaceOf(v.port, c).given, Scan(Heard(v.done), c), Heard(Waiting(v)), rest, c, Allocated(v),
                   v.sessions, Taking(v, c));
  }

  lemma ConnectLedger(v: Server, port: State, c: ConnId)
    requires Ledger(v) && v.at < |v.list| && Found(v, OnConnection(c))
    requires Faces(v.port, port, c, Face(true, true, Some(Allocated(v)), FaceOf(v.port, c).given))
    ensures Ledger(Onward(v, port, Taking(v, c), AfterAllocate(v).pool))
  {
    hide FaceOf, Scan, Heard;
    var i, v' := Allocated(v), Onward(v, port, Taking(v, c), AfterAllocate(v).pool);
    PoolFront(v);
    TakingFits(v, c);
    Taken(v);
    hide Taking, Found;
    forall j: SessionId | j < |v'.sessions| ensures Owned(v', j) {
      if j < |v.sessions| { assert Owned(v, j); }
    }
  }

  /** Taking the front leaves the others their places. */
  lemma Taken(v: Server)
    requires forall i | i in v.pool :: i < |v.sessions|
    ensures forall j :: j in AfterAllocate(v).pool ==> j < |v.sessions|
    ensures forall j: SessionId ::
      multiset(AfterAllocate(v).pool)[j] == multiset(v.pool)[j] - (if v.pool != [] && j == v.pool[0] then 1 else 0)
    ensures v.pool != [] <==> |AfterAllocate(v).sessions| == |v.sessions|
    ensures v.pool == [] ==>
      |AfterAllocate(v).sessions| == |v.sessions| + 1 && forall j: SessionId :: multiset(v.pool)[j] == 0
  {
    if v.pool != [] {
      assert v.pool == [v.pool[0]] + v.pool[1..];
      assert forall j | j in v.pool[1..] :: j in v.pool;
    }
  }

  lemma KeepConnect(v: Server)
    requires ServerInv(v) && v.draining && v.at < |v.list| && Ready(v) && v.list[v.at].Told?
        && v.list[v.at].e.OnConnection?
    requires MayProcess(v, v.list[v.at])
    ensures ServerInv(DoProcess(v))
  {
    hide Inv, Scan, Enabled, Apply, Served, FaceOf, Heard, Calls;
    var c, i := v.list[v.at].e.c, Allocated(v);
    var port := Apply(v.port, AppBind(c, i, SESSION_REF_MAX), ORDERLY);
    MayHandle(v);
    KeepApply(v.port, AppBind(c, i, SESSION_REF_MAX));
    BindFace(v.port, c, i);
    CallsBind(v.port, c, i);
    KeepInOrder(v, port, Taking(v, c), AfterAllocate(v).pool);
    ConnectServed(v, port, c);
    ConnectLedger(v, port, c);
    PoolFront(v);
    TakingFits(v, c);
    BecomesTaking(v, c);
    hide Ledger, InOrder, Taking, Found;
    ServedAll(v, port, Taking(v, c), AfterAllocate(v).pool, Face(true, true, Some(i), FaceOf(v.port, c).given));
  }

  lemma BecomesTaking(v: Server, c: ConnId)
    requires v.draining && v.at < |v.list| && v.list[v.at] == Command.Told(OnConnection(c))
        && MayProcess(v, v.list[v.at])
    requires v.pool != [] ==> v.pool[0] < |v.sessions| && v.sessions[v.pool[0]] == Session(None, [])
    ensures DoProcess(v)
      == Onward(v, Apply(v.port, AppBind(c, Allocated(v), SESSION_REF_MAX), ORDERLY), Taking(v, c),
        AfterAllocate(v).pool)
  {
    hide Enabled, Apply;
  }

  lemma AgreeFed(f: Face, w: Talk, waiting: seq<Event>, rest: seq<Event>, c: ConnId, data: Chunk,
                 sessions: seq<Session>, sessions': seq<Session>)
    requires Agree(f, w, waiting, c, sessions) && w.Open? && f.bound
    requires Opens(waiting, c) == Opens(rest, c) && DataOf(waiting, c) == [data] + DataOf(rest, c)
    requires |sessions'| == |sessions| && f.client.value < |sessions'|
    requires sessions'[f.client.value] == Session(Some(c), w.given + [data])
    ensures Agree(f, Hear(w, OnData(c, data)), rest, c, sessions')
  {
    hide Opens, DataOf;
    assert w.given + ([data] + DataOf(rest, c)) == (w.given + [data]) + DataOf(rest, c);
  }

  /** The sessions after session i got the data. */
  function Fed(sessions: seq<Session>, i: SessionId, data: Chunk): (r: seq<Session>)
    requires i < |sessions|
  {
    sessions[i := sessions[i].(fed := sessions[i].fed + [data])]
  }

  lemma DataServed(v: Server, c: ConnId, data: Chunk, i: SessionId)
    requires ServerInv(v) && v.draining && v.at < |v.list| && v.list[v.at] == Command.Told(OnData(c, data))
    requires Found(v, OnData(c, data)) && ClientOf(v, c) == Some(i)
    ensures Served(Onward(v, v.port, Fed(v.sessions, i, data), v.pool), c)
  {
    hide Inv, Calls, Scan, Opens, DataOf, Agree, Hear, Heard, Ledger;
    var rest := Heard(v.list[v.at + 1..]);
    assert Served(v, c);
    NextFits(v, c);
    Rests(v);
    KeepInOrder(v, v.port, Fed(v.sessions, i, data), v.pool);
    hide Waiting, InOrder;
    OneOff(OnData(c, data), rest, c);
    AgreeFed(FaceOf(v.port, c), Scan(Heard(v.done), c), Heard(Waiting(v)), rest, c, data, v.sessions,
      Fed(v.sessions, i, data));
  }

  lemma DataLedger(v: Server, i: SessionId, data: Chunk)
    requires Ledger(v) && v.at < |v.list| && i < |v.sessions| && v.sessions[i].conn.Some?
    ensures Ledger(Onward(v, v.port, Fed(v.sessions, i, data), v.pool))
  {
    hide FaceOf;
    var v' := Onward(v, v.port, Fed(v.sessions, i, data), v.pool);
    forall j: SessionId | j < |v'.sessions| ensures Owned(v', j) { assert Owned(v, j); }
  }

  lemma KeepData(v: Server)
    requires ServerInv(v) && v.draining && v.at < |v.list| && Ready(v) && v.list[v.at].Told? && v.list[v.at].e.OnData?
    requires MayProcess(v, v.list[v.at])
    ensures ServerInv(DoProcess(v))
  {
    hide Inv, Scan, Served, Heard, Calls;
    var OnData(c, data) := v.list[v.at].e;
    MayHandle(v);
    var i := ClientOf(v, c).value;
    DataServed(v, c, data, i);
    DataLedger(v, i, data);
    KeepInOrder(v, v.port, Fed(v.sessions, i, data), v.pool);
    ServedAll(v, v.port, Fed(v.sessions, i, data), v.pool, FaceOf(v.port, c));
    hide Ledger, InOrder, FaceOf;
    assert DoProcess(v) == Onward(v, v.port, Fed(v.sessions, i, data), v.pool);
  }

  lemma AgreeClosed(f: Face, w: Talk, waiting: seq<Event>, rest: seq<Event>, c: ConnId,
                    sessions: seq<Session>, sessions': seq<Session>)
    requires Agree(f, w, waiting, c, sessions) && w.Open? && f.bound && f.live
    requires Opens(waiting, c) == Opens(rest, c)
    ensures Agree(Face(false, false, None, f.given), Hear(w, OnDisconnect(c)), rest, c, sessions')
  {
    hide Opens, DataOf;
  }

  lemma DisconnectServed(v: Server, port: State, c: ConnId, i: SessionId)
    requires ServerInv(v) && v.draining && v.at < |v.list| && v.list[v.at] == Command.Told(OnDisconnect(c))
    requires Found(v, OnDisconnect(c)) && ClientOf(v, c) == Some(i)
    requires Faces(v.port, port, c, Face(false, false, None, FaceOf(v.port, c).given))
    ensures Served(Onward(v, port, v.sessions[i := Session(None, [])], v.pool + [i]), c)
  {
    hide Inv, Calls, Scan, Opens, DataOf, FaceOf, Agree, Hear, Heard, Ledger;
    var rest := Heard(v.list[v.at + 1..]);
    assert Served(v, c);
    NextFits(v, c);
    Rests(v);
    KeepInOrder(v, port, v.sessions[i := Session(None, [])], v.pool + [i]);
    hide Waiting, InOrder;
    OneOff(OnDisconnect(c), rest, c);
    AgreeClosed(FaceOf(v.port, c), Scan(Heard(v.done), c), Heard(Waiting(v)), rest, c, v.sessions,
                v.sessions[i := Session(None, [])]);
  }

  lemma DisconnectLedger(v: Server, port: State, c: ConnId, i: SessionId)
    requires Ledger(v) && v.at < |v.list| && i < |v.sessions| && v.sessions[i].conn == Some(c)
    requires Faces(v.port, port, c, Face(false, false, None, FaceOf(v.port, c).given))
    ensures Ledger(Onward(v, port, v.sessions[i := Session(None, [])], v.pool + [i]))
  {
    hide FaceOf;
    var v' := Onward(v, port, v.sessions[i := Session(None, [])], v.pool + [i]);
    assert Owned(v, i);
    forall j: SessionId | j < |v'.sessions| ensures Owned(v', j) { assert Owned(v, j); }
  }

  lemma KeepDisconnect(v: Server)
    requires ServerInv(v) && v.draining && v.at < |v.list| && Ready(v) && v.list[v.at].Told?
        && v.list[v.at].e.OnDisconnect?
    requires MayProcess(v, v.list[v.at])
    ensures ServerInv(DoProcess(v))
  {
    hide Inv, Scan, Enabled, Apply, Served, FaceOf, Heard, Calls;
    var c := v.list[v.at].e.c;
    MayHandle(v);
    var i := ClientOf(v, c).value;
    var port := Apply(v.port, AppClose(c), ORDERLY);
    KeepApply(v.port, AppClose(c));
    CloseFace(v.port, c);
    CallsClose(v.port, c);
    DisconnectServed(v, port, c, i);
    DisconnectLedger(v, port, c, i);
    KeepInOrder(v, port, v.sessions[i := Session(None, [])], v.pool + [i]);
    hide Ledger, InOrder;
    ServedAll(v, port, v.sessions[i := Session(None, [])], v.pool + [i],
      Face(false, false, None, FaceOf(v.port, c).given));
    assert DoProcess(v) == Onward(v, port, v.sessions[i := Session(None, [])], v.pool + [i]);
  }

  // ---------------------------------------------------------------- commands of the application

  /** A command that only has the command thread call the network layer. */
  lemma KeepPlain(v: Server, port: State)
    requires ServerInv(v) && v.draining && v.at < |v.list| && !v.list[v.at].Told?
    requires Silent(v.port, port) && Inv(port) && Calls(port)
    ensures ServerInv(Onward(v, port, v.sessions, v.pool))
  {
    hide Inv, Calls, FaceOf;
    var v' := Onward(v, port, v.sessions, v.pool);
    KeepInOrder(v, port, v.sessions, v.pool);
    forall c: ConnId ensures Served(v', c) {
      assert Served(v, c);
      hide Served, InOrder;
      ServedElsewhere(v, port, v.sessions, v.pool, c);
    }
    OwnedAs(v, v');
  }

  /** The invariant does not depend on whether a handler has left its memory. */
  lemma Faulted(v: Server)
    requires ServerInv(v)
    ensures ServerInv(v.(faulted := true))
  {
    hide Inv, Calls, Agree, Scan, Heard, FaceOf;
    var v' := v.(faulted := true);
    forall c: ConnId ensures Served(v', c) { assert Served(v, c); }
    OwnedAs(v, v');
  }

  lemma SilentTwice(a: State, b: State, c: State)
    requires Silent(a, b) && Silent(b, c)
    ensures Silent(a, c)
  {
    hide FaceOf;
  }

  /** PopOutputBuffer, then AsyncSend entered by the command thread. */
  lemma SentKeeps(s: State, a: Step)
    requires Inv(s) && Calls(s) && Enabled(DoAppPop(s), a, ORDERLY)
    requires a.AppSend? && a.t == Commander(s) && FaceOf(s, a.c).bound
    ensures var s' := Apply(DoAppPop(s), a, ORDERLY); Inv(s') && Calls(s') && Silent(s, s')
  {
    var mid := DoAppPop(s);
    Popping(s);
    hide Inv, Calls, Silent, SameTerms, FaceOf, Enabled, Apply, DoAppPop;
    KeepApply(s, AppPop);
    AppSilent(s, AppPop);
    CallsStill(s, mid);
    StillBound(s, mid, a.c);
    KeepApply(mid, a);
    SendCallSilent(mid, a);
    CallsSend(mid, a);
    SilentTwice(s, mid, Apply(mid, a, ORDERLY));
  }

  lemma Popping(s: State)
    ensures Enabled(s, AppPop, ORDERLY) && Apply(s, AppPop, ORDERLY) == DoAppPop(s) && DoAppPop(s).workers == s.workers
  {
  }

  lemma StillBound(s: State, s': State, c: ConnId)
    requires Silent(s, s') && FaceOf(s, c).bound
    ensures FaceOf(s', c).bound
  {
    hide FaceOf;
  }

  /** The port after a session's SendData has called AsyncSend. */
  lemma SendKeeps(v: Server, i: SessionId, packet: Packet)
    requires ServerInv(v) && Ready(v)
    requires i < |v.sessions| && !SendFaults(v, i, packet) && MaySend(v, v.sessions[i].conn.value, packet)
    ensures var port := Apply(DoAppPop(v.port), SendStep(v, v.sessions[i].conn.value, packet), ORDERLY);
      Inv(port) && Calls(port) && Silent(v.port, port)
  {
    Holding(v, i);
    hide Inv, Calls, InOrder, Ledger, Served, FaceOf, Enabled, Apply, DoAppPop, Silent, NextOut;
    SentKeeps(v.port, SendStep(v, v.sessions[i].conn.value, packet));
  }

  lemma KeepSent(v: Server, i: SessionId, packet: Packet)
    requires ServerInv(v) && v.draining && v.at < |v.list| && Ready(v) && v.list[v.at] == SendData(i, packet)
    requires i < |v.sessions| && !SendFaults(v, i, packet) && MaySend(v, v.sessions[i].conn.value, packet)
    ensures ServerInv(Onward(v, Apply(DoAppPop(v.port), SendStep(v, v.sessions[i].conn.value, packet), ORDERLY),
        v.sessions, v.pool))
  {
    hide ServerInv, Enabled, Apply, DoAppPop, Silent, Onward, NextOut, SendStep, Inv, Calls;
    SendKeeps(v, i, packet);
    KeepPlain(v, Apply(DoAppPop(v.port), SendStep(v, v.sessions[i].conn.value, packet), ORDERLY));
  }

  /** A handler's own SendData, or that of the server's loop. */
  lemma KeepReply(v: Server, i: SessionId, packet: Packet)
    requires ServerInv(v) && Ready(v) && MayProcess(v, SendData(i, packet))
    ensures ServerInv(DoReply(v, i, packet))
  {
    hide Inv, Calls, InOrder, Ledger, Served, SendStep, Enabled, Apply, DoAppPop, Silent;
    var act := Act(SendData(i, packet), false);
    if i < |v.sessions| && !SendFaults(v, i, packet) {
      SendKeeps(v, i, packet);
      var port := Apply(DoAppPop(v.port), SendStep(v, v.sessions[i].conn.value, packet), ORDERLY);
      KeepAgreed(v, v.(port := port, acts := v.acts + [act]));
    } else {
      SilentNow(v.port);
      KeepAgreed(v, v.(acts := v.acts + [act]));
      Faulted(v.(acts := v.acts + [act]));
    }
  }

  lemma SilentNow(s: State)
    ensures Silent(s, s)
  {
  }

  lemma KeepSendData(v: Server)
    requires ServerInv(v) && v.draining && v.at < |v.list| && Ready(v) && v.list[v.at].SendData?
    requires MayProcess(v, v.list[v.at])
    ensures ServerInv(DoProcess(v))
  {
    hide ServerInv, SendStep, Enabled, Apply, DoAppPop, SendFaults;
    var SendData(i, packet) := v.list[v.at];
    if i < |v.sessions| && !SendFaults(v, i, packet) {
      KeepSent(v, i, packet);
    } else {
      KeepPlainSame(v);
      Faulted(Onward(v, v.port, v.sessions, v.pool));
    }
  }

  lemma KeepPlainSame(v: Server)
    requires ServerInv(v) && v.draining && v.at < |v.list| && !v.list[v.at].Told?
    ensures ServerInv(Onward(v, v.port, v.sessions, v.pool))
  {
    hide Inv, Calls, InOrder, Ledger, Served, FaceOf, Onward;
    KeepPlain(v, v.port);
  }

  lemma DisconnectKeeps(s: State, a: Step)
    requires Inv(s) && Calls(s) && Enabled(s, a, ORDERLY) && a.AppDisconnect?
    ensures var s' := Apply(s, a, ORDERLY); Inv(s') && Calls(s') && Silent(s, s')
  {
    hide Inv, Calls, FaceOf, Enabled, Apply, SameTerms, Steps, Silent;
    KeepApply(s, a);
    CallSilent(s, a);
    CallsSilently(s, Apply(s, a, ORDERLY), a.t);
  }

  lemma KeepForceDisconnect(v: Server)
    requires ServerInv(v) && v.draining && v.at < |v.list| && Ready(v) && v.list[v.at].Disconnect?
    requires MayProcess(v, v.list[v.at])
    ensures ServerInv(DoProcess(v))
  {
    hide Inv, Calls, InOrder, Served, FaceOf, Enabled, Apply, Silent;
    var Disconnect(i) := v.list[v.at];
    if i < |v.sessions| && v.sessions[i].conn.Some? {
      var a := AppDisconnect(Commander(v.port), v.sessions[i].conn.value);
      DisconnectKeeps(v.port, a);
      KeepPlain(v, Apply(v.port, a, ORDERLY));
    } else {
      KeepPlainSame(v);
      if i < |v.sessions| {
        assert Owned(v, i);
        assert v.sessions[i := Session(None, [])] == v.sessions;
      }
    }
  }

  lemma KeepProcess(v: Server)
    requires ServerInv(v) && v.draining && v.at < |v.list| && Ready(v) && MayProcess(v, v.list[v.at])
    ensures ServerInv(DoProcess(v))
  {
    hide ServerInv, MayProcess, DoProcess;
    match v.list[v.at]
    case Told(OnConnection(_)) => KeepConnect(v);
    case Told(OnData(_, _)) => KeepData(v);
    case Told(OnDisconnect(_)) => KeepDisconnect(v);
    case SendData(_, _) => KeepSendData(v);
    case Disconnect(_) => KeepForceDisconnect(v);
  }
}
