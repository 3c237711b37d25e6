/**
 * What the commands of the application achieve. A replay of the commands carried out tells which session had which
 * connection; AsyncSend has been given exactly the packets of the SendData commands among them, in order, each on its
 * session's connection; and a connection whose session was asked to disconnect is not connected any more.
 */
module ServerSends {
  import opened Bytes
  import opened CompletionPort
  import opened Framing
  import opened PortLoad
  import opened PortInvariant
  import opened PortSends
  import opened Server
  import opened ServerFrames
  import opened ServerSafety
  import opened ServerCommands
  import opened Pipeline

  // ---------------------------------------------------------------- the replay

  /** The session below n that is tied to c. */
  function TiedTo(ties: seq<Option<Tie>>, c: ConnId, n: nat): (i: Option<SessionId>)
    requires n <= |ties|
    ensures i.Some? ==> i.value < n && ties[i.value].Some? && ties[i.value].value.c == c
    ensures i.None? ==> forall j | 0 <= j < n && ties[j].Some? :: ties[j].value.c != c
  {
    if n == 0 then None
    else if ties[n - 1].Some? && ties[n - 1].value.c == c then Some(n - 1)
    else TiedTo(ties, c, n - 1)
  }

  /**
   * OnConnection ties the front of the pool, or a new session, to the connection; OnDisconnect sends the connection's
   * session to the back of the pool; Disconnect ends a session's tie.
   */
  function Noted(b: Book, cmd: Command): (b': Book) {
    match cmd
    case Told(OnConnection(c)) =>
      if b.pool == [] then Book([], b.ties + [Some(Tie(c, false))])
      else if b.pool[0] < |b.ties| then Book(b.pool[1..], b.ties[b.pool[0] := Some(Tie(c, false))])
      else b
    case Told(OnData(_, _)) => b
    case Told(OnDisconnect(c)) =>
      (match TiedTo(b.ties, c, |b.ties|)
       case None => b
       case Some(i) => Book(b.pool + [i], b.ties[i := None]))
    case SendData(_, _) => b
    case Disconnect(i) =>
      if i < |b.ties| && b.ties[i].Some? then b.(ties := b.ties[i := Some(b.ties[i].value.(ended := true))]) else b
  }

  function BookOf(origin: Book, acts: seq<Act>): (b: Book) {
    if acts == [] then origin else Noted(BookOf(origin, acts[..|acts| - 1]), acts[|acts| - 1].cmd)
  }

  /** The send that a command asks for, made by thread t. */
  function Asks(b: Book, cmd: Command, t: nat): (sent: seq<Shipment>) {
    match cmd
    case SendData(i, packet) =>
      if i < |b.ties| && b.ties[i].Some? && PACKET_HEAD + |packet.body| <= MAX_OUTPUT_BUFFER then
        [Shipment(t, b.ties[i].value.c, Encode(packet))]
      else []
    case _ => []
  }

  /** The sends that the commands ask for. */
  function Asked(origin: Book, acts: seq<Act>, t: nat): (sent: seq<Shipment>) {
    if acts == [] then []
    else
      var before := acts[..|acts| - 1];
      Asked(origin, before, t) + Asks(BookOf(origin, before), acts[|acts| - 1].cmd, t)
  }

  /** The commands from the queue among those carried out. */
  function Queued(acts: seq<Act>): (cmds: seq<Command>) {
    if acts == [] then []
    else
      var last := acts[|acts| - 1];
      Queued(acts[..|acts| - 1]) + if last.queued then [last.cmd] else []
  }

  lemma OneMore(origin: Book, acts: seq<Act>, act: Act, t: nat)
    ensures BookOf(origin, acts + [act]) == Noted(BookOf(origin, acts), act.cmd)
    ensures Asked(origin, acts + [act], t) == Asked(origin, acts, t) + Asks(BookOf(origin, acts), act.cmd, t)
    ensures Queued(acts + [act]) == Queued(acts) + if act.queued then [act.cmd] else []
  {
    assert (acts + [act])[..|acts|] == acts;
  }

  // ---------------------------------------------------------------- the invariant

  /** The book says of the sessions what they say themselves. */
  ghost predicate Kept(b: Book, pool: seq<SessionId>, sessions: seq<Session>) {
    && b.pool == pool && |b.ties| == |sessions|
    && forall i: SessionId | i < |sessions| ::
        sessions[i].conn == match b.ties[i] case None => None case Some(tie) => Some(tie.c)
  }

  /** Whoever was to be disconnected is, or the command thread is just about to do it. */
  ghost predicate Ended(b: Book, s: State) {
    && Commander(s) < |s.threads|
    && forall i: SessionId | i < |b.ties| && b.ties[i].Some? && b.ties[i].value.ended ::
        var c := b.ties[i].value.c;
        c < |s.conns| && s.conns[c].live && (s.conns[c].connected ==> s.threads[Commander(s)] == DsCas(c, ToIdle))
  }

  ghost predicate Carried(v: Server) {
    var b := BookOf(v.origin, v.acts);
    && Kept(b, v.pool, v.sessions) && Ended(b, v.port)
    && v.port.past.sent == Asked(v.origin, v.acts, Commander(v.port))
    && v.done == Queued(v.acts)
  }

  // ---------------------------------------------------------------- steps of the network layer

  /**
   * The step calls no AsyncSend, and connects nobody who is known; the command thread's compare-and-swap disconnects.
   */
  ghost predicate Gentle(s: State, s': State) {
    && s'.past.sent == s.past.sent && s'.workers == s.workers && |s'.threads| == |s.threads|
    && |s.conns| <= |s'.conns|
    && (forall c: ConnId | c < |s.conns| && s.conns[c].live ::
          s'.conns[c].live && (s'.conns[c].connected ==> s.conns[c].connected))
    && (forall c: ConnId | Commander(s) < |s.threads| && s.threads[Commander(s)] == DsCas(c, ToIdle) ::
          s'.threads[Commander(s)] == DsCas(c, ToIdle) || (c < |s'.conns| && !s'.conns[c].connected))
  }

  lemma GentleKeeps(b: Book, s: State, s': State)
    requires Ended(b, s) && Gentle(s, s')
    ensures Ended(b, s')
  {
  }

  lemma UpOk(cn: Conn, c: ConnId, r: Load, f: nat, g: bool)
    requires Sane(r) && ConnOk(cn, Plus(OwnLoad(AcUp(c)), r), f, g)
    ensures !cn.live
  {
    hide Payloads;
  }

  /** A connection is set connected before its handler is told of it. */
  lemma UpUnknown(s: State, t: nat)
    requires Inv(s) && t < |s.threads| && s.threads[t].AcUp? && s.threads[t].c < |s.conns|
    ensures !s.conns[s.threads[t].c].live
  {
    hide Ids, Conns, AcceptOk, Contexts, Talks, ConnOk, Plus, Rest, Sane, OwnLoad;
    var c := s.threads[t].c;
    Focus(s, t, c);
    UpOk(s.conns[c], c, Rest(s, t, c), multiset(s.free)[c], IsTarget(s, c));
  }

  lemma AcceptGentle(s: State, t: nat, ok: bool)
    requires CanGo(s, t)
    requires var q := s.threads[t]; q.Idle? || q.StWait? || q.PopFree? || q.RefAccept? || q.PostAccept? || q.AcDec?
    ensures Gentle(s, Advance(s, t, ok))
  {
    assert s.free != [] ==> s.free[0] in s.free;
  }

  lemma UpGentle(s: State, t: nat, ok: bool)
    requires CanGo(s, t) && s.threads[t].AcUp? && !s.conns[s.threads[t].c].live
    ensures Gentle(s, Advance(s, t, ok))
  {
  }

  lemma CallGentle(s: State, t: nat, ok: bool)
    requires CanGo(s, t) && s.threads[t].AcCall?
    ensures Gentle(s, Advance(s, t, ok))
  {
    hide CausesOf;
  }

  lemma ContextGentle(s: State, t: nat, ok: bool)
    requires CanGo(s, t) && s.threads[t].AcCtx?
    ensures Gentle(s, Advance(s, t, ok))
  {
    hide CausesOf;
  }

  lemma GotGentle(s: State, t: nat, ok: bool)
    requires CanGo(s, t) && (s.threads[t].RvGot? || s.threads[t].RvInc?)
    ensures Gentle(s, Advance(s, t, ok))
  {
    hide CausesOf;
  }

  lemma ReceiveGentle(s: State, t: nat, ok: bool)
    requires CanGo(s, t) && (s.threads[t].RvPost? || s.threads[t].RvFail?)
    ensures Gentle(s, Advance(s, t, ok))
  {
    hide CausesOf;
  }

  lemma SwapGentle(s: State, t: nat, ok: bool)
    requires CanGo(s, t) && s.threads[t].DsCas?
    ensures Gentle(s, Advance(s, t, ok))
  {
  }

  lemma PostGentle(s: State, t: nat, ok: bool)
    requires CanGo(s, t) && s.threads[t].DsPost?
    ensures Gentle(s, Advance(s, t, ok))
  {
  }

  lemma ReleaseGentle(s: State, t: nat, ok: bool)
    requires CanGo(s, t) && s.threads[t].CnDec?
    ensures Gentle(s, Advance(s, t, ok))
  {
  }

  lemma TestGentle(s: State, t: nat, ok: bool)
    requires CanGo(s, t) && s.threads[t].DiTest?
    ensures Gentle(s, Advance(s, t, ok))
  {
  }

  lemma ReportGentle(s: State, t: nat, ok: bool)
    requires CanGo(s, t) && (s.threads[t].DiRepost? || s.threads[t].DiCall?)
    ensures Gentle(s, Advance(s, t, ok))
  {
  }

  lemma CheckGentle(s: State, t: nat, ok: bool)
    requires CanGo(s, t) && s.threads[t].SdTest?
    ensures Gentle(s, Advance(s, t, ok))
  {
    hide CausesOf, BufOf;
  }

  lemma SendGentle(s: State, t: nat, ok: bool)
    requires CanGo(s, t) && s.threads[t].SdPost?
    ensures Gentle(s, Advance(s, t, ok))
  {
    hide CausesOf, BufOf;
  }

  lemma SentGentle(s: State, t: nat, ok: bool)
    requires CanGo(s, t) && (s.threads[t].SnGot? || s.threads[t].SdInc?)
    ensures Gentle(s, Advance(s, t, ok))
  {
  }

  lemma FailGentle(s: State, t: nat, ok: bool)
    requires CanGo(s, t) && (s.threads[t].SdFail? || s.threads[t].SdOver?)
    ensures Gentle(s, Advance(s, t, ok))
  {
  }

  lemma WorkGentle(s: State, t: nat, ok: bool)
    requires CanGo(s, t)
    requires var q := s.threads[t];
      && !q.Idle? && !q.StWait? && !q.PopFree? && !q.RefAccept? && !q.PostAccept? && !q.AcDec? && !q.AcUp?
    ensures Gentle(s, Advance(s, t, ok))
  {
    var q := s.threads[t];
    hide Gentle, Advance, CanGo;
    match q {
      case AcCall(_) => CallGentle(s, t, ok);
      case AcCtx(_) => ContextGentle(s, t, ok);
      case RvGot(_, _, _) => GotGentle(s, t, ok);
      case RvInc(_, _, _) => GotGentle(s, t, ok);
      case RvPost(_, _, _) => ReceiveGentle(s, t, ok);
      case RvFail(_, _, _) => ReceiveGentle(s, t, ok);
      case DsCas(_, _) => SwapGentle(s, t, ok);
      case DsPost(_, _) => PostGentle(s, t, ok);
      case CnDec(_, _) => ReleaseGentle(s, t, ok);
      case DiTest(_) => TestGentle(s, t, ok);
      case DiRepost(_) => ReportGentle(s, t, ok);
      case DiCall(_) => ReportGentle(s, t, ok);
      case SdTest(_, _) => CheckGentle(s, t, ok);
      case SdPost(_, _) => SendGentle(s, t, ok);
      case SnGot(_, _) => SentGentle(s, t, ok);
      case SdInc(_, _) => SentGentle(s, t, ok);
      case SdFail(_, _) => FailGentle(s, t, ok);
      case SdOver(_, _) => FailGentle(s, t, ok);
    }
  }

  lemma GoGentle(s: State, t: nat, ok: bool)
    requires Inv(s) && CanGo(s, t)
    ensures Gentle(s, Advance(s, t, ok))
  {
    var q := s.threads[t];
    if q.AcUp? {
      UpUnknown(s, t);
      hide Inv, Gentle, Advance;
      UpGentle(s, t, ok);
    } else {
      hide Inv, Gentle, Advance, CanGo;
      if q.Idle? || q.StWait? || q.PopFree? || q.RefAccept? || q.PostAccept? || q.AcDec? {
        AcceptGentle(s, t, ok);
      } else {
        WorkGentle(s, t, ok);
      }
    }
  }

  lemma KernelGentle(s: State, a: Step)
    requires Enabled(s, a, ORDERLY)
    requires a.KernelAccept? || a.KernelRecv? || a.KernelSend? || a.KernelDisconnect?
    ensures Gentle(s, Apply(s, a, ORDERLY))
  {
  }

  lemma TakenGentle(s: State, a: Step)
    requires Enabled(s, a, ORDERLY) && (a.TakeAccept? || a.TakeIo?)
    ensures Gentle(s, Apply(s, a, ORDERLY))
  {
  }

  lemma DisconnectGentle(s: State, a: Step)
    requires Enabled(s, a, ORDERLY) && a.TakeDisconnect?
    ensures Gentle(s, Apply(s, a, ORDERLY))
  {
  }

  lemma AppGentle(s: State, a: Step)
    requires Enabled(s, a, ORDERLY) && (a.AppPop? || a.AppPush? || a.AppStop?)
    ensures Gentle(s, Apply(s, a, ORDERLY))
  {
    var s' := Apply(s, a, ORDERLY);
    assert s'.conns == s.conns && s'.threads == s.threads && s'.past == s.past && s'.workers == s.workers;
    hide Apply, Enabled;
  }

  lemma StartGentle(s: State, a: Step)
    requires Enabled(s, a, ORDERLY) && a.AppStart?
    ensures Gentle(s, Apply(s, a, ORDERLY))
  {
  }

  lemma AskGentle(s: State, a: Step)
    requires Enabled(s, a, ORDERLY) && a.AppDisconnect?
    ensures Gentle(s, Apply(s, a, ORDERLY))
  {
    hide CausesOf;
  }

  lemma StepGentle(s: State, a: Step)
    requires Inv(s) && Enabled(s, a, ORDERLY) && !Reserved(a)
    ensures Gentle(s, Apply(s, a, ORDERLY))
  {
    if a.Go? {
      assert CanGo(s, a.t);
      hide Inv, Gentle, Advance, CanGo, Enabled;
      GoGentle(s, a.t, a.ok);
    } else {
      hide Inv, Gentle, Enabled, Apply;
      if a.AppPop? || a.AppPush? || a.AppStop? {
        AppGentle(s, a);
      } else if a.AppStart? {
        StartGentle(s, a);
      } else if a.TakeDisconnect? {
        DisconnectGentle(s, a);
      } else if a.AppDisconnect? {
        AskGentle(s, a);
      } else if a.TakeAccept? || a.TakeIo? {
        TakenGentle(s, a);
      } else {
        KernelGentle(s, a);
      }
    }
  }

  // ---------------------------------------------------------------- commands

  /** A command is carried out, in keeping with the replay. */
  lemma KeepAct(v: Server, v': Server, act: Act)
    requires Carried(v) && v'.origin == v.origin && v'.acts == v.acts + [act]
    requires v'.done == v.done + (if act.queued then [act.cmd] else []) && v'.port.workers == v.port.workers
    requires var b := BookOf(v.origin, v.acts);
      && Kept(Noted(b, act.cmd), v'.pool, v'.sessions) && Ended(Noted(b, act.cmd), v'.port)
      && v'.port.past.sent == v.port.past.sent + Asks(b, act.cmd, Commander(v.port))
    ensures Carried(v')
  {
    OneMore(v.origin, v.acts, act, Commander(v.port));
    hide BookOf, Asked, Asks, Noted, Kept, Ended, Queued;
  }

  /** The command thread is between calls: whoever was to be disconnected is. */
  ghost predicate Off(b: Book, s: State) {
    forall i: SessionId | i < |b.ties| && b.ties[i].Some? && b.ties[i].value.ended ::
      var c := b.ties[i].value.c;
      c < |s.conns| && s.conns[c].live && !s.conns[c].connected
  }

  lemma ReadyOff(b: Book, v: Server)
    requires Ended(b, v.port) && Ready(v)
    ensures Off(b, v.port)
  {
  }

  lemma ConnectKept(b: Book, v: Server, c: ConnId)
    requires Kept(b, v.pool, v.sessions) && forall i | i in v.pool :: i < |v.sessions|
    requires v.pool != [] ==> v.pool[0] < |v.sessions| && v.sessions[v.pool[0]] == Session(None, [])
    ensures Kept(Noted(b, Command.Told(OnConnection(c))), AfterAllocate(v).pool, Taking(v, c))
  {
  }

  lemma ConnectOff(b: Book, s: State, s': State, c: ConnId)
    requires Off(b, s) && |s'.conns| == |s.conns|
    requires forall d: ConnId | d < |s.conns| && s.conns[d].live ::
               s'.conns[d].live && s'.conns[d].connected == s.conns[d].connected
    ensures Off(Noted(b, Command.Told(OnConnection(c))), s')
  {
  }

  lemma OffEnded(b: Book, s: State)
    requires Off(b, s) && Commander(s) < |s.threads|
    ensures Ended(b, s)
  {
  }

  lemma BindFacts(s: State, c: ConnId, i: SessionId)
    requires c < |s.conns|
    ensures var s' := DoAppBind(s, c, i, SESSION_REF_MAX);
      && |s'.conns| == |s.conns| && s'.past == s.past && s'.workers == s.workers && s'.threads == s.threads
      && forall d: ConnId | d < |s.conns| && s.conns[d].live :: s'.conns[d].live
          && s'.conns[d].connected == s.conns[d].connected
  {
  }

  lemma NoSend(b: Book, cmd: Command, t: nat, sent: seq<Shipment>)
    requires !cmd.SendData?
    ensures sent + Asks(b, cmd, t) == sent
  {
  }

  lemma CarryConnect(v: Server, c: ConnId)
    requires ServerInv(v) && Carried(v) && v.draining && v.at < |v.list| && Ready(v)
    requires v.list[v.at] == Command.Told(OnConnection(c)) && MayProcess(v, v.list[v.at])
    ensures Carried(DoProcess(v))
  {
    var b, v' := BookOf(v.origin, v.acts), DoProcess(v);
    var cmd := v.list[v.at];
    LedgerFront(v);
    BecomesTaking(v, c);
    BoundThere(v, c);
    hide ServerInv, BookOf, Asked, Queued, Enabled, Apply, DoProcess, MayProcess, Taking, AfterAllocate, Noted, Asks,
        Off;
    ReadyOff(b, v);
    ConnectKept(b, v, c);
    BindIs(v.port, c, Allocated(v));
    BindFacts(v.port, c, Allocated(v));
    ConnectOff(b, v.port, v'.port, c);
    hide Ended;
    OffEnded(Noted(b, cmd), v'.port);
    NoSend(b, cmd, Commander(v.port), v.port.past.sent);
    KeepAct(v, v', Act(cmd, true));
  }

  lemma LedgerFront(v: Server)
    requires ServerInv(v)
    ensures forall i | i in v.pool :: i < |v.sessions|
    ensures v.pool != [] ==> v.pool[0] < |v.sessions| && v.sessions[v.pool[0]] == Session(None, [])
  {
    hide Inv, Calls, InOrder, Served;
    PoolFront(v);
  }

  lemma BoundThere(v: Server, c: ConnId)
    requires v.draining && v.at < |v.list| && v.list[v.at] == Command.Told(OnConnection(c))
        && MayProcess(v, v.list[v.at])
    ensures Enabled(v.port, AppBind(c, Allocated(v), SESSION_REF_MAX), ORDERLY)
  {
  }

  lemma BindIs(s: State, c: ConnId, i: SessionId)
    requires Enabled(s, AppBind(c, i, SESSION_REF_MAX), ORDERLY)
    ensures c < |s.conns|
    ensures Apply(s, AppBind(c, i, SESSION_REF_MAX), ORDERLY) == DoAppBind(s, c, i, SESSION_REF_MAX)
  {
    hide DoAppBind;
  }

  /** The handlers of OnData and of a Disconnect without a connection leave everybody's connection alone. */
  predicate SameConns(sessions: seq<Session>, sessions': seq<Session>) {
    |sessions'| == |sessions| && forall i: SessionId | i < |sessions| :: sessions'[i].conn == sessions[i].conn
  }

  lemma DataIs(v: Server, c: ConnId, data: Chunk)
    requires v.at < |v.list| && v.list[v.at] == Command.Told(OnData(c, data)) && MayProcess(v, v.list[v.at])
    ensures var v' := DoProcess(v);
      && v'.port == v.port && v'.pool == v.pool && SameConns(v.sessions, v'.sessions) && v'.origin == v.origin
      && v'.acts == v.acts + [Act(v.list[v.at], true)] && v'.done == v.done + [v.list[v.at]]
  {
  }

  lemma KeptSame(b: Book, pool: seq<SessionId>, sessions: seq<Session>, sessions': seq<Session>)
    requires Kept(b, pool, sessions) && SameConns(sessions, sessions')
    ensures Kept(b, pool, sessions')
  {
  }

  lemma CarryData(v: Server, c: ConnId, data: Chunk)
    requires Carried(v) && v.at < |v.list| && v.list[v.at] == Command.Told(OnData(c, data))
        && MayProcess(v, v.list[v.at])
    ensures Carried(DoProcess(v))
  {
    var b, v' := BookOf(v.origin, v.acts), DoProcess(v);
    var cmd := v.list[v.at];
    DataIs(v, c, data);
    assert Noted(b, cmd) == b;
    hide BookOf, Asked, Queued, DoProcess, MayProcess, Ended, Kept, Noted, Asks;
    KeptSame(b, v.pool, v.sessions, v'.sessions);
    NoSend(b, cmd, Commander(v.port), v.port.past.sent);
    KeepAct(v, v', Act(cmd, true));
  }

  /** No other session names c. */
  lemma OnlySession(v: Server, c: ConnId, i: SessionId)
    requires ServerInv(v) && i < |v.sessions| && v.sessions[i].conn == Some(c)
    ensures forall j: SessionId | j < |v.sessions| && v.sessions[j].conn == Some(c) :: j == i
  {
    hide Inv, Calls, InOrder, Served, FaceOf;
    assert Owned(v, i);
    forall j: SessionId | j < |v.sessions| && v.sessions[j].conn == Some(c) ensures j == i { assert Owned(v, j); }
  }

  lemma TieFound(b: Book, pool: seq<SessionId>, sessions: seq<Session>, c: ConnId, i: SessionId)
    requires Kept(b, pool, sessions) && i < |sessions| && sessions[i].conn == Some(c)
    requires forall j: SessionId | j < |sessions| && sessions[j].conn == Some(c) :: j == i
    ensures TiedTo(b.ties, c, |b.ties|) == Some(i)
    ensures forall j: SessionId | j < |b.ties| && b.ties[j].Some? && b.ties[j].value.c == c :: j == i
  {
    assert b.ties[i].Some? && b.ties[i].value.c == c;
    hide TiedTo;
  }

  lemma ClosedKept(b: Book, v: Server, c: ConnId, i: SessionId)
    requires Kept(b, v.pool, v.sessions) && i < |v.sessions| && TiedTo(b.ties, c, |b.ties|) == Some(i)
    ensures Kept(Noted(b, Command.Told(OnDisconnect(c))), v.pool + [i], v.sessions[i := Session(None, [])])
  {
    hide TiedTo;
  }

  lemma ClosedOff(b: Book, s: State, s': State, c: ConnId, i: SessionId)
    requires Off(b, s) && TiedTo(b.ties, c, |b.ties|) == Some(i) && |s'.conns| == |s.conns|
    requires forall j: SessionId | j < |b.ties| && b.ties[j].Some? && b.ties[j].value.c == c :: j == i
    requires forall d: ConnId | d < |s.conns| && d != c :: s'.conns[d] == s.conns[d]
    ensures Off(Noted(b, Command.Told(OnDisconnect(c))), s')
  {
    hide TiedTo;
  }

  lemma CloseFacts(s: State, c: ConnId)
    requires Enabled(s, AppClose(c), ORDERLY)
    ensures var s' := Apply(s, AppClose(c), ORDERLY);
      && |s'.conns| == |s.conns| && s'.past == s.past && s'.workers == s.workers && s'.threads == s.threads
      && forall d: ConnId | d < |s.conns| && d != c :: s'.conns[d] == s.conns[d]
  {
  }

  /** What processing OnDisconnect does, when it finds its session. */
  lemma ClosingIs(v: Server, c: ConnId, i: SessionId)
    requires v.draining && v.at < |v.list| && v.list[v.at] == Command.Told(OnDisconnect(c))
        && MayProcess(v, v.list[v.at])
    requires c < |v.port.conns| && ClientOf(v, c) == Some(i) && v.sessions[i].conn == Some(c)
    ensures Enabled(v.port, AppClose(c), ORDERLY)
    ensures DoProcess(v)
         == Onward(v, Apply(v.port, AppClose(c), ORDERLY), v.sessions[i := Session(None, [])], v.pool + [i])
  {
    hide Enabled, Apply;
  }

  lemma FoundSession(v: Server, c: ConnId) returns (i: SessionId)
    requires ServerInv(v) && v.draining && v.at < |v.list| && Ready(v)
    requires v.list[v.at] == Command.Told(OnDisconnect(c))
    ensures c < |v.port.conns| && ClientOf(v, c) == Some(i) && i < |v.sessions| && v.sessions[i].conn == Some(c)
  {
    hide ServerInv, Scan, Heard;
    MayHandle(v);
    i := ClientOf(v, c).value;
  }

  lemma CarryDisconnect(v: Server, c: ConnId)
    requires ServerInv(v) && Carried(v) && v.draining && v.at < |v.list| && Ready(v)
    requires v.list[v.at] == Command.Told(OnDisconnect(c)) && MayProcess(v, v.list[v.at])
    ensures Carried(DoProcess(v))
  {
    var b, v' := BookOf(v.origin, v.acts), DoProcess(v);
    var cmd := v.list[v.at];
    hide ServerInv, BookOf, Asked, Queued, Enabled, Apply, DoProcess, MayProcess, Noted, Asks, Off, ClientOf, TiedTo;
    var i := FoundSession(v, c);
    ClosingIs(v, c, i);
    OnlySession(v, c, i);
    TieFound(b, v.pool, v.sessions, c, i);
    ReadyOff(b, v);
    ClosedKept(b, v, c, i);
    CloseFacts(v.port, c);
    ClosedOff(b, v.port, v'.port, c, i);
    hide Ended;
    OffEnded(Noted(b, cmd), v'.port);
    NoSend(b, cmd, Commander(v.port), v.port.past.sent);
    KeepAct(v, v', Act(cmd, true));
  }

  // ---------------------------------------------------------------- commands of the application

  /** AsyncSend has been entered by thread t: what it leaves of the connections. */
  lemma SendFacts(v: Server, c: ConnId, packet: Packet)
    requires Sendable(packet) && MaySend(v, c, packet)
    ensures var s' := Apply(DoAppPop(v.port), SendStep(v, c, packet), ORDERLY);
      && s'.conns == v.port.conns && s'.workers == v.port.workers && |s'.threads| == |v.port.threads|
      && s'.past.sent == v.port.past.sent + [Shipment(Commander(v.port), c, Encode(packet))]
      && Commander(v.port) < |v.port.threads|
  {
    hide Encode;
  }

  lemma SameOff(b: Book, s: State, s': State)
    requires Off(b, s) && s'.conns == s.conns
    ensures Off(b, s')
  {
  }

  /** What SendData makes of the server, in the queue or out of it. */
  lemma SendDataIs(v: Server, i: SessionId, packet: Packet)
    requires MayProcess(v, SendData(i, packet))
    ensures var w := DoSendData(v, i, packet);
      && w.pool == v.pool && w.sessions == v.sessions && w.origin == v.origin && w.acts == v.acts && w.done == v.done
      && w.list == v.list && w.at == v.at
      && (if i < |v.sessions| && !SendFaults(v, i, packet) then
            var c := v.sessions[i].conn.value;
            MaySend(v, c, packet) && w.port == Apply(DoAppPop(v.port), SendStep(v, c, packet), ORDERLY)
          else w.port == v.port)
  {
    hide Enabled, Apply, DoAppPop, Encode;
  }

  lemma AsksIt(b: Book, v: Server, i: SessionId, packet: Packet, t: nat)
    requires Kept(b, v.pool, v.sessions)
    ensures Noted(b, SendData(i, packet)) == b
    ensures Asks(b, SendData(i, packet), t) ==
      if i < |v.sessions| && !SendFaults(v, i, packet) then [Shipment(t, v.sessions[i].conn.value,
          Encode(packet))] else []
  {
    hide Encode;
  }

  /** SendData asks AsyncSend for exactly what the replay says, and disconnects nobody. */
  lemma SendCarried(v: Server, i: SessionId, packet: Packet)
    requires Carried(v) && Ready(v) && MayProcess(v, SendData(i, packet))
    ensures var b, w := BookOf(v.origin, v.acts), DoSendData(v, i, packet);
      && Kept(Noted(b, SendData(i, packet)), w.pool, w.sessions) && Ended(Noted(b, SendData(i, packet)), w.port)
      && w.port.past.sent == v.port.past.sent + Asks(b, SendData(i, packet), Commander(v.port))
      && w.port.workers == v.port.workers
  {
    var b, w := BookOf(v.origin, v.acts), DoSendData(v, i, packet);
    hide BookOf, Asked, Queued, DoSendData, MayProcess, MaySend, Kept, Noted, Asks, Off, Apply, DoAppPop, SendStep,
        Encode;
    SendDataIs(v, i, packet);
    AsksIt(b, v, i, packet, Commander(v.port));
    ReadyOff(b, v);
    if i < |v.sessions| && !SendFaults(v, i, packet) {
      SendFacts(v, v.sessions[i].conn.value, packet);
      SameOff(b, v.port, w.port);
      hide Ended;
      OffEnded(b, w.port);
    } else {
      assert v.port.past.sent + [] == v.port.past.sent;
    }
  }

  lemma CarrySendData(v: Server)
    requires Carried(v) && v.at < |v.list| && Ready(v) && v.list[v.at].SendData? && MayProcess(v, v.list[v.at])
    ensures Carried(DoProcess(v))
  {
    var SendData(i, packet) := v.list[v.at];
    hide BookOf, Asked, Queued, DoSendData, MayProcess, Kept, Noted, Asks, Ended;
    SendDataIs(v, i, packet);
    SendCarried(v, i, packet);
    KeepAct(v, DoProcess(v), Act(v.list[v.at], true));
  }

  lemma CarryReply(v: Server, i: SessionId, packet: Packet)
    requires Carried(v) && Ready(v) && MayProcess(v, SendData(i, packet))
    ensures Carried(DoReply(v, i, packet))
  {
    hide BookOf, Asked, Queued, DoSendData, MayProcess, Kept, Noted, Asks, Ended;
    SendDataIs(v, i, packet);
    SendCarried(v, i, packet);
    assert v.done + [] == v.done;
    KeepAct(v, DoReply(v, i, packet), Act(SendData(i, packet), false));
  }

  lemma LeaveFacts(s: State, t: nat, c: ConnId)
    requires Enabled(s, AppDisconnect(t, c), ORDERLY)
    ensures var s' := Apply(s, AppDisconnect(t, c), ORDERLY);
      && s'.conns == s.conns && s'.workers == s.workers && s'.past.sent == s.past.sent
      && t < |s.threads| && s'.threads == s.threads[t := DsCas(c, ToIdle)]
  {
    hide CausesOf;
  }

  lemma LeavingKept(b: Book, v: Server, i: SessionId)
    requires Kept(b, v.pool, v.sessions)
    ensures Kept(Noted(b, Disconnect(i)), v.pool, v.sessions)
  {
  }

  lemma LeavingEnded(b: Book, s: State, s': State, i: SessionId, c: ConnId)
    requires Off(b, s) && Commander(s) < |s.threads| && s'.conns == s.conns && s'.workers == s.workers
    requires s'.threads == s.threads[Commander(s) := DsCas(c, ToIdle)] && c < |s.conns| && s.conns[c].live
    requires i < |b.ties| && b.ties[i].Some? && b.ties[i].value.c == c
    ensures Ended(Noted(b, Disconnect(i)), s')
  {
  }

  lemma CarryLeave(v: Server, i: SessionId)
    requires ServerInv(v) && Carried(v) && v.draining && v.at < |v.list| && Ready(v) && v.list[v.at] == Disconnect(i)
    requires MayProcess(v, v.list[v.at]) && i < |v.sessions| && v.sessions[i].conn.Some?
    ensures Carried(DoProcess(v))
  {
    var b, v' := BookOf(v.origin, v.acts), DoProcess(v);
    var cmd, c := v.list[v.at], v.sessions[i].conn.value;
    hide ServerInv, BookOf, Asked, Queued, Enabled, Apply, Off, Noted, Asks, TiedTo;
    Holding(v, i);
    LeaveFacts(v.port, Commander(v.port), c);
    ReadyOff(b, v);
    LeavingKept(b, v, i);
    LeavingEnded(b, v.port, v'.port, i, c);
    NoSend(b, cmd, Commander(v.port), v.port.past.sent);
    hide Kept, Ended, DoProcess;
    LeaveIs(v, i);
    KeepAct(v, v', Act(cmd, true));
  }

  lemma LeaveIs(v: Server, i: SessionId)
    requires v.at < |v.list| && v.list[v.at] == Disconnect(i) && MayProcess(v, v.list[v.at])
    ensures var v' := DoProcess(v);
      && v'.pool == v.pool && v'.origin == v.origin && v'.acts == v.acts + [Act(v.list[v.at], true)]
      && v'.done == v.done + [v.list[v.at]]
      && (if i < |v.sessions| && v.sessions[i].conn.Some? then
            && Enabled(v.port, AppDisconnect(Commander(v.port), v.sessions[i].conn.value), ORDERLY)
            && v'.port == Apply(v.port, AppDisconnect(Commander(v.port), v.sessions[i].conn.value), ORDERLY)
            && v'.sessions == v.sessions
          else v'.port == v.port && SameConns(v.sessions, v'.sessions))
  {
    hide Enabled, Apply;
  }

  lemma UntiedSame(b: Book, v: Server, i: SessionId)
    requires Kept(b, v.pool, v.sessions) && (i < |v.sessions| ==> v.sessions[i].conn.None?)
    ensures Noted(b, Disconnect(i)) == b
  {
  }

  lemma CarryReset(v: Server, i: SessionId)
    requires Carried(v) && v.at < |v.list| && v.list[v.at] == Disconnect(i) && MayProcess(v, v.list[v.at])
    requires i < |v.sessions| ==> v.sessions[i].conn.None?
    ensures Carried(DoProcess(v))
  {
    var b, v' := BookOf(v.origin, v.acts), DoProcess(v);
    var cmd := v.list[v.at];
    hide BookOf, Asked, Queued, DoProcess, MayProcess, Ended, Kept, Noted, Asks, SameConns;
    LeaveIs(v, i);
    UntiedSame(b, v, i);
    KeptSame(b, v.pool, v.sessions, v'.sessions);
    NoSend(b, cmd, Commander(v.port), v.port.past.sent);
    KeepAct(v, v', Act(cmd, true));
  }

  lemma CarryProcess(v: Server)
    requires ServerInv(v) && Carried(v) && v.draining && v.at < |v.list| && Ready(v) && MayProcess(v, v.list[v.at])
    ensures Carried(DoProcess(v))
  {
    hide ServerInv, MayProcess, DoProcess, Carried;
    match v.list[v.at]
    case Told(OnConnection(c)) => CarryConnect(v, c);
    case Told(OnData(c, data)) => CarryData(v, c, data);
    case Told(OnDisconnect(c)) => CarryDisconnect(v, c);
    case SendData(_, _) => CarrySendData(v);
    case Disconnect(i) => if i < |v.sessions| && v.sessions[i].conn.Some? { CarryLeave(v, i); } else { CarryReset(v,
        i); }
  }

  // ---------------------------------------------------------------- runs

  lemma CarrySame(v: Server, v': Server)
    requires Carried(v) && v'.acts == v.acts && v'.origin == v.origin && v'.done == v.done && v'.pool == v.pool
    requires v'.sessions == v.sessions && v'.port == v.port
    ensures Carried(v')
  {
    hide BookOf, Asked, Queued, Kept, Ended;
  }

  lemma CarryPort(v: Server, a: Step)
    requires ServerInv(v) && Carried(v) && Can(v, Port(a))
    ensures Carried(DoPort(v, a))
  {
    hide Inv, InOrder, Ledger, Calls, Served, BookOf, Asked, Queued, Kept, Ended, Gentle, Enabled, Apply, IsUpcall;
    StepGentle(v.port, a);
    GentleKeeps(BookOf(v.origin, v.acts), v.port, Apply(v.port, a, ORDERLY));
    GentleSent(v.port, Apply(v.port, a, ORDERLY));
  }

  lemma GentleSent(s: State, s': State)
    requires Gentle(s, s')
    ensures s'.past.sent == s.past.sent && s'.workers == s.workers
  {
  }

  lemma KeepCarried(v: Server, v': Server)
    requires ServerInv(v) && Carried(v) && ServerNext(v, v')
    ensures Carried(v')
  {
    hide ServerInv, Carried, MayProcess, DoProcess, DoReply, DoPort, Enabled, IsUpcall, Apply;
    if a: Step :| Can(v, Port(a)) && v' == DoPort(v, a) {
      CarryPort(v, a);
    } else if Can(v, Process) && MayProcess(v, v.list[v.at]) && v' == DoProcess(v) {
      CarryProcess(v);
    } else if i: SessionId, packet: Packet :|
      Can(v, Reply(i, packet)) && MayProcess(v, SendData(i, packet)) && v' == DoReply(v, i, packet) {
      CarryReply(v, i, packet);
    } else {
      CarrySame(v, v');
    }
  }

  lemma CarryStart(v: Server)
    requires Start(v)
    ensures Carried(v)
  {
  }

  lemma {:induction false} RunCarried(states: seq<Server>, n: nat)
    requires ServerRun(states) && n < |states|
    ensures Carried(states[n])
  {
    hide ServerInv, ServerNext, Start, Carried;
    if n == 0 {
      CarryStart(states[0]);
    } else {
      RunCarried(states, n - 1);
      ServerRunInv(states, n - 1);
      assert ServerNext(states[n - 1], states[n - 1 + 1]);
      KeepCarried(states[n - 1], states[n]);
    }
  }

  lemma CarriedReachable(v: Server)
    requires ServerReachable(v)
    ensures Carried(v)
  {
    hide Carried;
    var states :| ServerRun(states) && states[|states| - 1] == v;
    RunCarried(states, |states| - 1);
  }

  // ---------------------------------------------------------------- what holds throughout

  /**
   * In every reachable state AsyncSend has been called exactly for the packets of the SendData commands carried out
   * whose session had a connection at the time, in their order, each with the encoded packet and on that connection.
   */
  lemma PacketsSent(v: Server)
    requires ServerReachable(v)
    ensures v.port.past.sent == Asked(v.origin, v.acts, Commander(v.port))
    ensures v.done == Queued(v.acts)
  {
    CarriedReachable(v);
    hide BookOf, Asked, Queued, Kept, Ended;
  }

  /** The replay tells the pool and every session's connection at that moment. */
  lemma BookTrue(v: Server)
    requires ServerReachable(v)
    ensures Kept(BookOf(v.origin, v.acts), v.pool, v.sessions)
  {
    CarriedReachable(v);
    hide BookOf, Asked, Queued, Kept, Ended;
  }

  /** Once the command thread is between calls, a connection whose session was asked to disconnect is not connected. */
  lemma Disconnected(v: Server, i: SessionId)
    requires ServerReachable(v) && Ready(v)
    ensures var b := BookOf(v.origin, v.acts);
      i < |b.ties| && b.ties[i].Some? && b.ties[i].value.ended ==>
        b.ties[i].value.c < |v.port.conns| && !v.port.conns[b.ties[i].value.c].connected
  {
    CarriedReachable(v);
    hide BookOf, Asked, Queued, Kept, ServerReachable;
  }

  lemma {:induction false} AllMine(sent: seq<Shipment>, t: nat)
    requires forall u: nat | u != t :: Mine(sent, u) == []
    ensures Mine(sent, t) == sent
    decreases |sent|
  {
    if sent != [] {
      var before, last := sent[..|sent| - 1], sent[|sent| - 1];
      assert last.t == t by { assert Mine(sent, last.t) == Mine(before, last.t) + [last]; }
      forall u: nat | u != t ensures Mine(before, u) == [] { assert Mine(sent, u) == Mine(before, u) + []; }
      AllMine(before, t);
      assert before + [last] == sent;
    }
  }

  lemma {:induction false} NobodyElses(origin: Book, acts: seq<Act>, t: nat, u: nat)
    requires u != t
    ensures Mine(Asked(origin, acts, t), u) == []
    decreases |acts|
  {
    if acts != [] {
      var before, act := acts[..|acts| - 1], acts[|acts| - 1];
      NobodyElses(origin, before, t, u);
      var asks := Asks(BookOf(origin, before), act.cmd, t);
      hide BookOf, Asks;
      AsksOne(BookOf(origin, before), act.cmd, t);
      if asks == [] {
        assert Asked(origin, before, t) + asks == Asked(origin, before, t);
      } else {
        MineMore(Asked(origin, before, t), asks[0], u);
        assert asks == [asks[0]];
      }
    }
  }

  lemma AsksOne(b: Book, cmd: Command, t: nat)
    ensures var asks := Asks(b, cmd, t); asks == [] || (|asks| == 1 && asks[0].t == t)
  {
    hide Encode;
  }

  /**
   * And once the command thread is between calls, each of those packets has come to its end, in the same order: WSASend
   * has taken it with exactly those bytes, or there were more references than the limit, or WSASend has failed.
   */
  lemma PacketsAnswered(v: Server)
    requires ServerReachable(v) && Ready(v)
    ensures Settled(v.port.past.outcomes) == Asked(v.origin, v.acts, Commander(v.port))
    ensures forall k | 0 <= k < |v.port.past.outcomes| && v.port.past.outcomes[k].fate.Stopped? ::
      v.port.past.outcomes[k].fate.count > v.port.past.outcomes[k].fate.limit
  {
    hide ServerReachable, Reachable, Mine, Settled, Asked;
    PacketsSent(v);
    PortReachable(v);
    var t, sent, settled := Commander(v.port), v.port.past.sent, Settled(v.port.past.outcomes);
    forall u: nat | u != t ensures Mine(sent, u) == [] && Mine(settled, u) == [] {
      NobodyElses(v.origin, v.acts, t, u);
      SendsAnswered(v.port, u);
    }
    AllMine(sent, t);
    AllMine(settled, t);
    SendsAnswered(v.port, t);
    NothingInHand(v.port, t);
  }

  lemma NothingInHand(s: State, t: nat)
    requires t < |s.threads| && s.threads[t].Idle?
    ensures InHand(s, t) == []
  {
  }
}
