/**
 * The command queue joins the network layer to the sessions: nothing is lost, reordered or delivered to the
 * wrong session, in any interleaving.
 */
module ServerSafety {
  import opened Bytes
  import opened CompletionPort
  import opened PortInvariant
  import opened PortSafety
  import opened Server
  import opened ServerFrames

  // ---------------------------------------------------------------- hearing a list of upcalls

  /** How often the list opens a conversation about c. */
  function Opens(list: seq<Event>, c: ConnId): (n: nat) {
    if list == [] then 0 else (if list[0] == OnConnection(c) then 1 else 0) + Opens(list[1..], c)
  }

  function Hears(w: Talk, list: seq<Event>, c: ConnId): (r: Talk)
    decreases |list|
  {
    if list == [] then w else Hears(if list[0].c == c then Hear(w, list[0]) else w, list[1..], c)
  }

  /** The data in the list for c. */
  function DataOf(list: seq<Event>, c: ConnId): (data: seq<Chunk>) {
    if list == [] then []
    else (if list[0].OnData? && list[0].c == c then [list[0].data] else []) + DataOf(list[1..], c)
  }

  lemma {:induction false} OpensAdd(list: seq<Event>, e: Event, c: ConnId)
    ensures Opens(list + [e], c) == Opens(list, c) + if e == OnConnection(c) then 1 else 0
    decreases |list|
  {
    if list == [] {
      assert list + [e] == [e];
    } else {
      assert (list + [e])[1..] == list[1..] + [e];
      OpensAdd(list[1..], e, c);
    }
  }

  lemma {:induction false} DataAdd(list: seq<Event>, e: Event, c: ConnId)
    ensures DataOf(list + [e], c) == DataOf(list, c) + if e.OnData? && e.c == c then [e.data] else []
    decreases |list|
  {
    if list == [] {
      assert list + [e] == [e];
    } else {
      assert (list + [e])[1..] == list[1..] + [e];
      DataAdd(list[1..], e, c);
    }
  }

  /** Hearing everything is hearing the rest after the first part. */
  lemma {:induction false} ScanSplit(done: seq<Event>, list: seq<Event>, c: ConnId)
    ensures Scan(done + list, c) == Hears(Scan(done, c), list, c)
    decreases |list|
  {
    hide Scan, Hear;
    if list == [] {
      assert done + list == done;
    } else {
      assert (done + [list[0]]) + list[1..] == done + list;
      ScanSplit(done + [list[0]], list[1..], c);
      ScanAdd(done, list[0], c);
    }
  }

  lemma {:induction false} BrokenStays(list: seq<Event>, c: ConnId)
    ensures Hears(Broken, list, c) == Broken
    decreases |list|
  {
    if list != [] { BrokenStays(list[1..], c); }
  }

  /** A conversation that is over and not opened again stays over. */
  lemma {:induction false} ShutStays(list: seq<Event>, c: ConnId)
    requires Opens(list, c) == 0 && !Hears(Shut, list, c).Broken?
    ensures Hears(Shut, list, c) == Shut && DataOf(list, c) == []
    decreases |list|
  {
    if list != [] {
      if list[0].c == c {
        BrokenStays(list[1..], c);
        assert false;
      }
      ShutStays(list[1..], c);
    }
  }

  // ---------------------------------------------------------------- the upcalls among the commands

  /** The upcalls that a list of commands reports. */
  function Heard(list: seq<Command>): (events: seq<Event>) {
    if list == [] then []
    else (if list[0].Told? then [list[0].e] else []) + Heard(list[1..])
  }

  lemma HeardFront(cmd: Command, list: seq<Command>)
    ensures Heard([cmd] + list) == (if cmd.Told? then [cmd.e] else []) + Heard(list)
  {
    assert ([cmd] + list)[1..] == list;
  }

  lemma {:induction false} HeardBoth(a: seq<Command>, b: seq<Command>)
    ensures Heard(a + b) == Heard(a) + Heard(b)
    decreases |a|
  {
    if a == [] {
      assert a + b == b;
    } else {
      hide Heard;
      assert a == [a[0]] + a[1..] && a + b == [a[0]] + (a[1..] + b);
      HeardFront(a[0], a[1..]);
      HeardFront(a[0], a[1..] + b);
      HeardBoth(a[1..], b);
    }
  }

  lemma HeardOne(cmd: Command)
    ensures Heard([cmd]) == if cmd.Told? then [cmd.e] else []
  {
  }

  lemma HeardAdd(list: seq<Command>, cmd: Command)
    ensures Heard(list + [cmd]) == Heard(list) + if cmd.Told? then [cmd.e] else []
  {
    hide Heard;
    HeardBoth(list, [cmd]);
    HeardOne(cmd);
  }

  // ---------------------------------------------------------------- the invariant

  /** A connection's face f, what has been processed of it (w) and what waits agree, and so do the sessions. */
  ghost predicate Agree(f: Face, w: Talk, waiting: seq<Event>, c: ConnId, sessions: seq<Session>) {
    && f.bound == w.Open?
    && (if f.bound then 1 else 0) + Opens(waiting, c) == (if f.live then 1 else 0)
    && (f.bound ==> f.client.Some? && f.client.value < |sessions|
                    && sessions[f.client.value] == Session(Some(c), w.given))
    && (f.live ==> (if w.Open? then w.given else []) + DataOf(waiting, c) == f.given)
  }

  ghost predicate Served(v: Server, c: ConnId) {
    Agree(FaceOf(v.port, c), Scan(Heard(v.done), c), Heard(Waiting(v)), c, v.sessions)
  }

  /** A session is in the pool, once, or bound to the connection that names it. */
  ghost predicate Owned(v: Server, i: SessionId)
    requires i < |v.sessions|
  {
    var conn := v.sessions[i].conn;
    && multiset(v.pool)[i] == (if conn.None? then 1 else 0)
    && (conn.None? ==> v.sessions[i].fed == [])
    && (conn.Some? ==> FaceOf(v.port, conn.value).bound && FaceOf(v.port, conn.value).client == Some(i))
  }

  ghost predicate Ledger(v: Server) {
    && (forall i | i in v.pool :: i < |v.sessions|)
    && (forall i: SessionId | i < |v.sessions| :: Owned(v, i))
  }

  ghost predicate InOrder(v: Server) {
    && (v.draining ==> v.at <= |v.list|)
    && v.done + Waiting(v) == v.pushed
    && Heard(v.pushed) == v.port.log
  }

  /** Only the command thread is ever inside AsyncSend, and only on a connection that a session has taken. */
  ghost predicate OneSender(s: State) {
    && Commander(s) < |s.threads|
    && forall t | 0 <= t < |s.threads| && InSend(s.threads[t]) ::
        t == Commander(s) && FaceOf(s, s.threads[t].c).bound
  }

  /** A session's connection has the session's limit, and no send has passed a larger one. */
  ghost predicate Limited(s: State, c: ConnId) {
    && (FaceOf(s, c).bound ==> TermsOf(s, c).limit == SESSION_REF_MAX)
    && TermsOf(s, c).checked <= SESSION_REF_MAX
  }

  ghost predicate Calls(s: State) {
    OneSender(s) && forall c: ConnId :: Limited(s, c)
  }

  ghost predicate ServerInv(v: Server) {
    Inv(v.port) && InOrder(v) && Ledger(v) && Calls(v.port) && forall c: ConnId :: Served(v, c)
  }

  lemma ServerInvStart(v: Server)
    requires Start(v)
    ensures ServerInv(v)
  {
    InvInit(v.port);
    hide Inv;
    assert Waiting(v) == [];
    assert OneSender(v.port) && forall c: ConnId :: Limited(v.port, c);
  }

  // ---------------------------------------------------------------- who sends

  lemma CallsSilently(s: State, s': State, t: nat)
    requires Calls(s) && Silently(s, s', t)
    ensures Calls(s')
  {
    hide FaceOf, TermsOf;
    forall c: ConnId ensures Limited(s', c) { assert Limited(s, c); }
  }

  lemma CallsStill(s: State, s': State)
    requires Calls(s) && Silent(s, s') && SameTerms(s, s') && s'.threads == s.threads && s'.workers == s.workers
    ensures Calls(s')
  {
    hide FaceOf, TermsOf;
    forall c: ConnId ensures Limited(s', c) { assert Limited(s, c); }
  }

  lemma CallsCheck(s: State, t: nat, ok: bool)
    requires Calls(s) && CanGo(s, t) && s.threads[t].SdTest?
    ensures Calls(Advance(s, t, ok))
  {
    hide PcIds, Advance, FaceOf, TermsOf;
    CheckSilent(s, t, ok);
    var s', c := Advance(s, t, ok), s.threads[t].c;
    forall d: ConnId ensures Limited(s', d) { assert Limited(s, d); }
  }

  lemma CallsSays(s: State, s': State, t: nat, e: Event)
    requires Calls(s) && Says(s, s', e) && SameTerms(s, s') && Steps(s, s', t)
    ensures Calls(s')
  {
    hide FaceOf, TermsOf;
    forall c: ConnId ensures Limited(s', c) { assert Limited(s, c); }
  }

  lemma CallsSend(s: State, a: Step)
    requires Calls(s) && Enabled(s, a, ORDERLY) && a.AppSend? && a.t == Commander(s) && FaceOf(s, a.c).bound
    ensures Calls(Apply(s, a, ORDERLY))
  {
    hide Enabled, Apply, FaceOf, TermsOf;
    SendCallSilent(s, a);
    var s' := Apply(s, a, ORDERLY);
    forall c: ConnId ensures Limited(s', c) { assert Limited(s, c); }
  }

  lemma CallsBind(s: State, c: ConnId, i: SessionId)
    requires Calls(s) && Enabled(s, AppBind(c, i, SESSION_REF_MAX), ORDERLY)
    ensures Calls(Apply(s, AppBind(c, i, SESSION_REF_MAX), ORDERLY))
  {
    hide Enabled, Apply, FaceOf, TermsOf;
    BindFace(s, c, i);
    var s' := Apply(s, AppBind(c, i, SESSION_REF_MAX), ORDERLY);
    forall d: ConnId ensures Limited(s', d) { assert Limited(s, d); }
  }

  lemma CallsClose(s: State, c: ConnId)
    requires Calls(s) && Enabled(s, AppClose(c), ORDERLY) && s.threads[Commander(s)].Idle?
    ensures Calls(Apply(s, AppClose(c), ORDERLY))
  {
    hide Enabled, Apply, FaceOf, TermsOf;
    CloseFace(s, c);
    var s' := Apply(s, AppClose(c), ORDERLY);
    forall d: ConnId ensures Limited(s', d) { assert Limited(s, d); }
  }

  /** While the command thread is between calls nobody is inside AsyncSend: what Close needs. */
  lemma Quiet(s: State, c: ConnId)
    requires OneSender(s) && s.threads[Commander(s)].Idle?
    ensures forall t | 0 <= t < |s.threads| :: !Sending(s.threads[t], c)
  {
    hide FaceOf;
  }

  lemma KeepCallsGo(s: State, t: nat, ok: bool)
    requires Inv(s) && Calls(s) && CanGo(s, t) && !s.threads[t].Idle?
    ensures Calls(Advance(s, t, ok))
  {
    hide Inv, Calls, Advance, PcIds, IsUpcall, Silently, Says, Steps, SameTerms;
    if IsUpcall(s, Go(t, ok)) {
      var e := GoSays(s, t, ok);
      CallsSays(s, Advance(s, t, ok), t, e);
    } else if s.threads[t].SdTest? {
      CallsCheck(s, t, ok);
    } else {
      GoSilent(s, t, ok);
      CallsSilently(s, Advance(s, t, ok), t);
    }
  }

  lemma KeepCalls(s: State, a: Step)
    requires Inv(s) && Calls(s) && Enabled(s, a, ORDERLY) && !Reserved(a)
    ensures Calls(Apply(s, a, ORDERLY))
  {
    if a.Go? {
      assert CanGo(s, a.t) && !s.threads[a.t].Idle?;
      hide Inv, Calls, Enabled, Advance, CanGo;
      KeepCallsGo(s, a.t, a.ok);
    } else {
      hide Inv, Calls, Enabled, Apply, Silently, Silent, SameTerms, FaceOf;
      KeepCallsElse(s, a);
    }
  }

  lemma KeepCallsElse(s: State, a: Step)
    requires Calls(s) && Enabled(s, a, ORDERLY) && !Reserved(a) && !a.Go?
    ensures Calls(Apply(s, a, ORDERLY))
  {
    hide Calls, Enabled, Apply, Silently, Silent, SameTerms, FaceOf;
    var s' := Apply(s, a, ORDERLY);
    if a.AppPop? || a.AppPush? || a.AppStop? {
      AppSilent(s, a);
      CallsStill(s, s');
    } else if a.AppDisconnect? || a.AppStart? {
      CallSilent(s, a);
      CallsSilently(s, s', a.t);
    } else if a.TakeAccept? || a.TakeIo? || a.TakeDisconnect? {
      TakenSilent(s, a);
      CallsSilently(s, s', a.t);
    } else {
      KernelSilent(s, a);
      CallsStill(s, s');
    }
  }

  // ---------------------------------------------------------------- steps below the server keep the invariant

  lemma OwnedAs(v: Server, v': Server)
    requires Ledger(v) && v'.pool == v.pool && v'.sessions == v.sessions
    requires forall c: ConnId :: FaceOf(v'.port, c).bound == FaceOf(v.port, c).bound
    requires forall c: ConnId :: FaceOf(v'.port, c).client == FaceOf(v.port, c).client
    ensures Ledger(v')
  {
    hide FaceOf;
    forall i: SessionId | i < |v'.sessions| ensures Owned(v', i) { assert Owned(v, i); }
  }

  /** Nothing the sessions, the queue and the connections agree on has changed. */
  lemma KeepAgreed(v: Server, v': Server)
    requires InOrder(v) && Ledger(v) && forall c: ConnId :: Served(v, c)
    requires v' == v.(port := v'.port, acts := v'.acts) && Silent(v.port, v'.port)
    ensures InOrder(v') && Ledger(v') && forall c: ConnId :: Served(v', c)
  {
    hide Scan, Agree, FaceOf, Heard;
    forall c: ConnId ensures Served(v', c) { assert Served(v, c); }
    OwnedAs(v, v');
  }

  lemma KeepSilent(v: Server, a: Step)
    requires ServerInv(v) && Can(v, Port(a)) && !IsUpcall(v.port, a)
    ensures ServerInv(DoPort(v, a))
  {
    hide Inv, Enabled, Apply, FaceOf, IsUpcall, Calls, InOrder, Ledger, Served;
    KeepApply(v.port, a);
    StepSilent(v.port, a);
    KeepCalls(v.port, a);
    KeepAgreed(v, DoPort(v, a));
  }

  lemma AgreeMore(f: Face, w: Talk, waiting: seq<Event>, e: Event, c: ConnId, sessions: seq<Session>)
    requires Agree(f, w, waiting, c, sessions)
    requires e == OnConnection(c) ==> !f.live
    requires !f.live ==> DataOf(waiting, c) == []
    ensures Agree(if c == e.c then ServerFrames.Told(f, e) else f, w, waiting + [e], c, sessions)
  {
    OpensAdd(waiting, e, c);
    DataAdd(waiting, e, c);
    hide Opens, DataOf;
    var given := if w.Open? then w.given else [];
    if e.OnData? {
      assert given + (DataOf(waiting, c) + [e.data]) == (given + DataOf(waiting, c)) + [e.data];
    }
  }

  lemma LogTalk(s: State, c: ConnId)
    requires Inv(s)
    ensures Scan(s.log, c) == TalkOf(s, c)
  {
    hide Ids, Conns, AcceptOk, Contexts, Scan, TalkOf;
    assert Talks(s);
  }

  /** What has been processed, then what waits, is what the network layer has said. */
  lemma LogSplit(v: Server)
    requires InOrder(v)
    ensures Heard(v.done) + Heard(Waiting(v)) == v.port.log
  {
    hide Heard, Waiting;
    HeardBoth(v.done, Waiting(v));
  }

  /** What waits for a connection that is not live: nothing. */
  lemma NothingWaits(v: Server, c: ConnId)
    requires ServerInv(v) && !FaceOf(v.port, c).live
    ensures DataOf(Heard(Waiting(v)), c) == []
  {
    hide Inv, Scan, Opens, DataOf, Ledger, Calls, Heard, Waiting, TalkOf;
    assert Served(v, c);
    LogSplit(v);
    LogTalk(v.port, c);
    Unbroken(v.port, c);
    ScanSplit(Heard(v.done), Heard(Waiting(v)), c);
    if Scan(Heard(v.done), c).Broken? {
      BrokenStays(Heard(Waiting(v)), c);
    } else {
      ShutStays(Heard(Waiting(v)), c);
    }
  }

  lemma Unbroken(s: State, c: ConnId)
    ensures !TalkOf(s, c).Broken?
  {
  }

  /** A command is pushed while the list is not being walked. */
  lemma PushedInOrder(v: Server, cmd: Command)
    requires InOrder(v) && !v.draining
    ensures var v' := Pushed(v, cmd);
      && Waiting(v') == v.list + [cmd] && v'.done + Waiting(v') == v'.pushed
      && Heard(v'.pushed) == v.port.log + (if cmd.Told? then [cmd.e] else [])
      && Heard(Waiting(v')) == Heard(Waiting(v)) + (if cmd.Told? then [cmd.e] else [])
  {
    hide Heard;
    assert v.done + (v.list + [cmd]) == (v.done + v.list) + [cmd];
    HeardAdd(v.pushed, cmd);
    HeardAdd(v.list, cmd);
  }

  lemma SaysAgreed(v: Server, v': Server, e: Event)
    requires ServerInv(v) && !v.draining && Says(v.port, v'.port, e)
    requires v' == Pushed(v.(port := v'.port), Command.Told(e))
    ensures InOrder(v') && Ledger(v') && forall c: ConnId :: Served(v', c)
  {
    hide Inv, Calls, Scan, Agree, FaceOf, Heard, Opens, DataOf;
    PushedInOrder(v, Command.Told(e));
    forall c: ConnId ensures Served(v', c) {
      assert Served(v, c);
      if !FaceOf(v.port, c).live { NothingWaits(v, c); }
      AgreeMore(FaceOf(v.port, c), Scan(Heard(v.done), c), Heard(v.list), e, c, v.sessions);
    }
    OwnedAs(v, v');
  }

  lemma KeepSays(v: Server, a: Step)
    requires ServerInv(v) && Can(v, Port(a)) && IsUpcall(v.port, a)
    ensures ServerInv(DoPort(v, a))
  {
    assert a.Go? && CanGo(v.port, a.t);
    hide Inv, Enabled, Advance, FaceOf, IsUpcall, Calls, InOrder, Ledger, Served, CanGo;
    KeepApply(v.port, a);
    var e := GoSays(v.port, a.t, a.ok);
    hide SameTerms, Steps;
    CallsSays(v.port, Apply(v.port, a, ORDERLY), a.t, e);
    assert Apply(v.port, a, ORDERLY).log[|v.port.log|] == e;
    SaysAgreed(v, DoPort(v, a), e);
  }

  // ---------------------------------------------------------------- steps of the queue keep it

  lemma KeepPush(v: Server, cmd: Command)
    requires ServerInv(v) && Can(v, Push(cmd))
    ensures ServerInv(Pushed(v, cmd))
  {
    hide Inv, Scan, Agree, FaceOf, Calls, Heard;
    var v' := Pushed(v, cmd);
    PushedInOrder(v, cmd);
    assert Heard(Waiting(v')) == Heard(Waiting(v));
    forall c: ConnId ensures Served(v', c) { assert Served(v, c); }
    OwnedAs(v, v');
  }

  lemma KeepLock(v: Server)
    requires ServerInv(v) && Can(v, Lock)
    ensures ServerInv(v.(draining := true, at := 0))
  {
    hide Inv, Scan, Agree, FaceOf, Calls, Heard;
    var v' := v.(draining := true, at := 0);
    assert v.list[0..] == v.list;
    assert Waiting(v') == Waiting(v);
    forall c: ConnId ensures Served(v', c) { assert Served(v, c); }
    OwnedAs(v, v');
  }

  lemma KeepUnlock(v: Server)
    requires ServerInv(v) && Can(v, Unlock)
    ensures ServerInv(v.(list := [], draining := false, at := 0))
  {
    hide Inv, Scan, Agree, FaceOf, Calls, Heard;
    var v' := v.(list := [], draining := false, at := 0);
    assert Waiting(v) == [] == Waiting(v');
    forall c: ConnId ensures Served(v', c) { assert Served(v, c); }
    OwnedAs(v, v');
  }
}
