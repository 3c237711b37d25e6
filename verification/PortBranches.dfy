/** Every step of a thread inside an accept, receive, send or disconnect branch keeps the invariant. */
module PortBranches {
  import opened Bytes
  import opened CompletionPort
  import opened PortLoad
  import opened PortInvariant

  // ---------------------------------------------------------------- OPERATION_ACCEPT

  lemma AcUpOk(cn: Conn, c: ConnId, r: Load, f: nat, g: bool)
    requires Sane(r) && ConnOk(cn, Plus(OwnLoad(AcUp(c)), r), f, g)
    ensures ConnOk(cn.(connected := true), Plus(OwnLoad(AcCall(c)), r), f, g)
  {
    hide Payloads;
  }

  lemma KeepAcUp(s: State, t: nat)
    requires Inv(s) && t < |s.threads| && s.threads[t].AcUp? && s.threads[t].c < |s.conns|
    ensures Inv(GoAcUp(s, t, s.threads[t].c))
  {
    hide Inv, ConnOk, Plus, Rest, Sane, Scan, OwnLoad, ThenLoad, DebtLoad;
    var q := s.threads[t];
    var c := q.c;
    var s', p := GoAcUp(s, t, q.c), AcCall(c);
    assert Relay(q, p, c);
    hide Relay, PcRole, PcKind, WorksOn;
    Hold(s, t, p, c);
    AcUpOk(s.conns[c], c, Rest(s, t, c), multiset(s.free)[c], IsTarget(s, c));
    KeepMove(s, s', t, p, c);
  }

  lemma AcWelcomeOk(cn: Conn, c: ConnId, r: Load, f: nat, g: bool)
    requires Sane(r) && ConnOk(cn, Plus(OwnLoad(AcCall(c)), r), f, g)
    ensures !cn.live && cn.phase.Starting?
    ensures ConnOk(cn.(live := true, arrived := [], given := []), Plus(OwnLoad(AcCtx(c)), r), f, g)
  {
    NothingHeld(r);
    hide Payloads;
  }

  lemma AcRefuseOk(cn: Conn, c: ConnId, r: Load, f: nat, g: bool)
    requires Sane(r) && ConnOk(cn, Plus(OwnLoad(AcCall(c)), r), f, g)
    ensures !cn.live && cn.phase.Starting?
    ensures ConnOk(cn.(live := true, arrived := [], given := [], phase := Active),
        Plus(OwnLoad(DsCas(c, ToAccept)), r), f, g)
  {
    NothingHeld(r);
    hide Payloads;
  }

  /** Without a receive loop no payload is held. */
  lemma NothingHeld(r: Load)
    requires Sane(r)
    ensures r.duty == 0 ==> r.data == multiset{} && Payloads([], [], multiset{} + r.data)
  {
  }

  lemma KeepAcWelcome(s: State, t: nat, ok: bool)
    requires Inv(s) && t < |s.threads| && s.threads[t].AcCall? && s.threads[t].c < |s.conns|
    requires ok
    ensures Inv(GoAcCall(s, t, s.threads[t].c, ok))
  {
    hide Inv, ConnOk, Plus, Rest, Sane, Scan, OwnLoad, ThenLoad, DebtLoad;
    var q := s.threads[t];
    var c := q.c;
    var s', p := GoAcCall(s, t, q.c, ok), AcCtx(c);
    assert Relay(q, p, c);
    hide Relay, PcRole, PcKind, WorksOn;
    Hold(s, t, p, c);
    AcWelcomeOk(s.conns[c], c, Rest(s, t, c), multiset(s.free)[c], IsTarget(s, c));
    KeepSay(s, s', t, p, OnConnection(c));
  }

  lemma KeepAcRefuse(s: State, t: nat, ok: bool)
    requires Inv(s) && t < |s.threads| && s.threads[t].AcCall? && s.threads[t].c < |s.conns|
    requires !ok
    ensures Inv(GoAcCall(s, t, s.threads[t].c, ok))
  {
    hide Inv, ConnOk, Plus, Rest, Sane, Scan, OwnLoad, ThenLoad, DebtLoad;
    var q := s.threads[t];
    var c := q.c;
    var s', p := GoAcCall(s, t, q.c, ok), DsCas(c, ToAccept);
    assert Relay(q, p, c);
    hide Relay, PcRole, PcKind, WorksOn;
    Hold(s, t, p, c);
    AcRefuseOk(s.conns[c], c, Rest(s, t, c), multiset(s.free)[c], IsTarget(s, c));
    KeepSay(s, s', t, p, OnConnection(c));
  }

  lemma KeepAcCall(s: State, t: nat, ok: bool)
    requires Inv(s) && t < |s.threads| && s.threads[t].AcCall? && s.threads[t].c < |s.conns|
    ensures Inv(GoAcCall(s, t, s.threads[t].c, ok))
  {
    hide Inv;
    if ok { KeepAcWelcome(s, t, ok); } else { KeepAcRefuse(s, t, ok); }
  }

  lemma AcGiveUpOk(cn: Conn, c: ConnId, r: Load, f: nat, g: bool)
    requires Sane(r) && ConnOk(cn, Plus(OwnLoad(AcCtx(c)), r), f, g)
    ensures cn.live && cn.phase.Starting?
    ensures ConnOk(cn.(phase := Active), Plus(OwnLoad(DsCas(c, ToAccept)), r), f, g)
  {
    hide Payloads;
  }

  lemma KeepAcGiveUp(s: State, t: nat)
    requires Inv(s) && t < |s.threads| && s.threads[t].AcCtx? && s.threads[t].c < |s.conns|
    requires s.inPool == []
    ensures Inv(GoAcCtx(s, t, s.threads[t].c, false))
  {
    hide Inv, ConnOk, Plus, Rest, Sane, Scan, OwnLoad, ThenLoad, DebtLoad;
    var q := s.threads[t];
    var c := q.c;
    var s', p := GoAcCtx(s, t, q.c, false), DsCas(c, ToAccept);
    assert Relay(q, p, c);
    hide Relay, PcRole, PcKind, WorksOn;
    Hold(s, t, p, c);
    AcGiveUpOk(s.conns[c], c, Rest(s, t, c), multiset(s.free)[c], IsTarget(s, c));
    KeepMove(s, s', t, p, c);
  }

  lemma AcGotOk(cn: Conn, c: ConnId, x: Ctx, r: Load, f: nat, g: bool)
    requires Sane(r) && ConnOk(cn, Plus(OwnLoad(AcCtx(c)), r), f, g)
    ensures ConnOk(cn, Plus(OwnLoad(RvInc(c, x, AfterAccept)), r), f, g)
  {
    hide Payloads;
  }

  lemma CtxTaken(c: ConnId, x: Ctx)
    ensures PcRole(RvInc(c, x, AfterAccept)) == PcRole(AcCtx(c)).(ctx := multiset{x})
    ensures PcRole(AcCtx(c)).ctx == multiset{}
  {
  }

  lemma Joined(x: multiset<Ctx>, pools: multiset<Ctx>)
    ensures x + pools == multiset{} + pools + x
  {
  }

  lemma AcPooledCtx(s: State, t: nat, ok: bool)
    requires AcceptOk(s) && Contexts(s) && t < |s.threads| && s.threads[t].AcCtx?
    requires s.threads[t].c < |s.conns| && s.inPool != []
    ensures var s' := GoAcCtx(s, t, s.threads[t].c, ok); AcceptOk(s') && Contexts(s')
  {
    hide AcceptOk, AllCtx, Contexts, PcRole;
    PoolsInKind(s);
    var c, x := s.threads[t].c, s.inPool[0];
    var s' := GoAcCtx(s, t, c, ok);
    SplitFirst(s.inPool);
    assert x in s.inPool;
    CtxTaken(c, x);
    TakeFrom(multiset{x}, multiset(s.inPool), multiset(s'.inPool), multiset(s.outPool), s.held);
    assert AllCtx(s.inCount, s.outCount) + multiset{} == AllCtx(s.inCount, s.outCount);
    KeepPlaces(s, s', t, RvInc(c, x, AfterAccept), multiset{});
  }

  lemma AcNewCtx(s: State, t: nat)
    requires AcceptOk(s) && Contexts(s) && t < |s.threads| && s.threads[t].AcCtx?
    requires s.threads[t].c < |s.conns| && s.inPool == []
    ensures var s' := GoAcCtx(s, t, s.threads[t].c, true); AcceptOk(s') && Contexts(s')
  {
    hide AcceptOk, AllCtx, Contexts, PcRole;
    PoolsInKind(s);
    var c, x := s.threads[t].c, In(s.inCount);
    var s' := GoAcCtx(s, t, c, true);
    CtxTaken(c, x);
    assert Pools(s') == Pools(s);
    hide Pools;
    Joined(multiset{x}, Pools(s));
    AllCtxIn(s.inCount, s.outCount);
    KeepPlaces(s, s', t, RvInc(c, x, AfterAccept), multiset{x});
  }

  lemma KeepAcTakeCtx(s: State, t: nat, ok: bool)
    requires Inv(s) && t < |s.threads| && s.threads[t].AcCtx? && s.threads[t].c < |s.conns|
    requires s.inPool != [] || ok
    ensures Inv(GoAcCtx(s, t, s.threads[t].c, ok))
  {
    hide ConnOk, Conns, Ids, AcceptOk, Contexts, Talks, Plus, Rest, Sane, Scan, PcLoad, OwnLoad, ThenLoad, DebtLoad;
    var q := s.threads[t];
    var c := q.c;
    var s' := GoAcCtx(s, t, s.threads[t].c, ok);
    var p := s'.threads[t];
    Stand(s, t);
    assert PcIds(p, |s.conns|);
    hide PcRole, PcIds, PcKind, Advance;
    Focus(s, t, c);
    AcGotOk(s.conns[c], c, p.x, Rest(s, t, c), multiset(s.free)[c], IsTarget(s, c));
    KeepConns(s, s', t, p, c);
    if s.inPool != [] { AcPooledCtx(s, t, ok); } else { AcNewCtx(s, t); }
    KeepTalks(s, s', c);
    KeepIds(s, s', t, p);
  }

  // ---------------------------------------------------------------- AsyncDisconnect and iorefs_

  /** Winning the compare-and-swap with d still to be given back. */
  lemma WinOk(cn: Conn, d: Load, r: Load, f: nat, g: bool)
    requires Sane(r) && Light(d) && ConnOk(cn, Plus(d, r), f, g)
    requires cn.connected && !cn.phase.Starting?
    ensures cn.phase.Active? && cn.live
    ensures ConnOk(cn.(connected := false, phase := Closing), Plus(d.(post := 1), r), f, g)
  {
    hide Payloads;
  }

  lemma PostedOk(cn: Conn, d: Load, r: Load, f: nat, g: bool, ok: bool)
    requires Sane(r) && Light(d) && ConnOk(cn, Plus(d.(post := 1), r), f, g)
    ensures ConnOk(if ok then cn.(discPending := cn.discPending + 1) else cn, Plus(d, r), f, g)
  {
    hide Payloads;
  }

  /** Whether the holder is a worker does not matter to the connection. */
  lemma AnyWorkerOk(cn: Conn, d: Load, w: int, r: Load, f: nat, g: bool)
    requires ConnOk(cn, Plus(d, r), f, g)
    ensures ConnOk(cn, Plus(d.(worker := w), r), f, g)
  {
    hide Payloads;
  }

  lemma ResumeLoad(c: ConnId, k: Then)
    ensures OwnLoad(Resume(c, k)) == ThenLoad(k).(worker := OwnLoad(Resume(c, k)).worker)
  {
  }

  lemma DsWinOk(cn: Conn, c: ConnId, k: Then, r: Load, f: nat, g: bool)
    requires Sane(r) && ConnOk(cn, Plus(OwnLoad(DsCas(c, k)), r), f, g)
    requires cn.connected && !cn.phase.Starting?
    ensures cn.phase.Active? && cn.live
    ensures ConnOk(cn.(connected := false, phase := Closing), Plus(OwnLoad(DsPost(c, k)), r), f, g)
  {
    hide ThenLoad, ConnOk, Plus, Sane;
    WinOk(cn, ThenLoad(k), r, f, g);
  }

  lemma DsLoseOk(cn: Conn, c: ConnId, k: Then, r: Load, f: nat, g: bool)
    requires ConnOk(cn, Plus(OwnLoad(DsCas(c, k)), r), f, g)
    ensures ConnOk(cn, Plus(OwnLoad(Resume(c, k)), r), f, g)
  {
    hide ThenLoad, ConnOk, Plus, Resume;
    ResumeLoad(c, k);
    AnyWorkerOk(cn, ThenLoad(k), OwnLoad(Resume(c, k)).worker, r, f, g);
  }

  lemma DsRelay(c: ConnId, k: Then)
    ensures Relay(DsCas(c, k), DsPost(c, k), c) && Relay(DsCas(c, k), Resume(c, k), c)
        && Relay(DsPost(c, k), Resume(c, k), c)
  {
    assert PcRole(DsCas(c, k)) == PcRole(DsPost(c, k));
    assert PcRole(Resume(c, k)) == PcRole(DsPost(c, k)) by {
      match k
      case ToIdle =>
      case ToAccept =>
      case ToDebt(d) =>
    }
    hide PcRole;
    assert WorksOn(Resume(c, k), c) && PcKind(Resume(c, k));
  }

  lemma CnRelay(c: ConnId, d: Debt)
    ensures Relay(CnDec(c, d), AfterDec(c, d), c)
  {
  }

  lemma DsPostOk(cn: Conn, c: ConnId, k: Then, ok: bool, r: Load, f: nat, g: bool)
    requires Sane(r) && ConnOk(cn, Plus(OwnLoad(DsPost(c, k)), r), f, g)
    ensures ConnOk(if ok then cn.(discPending := cn.discPending + 1) else cn, Plus(OwnLoad(Resume(c, k)), r), f, g)
  {
    var d := ThenLoad(k);
    ResumeLoad(c, k);
    assert OwnLoad(DsPost(c, k)) == d.(post := 1);
    hide OwnLoad, ThenLoad, ConnOk, Plus;
    PostedOk(cn, d, r, f, g, ok);
    AnyWorkerOk(if ok then cn.(discPending := cn.discPending + 1) else cn, d, OwnLoad(Resume(c, k)).worker, r, f, g);
  }

  lemma KeepDsWin(s: State, t: nat)
    requires Inv(s) && t < |s.threads| && s.threads[t].DsCas? && s.threads[t].c < |s.conns|
    requires var cn := s.conns[s.threads[t].c]; cn.connected ==> !cn.phase.Starting?
    requires s.conns[s.threads[t].c].connected
    ensures Inv(GoDsCas(s, t, s.threads[t].c, s.threads[t].k))
  {
    hide Inv, ConnOk, Plus, Rest, Sane, Scan, OwnLoad, ThenLoad, DebtLoad;
    var q := s.threads[t];
    var c := q.c;
    var s', p := GoDsCas(s, t, q.c, q.k), DsPost(c, q.k);
    hide Relay, PcRole, PcKind, WorksOn;
    DsRelay(c, q.k);
    Hold(s, t, p, c);
    DsWinOk(s.conns[c], c, q.k, Rest(s, t, c), multiset(s.free)[c], IsTarget(s, c));
    KeepMove(s, s', t, p, c);
  }

  lemma KeepDsLose(s: State, t: nat)
    requires Inv(s) && t < |s.threads| && s.threads[t].DsCas? && s.threads[t].c < |s.conns|
    requires var cn := s.conns[s.threads[t].c]; cn.connected ==> !cn.phase.Starting?
    requires !s.conns[s.threads[t].c].connected
    ensures Inv(GoDsCas(s, t, s.threads[t].c, s.threads[t].k))
  {
    hide Inv, ConnOk, Plus, Rest, Sane, Scan, OwnLoad, ThenLoad, DebtLoad;
    var q := s.threads[t];
    var c := q.c;
    var s', p := GoDsCas(s, t, q.c, q.k), Resume(c, q.k);
    hide Relay, PcRole, PcKind, WorksOn;
    DsRelay(c, q.k);
    Hold(s, t, p, c);
    DsLoseOk(s.conns[c], c, q.k, Rest(s, t, c), multiset(s.free)[c], IsTarget(s, c));
    KeepMove(s, s', t, p, c);
  }

  lemma KeepDsCas(s: State, t: nat)
    requires Inv(s) && t < |s.threads| && s.threads[t].DsCas? && s.threads[t].c < |s.conns|
    requires var cn := s.conns[s.threads[t].c]; cn.connected ==> !cn.phase.Starting?
    ensures Inv(GoDsCas(s, t, s.threads[t].c, s.threads[t].k))
  {
    hide Inv;
    if s.conns[s.threads[t].c].connected { KeepDsWin(s, t); } else { KeepDsLose(s, t); }
  }

  lemma KeepDsPost(s: State, t: nat, ok: bool)
    requires Inv(s) && t < |s.threads| && s.threads[t].DsPost? && s.threads[t].c < |s.conns|
    ensures Inv(GoDsPost(s, t, s.threads[t].c, s.threads[t].k, ok))
  {
    hide Inv, ConnOk, Plus, Rest, Sane, Scan, OwnLoad, ThenLoad, DebtLoad;
    var q := s.threads[t];
    var c := q.c;
    var s', p := GoDsPost(s, t, q.c, q.k, ok), Resume(c, q.k);
    hide Relay, PcRole, PcKind, WorksOn;
    DsRelay(c, q.k);
    Hold(s, t, p, c);
    DsPostOk(s.conns[c], c, q.k, ok, Rest(s, t, c), multiset(s.free)[c], IsTarget(s, c));
    KeepMove(s, s', t, p, c);
  }

  function AfterDec(c: ConnId, d: Debt): (p: Pc) {
    match d
    case SendRef => Idle
    case RecvRef => Idle
    case RecvRefAccept => AcDec
    case TwoRecvRefs => CnDec(c, RecvRef)
  }

  lemma CnDecOk(cn: Conn, c: ConnId, d: Debt, r: Load, f: nat, g: bool)
    requires Sane(r) && ConnOk(cn, Plus(OwnLoad(CnDec(c, d)), r), f, g)
    ensures ConnOk(cn.(iorefs := cn.iorefs - 1), Plus(OwnLoad(AfterDec(c, d)), r), f, g)
  {
    hide Payloads;
  }

  lemma KeepCnDec(s: State, t: nat)
    requires Inv(s) && t < |s.threads| && s.threads[t].CnDec? && s.threads[t].c < |s.conns|
    ensures Inv(GoCnDec(s, t, s.threads[t].c, s.threads[t].d))
  {
    hide Inv, ConnOk, Plus, Rest, Sane, Scan, OwnLoad, ThenLoad, DebtLoad;
    var q := s.threads[t];
    var c := q.c;
    var s', p := GoCnDec(s, t, q.c, q.d), AfterDec(c, q.d);
    hide Relay, PcRole, PcKind, WorksOn;
    CnRelay(c, q.d);
    Hold(s, t, p, c);
    CnDecOk(s.conns[c], c, q.d, Rest(s, t, c), multiset(s.free)[c], IsTarget(s, c));
    KeepMove(s, s', t, p, c);
  }

  // ---------------------------------------------------------------- OPERATION_DISCONNECT

  lemma DiIdleOk(cn: Conn, c: ConnId, r: Load, f: nat, g: bool)
    requires Sane(r) && ConnOk(cn, Plus(OwnLoad(DiTest(c)), r), f, g)
    requires cn.iorefs == 0
    ensures cn.phase.Closing? && ConnOk(cn.(phase := Drained), Plus(OwnLoad(DiCall(c)), r), f, g)
  {
    hide Payloads;
  }

  lemma DiBusyOk(cn: Conn, c: ConnId, r: Load, f: nat, g: bool)
    requires ConnOk(cn, Plus(OwnLoad(DiTest(c)), r), f, g)
    ensures ConnOk(cn, Plus(OwnLoad(DiRepost(c)), r), f, g)
  {
    hide ConnOk;
  }

  lemma KeepDiBusy(s: State, t: nat)
    requires Inv(s) && t < |s.threads| && s.threads[t].DiTest? && s.threads[t].c < |s.conns|
    requires s.conns[s.threads[t].c].iorefs != 0
    ensures Inv(GoDiTest(s, t, s.threads[t].c))
  {
    hide Inv, ConnOk, Plus, Rest, Sane, Scan, OwnLoad, ThenLoad, DebtLoad;
    var q := s.threads[t];
    var c := q.c;
    var s', p := GoDiTest(s, t, q.c), DiRepost(c);
    assert Relay(q, p, c);
    hide Relay, PcRole, PcKind, WorksOn;
    Hold(s, t, p, c);
    DiBusyOk(s.conns[c], c, Rest(s, t, c), multiset(s.free)[c], IsTarget(s, c));
    KeepMove(s, s', t, p, c);
  }

  lemma KeepDiIdle(s: State, t: nat)
    requires Inv(s) && t < |s.threads| && s.threads[t].DiTest? && s.threads[t].c < |s.conns|
    requires s.conns[s.threads[t].c].iorefs == 0
    ensures Inv(GoDiTest(s, t, s.threads[t].c))
  {
    hide Inv, ConnOk, Plus, Rest, Sane, Scan, OwnLoad, ThenLoad, DebtLoad;
    var q := s.threads[t];
    var c := q.c;
    var s', p := GoDiTest(s, t, q.c), DiCall(c);
    assert Relay(q, p, c);
    hide Relay, PcRole, PcKind, WorksOn;
    Hold(s, t, p, c);
    DiIdleOk(s.conns[c], c, Rest(s, t, c), multiset(s.free)[c], IsTarget(s, c));
    KeepMove(s, s', t, p, c);
  }

  lemma KeepDiTest(s: State, t: nat)
    requires Inv(s) && t < |s.threads| && s.threads[t].DiTest? && s.threads[t].c < |s.conns|
    ensures Inv(GoDiTest(s, t, s.threads[t].c))
  {
    hide Inv;
    if s.conns[s.threads[t].c].iorefs != 0 { KeepDiBusy(s, t); } else { KeepDiIdle(s, t); }
  }

  lemma DiRepostOk(cn: Conn, c: ConnId, r: Load, f: nat, g: bool)
    requires Sane(r) && ConnOk(cn, Plus(OwnLoad(DiRepost(c)), r), f, g)
    ensures ConnOk(cn.(discDone := cn.discDone + 1), Plus(OwnLoad(Idle), r), f, g)
  {
    hide Payloads;
  }

  lemma KeepDiRepost(s: State, t: nat)
    requires Inv(s) && t < |s.threads| && s.threads[t].DiRepost? && s.threads[t].c < |s.conns|
    ensures Inv(GoDiRepost(s, t, s.threads[t].c))
  {
    hide Inv, ConnOk, Plus, Rest, Sane, Scan, OwnLoad, ThenLoad, DebtLoad;
    var q := s.threads[t];
    var c := q.c;
    var s', p := GoDiRepost(s, t, q.c), Idle;
    assert Relay(q, p, c);
    hide Relay, PcRole, PcKind, WorksOn;
    Hold(s, t, p, c);
    DiRepostOk(s.conns[c], c, Rest(s, t, c), multiset(s.free)[c], IsTarget(s, c));
    KeepMove(s, s', t, p, c);
  }

  lemma DiCallOk(cn: Conn, c: ConnId, r: Load, f: nat, g: bool)
    requires Sane(r) && ConnOk(cn, Plus(OwnLoad(DiCall(c)), r), f, g)
    ensures cn.phase.Drained? && cn.live
    ensures ConnOk(cn.(phase := Down), Plus(OwnLoad(Idle), r), f, g)
  {
    hide Payloads;
  }

  lemma KeepDiCall(s: State, t: nat)
    requires Inv(s) && t < |s.threads| && s.threads[t].DiCall? && s.threads[t].c < |s.conns|
    ensures Inv(GoDiCall(s, t, s.threads[t].c))
  {
    hide Inv, ConnOk, Plus, Rest, Sane, Scan, OwnLoad, ThenLoad, DebtLoad;
    var q := s.threads[t];
    var c := q.c;
    var s', p := GoDiCall(s, t, q.c), Idle;
    assert Relay(q, p, c);
    hide Relay, PcRole, PcKind, WorksOn;
    Hold(s, t, p, c);
    DiCallOk(s.conns[c], c, Rest(s, t, c), multiset(s.free)[c], IsTarget(s, c));
    KeepSay(s, s', t, p, OnDisconnect(c));
  }

  // ---------------------------------------------------------------- OPERATION_RECV and AsyncRecv

  lemma RvEndOk(cn: Conn, c: ConnId, x: Ctx, r: Load, f: nat, g: bool)
    requires Sane(r) && ConnOk(cn, Plus(OwnLoad(RvGot(c, x, [])), r), f, g)
    ensures ConnOk(cn, Plus(OwnLoad(DsCas(c, ToDebt(RecvRef))), r), f, g)
  {
    hide Payloads;
  }

  lemma KeepRvEnd(s: State, t: nat)
    requires Inv(s) && t < |s.threads| && s.threads[t].RvGot? && s.threads[t].c < |s.conns|
    requires s.threads[t].data == []
    ensures Inv(GoRvGot(s, t, s.threads[t].c, s.threads[t].x, []))
  {
    hide ConnOk, Conns, Ids, AcceptOk, Contexts, Talks, Plus, Rest, Sane, Scan, PcLoad, OwnLoad, ThenLoad, DebtLoad;
    var q := s.threads[t];
    var c := q.c;
    var s' := GoRvGot(s, t, s.threads[t].c, s.threads[t].x, []);
    var p := s'.threads[t];
    Stand(s, t);
    assert PcIds(p, |s.conns|) && PcKind(p);
    hide PcRole, PcIds, PcKind, Advance;
    Focus(s, t, c);
    RvEndOk(s.conns[c], c, q.x, Rest(s, t, c), multiset(s.free)[c], IsTarget(s, c));
    KeepConns(s, s', t, p, c);
    KeepGivenBack(s, s', t, p, q.x);
    KeepTalks(s, s', c);
    KeepIds(s, s', t, p);
  }

  lemma RvGiveOk(cn: Conn, c: ConnId, x: Ctx, data: Chunk, r: Load, f: nat, g: bool)
    requires Sane(r) && ConnOk(cn, Plus(OwnLoad(RvGot(c, x, data)), r), f, g)
    requires data != []
    ensures cn.live && !cn.phase.Down?
    ensures ConnOk(cn.(given := cn.given + [data]), Plus(OwnLoad(RvInc(c, x, AfterRecv)), r), f, g)
  {
    var rest := cn.arrived[|cn.given|..];
    assert r.data == multiset{};
    OnlyOne(rest, data);
    assert cn.arrived == cn.given + rest;
    assert cn.arrived[|cn.given| + 1..] == [];
  }

  lemma KeepRvGive(s: State, t: nat)
    requires Inv(s) && t < |s.threads| && s.threads[t].RvGot? && s.threads[t].c < |s.conns|
    requires s.threads[t].data != []
    ensures Inv(GoRvGot(s, t, s.threads[t].c, s.threads[t].x, s.threads[t].data))
  {
    hide Inv, ConnOk, Plus, Rest, Sane, Scan, OwnLoad, ThenLoad, DebtLoad;
    var q := s.threads[t];
    var c := q.c;
    var s', p := GoRvGot(s, t, q.c, q.x, q.data), RvInc(c, q.x, AfterRecv);
    assert Relay(q, p, c);
    hide Relay, PcRole, PcKind, WorksOn;
    Hold(s, t, p, c);
    RvGiveOk(s.conns[c], c, q.x, q.data, Rest(s, t, c), multiset(s.free)[c], IsTarget(s, c));
    KeepSay(s, s', t, p, OnData(c, q.data));
  }

  lemma RvIncOk(cn: Conn, c: ConnId, x: Ctx, after: After, r: Load, f: nat, g: bool)
    requires Sane(r) && ConnOk(cn, Plus(OwnLoad(RvInc(c, x, after)), r), f, g)
    ensures after.AfterAccept? ==> cn.live && cn.phase.Starting?
    ensures ConnOk(cn.(iorefs := cn.iorefs + 1, phase := if after.AfterAccept? then Active else cn.phase),
        Plus(OwnLoad(RvPost(c, x, after)), r), f, g)
  {
    hide Payloads;
  }

  lemma KeepRvInc(s: State, t: nat)
    requires Inv(s) && t < |s.threads| && s.threads[t].RvInc? && s.threads[t].c < |s.conns|
    ensures Inv(GoRvInc(s, t, s.threads[t].c, s.threads[t].x, s.threads[t].after))
  {
    hide Inv, ConnOk, Plus, Rest, Sane, Scan, OwnLoad, ThenLoad, DebtLoad;
    var q := s.threads[t];
    var c := q.c;
    var s', p := GoRvInc(s, t, q.c, q.x, q.after), RvPost(c, q.x, q.after);
    assert Relay(q, p, c);
    hide Relay, PcRole, PcKind, WorksOn;
    Hold(s, t, p, c);
    RvIncOk(s.conns[c], c, q.x, q.after, Rest(s, t, c), multiset(s.free)[c], IsTarget(s, c));
    KeepMove(s, s', t, p, c);
  }

  lemma RvPostFailOk(cn: Conn, c: ConnId, x: Ctx, after: After, r: Load, f: nat, g: bool)
    requires Sane(r) && ConnOk(cn, Plus(OwnLoad(RvPost(c, x, after)), r), f, g)
    ensures ConnOk(cn, Plus(OwnLoad(RvFail(c, x, after)), r), f, g)
  {
    hide Payloads;
  }

  lemma KeepRvPostFail(s: State, t: nat)
    requires Inv(s) && t < |s.threads| && s.threads[t].RvPost? && s.threads[t].c < |s.conns|
    ensures Inv(GoRvPost(s, t, s.threads[t].c, s.threads[t].x, s.threads[t].after, false))
  {
    hide Inv, ConnOk, Plus, Rest, Sane, Scan, OwnLoad, ThenLoad, DebtLoad;
    var q := s.threads[t];
    var c := q.c;
    var s', p := GoRvPost(s, t, q.c, q.x, q.after, false), RvFail(c, q.x, q.after);
    assert Relay(q, p, c);
    hide Relay, PcRole, PcKind, WorksOn;
    Hold(s, t, p, c);
    RvPostFailOk(s.conns[c], c, q.x, q.after, Rest(s, t, c), multiset(s.free)[c], IsTarget(s, c));
    KeepMove(s, s', t, p, c);
  }

  lemma RvFailOk(cn: Conn, c: ConnId, x: Ctx, after: After, r: Load, f: nat, g: bool)
    requires Sane(r) && ConnOk(cn, Plus(OwnLoad(RvFail(c, x, after)), r), f, g)
    ensures ConnOk(cn, Plus(OwnLoad(DsCas(c, ToDebt(if after.AfterAccept? then RecvRefAccept else TwoRecvRefs))), r),
        f, g)
  {
    hide Payloads;
  }

  lemma KeepRvFail(s: State, t: nat)
    requires Inv(s) && t < |s.threads| && s.threads[t].RvFail? && s.threads[t].c < |s.conns|
    ensures Inv(GoRvFail(s, t, s.threads[t].c, s.threads[t].x, s.threads[t].after))
  {
    hide ConnOk, Conns, Ids, AcceptOk, Contexts, Talks, Plus, Rest, Sane, Scan, PcLoad, OwnLoad, ThenLoad, DebtLoad;
    var q := s.threads[t];
    var c := q.c;
    var s' := GoRvFail(s, t, s.threads[t].c, s.threads[t].x, s.threads[t].after);
    var p := s'.threads[t];
    Stand(s, t);
    assert PcIds(p, |s.conns|) && PcKind(p);
    hide PcRole, PcIds, PcKind, Advance;
    Focus(s, t, c);
    RvFailOk(s.conns[c], c, q.x, q.after, Rest(s, t, c), multiset(s.free)[c], IsTarget(s, c));
    KeepConns(s, s', t, p, c);
    KeepGivenBack(s, s', t, p, q.x);
    KeepTalks(s, s', c);
    KeepIds(s, s', t, p);
  }

  // ---------------------------------------------------------------- OPERATION_SEND and AsyncSend

  lemma SnGotOk(cn: Conn, c: ConnId, x: Ctx, r: Load, f: nat, g: bool)
    requires Sane(r) && ConnOk(cn, Plus(OwnLoad(SnGot(c, x)), r), f, g)
    ensures ConnOk(cn, Plus(OwnLoad(CnDec(c, SendRef)), r), f, g)
  {
    hide Payloads;
  }

  lemma KeepSnGot(s: State, t: nat)
    requires Inv(s) && t < |s.threads| && s.threads[t].SnGot? && s.threads[t].c < |s.conns|
    ensures Inv(GoSnGot(s, t, s.threads[t].c, s.threads[t].x))
  {
    hide ConnOk, Conns, Ids, AcceptOk, Contexts, Talks, Plus, Rest, Sane, Scan, PcLoad, OwnLoad, ThenLoad, DebtLoad;
    var q := s.threads[t];
    var c := q.c;
    var s' := GoSnGot(s, t, s.threads[t].c, s.threads[t].x);
    var p := s'.threads[t];
    Stand(s, t);
    assert PcIds(p, |s.conns|) && PcKind(p);
    hide PcRole, PcIds, PcKind, Advance;
    Focus(s, t, c);
    SnGotOk(s.conns[c], c, q.x, Rest(s, t, c), multiset(s.free)[c], IsTarget(s, c));
    KeepConns(s, s', t, p, c);
    KeepGivenBack(s, s', t, p, q.x);
    KeepTalks(s, s', c);
    KeepIds(s, s', t, p);
  }

  lemma SdStopOk(cn: Conn, c: ConnId, x: Ctx, r: Load, f: nat, g: bool)
    requires ConnOk(cn, Plus(OwnLoad(SdTest(c, x)), r), f, g)
    ensures ConnOk(cn, Plus(OwnLoad(SdOver(c, x)), r), f, g)
  {
    hide ConnOk;
  }

  lemma SdPassOk(cn: Conn, c: ConnId, x: Ctx, r: Load, f: nat, g: bool)
    requires Sane(r) && ConnOk(cn, Plus(OwnLoad(SdTest(c, x)), r), f, g)
    ensures ConnOk(cn.(checked := Larger(cn.checked, cn.refmax)), Plus(OwnLoad(SdInc(c, x)), r), f, g)
  {
    hide Payloads;
  }

  lemma StopRelays(c: ConnId, x: Ctx)
    ensures Relay(SdTest(c, x), SdOver(c, x), c)
  {
  }

  lemma StopMoves(s: State, t: nat)
    requires t < |s.threads| && s.threads[t].SdTest? && s.threads[t].c < |s.conns|
    requires s.conns[s.threads[t].c].iorefs > s.conns[s.threads[t].c].refmax
    ensures var q := s.threads[t];
      var s' := GoSdTest(s, t, q.c, q.x);
      && MovesOn(s, s', t, SdOver(q.c, q.x), q.c) && s'.conns == s.conns && TalkOf(s', q.c) == TalkOf(s, q.c)
  {
  }

  lemma KeepSdStop(s: State, t: nat)
    requires Inv(s) && t < |s.threads| && s.threads[t].SdTest? && s.threads[t].c < |s.conns|
    requires s.conns[s.threads[t].c].iorefs > s.conns[s.threads[t].c].refmax
    ensures Inv(GoSdTest(s, t, s.threads[t].c, s.threads[t].x))
  {
    hide Inv, ConnOk, Plus, Rest, Sane, Scan, OwnLoad, GoSdTest, MovesOn, Relay, TalkOf, IsTarget;
    var q := s.threads[t];
    var c := q.c;
    StopMoves(s, t);
    StopRelays(c, q.x);
    Hold(s, t, SdOver(c, q.x), c);
    SdStopOk(s.conns[c], c, q.x, Rest(s, t, c), multiset(s.free)[c], IsTarget(s, c));
    KeepMove(s, GoSdTest(s, t, c, q.x), t, SdOver(c, q.x), c);
  }

  lemma KeepSdPass(s: State, t: nat)
    requires Inv(s) && t < |s.threads| && s.threads[t].SdTest? && s.threads[t].c < |s.conns|
    requires s.conns[s.threads[t].c].iorefs <= s.conns[s.threads[t].c].refmax
    ensures Inv(GoSdTest(s, t, s.threads[t].c, s.threads[t].x))
  {
    hide Inv, ConnOk, Plus, Rest, Sane, Scan, OwnLoad, ThenLoad, DebtLoad;
    var q := s.threads[t];
    var c := q.c;
    var s', p := GoSdTest(s, t, q.c, q.x), SdInc(c, q.x);
    assert Relay(q, p, c);
    hide Relay, PcRole, PcKind, WorksOn;
    Hold(s, t, p, c);
    SdPassOk(s.conns[c], c, q.x, Rest(s, t, c), multiset(s.free)[c], IsTarget(s, c));
    KeepMove(s, s', t, p, c);
  }

  lemma KeepSdTest(s: State, t: nat)
    requires Inv(s) && t < |s.threads| && s.threads[t].SdTest? && s.threads[t].c < |s.conns|
    ensures Inv(GoSdTest(s, t, s.threads[t].c, s.threads[t].x))
  {
    hide Inv;
    if s.conns[s.threads[t].c].iorefs > s.conns[s.threads[t].c].refmax { KeepSdStop(s, t); } else { KeepSdPass(s, t); }
  }

  lemma SdOverOk(cn: Conn, c: ConnId, x: Ctx, r: Load, f: nat, g: bool)
    requires Sane(r) && ConnOk(cn, Plus(OwnLoad(SdOver(c, x)), r), f, g)
    ensures ConnOk(cn, Plus(OwnLoad(DsCas(c, ToIdle)), r), f, g)
  {
    hide Payloads;
  }

  lemma KeepSdOver(s: State, t: nat)
    requires Inv(s) && t < |s.threads| && s.threads[t].SdOver? && s.threads[t].c < |s.conns|
    ensures Inv(GoSdOver(s, t, s.threads[t].c, s.threads[t].x))
  {
    hide ConnOk, Conns, Ids, AcceptOk, Contexts, Talks, Plus, Rest, Sane, Scan, PcLoad, OwnLoad, ThenLoad, DebtLoad;
    var q := s.threads[t];
    var c := q.c;
    var s' := GoSdOver(s, t, s.threads[t].c, s.threads[t].x);
    var p := s'.threads[t];
    Stand(s, t);
    assert PcIds(p, |s.conns|) && PcKind(p);
    hide PcRole, PcIds, PcKind, Advance;
    Focus(s, t, c);
    SdOverOk(s.conns[c], c, q.x, Rest(s, t, c), multiset(s.free)[c], IsTarget(s, c));
    KeepConns(s, s', t, p, c);
    KeepGivenBack(s, s', t, p, q.x);
    KeepTalks(s, s', c);
    KeepIds(s, s', t, p);
  }

  lemma SdIncOk(cn: Conn, c: ConnId, x: Ctx, r: Load, f: nat, g: bool)
    requires Sane(r) && ConnOk(cn, Plus(OwnLoad(SdInc(c, x)), r), f, g)
    ensures ConnOk(cn.(iorefs := cn.iorefs + 1), Plus(OwnLoad(SdPost(c, x)), r), f, g)
  {
    hide Payloads;
  }

  lemma KeepSdInc(s: State, t: nat)
    requires Inv(s) && t < |s.threads| && s.threads[t].SdInc? && s.threads[t].c < |s.conns|
    ensures Inv(GoSdInc(s, t, s.threads[t].c, s.threads[t].x))
  {
    hide Inv, ConnOk, Plus, Rest, Sane, Scan, OwnLoad, ThenLoad, DebtLoad;
    var q := s.threads[t];
    var c := q.c;
    var s', p := GoSdInc(s, t, q.c, q.x), SdPost(c, q.x);
    assert Relay(q, p, c);
    hide Relay, PcRole, PcKind, WorksOn;
    Hold(s, t, p, c);
    SdIncOk(s.conns[c], c, q.x, Rest(s, t, c), multiset(s.free)[c], IsTarget(s, c));
    KeepMove(s, s', t, p, c);
  }

  lemma SdFailOk(cn: Conn, c: ConnId, x: Ctx, r: Load, f: nat, g: bool)
    requires Sane(r) && ConnOk(cn, Plus(OwnLoad(SdFail(c, x)), r), f, g)
    ensures ConnOk(cn, Plus(OwnLoad(DsCas(c, ToDebt(SendRef))), r), f, g)
  {
    hide Payloads;
  }

  lemma KeepSdFail(s: State, t: nat)
    requires Inv(s) && t < |s.threads| && s.threads[t].SdFail? && s.threads[t].c < |s.conns|
    ensures Inv(GoSdFail(s, t, s.threads[t].c, s.threads[t].x))
  {
    hide ConnOk, Conns, Ids, AcceptOk, Contexts, Talks, Plus, Rest, Sane, Scan, PcLoad, OwnLoad, ThenLoad, DebtLoad;
    var q := s.threads[t];
    var c := q.c;
    var s' := GoSdFail(s, t, s.threads[t].c, s.threads[t].x);
    var p := s'.threads[t];
    Stand(s, t);
    assert PcIds(p, |s.conns|) && PcKind(p);
    hide PcRole, PcIds, PcKind, Advance;
    Focus(s, t, c);
    SdFailOk(s.conns[c], c, q.x, Rest(s, t, c), multiset(s.free)[c], IsTarget(s, c));
    KeepConns(s, s', t, p, c);
    KeepGivenBack(s, s', t, p, q.x);
    KeepTalks(s, s', c);
    KeepIds(s, s', t, p);
  }

  lemma SdPostFailOk(cn: Conn, c: ConnId, x: Ctx, r: Load, f: nat, g: bool)
    requires Sane(r) && ConnOk(cn, Plus(OwnLoad(SdPost(c, x)), r), f, g)
    ensures ConnOk(cn, Plus(OwnLoad(SdFail(c, x)), r), f, g)
  {
    hide Payloads;
  }

  lemma KeepSdPostFail(s: State, t: nat)
    requires Inv(s) && t < |s.threads| && s.threads[t].SdPost? && s.threads[t].c < |s.conns|
    ensures Inv(GoSdPost(s, t, s.threads[t].c, s.threads[t].x, false))
  {
    hide Inv, ConnOk, Plus, Rest, Sane, Scan, OwnLoad, ThenLoad, DebtLoad;
    var q := s.threads[t];
    var c := q.c;
    var s', p := GoSdPost(s, t, q.c, q.x, false), SdFail(c, q.x);
    assert Relay(q, p, c);
    hide Relay, PcRole, PcKind, WorksOn;
    Hold(s, t, p, c);
    SdPostFailOk(s.conns[c], c, q.x, Rest(s, t, c), multiset(s.free)[c], IsTarget(s, c));
    KeepMove(s, s', t, p, c);
  }
}
