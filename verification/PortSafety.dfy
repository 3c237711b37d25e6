/** What holds in every reachable state of the completion-port protocol. */
module PortSafety {
  import opened CompletionPort
  import opened PortLoad
  import opened PortInvariant
  import opened PortBranches
  import opened PortMoves
  import opened PortOwners
  import opened PortAccept

  // ---------------------------------------------------------------- the invariant holds throughout

  lemma KeepBranches(s: State, t: nat, ok: bool)
    requires Inv(s) && Enabled(s, Go(t, ok), ORDERLY)
    requires !s.threads[t].StWait? && !s.threads[t].PopFree? && !s.threads[t].RefAccept? && !s.threads[t].PostAccept?
    ensures Inv(Advance(s, t, ok))
  {
    hide Inv;
    match s.threads[t] {
      case AcUp(c) => KeepAcUp(s, t);
      case AcCall(c) => KeepAcCall(s, t, ok);
      case AcCtx(c) => if s.inPool != [] || ok { KeepAcTakeCtx(s, t, ok); } else { KeepAcGiveUp(s, t); }
      case AcDec => KeepAcDec(s, t);
      case RvGot(c, x, data) => if data == [] { KeepRvEnd(s, t); } else { KeepRvGive(s, t); }
      case RvInc(c, x, after) => KeepRvInc(s, t);
      case RvPost(c, x, after) => if ok { KeepRvPost(s, t); } else { KeepRvPostFail(s, t); }
      case RvFail(c, x, after) => KeepRvFail(s, t);
      case DsCas(c, k) => KeepDsCas(s, t);
      case DsPost(c, k) => KeepDsPost(s, t, ok);
      case CnDec(c, d) => KeepCnDec(s, t);
      case DiTest(c) => KeepDiTest(s, t);
      case DiRepost(c) => KeepDiRepost(s, t);
      case DiCall(c) => KeepDiCall(s, t);
      case SnGot(c, x) => KeepSnGot(s, t);
      case SdTest(c, x) => KeepSdTest(s, t);
      case SdInc(c, x) => KeepSdInc(s, t);
      case SdPost(c, x) => if ok { KeepSdPost(s, t); } else { KeepSdPostFail(s, t); }
      case SdFail(c, x) => KeepSdFail(s, t);
      case SdOver(c, x) => KeepSdOver(s, t);
    }
  }

  lemma KeepGo(s: State, t: nat, ok: bool)
    requires Inv(s) && Enabled(s, Go(t, ok), ORDERLY)
    ensures Inv(Advance(s, t, ok))
  {
    hide Inv;
    match s.threads[t] {
      case StWait => KeepStWait(s, t);
      case PopFree(who) =>
        if s.free != [] { KeepPopFree(s, t, ok); } else if ok { KeepCreate(s, t); } else { KeepNoConn(s, t); }
      case RefAccept(who, n) => KeepRefAccept(s, t);
      case PostAccept(who, n) => KeepPostAccept(s, t);
      case _ => KeepBranches(s, t, ok);
    }
  }

  lemma KeepApply(s: State, a: Step)
    requires Inv(s) && Enabled(s, a, ORDERLY)
    ensures Inv(Apply(s, a, ORDERLY))
  {
    hide Inv;
    match a {
      case KernelAccept => KeepKernelAccept(s);
      case KernelRecv(i, data) => KeepKernelRecv(s, i, data);
      case KernelSend(i) => KeepKernelSend(s, i);
      case KernelDisconnect(c) => KeepKernelDisconnect(s, c);
      case TakeAccept(t) => KeepTakeAccept(s, t);
      case TakeIo(t, i) => KeepTakeIo(s, t, i);
      case TakeDisconnect(t, c) => KeepTakeDisconnect(s, t, c);
      case Go(t, ok) => KeepGo(s, t, ok);
      case AppBind(c, client, limit) => KeepAppBind(s, c, client, limit);
      case AppPop => KeepAppPop(s);
      case AppPush(x) => KeepAppPush(s, x);
      case AppSend(t, x, c, bytes) => KeepAppSend(s, t, x, c, bytes);
      case AppDisconnect(t, c) => KeepAppDisconnect(s, t, c);
      case AppClose(c) => KeepAppClose(s, c);
      case AppStart(t) => KeepAppStart(s, t);
      case AppStop => KeepAppStop(s);
    }
  }

  lemma KeepNext(s: State, s': State)
    requires Inv(s) && Next(s, s', ORDERLY)
    ensures Inv(s')
  {
    hide Inv;
    var a :| Enabled(s, a, ORDERLY) && s' == Apply(s, a, ORDERLY);
    KeepApply(s, a);
  }

  lemma {:induction false} RunInv(states: seq<State>, n: nat)
    requires Run(states, ORDERLY) && n < |states|
    ensures Inv(states[n])
  {
    hide Inv, Next, Init;
    if n == 0 {
      InvInit(states[0]);
    } else {
      RunInv(states, n - 1);
      assert Next(states[n - 1], states[n - 1 + 1], ORDERLY);
      KeepNext(states[n - 1], states[n]);
    }
  }

  lemma InvReachable(s: State)
    requires Reachable(s, ORDERLY)
    ensures Inv(s)
  {
    hide Inv;
    var states :| Run(states, ORDERLY) && states[|states| - 1] == s;
    RunInv(states, |states| - 1);
  }

  // ---------------------------------------------------------------- reference counting

  lemma OpHeld(s: State, i: nat, c: ConnId)
    requires i < |s.ops| && !s.ops[i].Taken? && s.ops[i].c == c
    ensures Total(s, c).refs >= 1
    ensures s.ops[i].Recv? ==> Total(s, c).duty >= 1
  {
    IoMove(s, s, i, s.ops[i], c);
  }

  lemma ThreadHeld(s: State, t: nat, c: ConnId)
    requires t < |s.threads|
    ensures Total(s, c).refs >= PcLoad(s.threads[t], c).refs
    ensures Total(s, c).duty >= PcLoad(s.threads[t], c).duty
    ensures Total(s, c).claim >= PcLoad(s.threads[t], c).claim
  {
    Move(s, s, t, s.threads[t], c);
    hide PcLoad;
  }

  /**
   * iorefs_ is the number of references held by outstanding receives and sends and by threads, so a
   * zero count means that nothing is outstanding and nobody still has a reference to give back.
   */
  lemma ReferenceCount(s: State, c: ConnId)
    requires Reachable(s, ORDERLY) && c < |s.conns|
    ensures s.conns[c].iorefs == Total(s, c).refs >= 0
    ensures s.conns[c].iorefs == 0 ==>
              && (forall i | 0 <= i < |s.ops| :: s.ops[i].Taken? || s.ops[i].c != c)
              && (forall t | 0 <= t < |s.threads| :: PcLoad(s.threads[t], c).refs == 0)
  {
    InvReachable(s);
    assert ConnAt(s, c);
    TotalsSane(s, c);
    hide Inv, ConnOk, Sane, Total;
    forall i | 0 <= i < |s.ops| && !s.ops[i].Taken? && s.ops[i].c == c ensures Total(s, c).refs >= 1 {
      OpHeld(s, i, c);
    }
    forall t | 0 <= t < |s.threads| ensures Total(s, c).refs >= PcLoad(s.threads[t], c).refs >= 0 {
      ThreadHeld(s, t, c);
      assert Sane(PcLoad(s.threads[t], c));
    }
  }

  // ---------------------------------------------------------------- the order of upcalls

  /** The thread has a receive completion of c in hand, or is inside OnData for it. */
  predicate HandlesData(p: Pc, c: ConnId) {
    p.RvGot? && p.c == c
  }

  lemma TalkStands(s: State, c: ConnId)
    requires Inv(s)
    ensures Scan(s.log, c) == TalkOf(s, c)
  {
    hide Ids, Conns, AcceptOk, Contexts, Scan, TalkOf;
    assert Talks(s);
  }

  /** Between conversations nobody carries the receive loop; within one, at most one payload is on its way. */
  lemma DutyInTalk(s: State, c: ConnId)
    requires Inv(s) && c < |s.conns|
    ensures s.conns[c].given <= s.conns[c].arrived && |s.conns[c].arrived| <= |s.conns[c].given| + 1
    ensures TalkOf(s, c).Shut? ==> Total(s, c).duty == 0
  {
    hide Ids, AcceptOk, Contexts, Talks, Total, ConnOk;
    TotalsSane(s, c);
    assert ConnAt(s, c);
    hide Conns;
    DutyOk(s.conns[c], Total(s, c), multiset(s.free)[c], IsTarget(s, c));
  }

  lemma DutyOk(cn: Conn, l: Load, f: nat, g: bool)
    requires Sane(l) && ConnOk(cn, l, f, g)
    ensures cn.given <= cn.arrived && |cn.arrived| <= |cn.given| + 1
    ensures !cn.live || cn.phase.Down? ==> l.duty == 0
  {
    assert |cn.arrived[|cn.given|..]| == |multiset(cn.arrived[|cn.given|..])|;
  }

  lemma NoDuty(s: State, c: ConnId)
    requires Total(s, c).duty == 0
    ensures forall i | 0 <= i < |s.ops| && s.ops[i].Recv? :: s.ops[i].c != c
    ensures forall t | 0 <= t < |s.threads| :: !HandlesData(s.threads[t], c)
  {
    hide Total;
    forall i | 0 <= i < |s.ops| && s.ops[i].Recv? ensures s.ops[i].c != c {
      if s.ops[i].c == c { OpHeld(s, i, c); }
    }
    forall t | 0 <= t < |s.threads| ensures !HandlesData(s.threads[t], c) {
      if HandlesData(s.threads[t], c) {
        Handling(s.threads[t], c);
        ThreadHeld(s, t, c);
      }
    }
  }

  lemma Handling(p: Pc, c: ConnId)
    requires HandlesData(p, c)
    ensures PcLoad(p, c).duty == 1
  {
  }

  lemma NobodyKnows(s: State, c: ConnId)
    requires Inv(s) && c >= |s.conns|
    ensures forall i | 0 <= i < |s.ops| && s.ops[i].Recv? :: s.ops[i].c != c
    ensures forall t | 0 <= t < |s.threads| :: !HandlesData(s.threads[t], c)
  {
    hide Conns, AcceptOk, Contexts, Talks;
    forall i | 0 <= i < |s.ops| && s.ops[i].Recv? ensures s.ops[i].c != c { assert IoIds(s.ops[i], |s.conns|); }
    forall t | 0 <= t < |s.threads| ensures !HandlesData(s.threads[t], c) { assert PcIds(s.threads[t], |s.conns|); }
  }

  /**
   * Per connection the upcalls follow the protocol OnConnection, OnData and so on, OnDisconnect; what OnData has
   * been given is the arrived payloads in order, save at most one still on its way; and while a handler
   * is not in conversation no receive is outstanding and nobody handles one.
   */
  lemma UpcallOrder(s: State, c: ConnId)
    requires Reachable(s, ORDERLY)
    ensures !Scan(s.log, c).Broken?
    ensures Scan(s.log, c).Open? ==>
              c < |s.conns| && Scan(s.log, c).given == s.conns[c].given
              && s.conns[c].given <= s.conns[c].arrived && |s.conns[c].arrived| <= |s.conns[c].given| + 1
    ensures Scan(s.log, c).Shut? ==>
              && (forall i | 0 <= i < |s.ops| && s.ops[i].Recv? :: s.ops[i].c != c)
              && (forall t | 0 <= t < |s.threads| :: !HandlesData(s.threads[t], c))
  {
    InvReachable(s);
    hide Inv, Scan, Total;
    TalkStands(s, c);
    if c < |s.conns| {
      DutyInTalk(s, c);
      if TalkOf(s, c).Shut? { NoDuty(s, c); }
    } else {
      NobodyKnows(s, c);
    }
  }

  lemma TwoHandlers(s: State, c: ConnId, t: nat, u: nat)
    requires t < |s.threads| && u < |s.threads| && t != u
    requires HandlesData(s.threads[t], c) && HandlesData(s.threads[u], c)
    ensures Total(s, c).duty >= 2
  {
    TwoLoads(s.threads, t, u, c);
    TotalsSane(s, c);
  }

  lemma HandlerAndOp(s: State, c: ConnId, t: nat, i: nat)
    requires t < |s.threads| && i < |s.ops| && HandlesData(s.threads[t], c) && s.ops[i].Recv? && s.ops[i].c == c
    ensures Total(s, c).duty >= 2
  {
    IoChange(s.ops, i, s.ops[i], c);
    ThreadMove(s.threads, t, s.threads[t], c);
  }

  lemma DutyAtMostOne(s: State, c: ConnId)
    requires Reachable(s, ORDERLY) && c < |s.conns|
    ensures Total(s, c).duty <= 1
  {
    InvReachable(s);
    TotalsSane(s, c);
    hide Total, Sane;
    assert ConnAt(s, c);
  }

  lemma HandledConnExists(s: State, c: ConnId, t: nat)
    requires Reachable(s, ORDERLY) && t < |s.threads| && HandlesData(s.threads[t], c)
    ensures c < |s.conns|
  {
    InvReachable(s);
    Stand(s, t);
  }

  /** OnData is never in progress twice for one connection, and never beside an outstanding receive. */
  lemma NoOverlap(s: State, c: ConnId, t: nat)
    requires Reachable(s, ORDERLY) && t < |s.threads| && HandlesData(s.threads[t], c)
    ensures forall u | 0 <= u < |s.threads| && u != t :: !HandlesData(s.threads[u], c)
    ensures forall i | 0 <= i < |s.ops| && s.ops[i].Recv? :: s.ops[i].c != c
  {
    HandledConnExists(s, c, t);
    DutyAtMostOne(s, c);
    hide Reachable, Total;
    forall u | 0 <= u < |s.threads| && u != t ensures !HandlesData(s.threads[u], c) {
      if HandlesData(s.threads[u], c) { TwoHandlers(s, c, t, u); }
    }
    forall i | 0 <= i < |s.ops| && s.ops[i].Recv? ensures s.ops[i].c != c {
      if s.ops[i].c == c { HandlerAndOp(s, c, t, i); }
    }
  }

  // ---------------------------------------------------------------- contexts

  /** Every context that was created is in one place and only one, and nothing else is anywhere. */
  lemma ContextConservation(s: State, x: Ctx)
    requires Reachable(s, ORDERLY)
    ensures CtxPlaces(s)[x] == (if x.id < (if x.In? then s.inCount else s.outCount) then 1 else 0)
    ensures x in s.inPool ==> x.In?
    ensures x in s.outPool || x in s.held ==> x.Out?
  {
    InvReachable(s);
    hide CtxPlaces;
    assert CtxPlaces(s) == AllCtx(s.inCount, s.outCount);
  }

  lemma TwoIos(os: seq<Io>, i: nat, j: nat, x: Ctx)
    requires i < |os| && j < |os| && i != j && !os[i].Taken? && !os[j].Taken? && os[i].x == os[j].x == x
    ensures IoDuties(os).ctx[x] >= 2
  {
    var os' := os[i := Taken];
    IoDutyChange(os, i, Taken);
    IoDutyChange(os', j, Taken);
    assert os'[j] == os[j] && IoRole(os[i]).ctx[x] == 1 == IoRole(os[j]).ctx[x] && IoRole(Taken) == NoRole;
    assert IoDuties(os').ctx[x] >= 1;
    assert IoDuties(os).ctx[x] == 1 + OtherIoDuties(os, i).ctx[x];
    assert IoDuties(os').ctx == multiset{} + OtherIoDuties(os, i).ctx;
  }

  lemma IoAndThread(s: State, i: nat, t: nat)
    requires i < |s.ops| && !s.ops[i].Taken? && t < |s.threads|
    ensures Duties(s).ctx[s.ops[i].x] >= 1 + PcRole(s.threads[t]).ctx[s.ops[i].x]
  {
    IoDutyChange(s.ops, i, Taken);
    ThreadDutyMove(s.threads, t, s.threads[t]);
    hide PcRole;
  }

  /** A context of an outstanding operation is in no pool, with no thread and of no other operation. */
  lemma OperationOwnsContext(s: State, i: nat, t: nat)
    requires Reachable(s, ORDERLY) && i < |s.ops| && !s.ops[i].Taken? && t < |s.threads|
    ensures s.ops[i].x !in s.inPool && s.ops[i].x !in s.outPool && s.ops[i].x !in s.held
    ensures s.ops[i].x !in PcRole(s.threads[t]).ctx
    ensures forall j | 0 <= j < |s.ops| && j != i && !s.ops[j].Taken? :: s.ops[j].x != s.ops[i].x
  {
    var x := s.ops[i].x;
    ContextConservation(s, x);
    hide Reachable, PcRole;
    IoAndThread(s, i, t);
    forall j | 0 <= j < |s.ops| && j != i && !s.ops[j].Taken? ensures s.ops[j].x != x {
      if s.ops[j].x == x { TwoIos(s.ops, i, j, x); }
    }
    assert s.ops[i].x in s.inPool ==> multiset(s.inPool)[x] >= 1;
    assert s.ops[i].x in s.outPool ==> multiset(s.outPool)[x] >= 1;
  }

  // ---------------------------------------------------------------- recycling

  /**
   * A connection is on the free list, or with Accept, or the target of the outstanding AcceptEx, or in
   * use: one of these and only one. On the free list nothing is outstanding for it.
   */
  lemma Recycling(s: State, c: ConnId)
    requires Reachable(s, ORDERLY) && c < |s.conns|
    ensures multiset(s.free)[c] + Total(s, c).claim + (if IsTarget(s, c) then 1 else 0)
            + (if InUse(s.conns[c].phase) then 1 else 0) == 1
    ensures !InUse(s.conns[c].phase) ==>
              && s.conns[c].iorefs == 0 && !s.conns[c].connected && !s.conns[c].bound
              && (forall i | 0 <= i < |s.ops| :: s.ops[i].Taken? || s.ops[i].c != c)
    ensures s.conns[c].phase.Free? <==> c in s.free
  {
    InvReachable(s);
    assert ConnAt(s, c);
    ReferenceCount(s, c);
    hide Total;
  }

  lemma OperationInUse(s: State, i: nat)
    requires Reachable(s, ORDERLY) && i < |s.ops| && !s.ops[i].Taken?
    ensures s.ops[i].c < |s.conns| && s.ops[i].c !in s.free
  {
    InvReachable(s);
    var c := s.ops[i].c;
    KnownOperation(s, i);
    hide Inv;
    Recycling(s, c);
  }

  lemma KnownOperation(s: State, i: nat)
    requires Inv(s) && i < |s.ops| && !s.ops[i].Taken?
    ensures s.ops[i].c < |s.conns|
  {
    hide Conns, AcceptOk, Contexts, Talks;
    assert IoIds(s.ops[i], |s.conns|);
  }

  /** At most one AcceptEx is outstanding, and then nobody is about to post another. */
  lemma OneAccept(s: State)
    requires Reachable(s, ORDERLY)
    ensures s.accPending + s.accDone <= 1
    ensures s.accPending + s.accDone == 1 ==>
              forall t | 0 <= t < |s.threads| :: !s.threads[t].RefAccept? && !s.threads[t].PostAccept?
    ensures s.accRefs >= s.accPending + s.accDone
  {
    InvReachable(s);
    OneToken(s);
  }

  lemma OneToken(s: State)
    requires Inv(s)
    ensures s.accPending + s.accDone <= 1
    ensures s.accPending + s.accDone == 1 ==>
              forall t | 0 <= t < |s.threads| :: !s.threads[t].RefAccept? && !s.threads[t].PostAccept?
    ensures s.accRefs >= s.accPending + s.accDone
  {
    hide Ids, Conns, Contexts, Talks, Duties, Claims, PcRole;
    TotalsSane(s, 0);
    assert AcceptOk(s);
    hide Inv;
    forall t | 0 <= t < |s.threads| && (s.threads[t].RefAccept? || s.threads[t].PostAccept?)
      ensures Duties(s).token >= 1
    {
      Holder(s, t);
    }
  }

  lemma Holder(s: State, t: nat)
    requires t < |s.threads| && (s.threads[t].RefAccept? || s.threads[t].PostAccept?)
    ensures Duties(s).token >= 1
  {
    assert PcRole(s.threads[t]).token == 1;
    hide PcRole, Duties, RestDuties;
    MoveDuties(s, s.(threads := s.threads[t := s.threads[t]]), t, s.threads[t]);
  }
}
