/** Steps of EasyAcceptor, of the disconnect operation and of the application keep the invariant. */
module PortOwners {
  import opened Bytes
  import opened CompletionPort
  import opened PortLoad
  import opened PortInvariant

  // ---------------------------------------------------------------- DisconnectEx completes and is dequeued

  lemma DisconnectDoneOk(cn: Conn, l: Load, f: nat, g: bool)
    requires ConnOk(cn, l, f, g) && cn.discPending > 0
    ensures ConnOk(cn.(discPending := cn.discPending - 1, discDone := cn.discDone + 1), l, f, g)
  {
    hide Payloads;
  }

  lemma KeepKernelDisconnect(s: State, c: ConnId)
    requires Inv(s) && c < |s.conns| && s.conns[c].discPending > 0
    ensures Inv(DoKernelDisconnect(s, c))
  {
    hide Inv, ConnOk, Total;
    InvAt(s, c);
    DisconnectDoneOk(s.conns[c], Total(s, c), multiset(s.free)[c], IsTarget(s, c));
    KeepField(s, DoKernelDisconnect(s, c), c);
  }

  lemma InvAt(s: State, c: ConnId)
    requires Inv(s) && c < |s.conns|
    ensures ConnOk(s.conns[c], Total(s, c), multiset(s.free)[c], IsTarget(s, c))
  {
    hide Ids, AcceptOk, Contexts, Talks, ConnOk;
    assert ConnAt(s, c);
  }

  /** A step on connection c that moves no thread. */
  lemma KeepField(s: State, s': State, c: ConnId)
    requires Inv(s) && c < |s.conns| == |s'.conns| && s' == Set(s, c, s'.conns[c])
    requires ConnOk(s'.conns[c], Total(s, c), multiset(s.free)[c], IsTarget(s, c)) && TalkOf(s', c) == TalkOf(s, c)
    ensures Inv(s')
  {
    hide ConnOk, AllCtx, Scan, Total, Duties, TalkOf, Ids, AcceptOk, Contexts, Talks;
    SameTotals(s, s', c);
    forall d: ConnId | d < |s'.conns| ensures ConnAt(s', d) {
      assert ConnAt(s, d);
      if d != c { Alike(s, s', d); }
    }
    hide Conns;
    KeepTalks(s, s', c);
    KeepRest(s, s');
  }

  /** A step that changes nothing but connection fields and the running flag. */
  lemma KeepRest(s: State, s': State)
    requires Ids(s) && AcceptOk(s) && Contexts(s)
    requires |s'.conns| == |s.conns| && s' == s.(conns := s'.conns, running := s'.running)
    ensures Ids(s') && AcceptOk(s') && Contexts(s')
  {
    hide Duties, AllCtx, PcIds, PcKind, IoIds, IoKind, PoolKinds, Claims;
    SameTotals(s, s', 0);
    RestIds(s, s');
    hide Ids;
    RestContexts(s, s');
  }

  lemma RestIds(s: State, s': State)
    requires Ids(s) && |s'.conns| == |s.conns| && s' == s.(conns := s'.conns, running := s'.running)
    ensures Ids(s')
  {
    hide PcIds, IoIds;
  }

  lemma RestContexts(s: State, s': State)
    requires Contexts(s) && s' == s.(conns := s'.conns, running := s'.running)
    ensures Contexts(s')
  {
    hide Duties, AllCtx, PcKind, IoKind;
    SameTotals(s, s', 0);
  }

  lemma TakeDisconnectOk(cn: Conn, c: ConnId, r: Load, f: nat, g: bool)
    requires Sane(r) && ConnOk(cn, Plus(OwnLoad(Idle), r), f, g) && cn.discDone > 0
    ensures ConnOk(cn.(discDone := cn.discDone - 1), Plus(OwnLoad(DiTest(c)), r), f, g)
  {
    hide Payloads;
  }

  lemma KeepTakeDisconnect(s: State, t: nat, c: ConnId)
    requires Inv(s) && t < |s.threads| && s.threads[t] == Idle && c < |s.conns| && s.conns[c].discDone > 0
    ensures Inv(DoTakeDisconnect(s, t, c))
  {
    hide Inv, ConnOk, Plus, Rest, Sane, OwnLoad;
    var s' := DoTakeDisconnect(s, t, c);
    assert Relay(Idle, DiTest(c), c);
    hide Relay;
    Hold(s, t, DiTest(c), c);
    TakeDisconnectOk(s.conns[c], c, Rest(s, t, c), multiset(s.free)[c], IsTarget(s, c));
    KeepMove(s, s', t, DiTest(c), c);
  }

  // ---------------------------------------------------------------- application calls

  lemma BindOk(cn: Conn, client: nat, limit: nat, l: Load, f: nat, g: bool)
    requires ConnOk(cn, l, f, g) && cn.live && limit < INITIAL_REF_MAX
    ensures ConnOk(cn.(bound := true, client := Some(client), refmax := limit), l, f, g)
  {
    hide Payloads;
  }

  lemma KeepAppBind(s: State, c: ConnId, client: nat, limit: nat)
    requires Inv(s) && c < |s.conns| && s.conns[c].live && limit < INITIAL_REF_MAX
    ensures Inv(DoAppBind(s, c, client, limit))
  {
    hide Inv, ConnOk, Total;
    InvAt(s, c);
    BindOk(s.conns[c], client, limit, Total(s, c), multiset(s.free)[c], IsTarget(s, c));
    KeepField(s, DoAppBind(s, c, client, limit), c);
  }

  /** Steps that only move contexts between the pools and the application. */
  lemma KeepHeld(s: State, s': State, made: multiset<Ctx>)
    requires Inv(s) && s' == s.(outPool := s'.outPool, held := s'.held, outCount := s'.outCount)
    requires Pools(s') == Pools(s) + made && PoolKinds(s')
    requires AllCtx(s'.inCount, s'.outCount) == AllCtx(s.inCount, s.outCount) + made
    ensures Inv(s')
  {
    hide Ids, Conns, AcceptOk, Contexts, Talks, AllCtx, Pools, PoolKinds;
    HeldContexts(s, s', made);
    HeldElse(s, s');
  }

  lemma HeldElse(s: State, s': State)
    requires Ids(s) && Conns(s) && AcceptOk(s) && Talks(s)
    requires s' == s.(outPool := s'.outPool, held := s'.held, outCount := s'.outCount)
    ensures Ids(s') && Conns(s') && AcceptOk(s') && Talks(s')
  {
    hide ConnOk, Scan, Duties, Total, PcIds, IoIds, Claims;
    SameTotals(s, s', 0);
    forall d: ConnId | d < |s'.conns| ensures ConnAt(s', d) {
      assert ConnAt(s, d);
      Alike(s, s', d);
    }
    hide Conns;
    assert forall c: ConnId :: TalkOf(s', c) == TalkOf(s, c);
  }

  lemma Empty(p: multiset<Ctx>, made: multiset<Ctx>, d: multiset<Ctx>)
    ensures multiset{} + p == p && multiset{} + p + made == p + made && multiset{} + d == d
  {
  }

  lemma HeldContexts(s: State, s': State, made: multiset<Ctx>)
    requires Contexts(s) && s' == s.(outPool := s'.outPool, held := s'.held, outCount := s'.outCount)
    requires Pools(s') == Pools(s) + made && PoolKinds(s')
    requires AllCtx(s'.inCount, s'.outCount) == AllCtx(s.inCount, s.outCount) + made
    ensures Contexts(s')
  {
    hide AllCtx, Duties, Pools, PoolKinds, PcKind, IoKind;
    SameTotals(s, s', 0);
    Regroup(multiset{}, multiset{}, Duties(s).ctx, Pools(s), Pools(s'), made);
    Empty(Pools(s), made, Duties(s).ctx);
    Empty(Pools(s'), made, Duties(s).ctx);
  }

  lemma Popped(s: State)
    requires PoolKinds(s) && s.outPool != []
    ensures var s' := DoAppPop(s); PoolKinds(s') && Pools(s') == Pools(s) + multiset{}
  {
    var x := s.outPool[0];
    assert x in s.outPool;
    SplitFirst(s.outPool);
    PoolToHeld(multiset{x}, multiset(s.inPool), multiset(s.outPool[1..]), s.held);
  }

  lemma Made(s: State)
    requires PoolKinds(s) && s.outPool == []
    ensures var s' := DoAppPop(s); PoolKinds(s') && Pools(s') == Pools(s) + multiset{Out(s.outCount)}
  {
    PoolToHeld(multiset{Out(s.outCount)}, multiset(s.inPool), multiset(s.outPool), s.held);
  }

  lemma Nothing(x: multiset<Ctx>)
    ensures x + multiset{} == x
  {
  }

  lemma KeepAppPop(s: State)
    requires Inv(s)
    ensures Inv(DoAppPop(s))
  {
    hide AllCtx, Inv, Pools, PoolKinds;
    InvPools(s);
    var s' := DoAppPop(s);
    if s.outPool != [] {
      Popped(s);
      Nothing(AllCtx(s.inCount, s.outCount));
      KeepHeld(s, s', multiset{});
    } else {
      Made(s);
      AllCtxOut(s.inCount, s.outCount);
      KeepHeld(s, s', multiset{Out(s.outCount)});
    }
  }

  lemma InvPools(s: State)
    requires Inv(s)
    ensures PoolKinds(s)
  {
    hide Ids, Conns, AcceptOk, Talks, PoolKinds;
    PoolsInKind(s);
  }

  lemma PoolToHeld(x: multiset<Ctx>, i: multiset<Ctx>, o: multiset<Ctx>, h: multiset<Ctx>)
    ensures i + o + (h + x) == i + (x + o) + h + multiset{}
    ensures i + (x + o) + h == i + o + (h + x) + multiset{}
    ensures i + o + (h + x) == i + o + h + x
  {
  }

  lemma Pushed(s: State, s': State, x: Ctx)
    requires PoolKinds(s) && x in s.held && s' == s.(held := s.held - multiset{x}, outPool := [x] + s.outPool)
    ensures PoolKinds(s') && Pools(s') == Pools(s) + multiset{}
  {
    SplitFirst(s'.outPool);
    assert s.held == s'.held + multiset{x};
    PoolToHeld(multiset{x}, multiset(s.inPool), multiset(s.outPool), s'.held);
  }

  lemma KeepAppPush(s: State, x: Ctx)
    requires Inv(s) && x in s.held
    ensures Inv(s.(held := s.held - multiset{x}, outPool := [x] + s.outPool))
  {
    hide AllCtx, Inv, Pools, PoolKinds;
    InvPools(s);
    var s' := s.(held := s.held - multiset{x}, outPool := [x] + s.outPool);
    Pushed(s, s', x);
    Nothing(AllCtx(s.inCount, s.outCount));
    KeepHeld(s, s', multiset{});
  }

  lemma EnterSendOk(cn: Conn, c: ConnId, x: Ctx, r: Load, f: nat, g: bool)
    requires Sane(r) && ConnOk(cn, Plus(OwnLoad(Idle), r), f, g) && cn.live
    ensures ConnOk(cn, Plus(OwnLoad(SdTest(c, x)), r), f, g)
  {
    hide Payloads;
  }

  lemma SendRoles(s: State, x: Ctx, c: ConnId)
    requires Contexts(s) && x in s.held
    ensures PcRole(Idle) == NoRole && PcRole(SdTest(c, x)) == NoRole.(ctx := multiset{x}) && PcKind(SdTest(c, x))
  {
    hide CtxPlaces, AllCtx;
  }

  lemma OutOfHeld(s: State, s': State, x: Ctx)
    requires PoolKinds(s) && x in s.held
    requires s'.inPool == s.inPool && s'.outPool == s.outPool && s'.held == s.held - multiset{x}
    ensures PoolKinds(s') && multiset{x} + Pools(s') == multiset{} + Pools(s) + multiset{}
  {
    assert s.held == s'.held + multiset{x};
    HeldToThread(multiset{x}, multiset(s.inPool), multiset(s.outPool), s'.held);
  }

  lemma EnterSendContexts(s: State, t: nat, x: Ctx, c: ConnId, bytes: Chunk)
    requires AcceptOk(s) && Contexts(s) && t < |s.threads| && s.threads[t] == Idle && x in s.held
    ensures var s' := DoAppSend(s, t, x, c, bytes); AcceptOk(s') && Contexts(s')
  {
    hide AllCtx, AcceptOk, Contexts, PcRole, PcKind, Pools, PoolKinds;
    var s' := DoAppSend(s, t, x, c, bytes);
    SendRoles(s, x, c);
    PoolsInKind(s);
    OutOfHeld(s, s', x);
    Nothing(AllCtx(s.inCount, s.outCount));
    KeepPlaces(s, s', t, SdTest(c, x), multiset{});
  }

  lemma HeldToThread(x: multiset<Ctx>, i: multiset<Ctx>, o: multiset<Ctx>, h: multiset<Ctx>)
    ensures x + (i + o + h) == multiset{} + (i + o + (h + x)) + multiset{}
  {
  }

  lemma KeepAppSend(s: State, t: nat, x: Ctx, c: ConnId, bytes: Chunk)
    requires Inv(s) && t < |s.threads| && s.threads[t] == Idle && x in s.held && c < |s.conns| && s.conns[c].live
    ensures Inv(DoAppSend(s, t, x, c, bytes))
  {
    hide ConnOk, Conns, Ids, AcceptOk, Contexts, Talks, Plus, Rest, Sane, Scan, PcLoad, OwnLoad, PcRole;
    var s' := DoAppSend(s, t, x, c, bytes);
    EnterSendContexts(s, t, x, c, bytes);
    Focus(s, t, c);
    EnterSendOk(s.conns[c], c, x, Rest(s, t, c), multiset(s.free)[c], IsTarget(s, c));
    KeepConns(s, s', t, SdTest(c, x), c);
    KeepTalks(s, s', c);
    KeepIds(s, s', t, SdTest(c, x));
  }

  lemma KeepAppDisconnect(s: State, t: nat, c: ConnId)
    requires Inv(s) && t < |s.threads| && s.threads[t] == Idle && c < |s.conns|
    ensures Inv(DoAppDisconnect(s, t, c))
  {
    hide Inv, ConnOk, Plus, Rest, Sane;
    var s', p := DoAppDisconnect(s, t, c), DsCas(c, ToIdle);
    assert OwnLoad(p) == OwnLoad(Idle) && Relay(Idle, p, c);
    hide Relay, OwnLoad;
    Hold(s, t, p, c);
    KeepMove(s, s', t, p, c);
  }

  // ---------------------------------------------------------------- Close

  lemma {:induction false} NobodyBusy(ts: seq<Pc>, c: ConnId, n: nat)
    requires n <= |ts| && forall t | 0 <= t < |ts| :: !Sending(ts[t], c)
    ensures Sum(ThreadLoads(ts, c), n, NONE).busy == 0
  {
    hide PcLoad, Sending;
    if n > 0 {
      NobodyBusy(ts, c, n - 1);
      NotSendingIsFree(ts[n - 1], c);
      OneMoreFree(ThreadLoads(ts, c), n);
    }
  }

  lemma OneMoreFree(f: nat -> Load, n: nat)
    requires n > 0 && Sum(f, n - 1, NONE).busy == 0 == f(n - 1).busy
    ensures Sum(f, n, NONE).busy == 0
  {
  }

  lemma NotSendingIsFree(p: Pc, c: ConnId)
    requires !Sending(p, c)
    ensures PcLoad(p, c).busy == 0
  {
  }

  lemma {:induction false} IosNeverBusy(os: seq<Io>, c: ConnId, n: nat)
    requires n <= |os|
    ensures Sum(IoLoads(os, c), n, NONE).busy == 0
  {
    hide IoLoad;
    if n > 0 {
      IosNeverBusy(os, c, n - 1);
      OneMoreFree(IoLoads(os, c), n);
    }
  }

  lemma CloseOk(cn: Conn, l: Load, f: nat, g: bool)
    requires Sane(l) && ConnOk(cn, l, f, g) && cn.bound && cn.phase.Down? && l.busy == 0
    ensures cn.iorefs != 0 || cn.connected ==> ConnOk(cn.(bound := false, live := false), l, f, g)
    ensures !(cn.iorefs != 0 || cn.connected) ==>
              ConnOk(cn.(bound := false, live := false, phase := Free), l, f + 1, g)
  {
    hide Payloads;
  }

  lemma NoneInside(s: State, c: ConnId)
    requires forall t | 0 <= t < |s.threads| :: !Sending(s.threads[t], c)
    ensures Total(s, c).busy == 0 && Sane(Total(s, c))
  {
    hide Sum, ThreadLoads, IoLoads, Sane, Sending;
    NobodyBusy(s.threads, c, |s.threads|);
    IosNeverBusy(s.ops, c, |s.ops|);
    TotalsSane(s, c);
  }

  lemma OnTop(free: seq<ConnId>, c: ConnId)
    ensures forall d: ConnId :: multiset([c] + free)[d] == multiset(free)[d] + (if d == c then 1 else 0)
  {
    assert multiset([c] + free) == multiset{c} + multiset(free);
  }

  lemma SameTarget(s: State, s': State, c: ConnId)
    requires s'.accPending == s.accPending && s'.accDone == s.accDone && s'.ctxConn == s.ctxConn
    ensures IsTarget(s', c) == IsTarget(s, c)
  {
  }

  lemma AtConn(s: State, c: ConnId)
    requires c < |s.conns| && ConnAt(s, c)
    ensures ConnOk(s.conns[c], Total(s, c), multiset(s.free)[c], IsTarget(s, c))
  {
    hide ConnOk;
  }

  lemma CloseAt(s: State, c: ConnId)
    requires c < |s.conns| && ConnAt(s, c) && s.conns[c].bound && s.conns[c].phase.Down?
    requires Total(s, c).busy == 0 && Sane(Total(s, c))
    ensures ConnAt(DoAppClose(s, c), c)
  {
    hide ConnOk, Total, Sane, IsTarget, ConnAt;
    var s', cn := DoAppClose(s, c), s.conns[c];
    SameTarget(s, s', c);
    AtConn(s, c);
    CloseOk(cn, Total(s, c), multiset(s.free)[c], IsTarget(s, c));
    OnTop(s.free, c);
    Refitted(s, s', c);
  }

  lemma CloseConns(s: State, c: ConnId)
    requires Conns(s) && c < |s.conns| && s.conns[c].bound && s.conns[c].phase.Down?
    requires Total(s, c).busy == 0 && Sane(Total(s, c))
    ensures Conns(DoAppClose(s, c))
  {
    hide Total, Sane;
    var s' := DoAppClose(s, c);
    OnTop(s.free, c);
    assert ConnAt(s, c);
    CloseAt(s, c);
    hide ConnOk;
    forall d: ConnId | d < |s'.conns| ensures ConnAt(s', d) {
      if d != c {
        assert ConnAt(s, d);
        Alike(s, s', d);
      }
    }
  }

  lemma KeepAppClose(s: State, c: ConnId)
    requires Inv(s) && c < |s.conns| && s.conns[c].bound && s.conns[c].phase.Down?
    requires forall t | 0 <= t < |s.threads| :: !Sending(s.threads[t], c)
    ensures Inv(DoAppClose(s, c))
  {
    hide Ids, Conns, AcceptOk, Contexts, Talks, Total, Sane;
    NoneInside(s, c);
    hide Sending;
    CloseConns(s, c);
    KeepTalks(s, DoAppClose(s, c), c);
    KeepClosed(s, DoAppClose(s, c), c);
  }

  lemma KeepClosed(s: State, s': State, c: ConnId)
    requires Ids(s) && AcceptOk(s) && Contexts(s)
    requires c < |s.conns| == |s'.conns| && s' == s.(conns := s'.conns, free := s'.free)
    requires s'.free == s.free || s'.free == [c] + s.free
    ensures Ids(s') && AcceptOk(s') && Contexts(s')
  {
    hide Duties, AllCtx, Pools, PoolKinds, PcIds, IoIds, PcKind, IoKind, Claims;
    SameTotals(s, s', 0);
    assert PoolKinds(s') == PoolKinds(s) && Pools(s') == Pools(s) by { SamePoolsAlike(s, s'); }
  }

  lemma SamePoolsAlike(s: State, s': State)
    requires s'.inPool == s.inPool && s'.outPool == s.outPool && s'.held == s.held
    ensures PoolKinds(s') == PoolKinds(s) && Pools(s') == Pools(s)
  {
  }
}
