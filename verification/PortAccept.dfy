/** Steps of EasyAcceptor keep the invariant. */
module PortAccept {
  import opened Bytes
  import opened CompletionPort
  import opened PortLoad
  import opened PortInvariant
  import opened PortOwners

  /** The holder of the accept token is alone, and no AcceptEx is outstanding meanwhile. */
  lemma OnlyToken(s: State, t: nat)
    requires AcceptOk(s) && t < |s.threads| && PcRole(s.threads[t]).token == 1
    ensures s.accPending + s.accDone == 0
    ensures forall u | 0 <= u < |s.threads| && u != t :: PcRole(s.threads[u]).token == 0
  {
    forall u | 0 <= u < |s.threads| && u != t ensures PcRole(s.threads[u]).token == 0 {
      TwoDuties(s.threads, t, u);
      TotalsSane(s, 0);
      assert Sound(PcRole(s.threads[u]));
    }
    ThreadDutyMove(s.threads, t, s.threads[t]);
    TotalsSane(s, 0);
  }

  lemma NoTokenNoClaim(p: Pc, n: ConnId)
    requires PcRole(p).token == 0
    ensures Claims(p, n)
  {
  }

  /** Thread t moves to p, holding the same contexts. */
  lemma KeepContexts(s: State, s': State, t: nat, p: Pc)
    requires Contexts(s) && t < |s.threads| && s'.threads == s.threads[t := p] && s'.ops == s.ops && SamePools(s, s')
    requires PcRole(p).ctx == PcRole(s.threads[t]).ctx && PcKind(p)
    ensures Contexts(s')
  {
    hide AllCtx, PcRole, Pools, PoolKinds, PcKind, IoKind, RestDuties;
    MoveDuties(s, s', t, p);
    SamePoolsAlike(s, s');
  }

  lemma KeepAllTalks(s: State, s': State)
    requires Talks(s) && s'.log == s.log
    requires forall c: ConnId :: TalkOf(s', c) == TalkOf(s, c)
    ensures Talks(s')
  {
  }

  // ---------------------------------------------------------------- an accept completion is dequeued

  lemma AcceptedOk(cn: Conn, c: ConnId, r: Load, f: nat)
    requires Sane(r) && ConnOk(cn, Plus(NoLoad, r), f, true)
    ensures ConnOk(cn.(phase := Starting), Plus(CallerLoad(Branch(c), c), r), f, false)
    ensures !cn.live
  {
    hide Payloads;
  }

  lemma AcceptLoads(c: ConnId, d: ConnId)
    ensures PcLoad(PopFree(Branch(c)), d) == if d == c then CallerLoad(Branch(c), c) else NoLoad
    ensures PcLoad(Idle, d) == NoLoad
  {
  }

  lemma OnlyCompletion(s: State)
    requires AcceptOk(s) && s.accDone > 0
    ensures s.accPending == 0 && s.accDone == 1
  {
    hide Duties;
    TotalsSane(s, 0);
  }

  lemma TakeAcceptConns(s: State, t: nat)
    requires Ids(s) && Conns(s) && AcceptOk(s) && t < |s.threads| && s.threads[t] == Idle && s.accDone > 0
    ensures Conns(DoTakeAccept(s, t))
    ensures !s.conns[s.ctxConn].live
  {
    hide ConnOk, Plus, AcceptOk, PcLoad, Sane, Rest;
    var c, p := s.ctxConn, PopFree(Branch(s.ctxConn));
    var s' := DoTakeAccept(s, t);
    OnlyCompletion(s);
    assert ConnAt(s, c);
    Share(s, t, c);
    AcceptLoads(c, c);
    AcceptedOk(s.conns[c], c, Rest(s, t, c), multiset(s.free)[c]);
    Returned(s, s', t, p, c);
    forall d: ConnId | d < |s'.conns| ensures ConnAt(s', d) {
      if d != c {
        assert ConnAt(s, d);
        AcceptLoads(c, d);
        Untouched(s, s', t, p, d);
      }
    }
  }

  lemma NeverClaims(c: ConnId, n: ConnId)
    ensures Claims(PopFree(Branch(c)), n)
  {
  }

  lemma TakeAcceptDuties(s: State, t: nat)
    requires Ids(s) && AcceptOk(s) && t < |s.threads| && s.threads[t] == Idle && s.accDone > 0
    ensures AcceptOk(DoTakeAccept(s, t))
  {
    hide Duties, Claims, RestDuties;
    var s' := DoTakeAccept(s, t);
    var p := PopFree(Branch(s.ctxConn));
    assert PcRole(Idle) == NoRole && PcRole(p) == NoRole.(token := 1, aref := 1);
    hide PcRole;
    MoveDuties(s, s', t, p);
    assert Claims(p, s'.ctxConn) by { NeverClaims(s.ctxConn, s'.ctxConn); }
  }

  lemma NoCtx(c: ConnId)
    ensures PcRole(PopFree(Branch(c))).ctx == PcRole(Idle).ctx && PcKind(PopFree(Branch(c)))
  {
  }

  lemma KeepTakeAccept(s: State, t: nat)
    requires Inv(s) && t < |s.threads| && s.threads[t] == Idle && s.accDone > 0
    ensures s.ctxConn < |s.conns| && Inv(DoTakeAccept(s, t))
  {
    hide Conns, AcceptOk, Contexts, Talks, PcRole;
    var s', p := DoTakeAccept(s, t), PopFree(Branch(s.ctxConn));
    TakeAcceptConns(s, t);
    TakeAcceptDuties(s, t);
    NoCtx(s.ctxConn);
    KeepContexts(s, s', t, p);
    KeepTalks(s, s', s.ctxConn);
  }

  lemma KernelContexts(s: State, s': State)
    requires Contexts(s) && s' == s.(accPending := s'.accPending, accDone := s'.accDone)
    ensures Contexts(s')
  {
    hide AllCtx, PcKind, IoKind, Duties;
    SameTotals(s, s', 0);
    SamePoolsAlike(s, s');
  }

  lemma KeepKernelAccept(s: State)
    requires Inv(s) && s.accPending > 0
    ensures Inv(s.(accPending := s.accPending - 1, accDone := s.accDone + 1))
  {
    hide ConnOk, Scan, AllCtx, Total, Duties, Contexts, Talks, PcIds, IoIds, Claims;
    var s' := s.(accPending := s.accPending - 1, accDone := s.accDone + 1);
    SameTotals(s, s', 0);
    forall d: ConnId | d < |s'.conns| ensures ConnAt(s', d) {
      assert ConnAt(s, d);
      Alike(s, s', d);
    }
    hide Conns, IsTarget;
    KeepAllTalks(s, s');
    KernelContexts(s, s');
  }

  // ---------------------------------------------------------------- Accept takes a connection

  lemma ClaimOk(cn: Conn, l: Load, r: Load, f: nat)
    requires Sane(r) && Sane(l) && l.claim == 0 && ConnOk(cn, Plus(l, r), f, false) && f > 0
    ensures ConnOk(cn.(client := None, phase := Claimed), Plus(l.(claim := 1), r), f - 1, false)
    ensures !cn.live
  {
    hide Payloads;
  }

  lemma PopLoads(who: Caller, n: ConnId, d: ConnId)
    ensures PcLoad(RefAccept(who, n), d) ==
              if d == n then PcLoad(PopFree(who), d).(claim := 1) else PcLoad(PopFree(who), d)
    ensures PcLoad(PopFree(who), d).claim == 0
    ensures PcRole(RefAccept(who, n)) == PcRole(PopFree(who)) && PcRole(PopFree(who)).token == 1
  {
  }

  /** The token holder may point the accept context elsewhere. */
  lemma KeepClaiming(s: State, s': State, t: nat, who: Caller, n: ConnId)
    requires AcceptOk(s) && Contexts(s) && t < |s.threads| && s.threads[t] == PopFree(who)
    requires s'.threads == s.threads[t := RefAccept(who, n)] && s'.ops == s.ops && SamePools(s, s')
    requires s'.accPending == s.accPending && s'.accDone == s.accDone && s'.accRefs == s.accRefs && s'.ctxConn == n
    ensures AcceptOk(s') && Contexts(s')
  {
    PopLoads(who, n, 0);
    OnlyToken(s, t);
    hide PcRole;
    KeepContexts(s, s', t, RefAccept(who, n));
    hide Contexts;
    MoveDuties(s, s', t, RefAccept(who, n));
    forall u | 0 <= u < |s'.threads| ensures Claims(s'.threads[u], s'.ctxConn) {
      if u != t { NoTokenNoClaim(s.threads[u], n); }
    }
    hide Duties;
  }

  lemma FirstOut(free: seq<ConnId>)
    requires free != []
    ensures forall d: ConnId :: multiset(free)[d] == multiset(free[1..])[d] + (if d == free[0] then 1 else 0)
  {
    assert free == [free[0]] + free[1..];
  }

  lemma PopFreeConns(s: State, t: nat, who: Caller)
    requires Ids(s) && Conns(s) && AcceptOk(s) && t < |s.threads| && s.threads[t] == PopFree(who) && s.free != []
    ensures Conns(GoPopFree(s, t, who, true)) && s.free[0] < |s.conns| && !s.conns[s.free[0]].live
  {
    hide ConnOk, Plus, AcceptOk, PcLoad, PcRole, Sane, Rest;
    var n := s.free[0];
    assert n in s.free;
    var s', p := GoPopFree(s, t, who, true), RefAccept(who, s.free[0]);
    PopLoads(who, n, n);
    OnlyToken(s, t);
    FirstOut(s.free);
    assert ConnAt(s, n);
    Share(s, t, n);
    ClaimOk(s.conns[n], PcLoad(PopFree(who), n), Rest(s, t, n), multiset(s.free)[n]);
    Returned(s, s', t, p, n);
    forall d: ConnId | d < |s'.conns| ensures ConnAt(s', d) {
      if d != n {
        assert ConnAt(s, d);
        PopLoads(who, n, d);
        Untouched(s, s', t, p, d);
      }
    }
  }

  lemma KeepPopFree(s: State, t: nat, ok: bool)
    requires Inv(s) && t < |s.threads| && s.threads[t].PopFree? && s.free != []
    ensures Inv(GoPopFree(s, t, s.threads[t].who, ok))
  {
    var who, n := s.threads[t].who, s.free[0];
    var s' := GoPopFree(s, t, who, ok);
    PopFreeConns(s, t, who);
    hide Conns, AllCtx, Scan;
    OnlyToken(s, t);
    KeepClaiming(s, s', t, who, n);
    hide AcceptOk, Contexts;
    KeepTalks(s, s', n);
    hide Talks;
    PopFreeIds(s, t, who);
  }

  lemma PopFreeIds(s: State, t: nat, who: Caller)
    requires Ids(s) && t < |s.threads| && s.threads[t] == PopFree(who) && s.free != []
    requires s.accPending + s.accDone == 0
    ensures Ids(GoPopFree(s, t, who, true))
  {
    assert s.free[0] in s.free;
    assert forall n | n in s.free[1..] :: n in s.free;
  }

  // ---------------------------------------------------------------- Accept creates a connection

  lemma NobodyThere(ts: seq<Pc>, c: ConnId)
    requires forall t | 0 <= t < |ts| :: PcIds(ts[t], c)
    ensures ThreadTotal(ts, c) == NoLoad
  {
    forall i: nat | i < |ts| ensures ThreadLoads(ts, c)(i) == NoLoad { UnknownConn(ts[i], c); }
    hide PcLoad, PcIds, Sum;
    SumNone(ThreadLoads(ts, c), |ts|);
  }

  lemma NoneFirst(a: Load)
    ensures Plus(NoLoad, a) == a
  {
    assert multiset{} + a.data == a.data;
  }

  lemma UnknownConn(p: Pc, c: ConnId)
    requires PcIds(p, c)
    ensures PcLoad(p, c) == NoLoad
  {
  }

  lemma NothingThere(os: seq<Io>, c: ConnId)
    requires forall i | 0 <= i < |os| :: IoIds(os[i], c)
    ensures IoTotal(os, c) == NoLoad
  {
    forall i: nat | i < |os| ensures IoLoads(os, c)(i) == NoLoad {}
    hide IoLoad, IoIds, Sum;
    SumNone(IoLoads(os, c), |os|);
  }

  lemma NewConnOk(r: Load)
    requires Plus(NoLoad, r) == NoLoad
    ensures ConnOk(NewConn, Plus(NoLoad.(claim := 1), r), 0, false)
  {
    assert multiset(NewConn.arrived[|NewConn.given|..]) == multiset{} + multiset{};
  }

  lemma UnknownTotal(s: State, c: ConnId)
    requires forall t | 0 <= t < |s.threads| :: PcIds(s.threads[t], c)
    requires forall i | 0 <= i < |s.ops| :: IoIds(s.ops[i], c)
    ensures Total(s, c) == NoLoad
  {
    hide PcIds, IoIds, ThreadTotal, IoTotal;
    NobodyThere(s.threads, c);
    NothingThere(s.ops, c);
    NoneFirst(NoLoad);
  }

  lemma NewConnHeldByNobody(s: State, t: nat, who: Caller)
    requires Ids(s) && t < |s.threads| && s.threads[t] == PopFree(who)
    ensures Plus(NoLoad, Rest(s, t, |s.conns|)) == NoLoad && PcLoad(PopFree(who), |s.conns|) == NoLoad
  {
    var n := |s.conns|;
    hide Plus, Total, Rest, PcLoad, PcIds, IoIds, Sane;
    UnknownTotal(s, n);
    UnknownConn(s.threads[t], n);
    hide Ids;
    Move(s, s, t, s.threads[t], n);
  }

  lemma NotFreeYet(s: State)
    requires s.free == []
    ensures forall n: ConnId :: multiset(s.free)[n] == 0
  {
  }

  lemma CreateConns(s: State, t: nat, who: Caller)
    requires Ids(s) && Conns(s) && AcceptOk(s) && t < |s.threads| && s.threads[t] == PopFree(who) && s.free == []
    ensures Conns(GoPopFree(s, t, who, true))
  {
    hide ConnOk, Plus, PcLoad, PcRole, Sane, Rest, AcceptOk;
    var n := |s.conns|;
    var s', p := GoPopFree(s, t, who, true), RefAccept(who, |s.conns|);
    PopLoads(who, n, n);
    OnlyToken(s, t);
    NewConnHeldByNobody(s, t, who);
    NewConnOk(Rest(s, t, n));
    NotFreeYet(s);
    Returned(s, s', t, p, n);
    hide Ids;
    forall d: ConnId | d < |s'.conns| ensures ConnAt(s', d) {
      if d != n {
        assert ConnAt(s, d);
        PopLoads(who, n, d);
        Untouched(s, s', t, p, d);
      }
    }
  }

  lemma CreateDuties(s: State, t: nat, who: Caller)
    requires AcceptOk(s) && Contexts(s) && t < |s.threads| && s.threads[t] == PopFree(who) && s.free == []
    ensures var s' := GoPopFree(s, t, who, true); AcceptOk(s') && Contexts(s') && s'.accPending + s'.accDone == 0
  {
    var s' := GoPopFree(s, t, who, true);
    hide AllCtx, PcRole;
    PopLoads(who, 0, 0);
    OnlyToken(s, t);
    hide AcceptOk, Contexts;
    KeepClaiming(s, s', t, who, |s.conns|);
  }

  lemma CreateTalks(s: State, t: nat, who: Caller)
    requires Talks(s) && t < |s.threads| && s.free == []
    ensures Talks(GoPopFree(s, t, who, true))
  {
    hide Scan;
    var s' := GoPopFree(s, t, who, true);
    forall c: ConnId ensures TalkOf(s', c) == TalkOf(s, c) {}
    KeepAllTalks(s, s');
  }

  lemma MoreIds(p: Pc, n: nat)
    requires PcIds(p, n)
    ensures PcIds(p, n + 1)
  {
  }

  lemma CreateIds(s: State, t: nat, who: Caller)
    requires Ids(s) && t < |s.threads| && s.threads[t] == PopFree(who) && s.free == []
    requires s.accPending + s.accDone == 0
    ensures Ids(GoPopFree(s, t, who, true))
  {
    var s' := GoPopFree(s, t, who, true);
    forall u | 0 <= u < |s'.threads| ensures PcIds(s'.threads[u], |s'.conns|) {
      if u != t { MoreIds(s.threads[u], |s.conns|); } else { assert PcIds(s.threads[t], |s.conns|); }
    }
    hide PcIds;
  }

  lemma KeepCreate(s: State, t: nat)
    requires Inv(s) && t < |s.threads| && s.threads[t].PopFree? && s.free == []
    ensures Inv(GoPopFree(s, t, s.threads[t].who, true))
  {
    var who := s.threads[t].who;
    hide Conns, AcceptOk, Contexts, Talks;
    CreateConns(s, t, who);
    CreateDuties(s, t, who);
    CreateTalks(s, t, who);
    CreateIds(s, t, who);
    hide Ids;
  }

  lemma NoConnRoles(who: Caller)
    ensures PcRole(AfterAcceptCall(who)).ctx == PcRole(PopFree(who)).ctx
    ensures PcRole(AfterAcceptCall(who)).aref == PcRole(PopFree(who)).aref
    ensures PcRole(AfterAcceptCall(who)).token == 0 <= PcRole(PopFree(who)).token
    ensures PcRole(AfterAcceptCall(who)).starter <= PcRole(PopFree(who)).starter
    ensures PcKind(AfterAcceptCall(who)) && forall n :: Claims(AfterAcceptCall(who), n)
  {
  }

  lemma NoConnLoads(who: Caller, c: ConnId)
    ensures PcLoad(AfterAcceptCall(who), c) == PcLoad(PopFree(who), c)
  {
  }

  /** A thread moves without its connections or any list being touched. */
  lemma KeepConnsStill(s: State, s': State, t: nat, p: Pc)
    requires Conns(s) && t < |s.threads| && s'.threads == s.threads[t := p] && s'.ops == s.ops
    requires s'.conns == s.conns && SameLists(s, s')
    requires forall c: ConnId :: PcLoad(p, c) == PcLoad(s.threads[t], c)
    ensures Conns(s')
  {
    hide ConnOk, Plus, PcLoad, Rest, Sane;
    forall d: ConnId | d < |s'.conns| ensures ConnAt(s', d) {
      assert ConnAt(s, d);
      Move(s, s', t, p, d);
    }
  }

  /** A thread moves, touching only the acceptor. */
  lemma KeepStill(s: State, s': State, t: nat, p: Pc)
    requires Inv(s) && t < |s.threads|
    requires s' == s.(threads := s.threads[t := p], accRefs := s'.accRefs, running := s'.running)
    requires forall c: ConnId :: PcLoad(p, c) == PcLoad(s.threads[t], c)
    requires PcRole(p).ctx == PcRole(s.threads[t]).ctx && PcKind(p) && PcIds(p, |s.conns|)
    requires AcceptOk(s')
    ensures Inv(s')
  {
    hide AcceptOk, Conns, Contexts, Talks, PcRole;
    KeepConnsStill(s, s', t, p);
    hide PcLoad;
    KeepContexts(s, s', t, p);
    KeepAllTalks(s, s');
    KeepIds(s, s', t, p);
  }

  /** A thread gives up or takes acceptor references, but no token. */
  lemma KeepAccept(s: State, s': State, t: nat, p: Pc)
    requires AcceptOk(s) && t < |s.threads| && s'.threads == s.threads[t := p] && s'.ops == s.ops && SameLists(s, s')
    requires var q := s.threads[t];
      PcRole(p).token <= PcRole(q).token && PcRole(p).starter <= PcRole(q).starter
      && s'.accRefs - s.accRefs == PcRole(p).aref - PcRole(q).aref
    requires Claims(p, s.ctxConn)
    ensures AcceptOk(s')
  {
    hide PcRole;
    MoveDuties(s, s', t, p);
    hide Duties;
  }

  lemma KeepNoConn(s: State, t: nat)
    requires Inv(s) && t < |s.threads| && s.threads[t].PopFree? && s.free == []
    ensures Inv(GoPopFree(s, t, s.threads[t].who, false))
  {
    var who := s.threads[t].who;
    var p := AfterAcceptCall(who);
    var s' := GoPopFree(s, t, who, false);
    hide Conns, AcceptOk, Contexts, Talks, PcLoad, PcRole;
    forall c: ConnId ensures PcLoad(p, c) == PcLoad(s.threads[t], c) { NoConnLoads(who, c); }
    NoConnRoles(who);
    Stand(s, t);
    KeepAccept(s, s', t, p);
    KeepStill(s, s', t, p);
  }

  // ---------------------------------------------------------------- the acceptor's own reference, and AcceptEx

  lemma RefLoads(who: Caller, n: ConnId, c: ConnId)
    ensures PcLoad(PostAccept(who, n), c) == PcLoad(RefAccept(who, n), c)
    ensures PcRole(PostAccept(who, n)) == PcRole(RefAccept(who, n)).(aref := PcRole(RefAccept(who, n)).aref + 1)
  {
  }

  lemma KeepRefAccept(s: State, t: nat)
    requires Inv(s) && t < |s.threads| && s.threads[t].RefAccept?
    ensures var q := s.threads[t]; Inv(GoRefAccept(s, t, q.who, q.n))
  {
    var q := s.threads[t];
    var p := PostAccept(q.who, q.n);
    var s' := GoRefAccept(s, t, q.who, q.n);
    hide Conns, AcceptOk, Contexts, Talks, PcLoad, PcRole;
    forall c: ConnId ensures PcLoad(p, c) == PcLoad(q, c) { RefLoads(q.who, q.n, c); }
    RefLoads(q.who, q.n, 0);
    Stand(s, t);
    KeepAccept(s, s', t, p);
    KeepStill(s, s', t, p);
  }

  lemma PostedAcceptOk(cn: Conn, l: Load, r: Load, f: nat)
    requires Sane(r) && Sane(l) && l.claim == 1 && ConnOk(cn, Plus(l, r), f, false)
    ensures ConnOk(cn.(phase := Accepting), Plus(l.(claim := 0), r), f, true)
    ensures !cn.live
  {
    hide Payloads;
  }

  lemma PostLoads(who: Caller, n: ConnId, d: ConnId)
    ensures PcLoad(PostAccept(who, n), d) == PcLoad(AfterAcceptCall(who), d).(claim := if d == n then 1 else 0)
    ensures PcLoad(AfterAcceptCall(who), d).claim == 0
    ensures PcRole(PostAccept(who, n)).token == 1
    ensures PcRole(AfterAcceptCall(who)).ctx == PcRole(PostAccept(who, n)).ctx
    ensures PcRole(AfterAcceptCall(who)).aref == PcRole(PostAccept(who, n)).aref - 1
    ensures PcRole(AfterAcceptCall(who)).token == 0
    ensures PcRole(AfterAcceptCall(who)).starter <= PcRole(PostAccept(who, n)).starter
  {
  }

  /** The connection a thread is passing to AcceptEx is the accept context's. */
  lemma Named(s: State, t: nat)
    requires Ids(s) && AcceptOk(s) && t < |s.threads| && s.threads[t].PostAccept?
    ensures s.threads[t].n == s.ctxConn < |s.conns| && PcIds(s.threads[t], |s.conns|)
  {
    assert Claims(s.threads[t], s.ctxConn) && PcIds(s.threads[t], |s.conns|);
  }

  lemma PostAcceptConns(s: State, t: nat)
    requires Ids(s) && Conns(s) && AcceptOk(s) && t < |s.threads| && s.threads[t].PostAccept?
    ensures var q := s.threads[t]; q.n < |s.conns| && !s.conns[q.n].live && Conns(GoPostAccept(s, t, q.who, q.n))
  {
    hide ConnOk, Plus, AcceptOk, PcLoad, PcRole, Sane, Rest, AfterAcceptCall;
    var PostAccept(who, n) := s.threads[t];
    Named(s, t);
    var s', p := GoPostAccept(s, t, who, n), AfterAcceptCall(who);
    PostLoads(who, n, n);
    OnlyToken(s, t);
    assert ConnAt(s, n);
    Share(s, t, n);
    PostedAcceptOk(s.conns[n], PcLoad(PostAccept(who, n), n), Rest(s, t, n), multiset(s.free)[n]);
    Returned(s, s', t, p, n);
    forall d: ConnId | d < |s'.conns| ensures ConnAt(s', d) {
      if d != n {
        assert ConnAt(s, d);
        PostLoads(who, n, d);
        Untouched(s, s', t, p, d);
      }
    }
  }

  lemma PostAcceptDuties(s: State, t: nat)
    requires AcceptOk(s) && Contexts(s) && t < |s.threads| && s.threads[t].PostAccept? && s.threads[t].n < |s.conns|
    ensures var q := s.threads[t]; var s' := GoPostAccept(s, t, q.who, q.n); AcceptOk(s') && Contexts(s')
  {
    var PostAccept(who, n) := s.threads[t];
    var s' := GoPostAccept(s, t, who, n);
    var p := AfterAcceptCall(who);
    NoConnRoles(who);
    PostLoads(who, n, 0);
    OnlyToken(s, t);
    hide PcRole, AllCtx, PcLoad;
    KeepContexts(s, s', t, p);
    hide Contexts;
    MoveDuties(s, s', t, p);
    hide Duties;
  }

  lemma AfterIds(who: Caller, c: ConnId, n: nat)
    requires PcIds(PostAccept(who, c), n)
    ensures PcIds(AfterAcceptCall(who), n)
  {
  }

  lemma PostedIds(s: State, s': State, t: nat, p: Pc)
    requires Ids(s) && t < |s.threads| && s'.threads == s.threads[t := p] && s'.ops == s.ops && PcIds(p, |s.conns|)
    requires |s'.conns| == |s.conns| && s'.free == s.free && s'.ctxConn == s.ctxConn < |s.conns|
        && s'.workers == s.workers
    ensures Ids(s')
  {
    hide PcIds, IoIds;
  }

  lemma KeepPostAccept(s: State, t: nat)
    requires Inv(s) && t < |s.threads| && s.threads[t].PostAccept?
    ensures var q := s.threads[t]; q.n < |s.conns| && Inv(GoPostAccept(s, t, q.who, q.n))
  {
    hide Conns, AcceptOk, Contexts, Talks, PcIds, AfterAcceptCall;
    var PostAccept(who, n) := s.threads[t];
    Named(s, t);
    var s', p := GoPostAccept(s, t, who, n), AfterAcceptCall(who);
    PostAcceptConns(s, t);
    PostAcceptDuties(s, t);
    KeepTalks(s, s', n);
    AfterIds(who, n, |s.conns|);
    hide TalkOf;
    PostedIds(s, s', t, p);
  }

  /** Program counters that hold no connection. */
  lemma RestingLoads(p: Pc, c: ConnId)
    requires p == Idle || p == AcDec || p == StWait || p == PopFree(Starter)
    ensures PcLoad(p, c) == NoLoad && PcRole(p).ctx == multiset{}
  {
  }

  lemma KeepAcDec(s: State, t: nat)
    requires Inv(s) && t < |s.threads| && s.threads[t].AcDec?
    ensures Inv(GoAcDec(s, t))
  {
    var s' := GoAcDec(s, t);
    hide Conns, AcceptOk, Contexts, Talks, PcLoad;
    forall c: ConnId ensures PcLoad(Idle, c) == PcLoad(AcDec, c) { RestingLoads(Idle, c); RestingLoads(AcDec, c); }
    KeepAccept(s, s', t, Idle);
    KeepStill(s, s', t, Idle);
  }

  // ---------------------------------------------------------------- Start

  lemma WaitRoles(n: ConnId)
    ensures PcRole(StWait) == NoRole.(starter := 1) && PcRole(PopFree(Starter)) == NoRole.(token := 1, starter := 1)
    ensures Claims(PopFree(Starter), n)
  {
  }

  lemma StWaitAccept(s: State, t: nat)
    requires AcceptOk(s) && t < |s.threads| && s.threads[t].StWait? && s.accRefs == 0
    ensures AcceptOk(At(s, t, PopFree(Starter)))
  {
    hide Duties, RestDuties, Claims;
    var p := PopFree(Starter);
    WaitRoles(s.ctxConn);
    hide PcRole;
    MoveDuties(s, At(s, t, p), t, p);
    TotalsSane(s, 0);
  }

  lemma KeepStWait(s: State, t: nat)
    requires Inv(s) && t < |s.threads| && s.threads[t].StWait? && s.accRefs == 0
    ensures Inv(At(s, t, PopFree(Starter)))
  {
    var p := PopFree(Starter);
    StWaitAccept(s, t);
    hide Conns, AcceptOk, Contexts, Talks, PcLoad, PcRole;
    forall c: ConnId ensures PcLoad(p, c) == PcLoad(StWait, c) { RestingLoads(p, c); RestingLoads(StWait, c); }
    RestingLoads(p, 0);
    RestingLoads(StWait, 0);
    KeepStill(s, At(s, t, p), t, p);
  }

  lemma {:induction false} NobodyStarts(ts: seq<Pc>, n: nat)
    requires n <= |ts| && forall t | 0 <= t < |ts| :: !InStart(ts[t])
    ensures Join(ThreadRoles(ts), n, NONE).starter == 0
  {
    hide PcRole, InStart;
    if n > 0 {
      NobodyStarts(ts, n - 1);
      NotInStart(ts[n - 1]);
      NoMoreStarters(ThreadRoles(ts), n);
    }
  }

  lemma NoMoreStarters(f: nat -> Role, n: nat)
    requires n > 0 && Join(f, n - 1, NONE).starter == 0 == f(n - 1).starter
    ensures Join(f, n, NONE).starter == 0
  {
  }

  lemma NotInStart(p: Pc)
    requires !InStart(p)
    ensures PcRole(p).starter == 0
  {
  }

  lemma NotStarting(o: Io)
    ensures IoRole(o).starter == 0
  {
  }

  lemma {:induction false} IosNeverStart(os: seq<Io>, n: nat)
    requires n <= |os|
    ensures Join(IoRoles(os), n, NONE).starter == 0
  {
    hide IoRole;
    if n > 0 {
      IosNeverStart(os, n - 1);
      NotStarting(os[n - 1]);
      NoMoreStarters(IoRoles(os), n);
    }
  }

  lemma NoStarters(s: State)
    requires forall u | 0 <= u < |s.threads| :: !InStart(s.threads[u])
    ensures Duties(s).starter == 0
  {
    hide InStart, Join;
    NobodyStarts(s.threads, |s.threads|);
    IosNeverStart(s.ops, |s.ops|);
  }

  lemma StartRoles(n: ConnId)
    ensures PcRole(Idle) == NoRole && PcRole(StWait) == NoRole.(starter := 1) && Claims(StWait, n)
  {
  }

  lemma StartAccept(s: State, t: nat)
    requires AcceptOk(s) && t < |s.threads| && s.threads[t] == Idle
    requires forall u | 0 <= u < |s.threads| :: !InStart(s.threads[u])
    ensures AcceptOk(At(s.(running := true), t, StWait))
  {
    hide InStart, Join, PcRole, Claims, Duties, RestDuties;
    var s' := At(s.(running := true), t, StWait);
    NoStarters(s);
    StartRoles(s.ctxConn);
    MoveDuties(s, s', t, StWait);
  }

  lemma KeepAppStart(s: State, t: nat)
    requires Inv(s) && t < |s.threads| && s.threads[t] == Idle
    requires forall u | 0 <= u < |s.threads| :: !InStart(s.threads[u])
    ensures Inv(At(s.(running := true), t, StWait))
  {
    StartAccept(s, t);
    hide Conns, AcceptOk, Contexts, Talks, PcLoad, PcRole;
    forall c: ConnId ensures PcLoad(StWait, c) == PcLoad(Idle, c) { RestingLoads(Idle, c); RestingLoads(StWait, c); }
    RestingLoads(Idle, 0);
    RestingLoads(StWait, 0);
    KeepStill(s, At(s.(running := true), t, StWait), t, StWait);
  }

  lemma KeepAppStop(s: State)
    requires Inv(s)
    ensures Inv(s.(running := false))
  {
    var s' := s.(running := false);
    hide ConnOk, Scan, AllCtx;
    forall d: ConnId | d < |s'.conns| ensures ConnAt(s', d) {
      assert ConnAt(s, d);
      SameTotals(s, s', d);
    }
    hide Conns;
    KeepRest(s, s');
    KeepAllTalks(s, s');
  }
}
