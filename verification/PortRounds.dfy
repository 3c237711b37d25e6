/**
 * What the branches of a worker and the calls of the application achieve when their thread is not interrupted. From
 * every reachable state the thread can bring the completion or the call to its end, in the number of steps given, and
 * all that it has changed by then is said here.
 */
module PortRounds {
  import opened Bytes
  import opened CompletionPort
  import opened PortInvariant
  import opened PortRuns
  import opened PortLoad
  import opened PortSafety

  /** s with thread t at p. */
  function Put(s: State, t: nat, p: Pc): (r: State)
    requires t < |s.threads|
  {
    s.(threads := s.threads[t := p])
  }

  lemma PutTwice(s: State, t: nat, p: Pc, q: Pc)
    requires t < |s.threads|
    ensures Put(Put(s, t, p), t, q) == Put(s, t, q)
    ensures s.threads[t] == q ==> Put(s, t, q) == s
  {
    assert s.threads[t := p][t := q] == s.threads[t := q];
    if s.threads[t] == q { assert s.threads[t := q] == s.threads; }
  }

  /** The same threads, the same free list and as many connections. */
  ghost predicate Alike(a: State, b: State) {
    a.threads == b.threads && a.free == b.free && |a.conns| == |b.conns|
  }

  lemma SetSame(s: State, c: ConnId, cn: Conn)
    requires c < |s.conns|
    ensures Alike(Set(s, c, cn), s) && Set(s, c, cn).conns[c] == cn
    ensures Set(s, c, cn).inPool == s.inPool && Set(s, c, cn).inCount == s.inCount
  {
  }

  lemma BlameSame(s: State, c: ConnId, cause: Cause)
    ensures Alike(Blame(s, c, cause), s) && Blame(s, c, cause).conns == s.conns
  {
  }

  lemma SetTwice(s: State, c: ConnId, a: Conn, b: Conn)
    requires c < |s.conns|
    ensures Set(Set(s, c, a), c, b) == Set(s, c, b)
    ensures s.conns[c] == b ==> Set(s, c, b) == s
  {
    assert s.conns[c := a][c := b] == s.conns[c := b];
    if s.conns[c] == b { assert s.conns[c := b] == s.conns; }
  }

  /** What a thread's step may touch exists. */
  ghost predicate Whole(s: State, t: nat) {
    t < |s.threads| && forall n | n in s.free :: n < |s.conns|
  }

  /** The next step of thread t leads from s to s'. */
  ghost predicate OneTurn(s: State, t: nat, s': State) {
    Enabled(s, Go(t, true), ORDERLY) && Apply(s, Go(t, true), ORDERLY) == s'
  }

  /** n uninterrupted steps of thread t, in which all calls succeed, lead from s to s'. */
  ghost predicate Turns(s: State, t: nat, n: nat, s': State)
    decreases n
  {
    if n == 0 then s == s' else Enabled(s, Go(t, true), ORDERLY) && Turns(Apply(s, Go(t, true), ORDERLY), t, n - 1, s')
  }

  lemma Chain(a: State, t: nat, b: State, n: nat, s': State)
    requires OneTurn(a, t, b) && Turns(b, t, n, s')
    ensures Turns(a, t, n + 1, s')
  {
  }

  lemma TwoTurns(a: State, t: nat, b: State, s': State)
    requires OneTurn(a, t, b) && OneTurn(b, t, s')
    ensures Turns(a, t, 2, s')
  {
    assert Turns(s', t, 0, s');
    hide OneTurn, Turns;
    Chain(b, t, s', 0, s');
    Chain(a, t, b, 1, s');
  }

  lemma {:induction false} MoreTurns(a: State, t: nat, m: nat, b: State, n: nat, s': State)
    requires Turns(a, t, m, b) && Turns(b, t, n, s')
    ensures Turns(a, t, m + n, s')
    decreases m
  {
    hide Enabled, Apply;
    if m > 0 {
      MoreTurns(Apply(a, Go(t, true), ORDERLY), t, m - 1, b, n, s');
    }
  }

  // ---------------------------------------------------------------- what single steps make of a state

  function Given(s: State, c: ConnId, data: Chunk): (r: State)
    requires c < |s.conns|
  {
    Set(s, c, s.conns[c].(given := s.conns[c].given + [data])).(log := s.log + [OnData(c, data)])
  }

  function Counted(s: State, c: ConnId, after: After): (r: State)
    requires c < |s.conns|
  {
    var cn := s.conns[c];
    Set(s, c, cn.(iorefs := cn.iorefs + 1, phase := if after.AfterAccept? then Active else cn.phase))
  }

  function Released(s: State, c: ConnId): (r: State)
    requires c < |s.conns|
  {
    Set(s, c, s.conns[c].(iorefs := s.conns[c].iorefs - 1))
  }

  function Popped(s: State): (r: State)
    requires s.free != [] && s.free[0] < |s.conns|
  {
    var n := s.free[0];
    Set(s, n, s.conns[n].(client := None, phase := Claimed)).(free := s.free[1..], ctxConn := n)
  }

  function Made(s: State): (r: State) {
    s.(conns := s.conns + [NewConn], ctxConn := |s.conns|)
  }

  function Listening(s: State, n: ConnId): (r: State)
    requires n < |s.conns|
  {
    Set(s, n, s.conns[n].(phase := Accepting)).(accPending := s.accPending + 1)
  }

  function Opened(s: State, c: ConnId): (r: State)
    requires c < |s.conns|
  {
    var cn := s.conns[c].(live := true, arrived := [], given := []);
    SetCauses(Set(s, c, cn).(log := s.log + [OnConnection(c)]), c, {})
  }

  // ---------------------------------------------------------------- single steps

  lemma TurnGot(s: State, t: nat, c: ConnId, x: Ctx, data: Chunk)
    requires Whole(s, t) && PcIds(RvGot(c, x, data), |s.conns|) && data != []
    ensures OneTurn(Put(s, t, RvGot(c, x, data)), t,
                    Put(Given(s, c, data), t, RvInc(c, x, AfterRecv)))
  {
    var was, now := Put(s, t, RvGot(c, x, data)), Given(s, c, data);
    PutTwice(now, t, RvGot(c, x, data), RvInc(c, x, AfterRecv));
    assert Advance(was, t, true) == Put(now, t, RvInc(c, x, AfterRecv));
  }

  lemma TurnEnd(s: State, t: nat, c: ConnId, x: Ctx)
    requires Whole(s, t) && PcIds(RvGot(c, x, []), |s.conns|)
    ensures OneTurn(Put(s, t, RvGot(c, x, [])), t,
                    Put(Blame(s.(inPool := [x] + s.inPool), c, PeerClosed), t, DsCas(c, ToDebt(RecvRef))))
  {
    var was, now := Put(s, t, RvGot(c, x, [])), Blame(s.(inPool := [x] + s.inPool), c, PeerClosed);
    PutTwice(now, t, RvGot(c, x, []), DsCas(c, ToDebt(RecvRef)));
    assert Advance(was, t, true) == Put(now, t, DsCas(c, ToDebt(RecvRef)));
  }

  lemma TurnCount(s: State, t: nat, c: ConnId, x: Ctx, after: After)
    requires Whole(s, t) && PcIds(RvInc(c, x, after), |s.conns|)
    ensures OneTurn(Put(s, t, RvInc(c, x, after)), t,
                    Put(Counted(s, c, after), t, RvPost(c, x, after)))
  {
    var was, now := Put(s, t, RvInc(c, x, after)), Counted(s, c, after);
    PutTwice(now, t, RvInc(c, x, after), RvPost(c, x, after));
    assert Advance(was, t, true) == Put(now, t, RvPost(c, x, after));
  }

  lemma TurnPost(s: State, t: nat, c: ConnId, x: Ctx, after: After)
    requires Whole(s, t) && PcIds(RvPost(c, x, after), |s.conns|)
    ensures OneTurn(Put(s, t, RvPost(c, x, after)), t,
                    Put(s.(ops := s.ops + [Recv(c, x, false, [])]), t,
                      if after.AfterAccept? then AcDec else CnDec(c, RecvRef)))
  {
    var was, now := Put(s, t, RvPost(c, x, after)), s.(ops := s.ops + [Recv(c, x, false, [])]);
    PutTwice(now, t, RvPost(c, x, after), if after.AfterAccept? then AcDec else CnDec(c, RecvRef));
    assert Advance(was, t, true) == Put(now, t, if after.AfterAccept? then AcDec else CnDec(c, RecvRef));
  }

  lemma TurnRelease(s: State, t: nat, c: ConnId, d: Debt)
    requires Whole(s, t) && PcIds(CnDec(c, d), |s.conns|) && (d.SendRef? || d.RecvRef?)
    ensures OneTurn(Put(s, t, CnDec(c, d)), t,
                    Put(Released(s, c), t, Idle))
  {
    var was, now := Put(s, t, CnDec(c, d)), Released(s, c);
    PutTwice(now, t, CnDec(c, d), Idle);
    assert Advance(was, t, true) == Put(now, t, Idle);
  }

  lemma TurnSwap(s: State, t: nat, c: ConnId, k: Then)
    requires Whole(s, t) && PcIds(DsCas(c, k), |s.conns|)
    requires c < |s.conns| && s.conns[c].connected && !s.conns[c].phase.Starting?
    ensures OneTurn(Put(s, t, DsCas(c, k)), t,
                    Put(Set(s, c, s.conns[c].(connected := false, phase := Closing)), t, DsPost(c, k)))
  {
    var was, now := Put(s, t, DsCas(c, k)), Set(s, c, s.conns[c].(connected := false, phase := Closing));
    PutTwice(now, t, DsCas(c, k), DsPost(c, k));
    assert Advance(was, t, true) == Put(now, t, DsPost(c, k));
  }

  lemma TurnLeave(s: State, t: nat, c: ConnId, k: Then)
    requires Whole(s, t) && PcIds(DsPost(c, k), |s.conns|)
    ensures OneTurn(Put(s, t, DsPost(c, k)), t,
                    Put(Set(s, c, s.conns[c].(discPending := s.conns[c].discPending + 1)), t, Resume(c, k)))
  {
    var was, now := Put(s, t, DsPost(c, k)), Set(s, c, s.conns[c].(discPending := s.conns[c].discPending + 1));
    PutTwice(now, t, DsPost(c, k), Resume(c, k));
    assert Advance(was, t, true) == Put(now, t, Resume(c, k));
  }

  lemma TurnBusy(s: State, t: nat, c: ConnId)
    requires Whole(s, t) && PcIds(DiTest(c), |s.conns|)
    requires c < |s.conns| && s.conns[c].iorefs != 0
    ensures OneTurn(Put(s, t, DiTest(c)), t,
                    Put(s, t, DiRepost(c)))
  {
    var was, now := Put(s, t, DiTest(c)), s;
    PutTwice(now, t, DiTest(c), DiRepost(c));
    assert Advance(was, t, true) == Put(now, t, DiRepost(c));
  }

  lemma TurnDrained(s: State, t: nat, c: ConnId)
    requires Whole(s, t) && PcIds(DiTest(c), |s.conns|)
    requires c < |s.conns| && s.conns[c].iorefs == 0
    ensures OneTurn(Put(s, t, DiTest(c)), t,
                    Put(Set(s, c, s.conns[c].(phase := Drained)), t, DiCall(c)))
  {
    var was, now := Put(s, t, DiTest(c)), Set(s, c, s.conns[c].(phase := Drained));
    PutTwice(now, t, DiTest(c), DiCall(c));
    assert Advance(was, t, true) == Put(now, t, DiCall(c));
  }

  lemma TurnRepost(s: State, t: nat, c: ConnId)
    requires Whole(s, t) && PcIds(DiRepost(c), |s.conns|)
    ensures OneTurn(Put(s, t, DiRepost(c)), t,
                    Put(Set(s, c, s.conns[c].(discDone := s.conns[c].discDone + 1)), t, Idle))
  {
    var was, now := Put(s, t, DiRepost(c)), Set(s, c, s.conns[c].(discDone := s.conns[c].discDone + 1));
    PutTwice(now, t, DiRepost(c), Idle);
    assert Advance(was, t, true) == Put(now, t, Idle);
  }

  lemma TurnReport(s: State, t: nat, c: ConnId)
    requires Whole(s, t) && PcIds(DiCall(c), |s.conns|)
    ensures OneTurn(Put(s, t, DiCall(c)), t,
                    Put(Set(s, c, s.conns[c].(phase := Down)).(log := s.log + [OnDisconnect(c)]), t, Idle))
  {
    var was, now := Put(s, t, DiCall(c)), Set(s, c, s.conns[c].(phase := Down)).(log := s.log + [OnDisconnect(c)]);
    PutTwice(now, t, DiCall(c), Idle);
    assert Advance(was, t, true) == Put(now, t, Idle);
  }

  lemma TurnSent(s: State, t: nat, c: ConnId, x: Ctx)
    requires Whole(s, t) && PcIds(SnGot(c, x), |s.conns|)
    ensures OneTurn(Put(s, t, SnGot(c, x)), t,
                    Put(s.(outPool := [x] + s.outPool), t, CnDec(c, SendRef)))
  {
    var was, now := Put(s, t, SnGot(c, x)), s.(outPool := [x] + s.outPool);
    PutTwice(now, t, SnGot(c, x), CnDec(c, SendRef));
    assert Advance(was, t, true) == Put(now, t, CnDec(c, SendRef));
  }

  lemma TurnPass(s: State, t: nat, c: ConnId, x: Ctx)
    requires Whole(s, t) && PcIds(SdTest(c, x), |s.conns|)
    requires c < |s.conns| && s.conns[c].iorefs <= s.conns[c].refmax
    ensures OneTurn(Put(s, t, SdTest(c, x)), t,
                    Put(Set(s, c, s.conns[c].(checked := Larger(s.conns[c].checked, s.conns[c].refmax))), t,
                      SdInc(c, x)))
  {
    var was, now := Put(s, t, SdTest(c, x)), Set(s, c, s.conns[c].(checked := Larger(s.conns[c].checked,
        s.conns[c].refmax)));
    PutTwice(now, t, SdTest(c, x), SdInc(c, x));
    assert Advance(was, t, true) == Put(now, t, SdInc(c, x));
  }

  lemma TurnOver(s: State, t: nat, c: ConnId, x: Ctx)
    requires Whole(s, t) && c < |s.conns| && s.conns[c].iorefs > s.conns[c].refmax
    ensures var cn := s.conns[c];
      var a := Settle(Blame(s, c, Crowded(cn.iorefs, cn.refmax)), t, c, x, Stopped(cn.iorefs, cn.refmax));
      OneTurn(Put(s, t, SdTest(c, x)), t, Put(a, t, SdOver(c, x)))
  {
    var cn := s.conns[c];
    var now := Settle(Blame(s, c, Crowded(cn.iorefs, cn.refmax)), t, c, x, Stopped(cn.iorefs, cn.refmax));
    PutTwice(now, t, SdTest(c, x), SdOver(c, x));
    assert Advance(Put(s, t, SdTest(c, x)), t, true) == Put(now, t, SdOver(c, x));
  }

  lemma TurnGiveBack(s: State, t: nat, c: ConnId, x: Ctx)
    requires Whole(s, t) && c < |s.conns|
    ensures OneTurn(Put(s, t, SdOver(c, x)), t, Put(s.(outPool := [x] + s.outPool), t, DsCas(c, ToIdle)))
  {
    var was, now := Put(s, t, SdOver(c, x)), s.(outPool := [x] + s.outPool);
    PutTwice(now, t, SdOver(c, x), DsCas(c, ToIdle));
    assert Advance(was, t, true) == Put(now, t, DsCas(c, ToIdle));
  }

  lemma TurnHold(s: State, t: nat, c: ConnId, x: Ctx)
    requires Whole(s, t) && PcIds(SdInc(c, x), |s.conns|)
    ensures OneTurn(Put(s, t, SdInc(c, x)), t,
                    Put(Set(s, c, s.conns[c].(iorefs := s.conns[c].iorefs + 1)), t, SdPost(c, x)))
  {
    var was, now := Put(s, t, SdInc(c, x)), Set(s, c, s.conns[c].(iorefs := s.conns[c].iorefs + 1));
    PutTwice(now, t, SdInc(c, x), SdPost(c, x));
    assert Advance(was, t, true) == Put(now, t, SdPost(c, x));
  }

  lemma TurnSend(s: State, t: nat, c: ConnId, x: Ctx)
    requires Whole(s, t) && PcIds(SdPost(c, x), |s.conns|)
    ensures OneTurn(Put(s, t, SdPost(c, x)), t,
                    Put(Settle(s.(ops := s.ops + [Send(c, x, false)]), t, c, x, Posted(|s.ops|)), t, Idle))
  {
    var was, now := Put(s, t, SdPost(c, x)), Settle(s.(ops := s.ops + [Send(c, x, false)]), t, c, x, Posted(|s.ops|));
    PutTwice(now, t, SdPost(c, x), Idle);
    assert Advance(was, t, true) == Put(now, t, Idle);
  }

  lemma TurnMake(s: State, t: nat, who: Caller)
    requires Whole(s, t) && PcIds(PopFree(who), |s.conns|) && s.free == []
    ensures OneTurn(Put(s, t, PopFree(who)), t,
                    Put(Made(s), t, RefAccept(who, |s.conns|)))
  {
    var was, now := Put(s, t, PopFree(who)), Made(s);
    PutTwice(now, t, PopFree(who), RefAccept(who, |s.conns|));
    assert Advance(was, t, true) == Put(now, t, RefAccept(who, |s.conns|));
  }

  lemma TurnReuse(s: State, t: nat, who: Caller)
    requires Whole(s, t) && PcIds(PopFree(who), |s.conns|)
    requires s.free != [] && s.free[0] in s.free
    ensures OneTurn(Put(s, t, PopFree(who)), t,
                    Put(Popped(s), t, RefAccept(who, s.free[0])))
  {
    var was, now := Put(s, t, PopFree(who)), Popped(s);
    PutTwice(now, t, PopFree(who), RefAccept(who, s.free[0]));
    assert Advance(was, t, true) == Put(now, t, RefAccept(who, s.free[0]));
  }

  lemma TurnRef(s: State, t: nat, who: Caller, n: ConnId)
    requires Whole(s, t) && PcIds(RefAccept(who, n), |s.conns|)
    ensures OneTurn(Put(s, t, RefAccept(who, n)), t,
                    Put(s.(accRefs := s.accRefs + 1), t, PostAccept(who, n)))
  {
    var was, now := Put(s, t, RefAccept(who, n)), s.(accRefs := s.accRefs + 1);
    PutTwice(now, t, RefAccept(who, n), PostAccept(who, n));
    assert Advance(was, t, true) == Put(now, t, PostAccept(who, n));
  }

  lemma TurnListen(s: State, t: nat, who: Caller, n: ConnId)
    requires Whole(s, t) && PcIds(PostAccept(who, n), |s.conns|)
    ensures OneTurn(Put(s, t, PostAccept(who, n)), t,
                    Put(Listening(s, n), t, AfterAcceptCall(who)))
  {
    var was, now := Put(s, t, PostAccept(who, n)), Listening(s, n);
    PutTwice(now, t, PostAccept(who, n), AfterAcceptCall(who));
    assert Advance(was, t, true) == Put(now, t, AfterAcceptCall(who));
  }

  lemma TurnUp(s: State, t: nat, c: ConnId)
    requires Whole(s, t) && PcIds(AcUp(c), |s.conns|)
    ensures OneTurn(Put(s, t, AcUp(c)), t,
                    Put(Set(s, c, s.conns[c].(connected := true)), t, AcCall(c)))
  {
    var was, now := Put(s, t, AcUp(c)), Set(s, c, s.conns[c].(connected := true));
    PutTwice(now, t, AcUp(c), AcCall(c));
    assert Advance(was, t, true) == Put(now, t, AcCall(c));
  }

  lemma TurnCall(s: State, t: nat, c: ConnId)
    requires Whole(s, t) && PcIds(AcCall(c), |s.conns|)
    ensures OneTurn(Put(s, t, AcCall(c)), t,
                    Put(Opened(s, c), t, AcCtx(c)))
  {
    var was, now := Put(s, t, AcCall(c)), Opened(s, c);
    PutTwice(now, t, AcCall(c), AcCtx(c));
    assert Advance(was, t, true) == Put(now, t, AcCtx(c));
  }

  lemma TurnContext(s: State, t: nat, c: ConnId)
    requires Whole(s, t) && PcIds(AcCtx(c), |s.conns|)
    ensures OneTurn(Put(s, t, AcCtx(c)), t, Put(Fetched(s), t, RvInc(c, Context(s), AfterAccept)))
  {
    var was, now := Put(s, t, AcCtx(c)), Fetched(s);
    PutTwice(now, t, AcCtx(c), RvInc(c, Context(s), AfterAccept));
    assert Advance(was, t, true) == Put(now, t, RvInc(c, Context(s), AfterAccept));
  }

  lemma TurnWait(s: State, t: nat)
    requires Whole(s, t) && s.accRefs == 0
    ensures OneTurn(Put(s, t, StWait), t, Put(s, t, PopFree(Starter)))
  {
    PutTwice(s, t, StWait, PopFree(Starter));
    assert Advance(Put(s, t, StWait), t, true) == Put(s, t, PopFree(Starter));
  }

  lemma TurnDone(s: State, t: nat)
    requires Whole(s, t) && PcIds(AcDec, |s.conns|)
    ensures OneTurn(Put(s, t, AcDec), t,
                    Put(s.(accRefs := s.accRefs - 1), t, Idle))
  {
    var was, now := Put(s, t, AcDec), s.(accRefs := s.accRefs - 1);
    PutTwice(now, t, AcDec, Idle);
    assert Advance(was, t, true) == Put(now, t, Idle);
  }

  // ---------------------------------------------------------------- completions

  lemma Wide(s: State, t: nat)
    requires Reachable(s, ORDERLY) && t < |s.threads|
    ensures Whole(s, t)
  {
    InvReachable(s);
    hide Conns, AcceptOk, Contexts, Talks;
  }

  /** A worker takes the completion of operation i. */
  lemma Taking(s: State, t: nat, i: nat)
    requires Reachable(s, ORDERLY) && Enabled(s, TakeIo(t, i), ORDERLY)
    ensures i < |s.ops| && t < |s.threads| && !s.ops[i].Taken?
    ensures var s' := s.(ops := s.ops[i := Taken]);
      && s.ops[i].c < |s.conns| && Whole(s', t) && s.threads[t] == Idle
      && (s.ops[i].Recv? ==>
            Apply(s, TakeIo(t, i), ORDERLY) == Put(s', t, RvGot(s.ops[i].c, s.ops[i].x, s.ops[i].data)))
      && (s.ops[i].Send? ==> Apply(s, TakeIo(t, i), ORDERLY) == Put(s', t, SnGot(s.ops[i].c, s.ops[i].x)))
  {
    IdsIn(s, i);
    hide Reachable;
  }

  lemma IdsIn(s: State, i: nat)
    requires Reachable(s, ORDERLY) && i < |s.ops| && !s.ops[i].Taken?
    ensures s.ops[i].c < |s.conns| && forall n | n in s.free :: n < |s.conns|
  {
    InvReachable(s);
    hide Conns, AcceptOk, Contexts, Talks;
    assert IoIds(s.ops[i], |s.conns|);
  }

  /** A receive with data: OnData gets it, and the same context waits for more. Nothing else has changed. */
  lemma ReceiveRound(s: State, t: nat, i: nat)
    requires Reachable(s, ORDERLY) && Enabled(s, TakeIo(t, i), ORDERLY) && s.ops[i].Recv? && s.ops[i].data != []
    ensures var Recv(c, x, _, data) := s.ops[i];
      && c < |s.conns|
      && var s' := Given(s, c, data).(ops := s.ops[i := Taken] + [Recv(c, x, false, [])]);
      Turns(Apply(s, TakeIo(t, i), ORDERLY), t, 4, s')
  {
    hide Reachable, Enabled, Apply, OneTurn, Turns, Put;
    Taking(s, t, i);
    var Recv(c, x, _, data) := s.ops[i];
    var a := s.(ops := s.ops[i := Taken]);
    var b := Given(a, c, data);
    var d := Counted(b, c, AfterRecv);
    var e := d.(ops := d.ops + [Recv(c, x, false, [])]);
    var s' := Given(s, c, data).(ops := s.ops[i := Taken] + [Recv(c, x, false, [])]);
    TurnGot(a, t, c, x, data);
    TurnCount(b, t, c, x, AfterRecv);
    TwoTurns(Put(a, t, RvGot(c, x, data)), t, Put(b, t, RvInc(c, x, AfterRecv)), Put(d, t, RvPost(c, x, AfterRecv)));
    TurnPost(d, t, c, x, AfterRecv);
    TurnRelease(e, t, c, RecvRef);
    ReceiveSum(s, c, data, e.ops);
    PutTwice(s', t, Idle, Idle);
    TwoTurns(Put(d, t, RvPost(c, x, AfterRecv)), t, Put(e, t, CnDec(c, RecvRef)), s');
    MoreTurns(Put(a, t, RvGot(c, x, data)), t, 2, Put(d, t, RvPost(c, x, AfterRecv)), 2, s');
  }

  /** The receive's new reference and the completion's old one cancel out. */
  lemma ReceiveSum(s: State, c: ConnId, data: Chunk, ops: seq<Io>)
    requires c < |s.conns|
    ensures Released(Counted(Given(s, c, data), c, AfterRecv).(ops := ops), c) == Given(s, c, data).(ops := ops)
  {
    var cn := s.conns[c].(given := s.conns[c].given + [data]);
    SetTwice(s, c, cn, cn.(iorefs := cn.iorefs + 1));
    SetTwice(s, c, cn.(iorefs := cn.iorefs + 1), cn);
  }

  /** A completed send: its context is back in the pool, and its reference given back. */
  lemma SentRound(s: State, t: nat, i: nat)
    requires Reachable(s, ORDERLY) && Enabled(s, TakeIo(t, i), ORDERLY) && s.ops[i].Send?
    ensures var Send(c, x, _) := s.ops[i];
      && c < |s.conns|
      && var s' := Released(s, c).(ops := s.ops[i := Taken], outPool := [x] + s.outPool);
      Turns(Apply(s, TakeIo(t, i), ORDERLY), t, 2, s')
  {
    hide Reachable, Enabled, Apply, OneTurn, Turns, Put;
    Taking(s, t, i);
    var Send(c, x, _) := s.ops[i];
    var a := s.(ops := s.ops[i := Taken]);
    var b := a.(outPool := [x] + a.outPool);
    var s' := Released(s, c).(ops := s.ops[i := Taken], outPool := [x] + s.outPool);
    TurnSent(a, t, c, x);
    TurnRelease(b, t, c, SendRef);
    PutTwice(s', t, Idle, Idle);
    TwoTurns(Put(a, t, SnGot(c, x)), t, Put(b, t, CnDec(c, SendRef)), s');
  }

  // ---------------------------------------------------------------- disconnect

  /** What AsyncDisconnect makes of a connected connection. */
  function Leave(cn: Conn): (r: Conn) {
    cn.(connected := false, phase := Closing, discPending := cn.discPending + 1)
  }

  /** AsyncDisconnect on a connected connection: DisconnectEx is posted, and nobody else will post it. */
  lemma LeaveTurns(s: State, t: nat, c: ConnId, k: Then)
    requires Whole(s, t) && c < |s.conns| && s.conns[c].connected && !s.conns[c].phase.Starting?
    ensures Turns(Put(s, t, DsCas(c, k)), t, 2, Put(Set(s, c, Leave(s.conns[c])), t, Resume(c, k)))
  {
    hide Enabled, Apply, OneTurn, Turns, Put;
    var cn := s.conns[c].(connected := false, phase := Closing);
    var a := Set(s, c, cn);
    TurnSwap(s, t, c, k);
    TurnLeave(a, t, c, k);
    SetTwice(s, c, cn, Leave(s.conns[c]));
    TwoTurns(Put(s, t, DsCas(c, k)), t, Put(a, t, DsPost(c, k)),
             Put(Set(s, c, Leave(s.conns[c])), t, Resume(c, k)));
  }

  /** A connection with a receive outstanding has been through its accept branch. */
  lemma Received(s: State, i: nat)
    requires Reachable(s, ORDERLY) && i < |s.ops| && s.ops[i].Recv? && s.ops[i].c < |s.conns|
    ensures !s.conns[s.ops[i].c].phase.Starting?
  {
    InvReachable(s);
    var c := s.ops[i].c;
    assert ConnAt(s, c);
    hide Inv, Reachable;
    OpHeld(s, i, c);
  }

  /** A receive without data on a connected connection: it is disconnected, and the context back in the pool. */
  lemma EndRound(s: State, t: nat, i: nat)
    requires Reachable(s, ORDERLY) && Enabled(s, TakeIo(t, i), ORDERLY) && s.ops[i].Recv? && s.ops[i].data == []
    requires s.ops[i].c < |s.conns| && s.conns[s.ops[i].c].connected
    ensures var Recv(c, x, _, _) := s.ops[i];
      var cn := Leave(s.conns[c]);
      var s' := Set(Blame(s, c, PeerClosed), c, cn.(iorefs := cn.iorefs - 1));
      Turns(Apply(s, TakeIo(t, i), ORDERLY), t, 4, s'.(ops := s.ops[i := Taken], inPool := [x] + s.inPool))
  {
    hide Reachable, Enabled, Apply, OneTurn, Turns, Put, Set, Blame, Released;
    Taking(s, t, i);
    Received(s, i);
    var Recv(c, x, _, _) := s.ops[i];
    var a := s.(ops := s.ops[i := Taken]);
    var b := Blame(a.(inPool := [x] + a.inPool), c, PeerClosed);
    BlameSame(a.(inPool := [x] + a.inPool), c, PeerClosed);
    var cn := Leave(s.conns[c]);
    var d, s' := Set(b, c, cn), Set(b, c, cn.(iorefs := cn.iorefs - 1));
    SetSame(b, c, cn);
    SetSame(b, c, cn.(iorefs := cn.iorefs - 1));
    EndSum(s, a.(inPool := [x] + a.inPool), c, cn.(iorefs := cn.iorefs - 1));
    ReleasedSum(b, c, cn);
    TurnEnd(a, t, c, x);
    LeaveTurns(b, t, c, ToDebt(RecvRef));
    TurnRelease(d, t, c, RecvRef);
    PutTwice(s', t, Idle, Idle);
    ThenOne(Put(b, t, DsCas(c, ToDebt(RecvRef))), t, 2, Put(d, t, CnDec(c, RecvRef)), s');
    Chain(Put(a, t, RvGot(c, x, [])), t, Put(b, t, DsCas(c, ToDebt(RecvRef))), 3, s');
  }

  lemma ThenOne(a: State, t: nat, n: nat, b: State, s': State)
    requires Turns(a, t, n, b) && OneTurn(b, t, s')
    ensures Turns(a, t, n + 1, s')
  {
    assert Turns(s', t, 0, s');
    hide Turns, OneTurn;
    Chain(b, t, s', 0, s');
    MoreTurns(a, t, n, b, 1, s');
  }

  lemma ReleasedSum(s: State, c: ConnId, cn: Conn)
    requires c < |s.conns|
    ensures Released(Set(s, c, cn), c) == Set(s, c, cn.(iorefs := cn.iorefs - 1))
  {
    SetTwice(s, c, cn, cn.(iorefs := cn.iorefs - 1));
  }

  lemma EndSum(s: State, a: State, c: ConnId, cn: Conn)
    requires c < |s.conns| && a == s.(ops := a.ops, inPool := a.inPool)
    ensures Set(Blame(a, c, PeerClosed), c, cn) == Set(Blame(s, c, PeerClosed), c, cn).(ops := a.ops,
        inPool := a.inPool)
  {
  }

  /** AsyncDisconnect of the application on a connected connection. */
  lemma DisconnectCall(s: State, t: nat, c: ConnId)
    requires Reachable(s, ORDERLY) && Enabled(s, AppDisconnect(t, c), ORDERLY)
    requires s.conns[c].connected && !s.conns[c].phase.Starting?
    ensures Turns(Apply(s, AppDisconnect(t, c), ORDERLY), t, 2, Set(Blame(s, c, Asked), c, Leave(s.conns[c])))
  {
    Wide(s, t);
    hide Reachable, Turns, CausesOf;
    var a := Blame(s, c, Asked);
    assert Apply(s, AppDisconnect(t, c), ORDERLY) == Put(a, t, DsCas(c, ToIdle));
    hide Apply, Enabled;
    LeaveTurns(a, t, c, ToIdle);
    PutTwice(Set(a, c, Leave(s.conns[c])), t, Idle, Idle);
  }

  lemma ReportSum(s: State, c: ConnId, cn: Conn)
    requires c < |s.conns|
    ensures var b := Set(s, c, cn.(phase := Drained));
      var s' := Set(s, c, cn.(phase := Down)).(log := s.log + [OnDisconnect(c)]);
      Set(b, c, b.conns[c].(phase := Down)).(log := b.log + [OnDisconnect(c)]) == s' && s'.threads == s.threads
  {
    SetTwice(s, c, cn.(phase := Drained), cn.(phase := Down));
  }

  /** With no reference left, OnDisconnect is called, and the connection is down. Nothing else has changed. */
  lemma DisconnectRound(s: State, t: nat, c: ConnId)
    requires Reachable(s, ORDERLY) && Enabled(s, TakeDisconnect(t, c), ORDERLY) && s.conns[c].iorefs == 0
    ensures var cn := s.conns[c].(discDone := s.conns[c].discDone - 1, phase := Down);
      Turns(Apply(s, TakeDisconnect(t, c), ORDERLY), t, 2, Set(s, c, cn).(log := s.log + [OnDisconnect(c)]))
  {
    hide Reachable, Enabled, Apply, OneTurn, Turns, Put, Set;
    TakingDisconnect(s, t, c);
    var cn := s.conns[c].(discDone := s.conns[c].discDone - 1);
    var a, b := Set(s, c, cn), Set(s, c, cn.(phase := Drained));
    var s' := Set(s, c, cn.(phase := Down)).(log := s.log + [OnDisconnect(c)]);
    SetSame(s, c, cn);
    SetSame(s, c, cn.(phase := Drained));
    SetTwice(s, c, cn, cn.(phase := Drained));
    ReportSum(s, c, cn);
    TurnDrained(a, t, c);
    TurnReport(b, t, c);
    PutTwice(s', t, Idle, Idle);
    TwoTurns(Put(a, t, DiTest(c)), t, Put(b, t, DiCall(c)), s');
  }

  lemma TakingDisconnect(s: State, t: nat, c: ConnId)
    requires Reachable(s, ORDERLY) && Enabled(s, TakeDisconnect(t, c), ORDERLY)
    ensures c < |s.conns| && s.conns[c].discDone > 0
    ensures var s' := Set(s, c, s.conns[c].(discDone := s.conns[c].discDone - 1));
      Whole(s', t) && s.threads[t] == Idle && Apply(s, TakeDisconnect(t, c), ORDERLY) == Put(s', t, DiTest(c))
  {
    Wide(s, t);
    hide Reachable;
  }

  lemma RepostSum(s: State, c: ConnId)
    requires c < |s.conns| && s.conns[c].discDone > 0
    ensures var cn := s.conns[c].(discDone := s.conns[c].discDone - 1);
      Set(Set(s, c, cn), c, cn.(discDone := cn.discDone + 1)) == s
  {
    SetTwice(s, c, s.conns[c].(discDone := s.conns[c].discDone - 1), s.conns[c]);
  }

  /** With references left, everything is as it was, and the completion is in the port again. */
  lemma RepostRound(s: State, t: nat, c: ConnId)
    requires Reachable(s, ORDERLY) && Enabled(s, TakeDisconnect(t, c), ORDERLY) && s.conns[c].iorefs != 0
    ensures Turns(Apply(s, TakeDisconnect(t, c), ORDERLY), t, 2, s)
  {
    hide Reachable, Enabled, Apply, OneTurn, Turns, Put, Set;
    TakingDisconnect(s, t, c);
    var cn := s.conns[c].(discDone := s.conns[c].discDone - 1);
    var a := Set(s, c, cn);
    RepostSum(s, c);
    SetSame(s, c, cn);
    TurnBusy(a, t, c);
    TurnRepost(a, t, c);
    PutTwice(s, t, Idle, Idle);
    TwoTurns(Put(a, t, DiTest(c)), t, Put(a, t, DiRepost(c)), s);
  }

  // ---------------------------------------------------------------- AsyncSend

  /** A state in which the application has called AsyncSend. */
  function Called(s: State, t: nat, x: Ctx, c: ConnId, bytes: Chunk): (r: State) {
    s.(held := s.held - multiset{x}, bufs := s.bufs[x := bytes],
       past := s.past.(sent := s.past.sent + [Shipment(t, c, bytes)]))
  }

  lemma Calling(s: State, t: nat, x: Ctx, c: ConnId, bytes: Chunk)
    requires Reachable(s, ORDERLY) && Enabled(s, AppSend(t, x, c, bytes), ORDERLY)
    ensures t < |s.threads| && c < |s.conns|
    ensures var a := Called(s, t, x, c, bytes);
      && Whole(a, t) && s.threads[t] == Idle && c < |s.conns| && BufOf(a, x) == bytes
      && Apply(s, AppSend(t, x, c, bytes), ORDERLY) == Put(a, t, SdTest(c, x))
  {
    Wide(s, t);
    hide Reachable;
  }

  lemma SendSum(a: State, t: nat, c: ConnId, x: Ctx, cn: Conn)
    requires c < |a.conns|
    ensures var d := Set(a, c, cn);
      var fate := Posted(|a.ops|);
      && d.ops == a.ops
      && Settle(d.(ops := d.ops + [Send(c, x, false)]), t, c, x, fate) ==
         Settle(Set(a.(ops := a.ops + [Send(c, x, false)]), c, cn), t, c, x, fate)
      && Settle(d.(ops := d.ops + [Send(c, x, false)]), t, c, x, fate).threads == a.threads
  {
  }

  /** Within the limit the buffer is posted with its context, and a reference taken. */
  lemma SendRound(s: State, t: nat, x: Ctx, c: ConnId, bytes: Chunk)
    requires Reachable(s, ORDERLY) && Enabled(s, AppSend(t, x, c, bytes), ORDERLY)
    requires s.conns[c].iorefs <= s.conns[c].refmax
    ensures var cn := s.conns[c];
      var a := Called(s, t, x, c, bytes).(ops := s.ops + [Send(c, x, false)]);
      var cn' := cn.(iorefs := cn.iorefs + 1, checked := Larger(cn.checked, cn.refmax));
      Turns(Apply(s, AppSend(t, x, c, bytes), ORDERLY), t, 3, Settle(Set(a, c, cn'), t, c, x, Posted(|s.ops|)))
  {
    hide Reachable, Enabled, Apply, OneTurn, Turns, Put, Set, Settle, Called, BufOf;
    Calling(s, t, x, c, bytes);
    CalledSame(s, t, x, c, bytes);
    var a := Called(s, t, x, c, bytes);
    var cn := s.conns[c].(checked := Larger(s.conns[c].checked, s.conns[c].refmax));
    var cn' := cn.(iorefs := cn.iorefs + 1);
    var b, d := Set(a, c, cn), Set(a, c, cn');
    SetSame(a, c, cn);
    SetSame(a, c, cn');
    SetTwice(a, c, cn, cn');
    SendSum(a, t, c, x, cn');
    var s' := Settle(d.(ops := d.ops + [Send(c, x, false)]), t, c, x, Posted(|s.ops|));
    TurnPass(a, t, c, x);
    TurnHold(b, t, c, x);
    TurnSend(d, t, c, x);
    PutTwice(s', t, Idle, Idle);
    TwoTurns(Put(a, t, SdTest(c, x)), t, Put(b, t, SdInc(c, x)), Put(d, t, SdPost(c, x)));
    ThenOne(Put(a, t, SdTest(c, x)), t, 2, Put(d, t, SdPost(c, x)), s');
  }

  lemma StoppedSame(a: State, t: nat, c: ConnId, x: Ctx, count: int, limit: int)
    ensures var b := Settle(Blame(a, c, Crowded(count, limit)), t, c, x, Stopped(count, limit));
      Alike(b, a) && b.conns == a.conns && b.outPool == a.outPool
  {
  }

  /** Above it nothing is posted: the context goes back to the pool, and the connection is disconnected. */
  lemma RefusedRound(s: State, t: nat, x: Ctx, c: ConnId, bytes: Chunk)
    requires Reachable(s, ORDERLY) && Enabled(s, AppSend(t, x, c, bytes), ORDERLY)
    requires s.conns[c].iorefs > s.conns[c].refmax && s.conns[c].connected && !s.conns[c].phase.Starting?
    ensures var cn := s.conns[c];
      var a := Blame(Called(s, t, x, c, bytes), c, Crowded(cn.iorefs, cn.refmax));
      var b := Settle(a, t, c, x, Stopped(cn.iorefs, cn.refmax)).(outPool := [x] + s.outPool);
      Turns(Apply(s, AppSend(t, x, c, bytes), ORDERLY), t, 4, Set(b, c, Leave(cn)))
  {
    hide Reachable, Enabled, Apply, OneTurn, Turns, Put, Set, Settle, Blame, CausesOf, BufOf, Called;
    Calling(s, t, x, c, bytes);
    CalledSame(s, t, x, c, bytes);
    var cn := s.conns[c];
    var a := Called(s, t, x, c, bytes);
    var b := Settle(Blame(a, c, Crowded(cn.iorefs, cn.refmax)), t, c, x, Stopped(cn.iorefs, cn.refmax));
    var d := b.(outPool := [x] + b.outPool);
    StoppedSame(a, t, c, x, cn.iorefs, cn.refmax);
    var s' := Set(d, c, Leave(cn));
    SetSame(d, c, Leave(cn));
    TurnOver(a, t, c, x);
    TurnGiveBack(b, t, c, x);
    TwoTurns(Put(a, t, SdTest(c, x)), t, Put(b, t, SdOver(c, x)), Put(d, t, DsCas(c, ToIdle)));
    LeaveTurns(d, t, c, ToIdle);
    PutTwice(s', t, Idle, Idle);
    MoreTurns(Put(a, t, SdTest(c, x)), t, 2, Put(d, t, DsCas(c, ToIdle)), 2, s');
  }

  lemma CalledSame(s: State, t: nat, x: Ctx, c: ConnId, bytes: Chunk)
    ensures var a := Called(s, t, x, c, bytes);
      && a.conns == s.conns && a.outPool == s.outPool && a.threads == s.threads && a.free == s.free && a.ops == s.ops
  {
  }

  // ---------------------------------------------------------------- accepting

  /** Accept: a free connection, or else a new one, is the target of an AcceptEx that the acceptor's count covers. */
  function Awaiting(s: State): (r: State)
    requires s.free != [] ==> s.free[0] < |s.conns|
  {
    var a := s.(accRefs := s.accRefs + 1, accPending := s.accPending + 1);
    if s.free == [] then a.(conns := s.conns + [NewConn.(phase := Accepting)], ctxConn := |s.conns|)
    else
      var n := s.free[0];
      Set(a, n, s.conns[n].(client := None, phase := Accepting)).(free := s.free[1..], ctxConn := n)
  }

  /** A context to receive with: from the pool, or a new one. */
  function Context(s: State): (x: Ctx) {
    if s.inPool != [] then s.inPool[0] else In(s.inCount)
  }

  function Fetched(s: State): (r: State) {
    if s.inPool != [] then s.(inPool := s.inPool[1..]) else s.(inCount := s.inCount + 1)
  }

  /** What the accept branch makes of the connection. */
  function Served(cn: Conn): (r: Conn) {
    cn.(connected := true, live := true, arrived := [], given := [], iorefs := cn.iorefs + 1, phase := Active)
  }

  lemma AwaitTurns(s: State, t: nat, who: Caller)
    requires Whole(s, t) && PcIds(PopFree(who), |s.conns|)
    ensures s.free != [] ==> s.free[0] < |s.conns|
    ensures Turns(Put(s, t, PopFree(who)), t, 3, Put(Awaiting(s), t, AfterAcceptCall(who)))
  {
    hide Reachable, Enabled, Apply, OneTurn, Turns, Put;
    if s.free != [] { assert s.free[0] in s.free; }
    var n := if s.free != [] then s.free[0] else |s.conns|;
    var a := if s.free != [] then Popped(s) else Made(s);
    if s.free != [] { TurnReuse(s, t, who); } else { TurnMake(s, t, who); }
    AwaitWhole(s, t);
    var b := a.(accRefs := a.accRefs + 1);
    TurnRef(a, t, who, n);
    TurnListen(b, t, who, n);
    AwaitSum(s);
    TwoTurns(Put(s, t, PopFree(who)), t, Put(a, t, RefAccept(who, n)), Put(b, t, PostAccept(who, n)));
    ThenOne(Put(s, t, PopFree(who)), t, 2, Put(b, t, PostAccept(who, n)), Put(Awaiting(s), t, AfterAcceptCall(who)));
  }

  lemma AwaitWhole(s: State, t: nat)
    requires Whole(s, t) && (s.free != [] ==> s.free[0] < |s.conns|)
    ensures var a := if s.free != [] then Popped(s) else Made(s);
      Whole(a, t) && |a.conns| >= |s.conns|
  {
    if s.free == [] {
      assert Made(s).free == s.free;
    } else {
      var a := Popped(s);
      forall n | n in a.free ensures n < |a.conns| {
        assert n in s.free;
      }
    }
  }

  lemma AwaitSum(s: State)
    requires s.free != [] ==> s.free[0] < |s.conns|
    ensures var n := if s.free != [] then s.free[0] else |s.conns|;
      var a := if s.free != [] then Popped(s) else Made(s);
      Listening(a.(accRefs := a.accRefs + 1), n) == Awaiting(s)
  {
    if s.free != [] {
      var n := s.free[0];
      SetTwice(s, n, s.conns[n].(client := None, phase := Claimed), s.conns[n].(client := None, phase := Accepting));
    } else {
      assert (s.conns + [NewConn])[|s.conns| := NewConn.(phase := Accepting)] ==
          s.conns + [NewConn.(phase := Accepting)];
    }
  }

  lemma Entering(s: State, t: nat)
    requires Reachable(s, ORDERLY) && Enabled(s, AppStart(t), ORDERLY)
    ensures Whole(s, t) && s.threads[t] == Idle
    ensures Apply(s, AppStart(t), ORDERLY) == Put(s.(running := true), t, StWait)
  {
    Wide(s, t);
    hide Reachable;
  }

  lemma AwaitRunning(s: State)
    requires s.free != [] ==> s.free[0] < |s.conns|
    ensures Awaiting(s.(running := true)) == Awaiting(s).(running := true) && Awaiting(s).threads == s.threads
  {
  }

  /** Start while no accept is outstanding. */
  lemma StartRound(s: State, t: nat)
    requires Reachable(s, ORDERLY) && Enabled(s, AppStart(t), ORDERLY) && s.accRefs == 0
    ensures s.free != [] ==> s.free[0] < |s.conns|
    ensures Turns(Apply(s, AppStart(t), ORDERLY), t, 4, Awaiting(s).(running := true))
  {
    hide Reachable, Enabled, Apply, OneTurn, Turns, Put;
    Entering(s, t);
    if s.free != [] { assert s.free[0] in s.free; }
    var a := s.(running := true);
    TurnWait(a, t);
    AwaitTurns(a, t, Starter);
    AwaitRunning(s);
    PutTwice(Awaiting(a), t, Idle, Idle);
    Chain(Put(a, t, StWait), t, Put(a, t, PopFree(Starter)), 3, Awaiting(a));
  }

  /** What the accept branch makes of c from the accepting upcall on: c is up and being read. */
  function Serving(s: State, c: ConnId): (r: State)
    requires c < |s.conns|
  {
    var a := Set(Fetched(s), c, Served(s.conns[c]));
    SetCauses(a.(ops := s.ops + [Recv(c, Context(s), false, [])], log := s.log + [OnConnection(c)],
                 accRefs := s.accRefs - 1), c, {})
  }

  lemma ServeTurns(s: State, t: nat, c: ConnId)
    requires Whole(s, t) && c < |s.conns|
    ensures Turns(Put(s, t, AcUp(c)), t, 6, Put(Serving(s, c), t, Idle))
  {
    hide Enabled, Apply, OneTurn, Turns, Put, Set, Opened, Counted, Fetched, Context, Serving;
    var cn := s.conns[c].(connected := true);
    var a := Set(s, c, cn);
    SetSame(s, c, cn);
    TurnUp(s, t, c);
    TurnCall(a, t, c);
    var b := Opened(a, c);
    OpenedSame(s, a, c);
    TwoTurns(Put(s, t, AcUp(c)), t, Put(a, t, AcCall(c)), Put(b, t, AcCtx(c)));
    var x, d := Context(s), Fetched(b);
    FetchedSame(b);
    TurnContext(b, t, c);
    var e := Counted(d, c, AfterAccept);
    ServeSum(s, c);
    TurnCount(d, t, c, x, AfterAccept);
    TwoTurns(Put(b, t, AcCtx(c)), t, Put(d, t, RvInc(c, x, AfterAccept)), Put(e, t, RvPost(c, x, AfterAccept)));
    MoreTurns(Put(s, t, AcUp(c)), t, 2, Put(b, t, AcCtx(c)), 2, Put(e, t, RvPost(c, x, AfterAccept)));
    var f := e.(ops := e.ops + [Recv(c, x, false, [])]);
    TurnPost(e, t, c, x, AfterAccept);
    TurnDone(f, t);
    TwoTurns(Put(e, t, RvPost(c, x, AfterAccept)), t, Put(f, t, AcDec), Put(Serving(s, c), t, Idle));
    MoreTurns(Put(s, t, AcUp(c)), t, 4, Put(e, t, RvPost(c, x, AfterAccept)), 2, Put(Serving(s, c), t, Idle));
  }

  lemma OpenedSame(s: State, a: State, c: ConnId)
    requires c < |a.conns| && Alike(a, s) && a.inPool == s.inPool && a.inCount == s.inCount
    ensures var b := Opened(a, c);
      Alike(b, s) && c < |b.conns| && Context(b) == Context(s)
  {
  }

  lemma FetchedSame(s: State)
    ensures Alike(Fetched(s), s)
  {
  }

  lemma ServeSum(s: State, c: ConnId)
    requires c < |s.conns|
    ensures var b := Opened(Set(s, c, s.conns[c].(connected := true)), c);
      && c < |b.conns|
      && var e := Counted(Fetched(b), c, AfterAccept);
      && Alike(e, s)
      && e.(ops := e.ops + [Recv(c, Context(s), false, [])], accRefs := e.accRefs - 1) == Serving(s, c)
  {
    var cn := s.conns[c].(connected := true);
    var cn' := cn.(live := true, arrived := [], given := []);
    assert cn'.(iorefs := cn'.iorefs + 1, phase := Active) == Served(s.conns[c]);
    assert s.conns[c := cn][c := cn'][c := Served(s.conns[c])] == s.conns[c := Served(s.conns[c])];
  }

  /**
   * An accept completion: the acceptor waits for the next connection, and the one that has come is connected, has had
   * its OnConnection and is being read. The acceptor's count is what it was.
   */
  lemma AcceptRound(s: State, t: nat)
    requires Reachable(s, ORDERLY) && Enabled(s, TakeAccept(t), ORDERLY)
    ensures s.accDone > 0 && s.ctxConn < |s.conns| && s.ctxConn !in s.free && (s.free != [] ==> s.free[0] < |s.conns|)
    ensures var a := s.(accDone := s.accDone - 1);
      && s.ctxConn < |Awaiting(a).conns|
      && Turns(Apply(s, TakeAccept(t), ORDERLY), t, 9, Serving(Awaiting(a), s.ctxConn))
  {
    hide Reachable, Enabled, Apply, OneTurn, Turns, Put, Set, Awaiting, Serving;
    TakingAccept(s, t);
    var c, a := s.ctxConn, s.(accDone := s.accDone - 1);
    var b := Set(a, c, s.conns[c].(phase := Starting));
    SetSame(a, c, s.conns[c].(phase := Starting));
    AwaitTurns(b, t, Branch(c));
    AwaitSame(b, t);
    ServeTurns(Awaiting(b), t, c);
    AcceptSum(a, c);
    PutTwice(Serving(Awaiting(a), c), t, Idle, Idle);
    MoreTurns(Put(b, t, PopFree(Branch(c))), t, 3, Put(Awaiting(b), t, AcUp(c)), 6, Serving(Awaiting(a), c));
  }

  lemma TakingAccept(s: State, t: nat)
    requires Reachable(s, ORDERLY) && Enabled(s, TakeAccept(t), ORDERLY)
    ensures s.accDone > 0 && Whole(s, t) && s.threads[t] == Idle
    ensures s.ctxConn < |s.conns| && s.ctxConn !in s.free && (s.free != [] ==> s.free[0] < |s.conns|)
    ensures var a := s.(accDone := s.accDone - 1);
      var b := Set(a, s.ctxConn, s.conns[s.ctxConn].(phase := Starting));
      Apply(s, TakeAccept(t), ORDERLY) == Put(b, t, PopFree(Branch(s.ctxConn)))
  {
    hide Reachable;
    Wide(s, t);
    AcceptTarget(s);
    if s.free != [] { assert s.free[0] in s.free; }
  }

  lemma AwaitSame(s: State, t: nat)
    requires Whole(s, t) && (s.free != [] ==> s.free[0] < |s.conns|)
    ensures Whole(Awaiting(s), t) && |Awaiting(s).conns| >= |s.conns|
  {
    forall n | n in Awaiting(s).free ensures n < |Awaiting(s).conns| {
      assert n in s.free;
    }
  }

  /** The connection that has come is not the next to be accepted. */
  lemma AcceptSum(s: State, c: ConnId)
    requires c < |s.conns| && c !in s.free && (s.free != [] ==> s.free[0] < |s.conns|)
    ensures var a := Awaiting(Set(s, c, s.conns[c].(phase := Starting)));
      && c < |a.conns| && c < |Awaiting(s).conns|
      && Serving(a, c) == Serving(Awaiting(s), c) && Serving(a, c).threads == s.threads
  {
    var a, b := Awaiting(Set(s, c, s.conns[c].(phase := Starting))), Awaiting(s);
    assert a.conns[c] == s.conns[c].(phase := Starting) && b.conns[c] == s.conns[c];
    assert Served(a.conns[c]) == Served(b.conns[c]);
    assert a.conns[c := Served(b.conns[c])] == b.conns[c := Served(b.conns[c])];
  }

  lemma AcceptTarget(s: State)
    requires Reachable(s, ORDERLY) && s.accDone > 0
    ensures s.ctxConn < |s.conns| && s.ctxConn !in s.free
  {
    hide Reachable, Ids, Conns, AcceptOk, Contexts, Talks, Total;
    InvReachable(s);
    TargetKnown(s);
    assert ConnAt(s, s.ctxConn) by { ConnsAt(s, s.ctxConn); }
    assert multiset(s.free)[s.ctxConn] == 0;
  }

  lemma TargetKnown(s: State)
    requires Ids(s) && s.accDone > 0
    ensures s.ctxConn < |s.conns|
  {
  }

  lemma ConnsAt(s: State, c: ConnId)
    requires Conns(s) && c < |s.conns|
    ensures ConnAt(s, c)
  {
  }

  // ---------------------------------------------------------------- Close

  /** Close gives the connection to the free list exactly if it has no references. */
  lemma Recycled(s: State, c: ConnId)
    requires Reachable(s, ORDERLY) && Enabled(s, AppClose(c), ORDERLY)
    ensures c < |s.conns|
    ensures var s' := Apply(s, AppClose(c), ORDERLY);
      && (c in s'.free <==> s.conns[c].iorefs == 0)
      && s'.free == (if s.conns[c].iorefs == 0 then [c] else []) + s.free
      && |s'.conns| == |s.conns|
  {
    hide Reachable, Total, Ids, AcceptOk, Contexts, Talks;
    InvReachable(s);
    assert ConnAt(s, c) by { ConnsAt(s, c); }
    assert multiset(s.free)[c] == 0;
  }

  /** A connection closed without references is the next to be accepted, and no other is created. */
  lemma Reused(s: State, t: nat, c: ConnId) returns (s': State)
    requires Reachable(s, ORDERLY) && Enabled(s, AppClose(c), ORDERLY)
    requires s.conns[c].iorefs == 0 && Enabled(Apply(s, AppClose(c), ORDERLY), TakeAccept(t), ORDERLY)
    ensures var closed := Apply(s, AppClose(c), ORDERLY);
      Turns(Apply(closed, TakeAccept(t), ORDERLY), t, 9, s')
    ensures s'.ctxConn == c && s'.free == s.free && |s'.conns| == |s.conns|
  {
    hide Reachable, Enabled, Apply, Turns, Awaiting, Serving;
    Recycled(s, c);
    var a := Apply(s, AppClose(c), ORDERLY);
    ReachStep(s, AppClose(c), ORDERLY);
    AcceptRound(a, t);
    var b := a.(accDone := a.accDone - 1);
    s' := Serving(Awaiting(b), a.ctxConn);
    ReusedSum(b, c, a.ctxConn, s.free);
  }

  lemma ReusedSum(s: State, c: ConnId, d: ConnId, rest: seq<ConnId>)
    requires s.free == [c] + rest && c < |s.conns| && d < |s.conns|
    ensures d < |Awaiting(s).conns|
    ensures var s' := Serving(Awaiting(s), d);
      s'.ctxConn == c && s'.free == rest && |s'.conns| == |s.conns|
  {
  }
}
