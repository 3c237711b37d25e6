/**
 * How many references a connection can have: the limit check of AsyncSend and the increment after it are
 * separate steps, so the limit can be passed, but only by one for each thread.
 */
module PortBound {
  import opened CompletionPort
  import opened PortLoad
  import opened PortInvariant
  import opened PortMoves
  import opened PortAccept
  import opened PortSafety

  /** What an application thread can be doing. */
  predicate AppOnly(p: Pc) {
    match p
    case Idle => true
    case StWait => true
    case PopFree(who) => who.Starter?
    case RefAccept(who, _) => who.Starter?
    case PostAccept(who, _) => who.Starter?
    case DsCas(_, k) => k == ToIdle || k == ToDebt(SendRef)
    case DsPost(_, k) => k == ToIdle || k == ToDebt(SendRef)
    case CnDec(_, d) => d == SendRef
    case _ => InSend(p)
  }

  predicate FitsRole(p: Pc, t: nat, workers: nat) {
    if t < workers then !InSend(p) else AppOnly(p)
  }

  ghost predicate Roles(s: State) {
    s.workers <= |s.threads| && forall t | 0 <= t < |s.threads| :: FitsRole(s.threads[t], t, s.workers)
  }

  function Weight(l: Load): (n: int) {
    l.sends + l.passed
  }

  /** The largest limit that let a send pass on c. */
  function Checked(s: State, c: ConnId): (n: int) {
    if c < |s.conns| then s.conns[c].checked else 0
  }

  /** No connection's largest limit falls. */
  ghost predicate Rising(s: State, s': State) {
    forall c: ConnId :: Checked(s, c) <= Checked(s', c)
  }

  ghost predicate SendsOk(s: State, c: ConnId) {
    Weight(Total(s, c)) <= Checked(s, c) + |s.threads| - s.workers
  }

  lemma OwnWorks(p: Pc)
    requires !p.Idle? && !p.StWait? && !p.AcDec? && !p.PopFree? && !p.RefAccept? && !p.PostAccept?
    ensures AppOnly(p) ==> OwnLoad(p).worker == 0
    ensures !InSend(p) ==> OwnLoad(p).passed == 0
    ensures 0 <= OwnLoad(p).worker <= 1 && 0 <= OwnLoad(p).passed <= 1
  {
  }

  lemma CallerWorks(p: Pc, c: ConnId)
    requires p.Idle? || p.StWait? || p.AcDec? || p.PopFree? || p.RefAccept? || p.PostAccept?
    ensures AppOnly(p) ==> PcLoad(p, c).worker == 0
    ensures PcLoad(p, c).passed == 0 <= PcLoad(p, c).worker <= 1
  {
  }

  lemma AppLoads(p: Pc, c: ConnId)
    ensures AppOnly(p) ==> PcLoad(p, c).worker == 0
    ensures !InSend(p) ==> PcLoad(p, c).passed == 0
    ensures 0 <= PcLoad(p, c).worker <= 1 && 0 <= PcLoad(p, c).passed <= 1
  {
    hide PcLoad, OwnLoad, AppOnly, InSend;
    if p.Idle? || p.StWait? || p.AcDec? || p.PopFree? || p.RefAccept? || p.PostAccept? {
      CallerWorks(p, c);
    } else {
      OwnHereOrNot(p, c);
      OwnWorks(p);
    }
  }

  lemma {:induction false} SumWorkers(f: nat -> Load, n: nat, workers: nat)
    requires forall i: nat | i < n :: f(i).worker <= (if i < workers then 1 else 0)
    ensures Sum(f, n, NONE).worker <= (if n < workers then n else workers)
  {
    if n > 0 { SumWorkers(f, n - 1, workers); }
  }

  lemma {:induction false} SumPassed(f: nat -> Load, n: nat, workers: nat, me: nat)
    requires workers <= me && forall i: nat | i < n :: f(i).passed <= (if i < workers then 0 else 1)
    ensures Sum(f, n, me).passed <= (if n <= workers then 0 else if n <= me then n - workers else n - workers - 1)
  {
    if n > 0 { SumPassed(f, n - 1, workers, me); }
  }

  lemma {:induction false} SumNeither(f: nat -> Load, n: nat)
    requires forall i: nat | i < n :: f(i).passed == 0 && f(i).worker == 0
    ensures Sum(f, n, NONE).passed == 0 && Sum(f, n, NONE).worker == 0
  {
    if n > 0 { SumNeither(f, n - 1); }
  }

  lemma WorkerCount(s: State, c: ConnId)
    requires Roles(s)
    ensures Total(s, c).worker <= s.workers
  {
    forall t: nat | t < |s.threads| ensures ThreadLoads(s.threads, c)(t).worker <= (if t < s.workers then 1 else 0) {
      assert FitsRole(s.threads[t], t, s.workers);
      AppLoads(s.threads[t], c);
    }
    forall i: nat | i < |s.ops| ensures IoLoads(s.ops, c)(i).passed == 0 && IoLoads(s.ops, c)(i).worker == 0 {}
    hide PcLoad, IoLoad, ThreadLoads, IoLoads, Roles;
    SumNeither(IoLoads(s.ops, c), |s.ops|);
    SumWorkers(ThreadLoads(s.threads, c), |s.threads|, s.workers);
  }

  /** Of the other threads, at most all but one application thread have passed the check. */
  lemma PassedCount(s: State, c: ConnId, me: nat)
    requires Roles(s) && s.workers <= me < |s.threads|
    ensures Rest(s, me, c).passed <= |s.threads| - s.workers - 1
  {
    forall t: nat | t < |s.threads| ensures ThreadLoads(s.threads, c)(t).passed <= (if t < s.workers then 0 else 1) {
      assert FitsRole(s.threads[t], t, s.workers);
      AppLoads(s.threads[t], c);
    }
    forall i: nat | i < |s.ops| ensures IoLoads(s.ops, c)(i).passed == 0 && IoLoads(s.ops, c)(i).worker == 0 {}
    hide PcLoad, IoLoad, ThreadLoads, IoLoads, Roles;
    SumNeither(IoLoads(s.ops, c), |s.ops|);
    SumPassed(ThreadLoads(s.threads, c), |s.threads|, s.workers, me);
  }

  // ---------------------------------------------------------------- one step

  /** The thread holds a reference AsyncSend took on c, or is about to take one. */
  predicate SendsOn(p: Pc, c: ConnId) {
    || ((p.SnGot? || p.SdInc? || p.SdPost? || p.SdFail?) && p.c == c)
    || ((p.DsCas? || p.DsPost?) && p.c == c && p.k == ToDebt(SendRef))
    || (p.CnDec? && p.c == c && p.d == SendRef)
  }

  lemma OwnSends(p: Pc)
    requires !p.Idle? && !p.StWait? && !p.AcDec? && !p.PopFree? && !p.RefAccept? && !p.PostAccept?
    ensures OwnLoad(p).sends + OwnLoad(p).passed == if SendsOn(p, p.c) then 1 else 0
  {
  }

  lemma CallerSends(p: Pc, c: ConnId)
    requires p.Idle? || p.StWait? || p.AcDec? || p.PopFree? || p.RefAccept? || p.PostAccept?
    ensures PcLoad(p, c).sends + PcLoad(p, c).passed == 0
  {
  }

  lemma SendWeight(p: Pc, c: ConnId)
    ensures Weight(PcLoad(p, c)) == if SendsOn(p, c) then 1 else 0
  {
    hide PcLoad, OwnLoad;
    if p.Idle? || p.StWait? || p.AcDec? || p.PopFree? || p.RefAccept? || p.PostAccept? {
      CallerSends(p, c);
    } else {
      OwnSends(p);
      OwnHereOrNot(p, c);
    }
  }

  lemma OwnHereOrNot(p: Pc, c: ConnId)
    requires !p.Idle? && !p.StWait? && !p.AcDec? && !p.PopFree? && !p.RefAccept? && !p.PostAccept?
    ensures PcLoad(p, c) == if p.c == c then OwnLoad(p) else NoLoad
  {
    hide OwnLoad;
  }

  /** Thread t's move from q to p adds no send and leaves the thread in its role. */
  ghost predicate AddsNoSend(q: Pc, p: Pc) {
    && (forall c: ConnId :: SendsOn(p, c) ==> SendsOn(q, c))
    && (InSend(p) ==> InSend(q))
    && (AppOnly(q) ==> AppOnly(p))
  }

  ghost predicate MovesOnly(s: State, s': State, t: nat, p: Pc)
    requires t < |s.threads|
  {
    s'.threads == s.threads[t := p] && s'.ops == s.ops && s'.workers == s.workers && Rising(s, s')
  }

  lemma StartAdvance(s: State, t: nat, ok: bool) returns (p: Pc)
    requires CanGo(s, t)
    requires var q := s.threads[t]; q.StWait? || q.PopFree?
    ensures MovesOnly(s, Advance(s, t, ok), t, p) && AddsNoSend(s.threads[t], p)
  {
    assert s.free != [] ==> s.free[0] in s.free;
    p := Advance(s, t, ok).threads[t];
  }

  lemma ListenAdvance(s: State, t: nat, ok: bool) returns (p: Pc)
    requires CanGo(s, t)
    requires var q := s.threads[t]; q.RefAccept? || q.PostAccept?
    ensures MovesOnly(s, Advance(s, t, ok), t, p) && AddsNoSend(s.threads[t], p)
  {
    p := Advance(s, t, ok).threads[t];
  }

  lemma CallAdvance(s: State, t: nat, ok: bool) returns (p: Pc)
    requires CanGo(s, t)
    requires var q := s.threads[t]; q.AcUp? || q.AcCall?
    ensures MovesOnly(s, Advance(s, t, ok), t, p) && AddsNoSend(s.threads[t], p)
  {
    p := Advance(s, t, ok).threads[t];
  }

  lemma ContextAdvance(s: State, t: nat, ok: bool) returns (p: Pc)
    requires CanGo(s, t) && s.threads[t].AcCtx?
    ensures MovesOnly(s, Advance(s, t, ok), t, p) && AddsNoSend(s.threads[t], p)
  {
    p := Advance(s, t, ok).threads[t];
  }

  lemma AcceptAdvance(s: State, t: nat, ok: bool) returns (p: Pc)
    requires CanGo(s, t) && s.threads[t].AcDec?
    ensures MovesOnly(s, Advance(s, t, ok), t, p) && AddsNoSend(s.threads[t], p)
  {
    p := Advance(s, t, ok).threads[t];
  }

  lemma GotAdvance(s: State, t: nat, ok: bool) returns (p: Pc)
    requires CanGo(s, t) && s.threads[t].RvGot?
    ensures MovesOnly(s, Advance(s, t, ok), t, p) && AddsNoSend(s.threads[t], p)
  {
    p := Advance(s, t, ok).threads[t];
  }

  lemma RecvAdvance(s: State, t: nat, ok: bool) returns (p: Pc)
    requires CanGo(s, t) && s.threads[t].RvInc?
    ensures MovesOnly(s, Advance(s, t, ok), t, p) && AddsNoSend(s.threads[t], p)
  {
    p := Advance(s, t, ok).threads[t];
  }

  lemma FailAdvance(s: State, t: nat, ok: bool) returns (p: Pc)
    requires CanGo(s, t)
    requires var q := s.threads[t]; (q.RvPost? && !ok) || q.RvFail?
    ensures MovesOnly(s, Advance(s, t, ok), t, p) && AddsNoSend(s.threads[t], p)
  {
    p := Advance(s, t, ok).threads[t];
  }

  lemma TestAdvance(s: State, t: nat, ok: bool) returns (p: Pc)
    requires CanGo(s, t)
    requires var q := s.threads[t]; q.DiTest?
    ensures MovesOnly(s, Advance(s, t, ok), t, p) && AddsNoSend(s.threads[t], p)
  {
    p := Advance(s, t, ok).threads[t];
  }

  lemma DrainAdvance(s: State, t: nat, ok: bool) returns (p: Pc)
    requires CanGo(s, t)
    requires var q := s.threads[t]; q.DiRepost? || q.DiCall?
    ensures MovesOnly(s, Advance(s, t, ok), t, p) && AddsNoSend(s.threads[t], p)
  {
    p := Advance(s, t, ok).threads[t];
  }

  lemma SwapAdvance(s: State, t: nat, ok: bool) returns (p: Pc)
    requires CanGo(s, t)
    requires var q := s.threads[t]; q.DsCas?
    ensures MovesOnly(s, Advance(s, t, ok), t, p) && AddsNoSend(s.threads[t], p)
  {
    p := Advance(s, t, ok).threads[t];
  }

  lemma DisconnectAdvance(s: State, t: nat, ok: bool) returns (p: Pc)
    requires CanGo(s, t)
    requires var q := s.threads[t]; q.DsPost?
    ensures MovesOnly(s, Advance(s, t, ok), t, p) && AddsNoSend(s.threads[t], p)
  {
    p := Advance(s, t, ok).threads[t];
  }

  lemma CountAdvance(s: State, t: nat, ok: bool) returns (p: Pc)
    requires CanGo(s, t)
    requires var q := s.threads[t]; q.CnDec? || q.SnGot?
    ensures MovesOnly(s, Advance(s, t, ok), t, p) && AddsNoSend(s.threads[t], p)
  {
    p := Advance(s, t, ok).threads[t];
  }

  lemma SendAdvance(s: State, t: nat, ok: bool) returns (p: Pc)
    requires CanGo(s, t)
    requires var q := s.threads[t]; q.SdInc? || q.SdOver?
    ensures MovesOnly(s, Advance(s, t, ok), t, p) && AddsNoSend(s.threads[t], p)
  {
    p := Advance(s, t, ok).threads[t];
  }

  lemma SendFailAdvance(s: State, t: nat, ok: bool) returns (p: Pc)
    requires CanGo(s, t)
    requires var q := s.threads[t]; (q.SdPost? && !ok) || q.SdFail?
    ensures MovesOnly(s, Advance(s, t, ok), t, p) && AddsNoSend(s.threads[t], p)
  {
    p := Advance(s, t, ok).threads[t];
  }

  lemma PlainAdvance(s: State, t: nat, ok: bool) returns (p: Pc)
    requires CanGo(s, t) && !s.threads[t].Idle?
    requires !(ok && (s.threads[t].RvPost? || s.threads[t].SdPost?)) && !s.threads[t].SdTest?
    ensures MovesOnly(s, Advance(s, t, ok), t, p) && AddsNoSend(s.threads[t], p)
  {
    var q := s.threads[t];
    hide Advance, AddsNoSend, MovesOnly, CanGo;
    if q.StWait? || q.PopFree? {
      p := StartAdvance(s, t, ok);
    } else if q.RefAccept? || q.PostAccept? {
      p := ListenAdvance(s, t, ok);
    } else if q.AcUp? || q.AcCall? {
      p := CallAdvance(s, t, ok);
    } else if q.AcCtx? {
      p := ContextAdvance(s, t, ok);
    } else if q.AcDec? {
      p := AcceptAdvance(s, t, ok);
    } else if q.RvGot? {
      p := GotAdvance(s, t, ok);
    } else if q.RvInc? {
      p := RecvAdvance(s, t, ok);
    } else if q.RvPost? || q.RvFail? {
      p := FailAdvance(s, t, ok);
    } else if q.DiTest? {
      p := TestAdvance(s, t, ok);
    } else if q.DiRepost? || q.DiCall? {
      p := DrainAdvance(s, t, ok);
    } else if q.DsCas? {
      p := SwapAdvance(s, t, ok);
    } else if q.DsPost? {
      p := DisconnectAdvance(s, t, ok);
    } else if q.CnDec? || q.SnGot? {
      p := CountAdvance(s, t, ok);
    } else if q.SdInc? || q.SdOver? {
      p := SendAdvance(s, t, ok);
    } else {
      p := SendFailAdvance(s, t, ok);
    }
  }

  // ---------------------------------------------------------------- every step keeps the bound

  /** A thread that adds no send keeps the bound and its role. */
  lemma KeepPlain(s: State, s': State, t: nat, p: Pc)
    requires Roles(s) && (forall c: ConnId :: SendsOk(s, c))
    requires t < |s.threads| && MovesOnly(s, s', t, p) && AddsNoSend(s.threads[t], p)
    ensures Roles(s') && forall c: ConnId :: SendsOk(s', c)
  {
    assert FitsRole(s.threads[t], t, s.workers);
    hide AppOnly, InSend;
    forall c: ConnId ensures SendsOk(s', c) {
      assert SendsOk(s, c);
      hide PcLoad, SendsOn;
      Move(s, s', t, p, c);
      SendWeight(p, c);
      SendWeight(s.threads[t], c);
    }
  }

  lemma KeepPosted(s: State, s': State, t: nat, p: Pc, o: Io)
    requires Roles(s) && (forall c: ConnId :: SendsOk(s, c))
    requires t < |s.threads| && s'.threads == s.threads[t := p] && s'.ops == s.ops + [o] && s'.workers == s.workers
    requires Rising(s, s')
    requires FitsRole(s.threads[t], t, s.workers) ==> FitsRole(p, t, s.workers)
    requires forall c: ConnId :: Weight(PcLoad(p, c)) + Weight(IoLoad(o, c)) <= Weight(PcLoad(s.threads[t], c))
    ensures Roles(s') && forall c: ConnId :: SendsOk(s', c)
  {
    assert FitsRole(s.threads[t], t, s.workers);
    hide FitsRole;
    forall c: ConnId ensures SendsOk(s', c) {
      assert SendsOk(s, c);
      hide PcLoad, IoLoad;
      MovePosting(s, s', t, p, o, c);
    }
  }

  lemma RvPostLoads(d: ConnId, x: Ctx, after: After, c: ConnId)
    ensures var l := PcLoad(if after.AfterAccept? then AcDec else CnDec(d, RecvRef), c); l.sends == 0 == l.passed
    ensures var l := IoLoad(Recv(d, x, false, []), c); l.sends == 0 == l.passed
    ensures var l := PcLoad(RvPost(d, x, after), c); l.sends == 0 == l.passed
  {
  }

  lemma SdPostLoads(d: ConnId, x: Ctx, c: ConnId)
    ensures var l := PcLoad(Idle, c); l.sends == 0 == l.passed
    ensures var l, q := IoLoad(Send(d, x, false), c), PcLoad(SdPost(d, x), c);
      l.sends == q.sends && l.passed == q.passed
  {
  }

  lemma KeepPosts(s: State, t: nat)
    requires Roles(s) && (forall c: ConnId :: SendsOk(s, c))
    requires Enabled(s, Go(t, true), ORDERLY) && (s.threads[t].RvPost? || s.threads[t].SdPost?)
    ensures var s' := Advance(s, t, true); Roles(s') && forall c: ConnId :: SendsOk(s', c)
  {
    var q := s.threads[t];
    var s' := Advance(s, t, true);
    if q.RvPost? {
      assert s' == GoRvPost(s, t, q.c, q.x, q.after, true);
      forall c: ConnId
        ensures Weight(PcLoad(s'.threads[t], c)) + Weight(IoLoad(Recv(q.c, q.x, false, []), c)) <= Weight(PcLoad(q, c))
      {
        RvPostLoads(q.c, q.x, q.after, c);
        hide PcLoad, IoLoad;
      }
      hide PcLoad, IoLoad, Advance;
      KeepPosted(s, s', t, s'.threads[t], Recv(q.c, q.x, false, []));
    } else {
      assert s' == GoSdPost(s, t, q.c, q.x, true);
      forall c: ConnId
        ensures Weight(PcLoad(Idle, c)) + Weight(IoLoad(Send(q.c, q.x, false), c)) <= Weight(PcLoad(q, c))
      {
        SdPostLoads(q.c, q.x, c);
        hide PcLoad, IoLoad;
      }
      hide PcLoad, IoLoad, Advance;
      KeepPosted(s, s', t, Idle, Send(q.c, q.x, false));
    }
  }

  lemma LimitAtTest(s: State, t: nat)
    requires Inv(s) && Roles(s) && t < |s.threads| && s.threads[t].SdTest?
    ensures s.threads[t].c < |s.conns|
    ensures var c := s.threads[t].c; s.conns[c].iorefs <= s.conns[c].refmax ==>
              Weight(Rest(s, t, c)) + 1 <= s.conns[c].refmax + |s.threads| - s.workers
  {
    hide Conns, AcceptOk, Contexts, Talks, ConnOk, PcIds, Roles, Rest, Sane;
    var SdTest(c, x) := s.threads[t];
    Stand(s, t);
    assert c < |s.conns| by { TestsKnown(s, t); }
    assert s.workers <= t by { SendersAreApp(s, t); }
    PassedCount(s, c, t);
    Focus(s, t, c);
    RefsAtTest(s.conns[c], c, x, Rest(s, t, c), multiset(s.free)[c], IsTarget(s, c));
  }

  lemma TestsKnown(s: State, t: nat)
    requires t < |s.threads| && s.threads[t].SdTest? && PcIds(s.threads[t], |s.conns|)
    ensures s.threads[t].c < |s.conns|
  {
  }

  lemma SendersAreApp(s: State, t: nat)
    requires Roles(s) && t < |s.threads| && s.threads[t].SdTest?
    ensures s.workers <= t
  {
    assert FitsRole(s.threads[t], t, s.workers);
  }

  lemma RefsAtTest(cn: Conn, c: ConnId, x: Ctx, r: Load, f: nat, g: bool)
    requires Sane(r) && ConnOk(cn, Plus(OwnLoad(SdTest(c, x)), r), f, g)
    ensures cn.iorefs == r.refs >= r.sends
  {
    hide Payloads;
  }

  lemma PassedOneMore(s: State, s': State, t: nat, d: ConnId, x: Ctx, c: ConnId)
    requires t < |s.threads| && s.threads[t] == SdTest(d, x) && MovesOnly(s, s', t, SdInc(d, x))
    requires SendsOk(s, c)
    requires c == d ==> Weight(Rest(s, t, c)) + 1 <= Checked(s', c) + |s.threads| - s.workers
    ensures SendsOk(s', c)
  {
    hide PcLoad, Rest;
    Move(s, s', t, SdInc(d, x), c);
    SendWeight(SdInc(d, x), c);
    SendWeight(SdTest(d, x), c);
  }

  /** The limit check: passing it needs a count within the limit. */
  lemma KeepTest(s: State, t: nat)
    requires Inv(s) && Roles(s) && (forall c: ConnId :: SendsOk(s, c))
    requires t < |s.threads| && s.threads[t].SdTest? && s.threads[t].c < |s.conns|
    ensures var s' := GoSdTest(s, t, s.threads[t].c, s.threads[t].x); Roles(s') && forall c: ConnId :: SendsOk(s', c)
  {
    hide Inv, SendsOk, Rest;
    var SdTest(d, x) := s.threads[t];
    var s' := GoSdTest(s, t, d, x);
    if s.conns[d].iorefs > s.conns[d].refmax {
      KeepPlain(s, s', t, SdOver(d, x));
    } else {
      LimitAtTest(s, t);
      forall c: ConnId ensures SendsOk(s', c) {
        PassedOneMore(s, s', t, d, x, c);
      }
      assert FitsRole(s.threads[t], t, s.workers);
    }
  }

  /** The kernel completes a receive or a send. */
  lemma KeepCompleted(s: State, s': State, i: nat, o: Io)
    requires Roles(s) && (forall c: ConnId :: SendsOk(s, c))
    requires i < |s.ops| && s'.ops == s.ops[i := o] && s'.threads == s.threads && s'.workers == s.workers
    requires Rising(s, s')
    requires !o.Taken? && !s.ops[i].Taken? && o.c == s.ops[i].c && o.Send? == s.ops[i].Send?
    ensures Roles(s') && forall c: ConnId :: SendsOk(s', c)
  {
    forall c: ConnId ensures SendsOk(s', c) {
      assert SendsOk(s, c);
      IoWeight(o, c);
      IoWeight(s.ops[i], c);
      hide IoLoad;
      IoMove(s, s', i, o, c);
    }
  }

  lemma IoWeight(o: Io, c: ConnId)
    ensures IoLoad(o, c).sends + IoLoad(o, c).passed == if o.Send? && o.c == c then 1 else 0
  {
  }

  lemma KeepTaken(s: State, t: nat, i: nat)
    requires Roles(s) && (forall c: ConnId :: SendsOk(s, c)) && Enabled(s, TakeIo(t, i), ORDERLY)
    ensures var s' := DoTakeIo(s, t, i); Roles(s') && forall c: ConnId :: SendsOk(s', c)
  {
    var o := s.ops[i];
    var p := TakenPc(o);
    var s' := DoTakeIo(s, t, i);
    assert s'.threads == s.threads[t := p] && s'.ops == s.ops[i := Taken];
    hide DoTakeIo;
    forall c: ConnId ensures SendsOk(s', c) {
      assert SendsOk(s, c);
      IoWeight(o, c);
      hide IoLoad, PcLoad;
      SendWeight(p, c);
      TakeMove(s, s', t, p, i, c);
    }
    hide SendsOk;
    assert FitsRole(s.threads[t], t, s.workers);
  }

  /** A step that moves no thread and no operation. */
  lemma KeepSame(s: State, s': State)
    requires Roles(s) && (forall c: ConnId :: SendsOk(s, c))
    requires s'.threads == s.threads && s'.ops == s.ops && s'.workers == s.workers && Rising(s, s')
    ensures Roles(s') && forall c: ConnId :: SendsOk(s', c)
  {
    forall c: ConnId ensures SendsOk(s', c) { assert SendsOk(s, c); }
  }

  /** An idle thread takes up something that adds no send. */
  lemma KeepEntered(s: State, s': State, t: nat, p: Pc)
    requires Roles(s) && (forall c: ConnId :: SendsOk(s, c))
    requires t < |s.threads| && s.threads[t] == Idle && MovesOnly(s, s', t, p)
    requires forall c: ConnId :: !SendsOn(p, c)
    requires FitsRole(p, t, s.workers)
    ensures Roles(s') && forall c: ConnId :: SendsOk(s', c)
  {
    hide FitsRole;
    forall c: ConnId ensures SendsOk(s', c) {
      assert SendsOk(s, c);
      hide PcLoad;
      Move(s, s', t, p, c);
      SendWeight(p, c);
      SendWeight(Idle, c);
    }
  }

  lemma KeepGoBound(s: State, t: nat, ok: bool)
    requires Inv(s) && Roles(s) && (forall c: ConnId :: SendsOk(s, c)) && Enabled(s, Go(t, ok), ORDERLY)
    ensures var s' := Advance(s, t, ok); Roles(s') && forall c: ConnId :: SendsOk(s', c)
  {
    hide Inv, SendsOk, Roles;
    if s.threads[t].SdTest? {
      KeepTest(s, t);
    } else if ok && (s.threads[t].RvPost? || s.threads[t].SdPost?) {
      KeepPosts(s, t);
    } else {
      hide Advance;
      var p := PlainAdvance(s, t, ok);
      KeepPlain(s, Advance(s, t, ok), t, p);
    }
  }

  /** The kernel completes something. */
  lemma KeepKernelBound(s: State, a: Step)
    requires Roles(s) && (forall c: ConnId :: SendsOk(s, c)) && Enabled(s, a, ORDERLY)
    requires a.KernelAccept? || a.KernelRecv? || a.KernelSend? || a.KernelDisconnect?
    ensures var s' := Apply(s, a, ORDERLY); Roles(s') && forall c: ConnId :: SendsOk(s', c)
  {
    hide SendsOk, Roles;
    var s' := Apply(s, a, ORDERLY);
    match a {
      case KernelAccept => KeepSame(s, s');
      case KernelRecv(i, data) => KeepCompleted(s, s', i, s'.ops[i]);
      case KernelSend(i) => KeepCompleted(s, s', i, s'.ops[i]);
      case KernelDisconnect(c) => KeepSame(s, s');
    }
  }

  /** A worker takes a completion. */
  lemma KeepTakeBound(s: State, a: Step)
    requires Roles(s) && (forall c: ConnId :: SendsOk(s, c)) && Enabled(s, a, ORDERLY)
    requires a.TakeAccept? || a.TakeIo? || a.TakeDisconnect?
    ensures var s' := Apply(s, a, ORDERLY); Roles(s') && forall c: ConnId :: SendsOk(s', c)
  {
    hide SendsOk, Roles;
    var s' := Apply(s, a, ORDERLY);
    match a {
      case TakeAccept(t) => KeepEntered(s, s', t, PopFree(Branch(s.ctxConn)));
      case TakeIo(t, i) => KeepTaken(s, t, i);
      case TakeDisconnect(t, c) => KeepEntered(s, s', t, DiTest(c));
    }
  }

  /** The application makes a call. */
  lemma KeepSendCall(s: State, a: Step)
    requires Roles(s) && (forall c: ConnId :: SendsOk(s, c)) && Enabled(s, a, ORDERLY) && a.AppSend?
    ensures var s' := Apply(s, a, ORDERLY); Roles(s') && forall c: ConnId :: SendsOk(s', c)
  {
    hide SendsOk, Roles;
    KeepEntered(s, Apply(s, a, ORDERLY), a.t, SdTest(a.c, a.x));
  }

  lemma KeepDisconnectCall(s: State, a: Step)
    requires Roles(s) && (forall c: ConnId :: SendsOk(s, c)) && Enabled(s, a, ORDERLY) && a.AppDisconnect?
    ensures var s' := Apply(s, a, ORDERLY); Roles(s') && forall c: ConnId :: SendsOk(s', c)
  {
    hide SendsOk, Roles;
    KeepEntered(s, Apply(s, a, ORDERLY), a.t, DsCas(a.c, ToIdle));
  }

  lemma KeepStartCall(s: State, a: Step)
    requires Roles(s) && (forall c: ConnId :: SendsOk(s, c)) && Enabled(s, a, ORDERLY) && a.AppStart?
    ensures var s' := Apply(s, a, ORDERLY); Roles(s') && forall c: ConnId :: SendsOk(s', c)
  {
    hide SendsOk, Roles;
    KeepEntered(s, Apply(s, a, ORDERLY), a.t, StWait);
  }

  /** The application does something that leaves threads and operations alone. */
  lemma Untouching(s: State, a: Step)
    requires Enabled(s, a, ORDERLY) && (a.AppBind? || a.AppPop? || a.AppPush? || a.AppClose? || a.AppStop?)
    ensures var s' := Apply(s, a, ORDERLY);
      s'.threads == s.threads && s'.ops == s.ops && s'.workers == s.workers && Rising(s, s')
  {
  }

  lemma KeepUntouched(s: State, a: Step)
    requires Roles(s) && (forall c: ConnId :: SendsOk(s, c)) && Enabled(s, a, ORDERLY)
    requires a.AppBind? || a.AppPop? || a.AppPush? || a.AppClose? || a.AppStop?
    ensures var s' := Apply(s, a, ORDERLY); Roles(s') && forall c: ConnId :: SendsOk(s', c)
  {
    hide SendsOk, Roles, Enabled, Apply, Rising;
    Untouching(s, a);
    KeepSame(s, Apply(s, a, ORDERLY));
  }

  lemma KeepBound(s: State, a: Step)
    requires Inv(s) && Roles(s) && (forall c: ConnId :: SendsOk(s, c)) && Enabled(s, a, ORDERLY)
    ensures var s' := Apply(s, a, ORDERLY); Roles(s') && forall c: ConnId :: SendsOk(s', c)
  {
    hide Inv, SendsOk, Roles, Advance;
    if a.Go? {
      KeepGoBound(s, a.t, a.ok);
    } else if a.KernelAccept? || a.KernelRecv? || a.KernelSend? || a.KernelDisconnect? {
      KeepKernelBound(s, a);
    } else if a.TakeAccept? || a.TakeIo? || a.TakeDisconnect? {
      KeepTakeBound(s, a);
    } else if a.AppSend? {
      KeepSendCall(s, a);
    } else if a.AppDisconnect? {
      KeepDisconnectCall(s, a);
    } else if a.AppStart? {
      KeepStartCall(s, a);
    } else {
      KeepUntouched(s, a);
    }
  }

  // ---------------------------------------------------------------- every run

  lemma InitBound(s: State)
    requires Init(s)
    ensures Roles(s) && forall c: ConnId :: SendsOk(s, c)
  {
    hide SendsOk;
    forall c: ConnId ensures SendsOk(s, c) {
      InitSends(s, c);
    }
  }

  lemma InitSends(s: State, c: ConnId)
    requires Init(s)
    ensures SendsOk(s, c)
  {
    NowhereYet(s, c);
    NothingSent(s, c);
  }

  lemma NothingSent(s: State, c: ConnId)
    requires Total(s, c).sends == 0 == Total(s, c).passed && s.conns == [] && s.workers <= |s.threads|
    ensures SendsOk(s, c)
  {
    hide Total;
  }

  lemma NowhereYet(s: State, c: ConnId)
    requires Init(s)
    ensures Total(s, c) == NoLoad
  {
    hide Total;
    UnknownTotal(s, c);
  }

  lemma {:induction false} RunBound(states: seq<State>, n: nat)
    requires Run(states, ORDERLY) && n < |states|
    ensures Roles(states[n]) && forall c: ConnId :: SendsOk(states[n], c)
  {
    hide Inv, SendsOk, Roles, Init;
    if n == 0 {
      InitBound(states[0]);
    } else {
      RunBound(states, n - 1);
      RunInv(states, n - 1);
      assert Next(states[n - 1], states[n - 1 + 1], ORDERLY);
      NextBound(states[n - 1], states[n]);
    }
  }

  lemma NextBound(s: State, s': State)
    requires Inv(s) && Roles(s) && (forall c: ConnId :: SendsOk(s, c)) && Next(s, s', ORDERLY)
    ensures Roles(s') && forall c: ConnId :: SendsOk(s', c)
  {
    hide Inv, SendsOk, Roles;
    var a :| Enabled(s, a, ORDERLY) && s' == Apply(s, a, ORDERLY);
    KeepBound(s, a);
  }

  /**
   * With W workers and T application threads, iorefs_ never exceeds the largest limit that let a send pass on the
   * connection by more than T + W + 1, although the limit check and the increment are separate steps and receives
   * are not checked at all; and no limit is larger than the one a connection is created with.
   */
  lemma ReferenceBound(s: State, c: ConnId)
    requires Reachable(s, ORDERLY) && c < |s.conns|
    ensures s.workers <= |s.threads| && s.conns[c].checked <= INITIAL_REF_MAX
    ensures var T := |s.threads| - s.workers; s.conns[c].iorefs <= s.conns[c].checked + T + s.workers + 1
  {
    hide Inv, Roles, SendsOk, ConnOk, Total;
    var states :| Run(states, ORDERLY) && states[|states| - 1] == s;
    RunBound(states, |states| - 1);
    ReferenceCount(s, c);
    DutyAtMostOne(s, c);
    TotalsSane(s, c);
    LimitInRange(s, c);
    BoundSum(s, c);
  }

  lemma LimitInRange(s: State, c: ConnId)
    requires Reachable(s, ORDERLY) && c < |s.conns|
    ensures s.conns[c].checked <= INITIAL_REF_MAX
  {
    InvReachable(s);
    hide Total;
    assert ConnAt(s, c);
  }

  lemma BoundSum(s: State, c: ConnId)
    requires Roles(s) && SendsOk(s, c) && Sane(Total(s, c)) && Total(s, c).duty <= 1
    ensures s.workers <= |s.threads| && Total(s, c).refs <= Checked(s, c) + |s.threads| + 1
  {
    WorkerCount(s, c);
    hide Total;
  }
}
