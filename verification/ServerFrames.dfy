/** What the steps of the network layer change of the things the server looks at. */
module ServerFrames {
  import opened Bytes
  import opened CompletionPort
  import opened PortLoad
  import opened PortInvariant
  import opened PortBranches
  import opened Server

  /** What matters to the server of a connection: whether a handler knows it, its bound client, what OnData got. */
  datatype Face = Face(live: bool, bound: bool, client: Option<SessionId>, given: seq<Chunk>)

  function FaceOf(s: State, c: ConnId): (f: Face) {
    if c < |s.conns| then
      var cn := s.conns[c];
      Face(cn.live, cn.bound, if cn.bound then cn.client else None, cn.given)
    else Face(false, false, None, [])
  }

  /** And what limits its sends. */
  datatype Terms = Terms(limit: int, checked: int)

  function TermsOf(s: State, c: ConnId): (f: Terms) {
    if c < |s.conns| then Terms(s.conns[c].refmax, s.conns[c].checked) else Terms(INITIAL_REF_MAX, 0)
  }

  ghost predicate SameTerms(s: State, s': State) {
    forall c: ConnId :: TermsOf(s', c) == TermsOf(s, c)
  }

  /** The step makes no upcall and changes no face. */
  ghost predicate Silent(s: State, s': State) {
    s'.log == s.log && |s'.conns| >= |s.conns| && forall c: ConnId :: FaceOf(s', c) == FaceOf(s, c)
  }

  /** The step makes the upcall e; OnConnection is only ever called on a connection not yet live. */
  ghost predicate Says(s: State, s': State, e: Event) {
    && s'.log == s.log + [e] && |s'.conns| == |s.conns| && e.c < |s.conns|
    && (e.OnConnection? ==> !FaceOf(s, e.c).live)
    && forall c: ConnId :: FaceOf(s', c) == if c == e.c then Told(FaceOf(s, c), e) else FaceOf(s, c)
  }

  function Told(f: Face, e: Event): (r: Face) {
    match e
    case OnConnection(_) => f.(live := true, given := [])
    case OnData(_, data) => f.(given := f.given + [data])
    case OnDisconnect(_) => f
  }

  /** A thread moves from q to p without entering AsyncSend. */
  predicate Along(q: Pc, p: Pc) {
    InSend(p) ==> InSend(q) && p.c == q.c
  }

  /** Thread t takes a step, no other thread moves, and t enters no AsyncSend. */
  predicate Steps(s: State, s': State, t: nat) {
    t < |s.threads| == |s'.threads| && s'.workers == s.workers
    && s'.threads == s.threads[t := s'.threads[t]] && Along(s.threads[t], s'.threads[t])
  }

  ghost predicate Silently(s: State, s': State, t: nat) {
    Silent(s, s') && SameTerms(s, s') && Steps(s, s', t)
  }

  // ---------------------------------------------------------------- thread steps

  /** The free list holds connections that no handler knows. */
  lemma FreeIsUnknown(s: State)
    requires Inv(s) && s.free != []
    ensures s.free[0] < |s.conns| && !s.conns[s.free[0]].bound
  {
    hide AcceptOk, Contexts, Talks, Total, ConnOk;
    var n := s.free[0];
    assert n in s.free;
    assert ConnAt(s, n) && multiset(s.free)[n] >= 1;
    FreeOk(s.conns[n], Total(s, n), multiset(s.free)[n], IsTarget(s, n));
  }

  lemma FreeOk(cn: Conn, l: Load, f: nat, g: bool)
    requires ConnOk(cn, l, f, g) && f >= 1
    ensures !cn.bound
  {
    hide Payloads;
  }

  lemma WaitSilent(s: State, t: nat, ok: bool)
    requires CanGo(s, t)
    requires var q := s.threads[t]; q.StWait? || q.RefAccept? || q.AcDec?
    ensures Silently(s, Advance(s, t, ok), t)
  {
  }

  lemma TakeSilent(s: State, t: nat, ok: bool)
    requires CanGo(s, t)
    requires var q := s.threads[t]; q.AcCtx?
    ensures Silently(s, Advance(s, t, ok), t)
  {
    hide CausesOf, BufOf;
  }

  lemma PostSilent(s: State, t: nat, ok: bool)
    requires CanGo(s, t)
    requires var q := s.threads[t]; q.PostAccept? || q.AcUp?
    ensures Silently(s, Advance(s, t, ok), t)
  {
  }

  lemma EmptySilent(s: State, t: nat, ok: bool)
    requires CanGo(s, t)
    requires var q := s.threads[t]; (q.RvGot? && q.data == []) || q.RvFail?
    ensures Silently(s, Advance(s, t, ok), t)
  {
  }

  lemma RecvSilent(s: State, t: nat, ok: bool)
    requires CanGo(s, t)
    requires var q := s.threads[t]; q.RvInc? || q.RvPost?
    ensures Silently(s, Advance(s, t, ok), t)
  {
  }

  lemma SwapSilent(s: State, t: nat, ok: bool)
    requires CanGo(s, t)
    requires var q := s.threads[t]; q.DsCas?
    ensures Silently(s, Advance(s, t, ok), t)
  {
    hide CausesOf, BufOf;
  }

  lemma PendSilent(s: State, t: nat, ok: bool)
    requires CanGo(s, t)
    requires var q := s.threads[t]; q.DsPost? || q.CnDec?
    ensures Silently(s, Advance(s, t, ok), t)
  {
  }

  lemma TestSilent(s: State, t: nat, ok: bool)
    requires CanGo(s, t) && s.threads[t].DiTest?
    ensures Silently(s, Advance(s, t, ok), t)
  {
    hide CausesOf, BufOf;
  }

  lemma RepostSilent(s: State, t: nat, ok: bool)
    requires CanGo(s, t) && s.threads[t].DiRepost?
    ensures Silently(s, Advance(s, t, ok), t)
  {
  }

  lemma SentSilent(s: State, t: nat, ok: bool)
    requires CanGo(s, t)
    requires var q := s.threads[t]; q.SnGot? || q.SdInc?
    ensures Silently(s, Advance(s, t, ok), t)
  {
  }

  lemma SendSilent(s: State, t: nat, ok: bool)
    requires CanGo(s, t)
    requires var q := s.threads[t]; q.SdPost? || q.SdFail? || q.SdOver?
    ensures Silently(s, Advance(s, t, ok), t)
  {
    hide CausesOf, BufOf;
  }

  /** Accept takes a connection that no handler knows. */
  lemma ReuseSilent(s: State, t: nat, ok: bool)
    requires CanGo(s, t) && s.threads[t].PopFree? && s.free != []
    requires s.free[0] < |s.conns| && !s.conns[s.free[0]].bound
    ensures Silently(s, Advance(s, t, ok), t)
  {
  }

  lemma CreateSilent(s: State, t: nat, ok: bool)
    requires CanGo(s, t) && s.threads[t].PopFree? && s.free == []
    ensures Silently(s, Advance(s, t, ok), t)
  {
  }

  lemma PopSilent(s: State, t: nat, ok: bool)
    requires Inv(s) && CanGo(s, t) && s.threads[t].PopFree?
    ensures Silently(s, Advance(s, t, ok), t)
  {
    hide Inv, Advance, CanGo, Silently;
    if s.free != [] {
      FreeIsUnknown(s);
      ReuseSilent(s, t, ok);
    } else {
      CreateSilent(s, t, ok);
    }
  }

  /** The limit check: a send that passes is remembered. */
  lemma CheckSilent(s: State, t: nat, ok: bool)
    requires CanGo(s, t) && s.threads[t].SdTest?
    ensures var s', c := Advance(s, t, ok), s.threads[t].c;
      && c < |s.conns| && Silent(s, s') && Steps(s, s', t)
      && (forall d: ConnId | d != c :: TermsOf(s', d) == TermsOf(s, d))
      && TermsOf(s', c).limit == TermsOf(s, c).limit
      && TermsOf(s', c).checked <= Larger(TermsOf(s, c).checked, TermsOf(s, c).limit)
  {
    hide CausesOf, BufOf;
  }

  /** A thread step without an upcall, other than the limit check. */
  lemma GoSilent(s: State, t: nat, ok: bool)
    requires Inv(s) && CanGo(s, t) && !s.threads[t].Idle? && !s.threads[t].SdTest? && !IsUpcall(s, Go(t, ok))
    ensures Silently(s, Advance(s, t, ok), t)
  {
    hide Inv, Silently, Advance, PcIds;
    var q := s.threads[t];
    if q.PopFree? {
      PopSilent(s, t, ok);
    } else if q.StWait? || q.RefAccept? || q.AcDec? {
      WaitSilent(s, t, ok);
    } else if q.AcCtx? {
      TakeSilent(s, t, ok);
    } else if q.PostAccept? || q.AcUp? {
      PostSilent(s, t, ok);
    } else if q.RvGot? || q.RvFail? {
      EmptySilent(s, t, ok);
    } else if q.RvInc? || q.RvPost? {
      RecvSilent(s, t, ok);
    } else if q.DsCas? {
      SwapSilent(s, t, ok);
    } else if q.DsPost? || q.CnDec? {
      PendSilent(s, t, ok);
    } else if q.DiTest? {
      TestSilent(s, t, ok);
    } else if q.DiRepost? {
      RepostSilent(s, t, ok);
    } else if q.SnGot? || q.SdInc? {
      SentSilent(s, t, ok);
    } else {
      SendSilent(s, t, ok);
    }
  }

  /** OnConnection is about to be called: no handler knows the connection yet. */
  lemma AboutToOpen(s: State, t: nat)
    requires Inv(s) && t < |s.threads| && s.threads[t].AcCall? && s.threads[t].c < |s.conns|
    ensures !s.conns[s.threads[t].c].live
  {
    hide Inv, ConnOk, Plus, Rest, Sane, OwnLoad, Relay;
    var c := s.threads[t].c;
    Working(c);
    Hold(s, t, s.threads[t], c);
    AcWelcomeOk(s.conns[c], c, Rest(s, t, c), multiset(s.free)[c], IsTarget(s, c));
  }

  lemma Working(c: ConnId)
    ensures Relay(AcCall(c), AcCall(c), c)
  {
  }

  lemma OpenSaysNew(s: State, t: nat, ok: bool)
    requires CanGo(s, t) && s.threads[t].AcCall? && !s.conns[s.threads[t].c].live
    ensures var s' := Advance(s, t, ok);
      Says(s, s', OnConnection(s.threads[t].c)) && SameTerms(s, s') && Steps(s, s', t)
  {
  }

  lemma OpenSays(s: State, t: nat, ok: bool)
    requires Inv(s) && CanGo(s, t) && s.threads[t].AcCall?
    ensures var s' := Advance(s, t, ok);
      Says(s, s', OnConnection(s.threads[t].c)) && SameTerms(s, s') && Steps(s, s', t)
  {
    assert t < |s.threads| && s.threads[t].c < |s.conns|;
    hide Inv, Advance, CanGo, Says, SameTerms, Steps;
    AboutToOpen(s, t);
    OpenSaysNew(s, t, ok);
  }

  lemma DataSays(s: State, t: nat, ok: bool)
    requires CanGo(s, t) && s.threads[t].RvGot? && s.threads[t].data != []
    ensures var s' := Advance(s, t, ok);
      Says(s, s', OnData(s.threads[t].c, s.threads[t].data)) && SameTerms(s, s') && Steps(s, s', t)
  {
  }

  lemma ShutSays(s: State, t: nat, ok: bool)
    requires CanGo(s, t) && s.threads[t].DiCall?
    ensures var s' := Advance(s, t, ok);
      Says(s, s', OnDisconnect(s.threads[t].c)) && SameTerms(s, s') && Steps(s, s', t)
  {
  }

  lemma GoSays(s: State, t: nat, ok: bool) returns (e: Event)
    requires Inv(s) && CanGo(s, t) && IsUpcall(s, Go(t, ok))
    ensures var s' := Advance(s, t, ok); Says(s, s', e) && SameTerms(s, s') && Steps(s, s', t)
  {
    hide Inv, Advance, PcIds, Says, SameTerms, Steps;
    var p := s.threads[t];
    if p.AcCall? {
      OpenSays(s, t, ok);
      e := OnConnection(p.c);
    } else if p.DiCall? {
      ShutSays(s, t, ok);
      e := OnDisconnect(p.c);
    } else {
      DataSays(s, t, ok);
      e := OnData(p.c, p.data);
    }
  }

  // ---------------------------------------------------------------- other steps

  /** Steps of the kernel. */
  lemma KernelSilent(s: State, a: Step)
    requires Enabled(s, a, ORDERLY) && (a.KernelAccept? || a.KernelRecv? || a.KernelSend? || a.KernelDisconnect?)
    ensures var s' := Apply(s, a, ORDERLY);
      Silent(s, s') && SameTerms(s, s') && s'.threads == s.threads && s'.workers == s.workers
  {
  }

  /** A worker takes a completion. */
  lemma AcceptTakenSilent(s: State, t: nat)
    requires Enabled(s, TakeAccept(t), ORDERLY)
    ensures Silently(s, DoTakeAccept(s, t), t)
  {
  }

  lemma IoTakenSilent(s: State, t: nat, i: nat)
    requires Enabled(s, TakeIo(t, i), ORDERLY)
    ensures Silently(s, DoTakeIo(s, t, i), t)
  {
  }

  lemma DisconnectTakenSilent(s: State, t: nat, c: ConnId)
    requires Enabled(s, TakeDisconnect(t, c), ORDERLY)
    ensures Silently(s, DoTakeDisconnect(s, t, c), t)
  {
  }

  lemma TakenSilent(s: State, a: Step)
    requires Enabled(s, a, ORDERLY) && (a.TakeAccept? || a.TakeIo? || a.TakeDisconnect?)
    ensures Silently(s, Apply(s, a, ORDERLY), a.t)
  {
    hide Enabled, Silently, DoTakeAccept, DoTakeIo, DoTakeDisconnect;
    match a {
      case TakeAccept(t) => AcceptTakenSilent(s, t);
      case TakeIo(t, i) => IoTakenSilent(s, t, i);
      case TakeDisconnect(t, c) => DisconnectTakenSilent(s, t, c);
    }
  }

  /** The application starts or stops the acceptor, handles contexts, or disconnects. */
  lemma AppSilent(s: State, a: Step)
    requires Enabled(s, a, ORDERLY) && (a.AppPop? || a.AppPush? || a.AppStop?)
    ensures var s' := Apply(s, a, ORDERLY);
      Silent(s, s') && SameTerms(s, s') && s'.threads == s.threads && s'.workers == s.workers
  {
    var s' := Apply(s, a, ORDERLY);
    assert s'.conns == s.conns && s'.log == s.log && s'.threads == s.threads && s'.workers == s.workers;
    hide Apply, Enabled;
  }

  lemma CallSilent(s: State, a: Step)
    requires Enabled(s, a, ORDERLY) && (a.AppDisconnect? || a.AppStart?)
    ensures Silently(s, Apply(s, a, ORDERLY), a.t)
  {
    var s' := Apply(s, a, ORDERLY);
    assert s'.conns == s.conns && s'.log == s.log;
    assert s'.threads == s.threads[a.t := s'.threads[a.t]] && s'.workers == s.workers && !InSend(s'.threads[a.t]);
    hide Apply, Enabled;
  }

  /** A thread enters AsyncSend. */
  lemma SendCallSilent(s: State, a: Step)
    requires Enabled(s, a, ORDERLY) && a.AppSend?
    ensures var s' := Apply(s, a, ORDERLY);
      && Silent(s, s') && SameTerms(s, s') && s'.workers == s.workers && a.t < |s.threads| && a.c < |s.conns|
      && s'.threads == s.threads[a.t := SdTest(a.c, a.x)]
  {
    var s' := Apply(s, a, ORDERLY);
    assert s'.conns == s.conns && s'.log == s.log;
    hide Apply, Enabled;
  }

  /** No step makes an upcall, or changes a face, but those of a handler and of the server itself. */
  lemma StepSilent(s: State, a: Step)
    requires Inv(s) && Enabled(s, a, ORDERLY) && !Reserved(a) && !IsUpcall(s, a)
    ensures Silent(s, Apply(s, a, ORDERLY))
  {
    if a.Go? {
      assert CanGo(s, a.t) && !s.threads[a.t].Idle?;
      hide Inv, Enabled, Silent, Advance, CanGo, IsUpcall;
      if s.threads[a.t].SdTest? { CheckSilent(s, a.t, a.ok); } else { GoSilent(s, a.t, a.ok); }
    } else {
      hide Inv, Silent, IsUpcall;
      OtherSilent(s, a);
    }
  }

  lemma OtherSilent(s: State, a: Step)
    requires Enabled(s, a, ORDERLY) && !Reserved(a) && !a.Go?
    ensures Silent(s, Apply(s, a, ORDERLY))
  {
    hide Silent, Enabled, Apply;
    match a {
      case AppPop => AppSilent(s, a);
      case AppPush(_) => AppSilent(s, a);
      case AppStop => AppSilent(s, a);
      case AppDisconnect(_, _) => CallSilent(s, a);
      case AppStart(_) => CallSilent(s, a);
      case TakeAccept(_) => TakenSilent(s, a);
      case TakeIo(_, _) => TakenSilent(s, a);
      case TakeDisconnect(_, _) => TakenSilent(s, a);
      case _ => KernelSilent(s, a);
    }
  }

  /** A bound connection's client and what the server's own two steps change. */
  lemma BindFace(s: State, c: ConnId, i: SessionId)
    requires Enabled(s, AppBind(c, i, SESSION_REF_MAX), ORDERLY)
    ensures var s' := Apply(s, AppBind(c, i, SESSION_REF_MAX), ORDERLY);
      && s'.log == s.log && |s'.conns| == |s.conns| && s'.threads == s.threads && s'.workers == s.workers
      && (forall d: ConnId ::
            FaceOf(s', d) == if d == c then Face(true, true, Some(i), FaceOf(s, c).given) else FaceOf(s, d))
      && (forall d: ConnId | d != c :: TermsOf(s', d) == TermsOf(s, d))
      && TermsOf(s', c) == Terms(SESSION_REF_MAX, TermsOf(s, c).checked)
  {
  }

  lemma CloseFace(s: State, c: ConnId)
    requires Enabled(s, AppClose(c), ORDERLY)
    ensures var s' := Apply(s, AppClose(c), ORDERLY);
      && s'.log == s.log && |s'.conns| == |s.conns| && s'.threads == s.threads && s'.workers == s.workers
      && (forall d: ConnId ::
            FaceOf(s', d) == if d == c then Face(false, false, None, FaceOf(s, c).given) else FaceOf(s, d))
      && SameTerms(s, s')
  {
  }
}
