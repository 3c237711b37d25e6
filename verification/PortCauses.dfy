/**
 * Why connections are disconnected: for a reason that arose since their OnConnection, as long as Close is not called
 * while a thread is inside AsyncDisconnect on the connection. Otherwise that thread may disconnect the connection's
 * next peer.
 */
module PortCauses {
  import opened CompletionPort
  import opened PortLoad
  import opened PortInvariant
  import opened PortSafety

  /** All four rules are kept. */
  const STRICT := Policy(false, false, false, false)

  /** AsyncDisconnect has won, and the connection has not been recycled. */
  predicate Over(p: Phase) {
    p.Closing? || p.Drained? || p.Down?
  }

  /** The handler has not been told of the connection, or has given it back. */
  predicate Before(cn: Conn) {
    cn.phase.Free? || cn.phase.Claimed? || cn.phase.Accepting? || (cn.phase.Starting? && !cn.live)
  }

  /** The thread is going to AsyncDisconnect's compare-and-swap on c. */
  predicate Going(p: Pc, c: ConnId) {
    (p.RvFail? || p.SdFail? || p.SdOver? || p.DsCas?) && p.c == c
  }

  /** A send is refused for its connection's limit only if that is exceeded. */
  predicate True(causes: set<Cause>) {
    forall cause | cause in causes && cause.Crowded? :: cause.count > cause.limit
  }

  /** Whatever has a reason to be disconnected has a true one, and whatever has been has one. */
  ghost predicate Explained(s: State) {
    && (forall c: ConnId :: True(CausesOf(s, c)))
    && (forall c: ConnId | c < |s.conns| && Over(s.conns[c].phase) :: CausesOf(s, c) != {})
  }

  ghost predicate Nobody(s: State, c: ConnId) {
    forall t | 0 <= t < |s.threads| :: !Going(s.threads[t], c)
  }

  ghost predicate Known(s: State, c: ConnId)
    requires c < |s.conns|
  {
    && (Over(s.conns[c].phase) ==> CausesOf(s, c) != {})
    && (CausesOf(s, c) == {} || Before(s.conns[c]) ==> Nobody(s, c))
  }

  ghost predicate AllKnown(s: State) {
    forall c: ConnId | c < |s.conns| :: Known(s, c)
  }

  // ---------------------------------------------------------------- steps of threads on one connection

  /** Only c's reasons may change. */
  ghost predicate SameCauses(s: State, s': State, c: ConnId) {
    forall d: ConnId | d != c :: CausesOf(s', d) == CausesOf(s, d)
  }

  /** What a move from q to p makes of c and of the reasons there have been. */
  predicate Grounded(q: Pc, p: Pc, cn: Conn, cn': Conn, was: set<Cause>, now: set<Cause>, c: ConnId) {
    && (Going(p, c) ==> Going(q, c) || now != {})
    && (was <= now || Before(cn))
    && (Over(cn'.phase) ==> was <= now && (now != {} || Over(cn.phase) || Going(q, c)))
    && (Before(cn') ==> Before(cn) && (Going(p, c) ==> Going(q, c)))
  }

  ghost predicate Grounds(s: State, s': State, t: nat, p: Pc, c: ConnId) {
    && t < |s.threads| && s'.threads == s.threads[t := p] && OnlyConn(s, s', c) && SameCauses(s, s', c)
    && WorksOn(s.threads[t], c) && WorksOn(p, c)
    && Grounded(s.threads[t], p, s.conns[c], s'.conns[c], CausesOf(s, c), CausesOf(s', c), c)
  }

  lemma GoingElsewhere(p: Pc, c: ConnId, d: ConnId)
    requires WorksOn(p, c) && d != c
    ensures !Going(p, d)
  {
  }

  lemma NobodyStill(s: State, s': State, t: nat, p: Pc, d: ConnId)
    requires t < |s.threads| && s'.threads == s.threads[t := p] && Nobody(s, d) && !Going(p, d)
    ensures Nobody(s', d)
  {
    hide Going;
  }

  lemma KeepOne(s: State, s': State, t: nat, p: Pc, c: ConnId)
    requires c < |s.conns| && Known(s, c) && Grounds(s, s', t, p, c)
    ensures Known(s', c)
  {
    hide CausesOf, WorksOn, Before, Over, SameCauses, Going;
    assert Nobody(s, c) ==> !Going(s.threads[t], c);
    if CausesOf(s', c) == {} || Before(s'.conns[c]) {
      NobodyStill(s, s', t, p, c);
    }
  }

  lemma KeepGrounded(s: State, s': State, t: nat, p: Pc, c: ConnId)
    requires AllKnown(s) && c < |s.conns| && Grounds(s, s', t, p, c)
    ensures AllKnown(s')
  {
    hide CausesOf, WorksOn, Before, Over, Going, Grounded;
    forall d: ConnId | d < |s'.conns| ensures Known(s', d) {
      assert Known(s, d);
      if d == c {
        KeepOne(s, s', t, p, c);
      } else {
        GoingElsewhere(p, c, d);
        if Nobody(s, d) { NobodyStill(s, s', t, p, d); }
      }
    }
  }

  // ---------------------------------------------------------------- what the invariant says of a connection in hand

  predicate Handles(p: Pc) {
    p.RvGot? || p.RvPost? || p.SdTest? || p.SdPost? || p.AcCall?
  }

  lemma WorkOk(cn: Conn, p: Pc, r: Load, f: nat, g: bool)
    requires Sane(r) && ConnOk(cn, Plus(OwnLoad(p), r), f, g) && Handles(p)
    ensures Before(cn) <==> p.AcCall?
  {
    hide Payloads;
  }

  lemma HandlesOne(p: Pc)
    requires Handles(p)
    ensures WorksOn(p, p.c)
  {
  }

  /** Whoever handles a receive or calls AsyncSend does so between OnConnection and Close. */
  lemma AtWork(s: State, t: nat)
    requires Inv(s) && t < |s.threads| && Handles(s.threads[t])
    ensures s.threads[t].c < |s.conns| && (Before(s.conns[s.threads[t].c]) <==> s.threads[t].AcCall?)
  {
    var p := s.threads[t];
    assert p.c < |s.conns| by { Stand(s, t); }
    HandlesOne(p);
    hide Ids, Conns, AcceptOk, Contexts, Talks, Handles, WorksOn, Before, ConnOk, Plus, Rest, Sane, OwnLoad;
    Focus(s, t, p.c);
    WorkOk(s.conns[p.c], p, Rest(s, t, p.c), multiset(s.free)[p.c], IsTarget(s, p.c));
  }

  lemma EndOk(cn: Conn, p: Pc, r: Load, f: nat, g: bool)
    requires Sane(r) && ConnOk(cn, Plus(OwnLoad(p), r), f, g) && (p.DiTest? || p.DiCall?)
    ensures Over(cn.phase)
  {
    hide Payloads;
  }

  /** Whoever handles a disconnect completion does so after AsyncDisconnect has won. */
  lemma AtEnd(s: State, t: nat)
    requires Inv(s) && t < |s.threads| && (s.threads[t].DiTest? || s.threads[t].DiCall?)
    ensures s.threads[t].c < |s.conns| && Over(s.conns[s.threads[t].c].phase)
  {
    var p := s.threads[t];
    assert p.c < |s.conns| by { Stand(s, t); }
    assert WorksOn(p, p.c);
    hide Ids, Conns, AcceptOk, Contexts, Talks, WorksOn, Over, ConnOk, Plus, Rest, Sane, OwnLoad;
    Focus(s, t, p.c);
    EndOk(s.conns[p.c], p, Rest(s, t, p.c), multiset(s.free)[p.c], IsTarget(s, p.c));
  }

  // ---------------------------------------------------------------- steps of threads

  lemma SamePast(s: State, s': State)
    requires s'.past == s.past
    ensures forall c :: CausesOf(s', c) == CausesOf(s, c)
  {
  }

  lemma UpGrounds(s: State, t: nat, ok: bool) returns (p: Pc)
    requires CanGo(s, t) && s.threads[t].AcUp?
    ensures Grounds(s, Advance(s, t, ok), t, p, s.threads[t].c)
  {
    hide CausesOf;
    SamePast(s, Advance(s, t, ok));
    p := Advance(s, t, ok).threads[t];
  }

  lemma CallGrounds(s: State, t: nat, ok: bool) returns (p: Pc)
    requires CanGo(s, t) && s.threads[t].AcCall?
    requires Before(s.conns[s.threads[t].c])
    ensures Grounds(s, Advance(s, t, ok), t, p, s.threads[t].c)
  {
    p := Advance(s, t, ok).threads[t];
  }

  lemma ContextGrounds(s: State, t: nat, ok: bool) returns (p: Pc)
    requires CanGo(s, t) && s.threads[t].AcCtx? && (s.inPool != [] || ok)
    ensures Grounds(s, Advance(s, t, ok), t, p, s.threads[t].c)
  {
    hide CausesOf;
    SamePast(s, Advance(s, t, ok));
    p := Advance(s, t, ok).threads[t];
  }

  lemma GiveUpGrounds(s: State, t: nat, ok: bool) returns (p: Pc)
    requires CanGo(s, t) && s.threads[t].AcCtx? && s.inPool == [] && !ok
    ensures Grounds(s, Advance(s, t, ok), t, p, s.threads[t].c)
  {
    p := Advance(s, t, ok).threads[t];
  }

  lemma DataGrounds(s: State, t: nat, ok: bool) returns (p: Pc)
    requires CanGo(s, t) && s.threads[t].RvGot? && s.threads[t].data != []
    ensures Grounds(s, Advance(s, t, ok), t, p, s.threads[t].c)
  {
    hide CausesOf;
    SamePast(s, Advance(s, t, ok));
    p := Advance(s, t, ok).threads[t];
  }

  lemma EndGrounds(s: State, t: nat, ok: bool) returns (p: Pc)
    requires CanGo(s, t) && s.threads[t].RvGot? && s.threads[t].data == []
    requires !Before(s.conns[s.threads[t].c])
    ensures Grounds(s, Advance(s, t, ok), t, p, s.threads[t].c)
  {
    p := Advance(s, t, ok).threads[t];
  }

  lemma CountGrounds(s: State, t: nat, ok: bool) returns (p: Pc)
    requires CanGo(s, t) && s.threads[t].RvInc?
    ensures Grounds(s, Advance(s, t, ok), t, p, s.threads[t].c)
  {
    hide CausesOf;
    SamePast(s, Advance(s, t, ok));
    p := Advance(s, t, ok).threads[t];
  }

  lemma PostedGrounds(s: State, t: nat, ok: bool) returns (p: Pc)
    requires CanGo(s, t) && s.threads[t].RvPost? && ok
    ensures Grounds(s, Advance(s, t, ok), t, p, s.threads[t].c)
  {
    hide CausesOf;
    SamePast(s, Advance(s, t, ok));
    p := Advance(s, t, ok).threads[t];
  }

  lemma UnreadGrounds(s: State, t: nat, ok: bool) returns (p: Pc)
    requires CanGo(s, t) && s.threads[t].RvPost? && !ok
    requires !Before(s.conns[s.threads[t].c])
    ensures Grounds(s, Advance(s, t, ok), t, p, s.threads[t].c)
  {
    p := Advance(s, t, ok).threads[t];
  }

  lemma FailGrounds(s: State, t: nat, ok: bool) returns (p: Pc)
    requires CanGo(s, t) && (s.threads[t].RvFail? || s.threads[t].SdFail? || s.threads[t].SdOver?)
    ensures Grounds(s, Advance(s, t, ok), t, p, s.threads[t].c)
  {
    hide CausesOf;
    SamePast(s, Advance(s, t, ok));
    p := Advance(s, t, ok).threads[t];
  }

  lemma SwapGrounds(s: State, t: nat, ok: bool) returns (p: Pc)
    requires CanGo(s, t) && s.threads[t].DsCas?
    ensures Grounds(s, Advance(s, t, ok), t, p, s.threads[t].c)
  {
    hide CausesOf;
    SamePast(s, Advance(s, t, ok));
    p := Advance(s, t, ok).threads[t];
  }

  lemma PostGrounds(s: State, t: nat, ok: bool) returns (p: Pc)
    requires CanGo(s, t) && s.threads[t].DsPost?
    ensures Grounds(s, Advance(s, t, ok), t, p, s.threads[t].c)
  {
    p := Advance(s, t, ok).threads[t];
  }

  lemma ReleaseGrounds(s: State, t: nat, ok: bool) returns (p: Pc)
    requires CanGo(s, t) && s.threads[t].CnDec?
    ensures Grounds(s, Advance(s, t, ok), t, p, s.threads[t].c)
  {
    hide CausesOf;
    SamePast(s, Advance(s, t, ok));
    p := Advance(s, t, ok).threads[t];
  }

  lemma TestGrounds(s: State, t: nat, ok: bool) returns (p: Pc)
    requires CanGo(s, t) && s.threads[t].DiTest?
    requires Over(s.conns[s.threads[t].c].phase)
    ensures Grounds(s, Advance(s, t, ok), t, p, s.threads[t].c)
  {
    hide CausesOf;
    SamePast(s, Advance(s, t, ok));
    p := Advance(s, t, ok).threads[t];
  }

  lemma RepostGrounds(s: State, t: nat, ok: bool) returns (p: Pc)
    requires CanGo(s, t) && s.threads[t].DiRepost?
    ensures Grounds(s, Advance(s, t, ok), t, p, s.threads[t].c)
  {
    hide CausesOf;
    SamePast(s, Advance(s, t, ok));
    p := Advance(s, t, ok).threads[t];
  }

  lemma ReportGrounds(s: State, t: nat, ok: bool) returns (p: Pc)
    requires CanGo(s, t) && s.threads[t].DiCall?
    requires Over(s.conns[s.threads[t].c].phase)
    ensures Grounds(s, Advance(s, t, ok), t, p, s.threads[t].c)
  {
    hide CausesOf;
    SamePast(s, Advance(s, t, ok));
    p := Advance(s, t, ok).threads[t];
  }

  lemma SentGrounds(s: State, t: nat, ok: bool) returns (p: Pc)
    requires CanGo(s, t) && (s.threads[t].SnGot? || s.threads[t].SdInc?)
    ensures Grounds(s, Advance(s, t, ok), t, p, s.threads[t].c)
  {
    hide CausesOf;
    SamePast(s, Advance(s, t, ok));
    p := Advance(s, t, ok).threads[t];
  }

  lemma PassGrounds(s: State, t: nat, ok: bool) returns (p: Pc)
    requires CanGo(s, t) && s.threads[t].SdTest? && s.conns[s.threads[t].c].iorefs <= s.conns[s.threads[t].c].refmax
    ensures Grounds(s, Advance(s, t, ok), t, p, s.threads[t].c)
  {
    hide CausesOf;
    SamePast(s, Advance(s, t, ok));
    p := Advance(s, t, ok).threads[t];
  }

  lemma StopGrounds(s: State, t: nat, ok: bool) returns (p: Pc)
    requires CanGo(s, t) && s.threads[t].SdTest? && s.conns[s.threads[t].c].iorefs > s.conns[s.threads[t].c].refmax
    requires !Before(s.conns[s.threads[t].c])
    ensures Grounds(s, Advance(s, t, ok), t, p, s.threads[t].c)
  {
    p := Advance(s, t, ok).threads[t];
  }

  lemma SendGrounds(s: State, t: nat, ok: bool) returns (p: Pc)
    requires CanGo(s, t) && s.threads[t].SdPost?
    requires !Before(s.conns[s.threads[t].c])
    ensures Grounds(s, Advance(s, t, ok), t, p, s.threads[t].c)
  {
    p := Advance(s, t, ok).threads[t];
  }

  lemma KeepReceive(s: State, t: nat, ok: bool) returns (p: Pc)
    requires Inv(s) && CanGo(s, t)
    requires var q := s.threads[t]; q.AcUp? || q.AcCall? || q.AcCtx? || q.RvGot? || q.RvInc? || q.RvPost?
    ensures Grounds(s, Advance(s, t, ok), t, p, s.threads[t].c)
  {
    var q := s.threads[t];
    if Handles(q) { AtWork(s, t); }
    hide Inv, Advance, Grounds, Before;
    if q.AcUp? {
      p := UpGrounds(s, t, ok);
    } else if q.AcCall? {
      p := CallGrounds(s, t, ok);
    } else if q.AcCtx? {
      if s.inPool != [] || ok { p := ContextGrounds(s, t, ok); } else { p := GiveUpGrounds(s, t, ok); }
    } else if q.RvGot? {
      if q.data != [] { p := DataGrounds(s, t, ok); } else { p := EndGrounds(s, t, ok); }
    } else if q.RvInc? {
      p := CountGrounds(s, t, ok);
    } else if ok {
      p := PostedGrounds(s, t, ok);
    } else {
      p := UnreadGrounds(s, t, ok);
    }
  }

  lemma KeepSend(s: State, t: nat, ok: bool) returns (p: Pc)
    requires Inv(s) && CanGo(s, t)
    requires var q := s.threads[t]; q.SnGot? || q.SdTest? || q.SdInc? || q.SdPost?
    ensures Grounds(s, Advance(s, t, ok), t, p, s.threads[t].c)
  {
    var q := s.threads[t];
    if Handles(q) { AtWork(s, t); }
    assert q.c < |s.conns|;
    hide Inv, Advance, Grounds, Before;
    if q.SnGot? || q.SdInc? {
      p := SentGrounds(s, t, ok);
    } else if q.SdPost? {
      p := SendGrounds(s, t, ok);
    } else if s.conns[q.c].iorefs > s.conns[q.c].refmax {
      p := StopGrounds(s, t, ok);
    } else {
      p := PassGrounds(s, t, ok);
    }
  }

  lemma KeepLeave(s: State, t: nat, ok: bool) returns (p: Pc)
    requires Inv(s) && CanGo(s, t)
    requires var q := s.threads[t];
      || q.RvFail? || q.SdFail? || q.SdOver? || q.DsCas? || q.DsPost? || q.CnDec? || q.DiTest? || q.DiRepost?
      || q.DiCall?
    ensures Grounds(s, Advance(s, t, ok), t, p, s.threads[t].c)
  {
    var q := s.threads[t];
    if q.DiTest? || q.DiCall? { AtEnd(s, t); }
    hide Inv, Advance, Grounds, CanGo, Over;
    match q {
      case RvFail(_, _, _) => p := FailGrounds(s, t, ok);
      case SdFail(_, _) => p := FailGrounds(s, t, ok);
      case SdOver(_, _) => p := FailGrounds(s, t, ok);
      case DsCas(_, _) => p := SwapGrounds(s, t, ok);
      case DsPost(_, _) => p := PostGrounds(s, t, ok);
      case CnDec(_, _) => p := ReleaseGrounds(s, t, ok);
      case DiTest(_) => p := TestGrounds(s, t, ok);
      case DiRepost(_) => p := RepostGrounds(s, t, ok);
      case DiCall(_) => p := ReportGrounds(s, t, ok);
    }
  }

  // ---------------------------------------------------------------- steps that give no reason

  /** The step sends nobody to AsyncDisconnect. */
  ghost predicate NobodyMore(s: State, s': State) {
    |s'.threads| == |s.threads| && s'.past == s.past
    && forall t, c: ConnId | 0 <= t < |s.threads| && Going(s'.threads[t], c) :: Going(s.threads[t], c)
  }

  /** What the step makes of connection c, if it was there. */
  ghost predicate Tame(s: State, s': State, c: ConnId)
    requires c < |s'.conns|
  {
    if c < |s.conns| then
      && (Over(s'.conns[c].phase) ==> Over(s.conns[c].phase))
      && (Before(s'.conns[c]) ==> Before(s.conns[c]) || Nobody(s, c))
    else !Over(s'.conns[c].phase) && Nobody(s, c)
  }

  lemma KeepTame(s: State, s': State)
    requires AllKnown(s) && NobodyMore(s, s') && forall c: ConnId | c < |s'.conns| :: Tame(s, s', c)
    ensures AllKnown(s')
  {
    SamePast(s, s');
    hide CausesOf, Over, Before, Going;
    forall c: ConnId | c < |s'.conns| ensures Known(s', c) {
      assert Tame(s, s', c);
      if c < |s.conns| { assert Known(s, c); }
    }
  }

  /** Thread t moves on, and nothing about the connections changes. */
  lemma KeepIdle(s: State, s': State, t: nat, p: Pc)
    requires AllKnown(s) && t < |s.threads| && s'.threads == s.threads[t := p] && s'.past == s.past
    requires (forall c :: !Going(p, c)) && |s'.conns| == |s.conns|
    requires forall c: ConnId | c < |s.conns| :: Tame(s, s', c)
    ensures AllKnown(s')
  {
    hide Going, Known, Tame;
    KeepTame(s, s');
  }

  lemma OnFreeList(s: State)
    requires Inv(s) && s.free != []
    ensures s.free[0] < |s.conns| && Before(s.conns[s.free[0]])
  {
    hide AcceptOk, Contexts, Talks, Total, ConnOk;
    var n := s.free[0];
    assert n in s.free;
    assert ConnAt(s, n) && multiset(s.free)[n] >= 1;
    FreeBefore(s.conns[n], Total(s, n), multiset(s.free)[n], IsTarget(s, n));
  }

  lemma FreeBefore(cn: Conn, l: Load, f: nat, g: bool)
    requires ConnOk(cn, l, f, g) && f >= 1
    ensures Before(cn)
  {
    hide Payloads;
  }

  lemma KeepReuse(s: State, t: nat, ok: bool)
    requires Inv(s) && AllKnown(s) && CanGo(s, t) && s.threads[t].PopFree? && s.free != []
    ensures AllKnown(Advance(s, t, ok))
  {
    OnFreeList(s);
    hide Inv;
    var s' := Advance(s, t, ok);
    assert forall c: ConnId | c < |s.conns| :: Tame(s, s', c);
    hide Known, Tame, Before, Over;
    KeepIdle(s, s', t, s'.threads[t]);
  }

  lemma KeepUnmade(s: State, t: nat)
    requires AllKnown(s) && CanGo(s, t) && s.threads[t].PopFree? && s.free == []
    ensures AllKnown(Advance(s, t, false))
  {
    var s' := Advance(s, t, false);
    assert forall c: ConnId | c < |s.conns| :: Tame(s, s', c);
    hide Known, Tame, Before, Over;
    KeepIdle(s, s', t, s'.threads[t]);
  }

  lemma NobodyThere(s: State, n: ConnId)
    requires Inv(s) && n >= |s.conns|
    ensures Nobody(s, n)
  {
    hide Conns, AcceptOk, Contexts, Talks;
    forall t | 0 <= t < |s.threads| ensures !Going(s.threads[t], n) { assert PcIds(s.threads[t], |s.conns|); }
  }

  lemma KeepMade(s: State, t: nat)
    requires Inv(s) && AllKnown(s) && CanGo(s, t) && s.threads[t].PopFree? && s.free == []
    ensures AllKnown(Advance(s, t, true))
  {
    NobodyThere(s, |s.conns|);
    hide Inv;
    var s' := Advance(s, t, true);
    assert forall c: ConnId | c < |s'.conns| :: Tame(s, s', c);
    assert NobodyMore(s, s');
    hide Known, Tame, NobodyMore, Nobody;
    KeepTame(s, s');
  }

  lemma ClaimedOk(cn: Conn, l: Load, f: nat, g: bool)
    requires Sane(l) && ConnOk(cn, l, f, g) && (l.claim >= 1 || g)
    ensures Before(cn) && !cn.live
  {
    hide Payloads;
  }

  /** Accept's connection has not been accepted yet. */
  lemma AtClaim(s: State, t: nat)
    requires Inv(s) && t < |s.threads| && s.threads[t].PostAccept?
    ensures s.threads[t].n < |s.conns| && Before(s.conns[s.threads[t].n])
  {
    var n := s.threads[t].n;
    assert n < |s.conns| by { Stand(s, t); }
    assert PcLoad(s.threads[t], n).claim == 1;
    assert ConnAt(s, n);
    hide Inv, PcLoad, ConnOk, Sane, Total;
    ThreadHeld(s, t, n);
    TotalsSane(s, n);
    ClaimedOk(s.conns[n], Total(s, n), multiset(s.free)[n], IsTarget(s, n));
  }

  lemma KeepAcceptPosted(s: State, t: nat, ok: bool)
    requires Inv(s) && AllKnown(s) && CanGo(s, t) && s.threads[t].PostAccept?
    ensures AllKnown(Advance(s, t, ok))
  {
    AtClaim(s, t);
    hide Inv;
    var s' := Advance(s, t, ok);
    assert forall c: ConnId | c < |s.conns| :: Tame(s, s', c);
    hide Known, Tame, Before, Over;
    KeepIdle(s, s', t, s'.threads[t]);
  }

  lemma KeepPlain(s: State, t: nat, ok: bool)
    requires AllKnown(s) && CanGo(s, t)
    requires var q := s.threads[t]; q.Idle? || q.StWait? || q.RefAccept? || q.AcDec?
    ensures AllKnown(Advance(s, t, ok))
  {
    var s' := Advance(s, t, ok);
    assert forall c: ConnId | c < |s.conns| :: Tame(s, s', c);
    hide Known, Tame, Before, Over;
    KeepIdle(s, s', t, s'.threads[t]);
  }

  lemma KeepGo(s: State, t: nat, ok: bool)
    requires Inv(s) && AllKnown(s) && CanGo(s, t)
    ensures AllKnown(Advance(s, t, ok))
  {
    var q := s.threads[t];
    hide Inv, AllKnown, Advance, Grounds;
    if q.PopFree? {
      if s.free != [] { KeepReuse(s, t, ok); } else if ok { KeepMade(s, t); } else { KeepUnmade(s, t); }
    } else if q.PostAccept? {
      KeepAcceptPosted(s, t, ok);
    } else if q.Idle? || q.StWait? || q.RefAccept? || q.AcDec? {
      KeepPlain(s, t, ok);
    } else {
      var p := GroundsOf(s, t, ok);
      KeepGrounded(s, Advance(s, t, ok), t, p, q.c);
    }
  }

  lemma GroundsOf(s: State, t: nat, ok: bool) returns (p: Pc)
    requires Inv(s) && CanGo(s, t)
    requires var q := s.threads[t];
      !q.PopFree? && !q.PostAccept? && !q.Idle? && !q.StWait? && !q.RefAccept? && !q.AcDec?
    ensures s.threads[t].c < |s.conns| && Grounds(s, Advance(s, t, ok), t, p, s.threads[t].c)
  {
    var q := s.threads[t];
    assert q.c < |s.conns|;
    hide Inv, Advance, Grounds, CanGo;
    if q.AcUp? || q.AcCall? || q.AcCtx? || q.RvGot? || q.RvInc? || q.RvPost? {
      p := KeepReceive(s, t, ok);
    } else if q.SnGot? || q.SdTest? || q.SdInc? || q.SdPost? {
      p := KeepSend(s, t, ok);
    } else {
      p := KeepLeave(s, t, ok);
    }
  }

  // ---------------------------------------------------------------- other steps

  /** Nobody moves, and every connection is where it was. */
  ghost predicate Still(s: State, s': State) {
    && s'.threads == s.threads && s'.past == s.past && |s'.conns| == |s.conns|
    && forall c: ConnId | c < |s.conns| ::
        s'.conns[c].phase == s.conns[c].phase && s'.conns[c].live == s.conns[c].live
  }

  lemma KernelStill(s: State, a: Step)
    requires Enabled(s, a, ORDERLY)
    requires a.KernelAccept? || a.KernelRecv? || a.KernelSend? || a.KernelDisconnect?
    ensures Still(s, Apply(s, a, ORDERLY))
  {
  }

  lemma AppStill(s: State, a: Step)
    requires Enabled(s, a, ORDERLY) && (a.AppBind? || a.AppPop? || a.AppPush? || a.AppStop?)
    ensures Still(s, Apply(s, a, ORDERLY))
  {
  }

  lemma KeepStill(s: State, s': State)
    requires AllKnown(s) && Still(s, s')
    ensures AllKnown(s')
  {
    hide Known, Nobody, Over, Going;
    KeepTame(s, s');
  }

  lemma KeepTaken(s: State, a: Step)
    requires AllKnown(s) && Enabled(s, a, ORDERLY) && (a.TakeIo? || a.TakeDisconnect?)
    ensures AllKnown(Apply(s, a, ORDERLY))
  {
    var s' := Apply(s, a, ORDERLY);
    assert forall c: ConnId | c < |s.conns| :: Tame(s, s', c);
    hide Known, Tame, Before, Over;
    KeepIdle(s, s', a.t, s'.threads[a.t]);
  }

  lemma TargetBefore(s: State)
    requires Inv(s) && s.accDone > 0
    ensures s.ctxConn < |s.conns| && Before(s.conns[s.ctxConn]) && !s.conns[s.ctxConn].live
  {
    hide AcceptOk, Contexts, Talks, Total, ConnOk, Sane;
    var n := s.ctxConn;
    assert ConnAt(s, n) && IsTarget(s, n);
    TotalsSane(s, n);
    ClaimedOk(s.conns[n], Total(s, n), multiset(s.free)[n], true);
  }

  lemma KeepAcceptTaken(s: State, t: nat)
    requires Inv(s) && AllKnown(s) && Enabled(s, TakeAccept(t), ORDERLY)
    ensures AllKnown(DoTakeAccept(s, t))
  {
    TargetBefore(s);
    hide Inv;
    var s' := DoTakeAccept(s, t);
    assert forall c: ConnId | c < |s.conns| :: Tame(s, s', c);
    hide Known, Tame, Before, Over;
    KeepIdle(s, s', t, s'.threads[t]);
  }

  lemma KeepEntered(s: State, a: Step)
    requires AllKnown(s) && Enabled(s, a, ORDERLY) && (a.AppSend? || a.AppStart?)
    ensures AllKnown(Apply(s, a, ORDERLY))
  {
    var s' := Apply(s, a, ORDERLY);
    var p := s'.threads[a.t];
    assert s'.threads == s.threads[a.t := p] && s'.conns == s.conns && s'.past.causes == s.past.causes;
    assert forall c :: !Going(p, c);
    hide Apply, Enabled, Going, Before, Over;
    SameReasons(s, s');
    hide CausesOf;
    forall c: ConnId | c < |s'.conns| ensures Known(s', c) { assert Known(s, c); }
  }

  lemma SameReasons(s: State, s': State)
    requires s'.past.causes == s.past.causes
    ensures forall c :: CausesOf(s', c) == CausesOf(s, c)
  {
  }

  lemma LiveOk(s: State, c: ConnId)
    requires Inv(s) && c < |s.conns| && s.conns[c].live
    ensures !Before(s.conns[c])
  {
    hide Ids, AcceptOk, Contexts, Talks, Total;
    assert ConnAt(s, c);
  }

  lemma KeepAsked(s: State, t: nat, c: ConnId)
    requires Inv(s) && AllKnown(s) && t < |s.threads| && s.threads[t] == Idle && c < |s.conns| && s.conns[c].live
    ensures AllKnown(DoAppDisconnect(s, t, c))
  {
    LiveOk(s, c);
    hide Inv;
    assert Grounds(s, DoAppDisconnect(s, t, c), t, DsCas(c, ToIdle), c);
    hide Grounds, AllKnown;
    KeepGrounded(s, DoAppDisconnect(s, t, c), t, DsCas(c, ToIdle), c);
  }

  lemma UnreadOk(cn: Conn, p: Pc, r: Load, f: nat, g: bool)
    requires Sane(r) && ConnOk(cn, Plus(OwnLoad(p), r), f, g) && p.RvFail?
    ensures !cn.phase.Down?
  {
    hide Payloads;
  }

  /** Before Close nobody is going to AsyncDisconnect's compare-and-swap, if that is kept to. */
  lemma NobodyLeft(s: State, c: ConnId)
    requires Inv(s) && c < |s.conns| && s.conns[c].phase.Down?
    requires forall t | 0 <= t < |s.threads| :: !Sending(s.threads[t], c) && !Leaving(s.threads[t], c)
    ensures Nobody(s, c)
  {
    hide ConnOk, Ids, AcceptOk, Contexts, Talks, Plus, Rest, Sane, OwnLoad;
    forall t | 0 <= t < |s.threads| ensures !Going(s.threads[t], c) {
      if s.threads[t].RvFail? && s.threads[t].c == c {
        Focus(s, t, c);
        UnreadOk(s.conns[c], s.threads[t], Rest(s, t, c), multiset(s.free)[c], IsTarget(s, c));
      }
    }
  }

  lemma KeepClose(s: State, c: ConnId)
    requires Inv(s) && AllKnown(s) && Enabled(s, AppClose(c), STRICT)
    ensures AllKnown(DoAppClose(s, c))
  {
    NobodyLeft(s, c);
    hide Inv;
    var s' := DoAppClose(s, c);
    assert forall d: ConnId | d < |s'.conns| :: Tame(s, s', d);
    hide Known, Tame, Before, Over;
    KeepTame(s, s');
  }

  lemma SameStep(s: State, a: Step)
    requires Enabled(s, a, STRICT)
    ensures Enabled(s, a, ORDERLY) && Apply(s, a, ORDERLY) == Apply(s, a, STRICT)
  {
  }

  lemma KeepMoved(s: State, a: Step)
    requires Inv(s) && AllKnown(s) && Enabled(s, a, STRICT)
    requires a.Go? || a.TakeAccept? || a.AppDisconnect? || a.AppClose?
    ensures AllKnown(Apply(s, a, STRICT))
  {
    hide Inv, AllKnown, Advance, DoTakeAccept, DoAppDisconnect, DoAppClose;
    match a {
      case Go(t, ok) => KeepGo(s, t, ok);
      case TakeAccept(t) => KeepAcceptTaken(s, t);
      case AppDisconnect(t, c) => KeepAsked(s, t, c);
      case AppClose(c) => KeepClose(s, c);
    }
  }

  lemma KeepAllKnown(s: State, a: Step)
    requires Inv(s) && AllKnown(s) && Enabled(s, a, STRICT)
    ensures Enabled(s, a, ORDERLY) && AllKnown(Apply(s, a, STRICT))
  {
    hide Inv, AllKnown, Enabled, Apply, Still;
    SameStep(s, a);
    if a.Go? || a.TakeAccept? || a.AppDisconnect? || a.AppClose? {
      KeepMoved(s, a);
    } else if a.TakeIo? || a.TakeDisconnect? {
      KeepTaken(s, a);
    } else if a.AppSend? || a.AppStart? {
      KeepEntered(s, a);
    } else {
      if a.AppBind? || a.AppPop? || a.AppPush? || a.AppStop? { AppStill(s, a); } else { KernelStill(s, a); }
      KeepStill(s, Apply(s, a, STRICT));
    }
  }

  // ---------------------------------------------------------------- reasons are true ones

  ghost predicate Honest(s: State, s': State) {
    forall c: ConnId :: True(CausesOf(s, c)) ==> True(CausesOf(s', c))
  }

  lemma SameHonest(s: State, s': State)
    requires s'.past.causes == s.past.causes
    ensures Honest(s, s')
  {
    SameReasons(s, s');
    hide CausesOf, True;
  }

  /** A reason that is no refused send, or one with too many references. */
  lemma BlameHonest(s: State, s': State, c: ConnId, cause: Cause)
    requires s'.past.causes == Blame(s, c, cause).past.causes
    requires cause.Crowded? ==> cause.count > cause.limit
    ensures Honest(s, s')
  {
    forall d: ConnId | True(CausesOf(s, d)) ensures True(CausesOf(s', d)) {
      assert CausesOf(s', d) == if d == c then CausesOf(s, c) + {cause} else CausesOf(s, d);
    }
  }

  lemma FreshHonest(s: State, s': State, c: ConnId, now: set<Cause>)
    requires s'.past.causes == s.past.causes[c := now] && True(now)
    ensures Honest(s, s')
  {
    forall d: ConnId | True(CausesOf(s, d)) ensures True(CausesOf(s', d)) {
      assert CausesOf(s', d) == if d == c then now else CausesOf(s, d);
    }
  }

  lemma ReceiveHonest(s: State, t: nat, ok: bool)
    requires CanGo(s, t)
    requires var q := s.threads[t]; q.AcCall? || q.AcCtx? || q.RvGot? || q.RvPost?
    ensures Honest(s, Advance(s, t, ok))
  {
    hide CausesOf, Honest;
    var q, s' := s.threads[t], Advance(s, t, ok);
    if q.AcCall? {
      FreshHonest(s, s', q.c, if ok then {} else {Refused});
    } else if q.AcCtx? && s.inPool == [] && !ok {
      BlameHonest(s, s', q.c, NoContext);
    } else if q.RvGot? && q.data == [] {
      assert CausesOf(s.(inPool := [q.x] + s.inPool), q.c) == CausesOf(s, q.c) by {
        SamePast(s, s.(inPool := [q.x] + s.inPool));
      }
      BlameHonest(s, s', q.c, PeerClosed);
    } else if q.RvPost? && !ok {
      BlameHonest(s, s', q.c, RecvFailed);
    } else {
      SameHonest(s, s');
    }
  }

  lemma SendHonest(s: State, t: nat, ok: bool)
    requires CanGo(s, t) && (s.threads[t].SdTest? || s.threads[t].SdPost?)
    ensures Honest(s, Advance(s, t, ok))
  {
    hide CausesOf, Honest, BufOf;
    var q, s' := s.threads[t], Advance(s, t, ok);
    if q.SdTest? && s.conns[q.c].iorefs > s.conns[q.c].refmax {
      BlameHonest(s, s', q.c, Crowded(s.conns[q.c].iorefs, s.conns[q.c].refmax));
    } else if q.SdPost? && !ok {
      BlameHonest(s, s', q.c, SendFailed);
    } else {
      SameHonest(s, s');
    }
  }

  lemma AcceptorHonest(s: State, t: nat, ok: bool)
    requires CanGo(s, t)
    requires var q := s.threads[t];
      q.Idle? || q.StWait? || q.PopFree? || q.RefAccept? || q.PostAccept? || q.AcUp? || q.AcDec? || q.RvInc?
        || q.RvFail?
    ensures Honest(s, Advance(s, t, ok))
  {
    hide CausesOf, Honest;
    SameHonest(s, Advance(s, t, ok));
  }

  lemma LeaveHonest(s: State, t: nat, ok: bool)
    requires CanGo(s, t)
    requires var q := s.threads[t];
      || q.DsCas? || q.DsPost? || q.CnDec? || q.DiTest? || q.DiRepost? || q.DiCall? || q.SnGot? || q.SdInc?
      || q.SdFail? || q.SdOver?
    ensures Honest(s, Advance(s, t, ok))
  {
    hide CausesOf, Honest;
    SameHonest(s, Advance(s, t, ok));
  }

  lemma GoHonest(s: State, t: nat, ok: bool)
    requires CanGo(s, t)
    ensures Honest(s, Advance(s, t, ok))
  {
    var q := s.threads[t];
    hide Honest, Advance, CanGo;
    if q.AcCall? || q.AcCtx? || q.RvGot? || q.RvPost? {
      ReceiveHonest(s, t, ok);
    } else if q.SdTest? || q.SdPost? {
      SendHonest(s, t, ok);
    } else if || q.Idle? || q.StWait? || q.PopFree? || q.RefAccept? || q.PostAccept? || q.AcUp? || q.AcDec? || q.RvInc?
              || q.RvFail? {
      AcceptorHonest(s, t, ok);
    } else {
      LeaveHonest(s, t, ok);
    }
  }

  lemma KernelHonest(s: State, a: Step)
    requires Enabled(s, a, ORDERLY)
    requires a.KernelAccept? || a.KernelRecv? || a.KernelSend? || a.KernelDisconnect?
    ensures Honest(s, Apply(s, a, ORDERLY))
  {
    hide CausesOf, Honest, Enabled, Apply;
    KernelStill(s, a);
    SameHonest(s, Apply(s, a, ORDERLY));
  }

  lemma TakenHonest(s: State, a: Step)
    requires Enabled(s, a, ORDERLY) && (a.TakeAccept? || a.TakeIo? || a.TakeDisconnect?)
    ensures Honest(s, Apply(s, a, ORDERLY))
  {
    hide CausesOf, Honest;
    SameHonest(s, Apply(s, a, ORDERLY));
  }

  lemma AppHonest(s: State, a: Step)
    requires Enabled(s, a, ORDERLY)
    requires a.AppBind? || a.AppPop? || a.AppPush? || a.AppStop?
    ensures Honest(s, Apply(s, a, ORDERLY))
  {
    hide CausesOf, Honest, Enabled, Apply;
    AppStill(s, a);
    SameHonest(s, Apply(s, a, ORDERLY));
  }

  lemma CallHonest(s: State, a: Step)
    requires Enabled(s, a, ORDERLY) && (a.AppClose? || a.AppSend? || a.AppStart?)
    ensures Honest(s, Apply(s, a, ORDERLY))
  {
    hide CausesOf, Honest;
    SameHonest(s, Apply(s, a, ORDERLY));
  }

  lemma AskedHonest(s: State, t: nat, c: ConnId)
    requires t < |s.threads|
    ensures Honest(s, DoAppDisconnect(s, t, c))
  {
    hide CausesOf, Honest;
    BlameHonest(s, DoAppDisconnect(s, t, c), c, Asked);
  }

  lemma AskedStep(s: State, a: Step)
    requires Enabled(s, a, ORDERLY) && a.AppDisconnect?
    ensures a.t < |s.threads| && Apply(s, a, ORDERLY) == DoAppDisconnect(s, a.t, a.c)
  {
    hide DoAppDisconnect;
  }

  lemma ElseHonest(s: State, a: Step)
    requires Enabled(s, a, ORDERLY) && !a.Go?
    ensures Honest(s, Apply(s, a, ORDERLY))
  {
    hide Honest, Enabled, Apply;
    if a.AppDisconnect? {
      AskedStep(s, a);
      AskedHonest(s, a.t, a.c);
    } else if a.TakeAccept? || a.TakeIo? || a.TakeDisconnect? {
      TakenHonest(s, a);
    } else if a.KernelAccept? || a.KernelRecv? || a.KernelSend? || a.KernelDisconnect? {
      KernelHonest(s, a);
    } else if a.AppClose? || a.AppSend? || a.AppStart? {
      CallHonest(s, a);
    } else {
      AppHonest(s, a);
    }
  }

  lemma StepHonest(s: State, s': State)
    requires Next(s, s', ORDERLY)
    ensures Honest(s, s')
  {
    hide Honest, Advance;
    var a :| Enabled(s, a, ORDERLY) && s' == Apply(s, a, ORDERLY);
    if a.Go? {
      GoHonest(s, a.t, a.ok);
    } else {
      hide Enabled, Apply;
      ElseHonest(s, a);
    }
  }

  ghost predicate AllTrue(s: State) {
    forall c: ConnId :: True(CausesOf(s, c))
  }

  lemma {:induction false} RunTrue(states: seq<State>, n: nat)
    requires Run(states, ORDERLY) && n < |states|
    ensures AllTrue(states[n])
  {
    hide Next;
    if n == 0 {
      assert AllTrue(states[0]);
    } else {
      RunTrue(states, n - 1);
      assert Next(states[n - 1], states[n - 1 + 1], ORDERLY);
      StepHonest(states[n - 1], states[n]);
      hide Init, CausesOf, True;
    }
  }

  /**
   * Even if Close comes too early, a send is refused, and its connection disconnected for it, only when there are more
   * references than the limit.
   */
  lemma RefusedAboveLimit(s: State, c: ConnId, cause: Cause)
    requires Reachable(s, ORDERLY) && cause in CausesOf(s, c) && cause.Crowded?
    ensures cause.count > cause.limit
  {
    hide CausesOf;
    var states :| Run(states, ORDERLY) && states[|states| - 1] == s;
    RunTrue(states, |states| - 1);
    assert True(CausesOf(s, c));
  }

  // ---------------------------------------------------------------- runs that keep all rules

  /** A step that keeps all rules keeps those of an orderly run. */
  lemma StrictIsOrderly(s: State, s': State)
    requires Next(s, s', STRICT)
    ensures Next(s, s', ORDERLY)
  {
    var a :| Enabled(s, a, STRICT) && s' == Apply(s, a, STRICT);
    SameStep(s, a);
    hide Enabled, Apply;
  }

  lemma StrictRun(states: seq<State>)
    requires Run(states, STRICT)
    ensures Run(states, ORDERLY)
  {
    hide Next, Init;
    forall i | 0 <= i < |states| - 1 ensures Next(states[i], states[i + 1], ORDERLY) {
      assert Next(states[i], states[i + 1], STRICT);
      StrictIsOrderly(states[i], states[i + 1]);
    }
  }

  lemma NextKnown(s: State, s': State)
    requires Inv(s) && AllKnown(s) && Next(s, s', STRICT)
    ensures AllKnown(s')
  {
    hide Inv, AllKnown, Enabled, Apply;
    var a :| Enabled(s, a, STRICT) && s' == Apply(s, a, STRICT);
    KeepAllKnown(s, a);
  }

  lemma {:induction false} RunKnown(states: seq<State>, n: nat)
    requires Run(states, STRICT) && n < |states|
    ensures AllKnown(states[n])
  {
    hide Inv, Next;
    if n == 0 {
      assert AllKnown(states[0]);
    } else {
      hide AllKnown, Init;
      RunKnown(states, n - 1);
      StrictRun(states);
      RunInv(states, n - 1);
      assert Next(states[n - 1], states[n - 1 + 1], STRICT);
      NextKnown(states[n - 1], states[n]);
    }
  }

  lemma StrictExplained(s: State)
    requires Reachable(s, STRICT)
    ensures Explained(s)
  {
    hide AllKnown, AllTrue;
    var states :| Run(states, STRICT) && states[|states| - 1] == s;
    RunKnown(states, |states| - 1);
    StrictRun(states);
    RunTrue(states, |states| - 1);
    hide Run, Reachable;
    Explains(s);
  }

  lemma Explains(s: State)
    requires AllKnown(s) && AllTrue(s)
    ensures Explained(s)
  {
    hide CausesOf, True, Over, Nobody;
    forall c: ConnId | c < |s.conns| && Over(s.conns[c].phase) ensures CausesOf(s, c) != {} { assert Known(s, c); }
  }
}
