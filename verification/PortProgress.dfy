/**
 * No connection is forgotten: in whatever phase it is, somebody holds what will take it on. A connected one has a
 * receive outstanding or a thread that reads it or is about to disconnect it; one being closed has its disconnect on
 * the way; and a running acceptor has an accept outstanding or a thread about to post one.
 */
module PortProgress {
  import opened Bytes
  import opened CompletionPort
  import opened PortInvariant
  import opened PortSafety

  // ---------------------------------------------------------------- who takes a connection on

  /** The accept branch of c. */
  predicate Accepts(p: Pc, c: ConnId) {
    match p
    case PopFree(who) => who == Branch(c)
    case RefAccept(who, _) => who == Branch(c)
    case PostAccept(who, _) => who == Branch(c)
    case AcUp(d) => d == c
    case AcCall(d) => d == c
    case AcCtx(d) => d == c
    case RvInc(d, _, after) => d == c && after.AfterAccept?
    case _ => false
  }

  /** Accept, which has taken c. */
  predicate Claiming(p: Pc, c: ConnId) {
    (p.RefAccept? || p.PostAccept?) && p.n == c
  }

  /** A thread that will post the next receive of c, or disconnect c. */
  predicate Reads(p: Pc, c: ConnId) {
    (p.AcCall? || p.AcCtx? || p.RvGot? || p.RvInc? || p.RvPost? || p.RvFail? || p.DsCas?) && p.c == c
  }

  /** A thread that will post DisconnectEx for c, or handles its completion. */
  predicate Closes(p: Pc, c: ConnId) {
    (p.DsPost? || p.DiTest? || p.DiRepost?) && p.c == c
  }

  predicate Receiving(o: Io, c: ConnId) {
    o.Recv? && o.c == c
  }

  ghost predicate Watched(s: State, c: ConnId) {
    || (exists t :: 0 <= t < |s.threads| && Reads(s.threads[t], c))
    || (exists i :: 0 <= i < |s.ops| && Receiving(s.ops[i], c))
  }

  ghost predicate Closed(s: State, c: ConnId)
    requires c < |s.conns|
  {
    || s.conns[c].discPending + s.conns[c].discDone > 0 || c in s.past.lost
    || (exists t :: 0 <= t < |s.threads| && Closes(s.threads[t], c))
  }

  ghost predicate Driven(s: State, c: ConnId)
    requires c < |s.conns|
  {
    && (s.conns[c].connected ==> Watched(s, c))
    && (s.conns[c].phase.Claimed? ==> exists t :: 0 <= t < |s.threads| && Claiming(s.threads[t], c))
    && (s.conns[c].phase.Starting? ==> exists t :: 0 <= t < |s.threads| && Accepts(s.threads[t], c))
    && (s.conns[c].phase.Closing? ==> Closed(s, c))
    && (s.conns[c].phase.Drained? ==> exists t :: 0 <= t < |s.threads| && s.threads[t] == DiCall(c))
  }

  predicate AtAccept(p: Pc) {
    p.StWait? || p.PopFree? || p.RefAccept? || p.PostAccept?
  }

  ghost predicate Listening(s: State) {
    s.running ==> s.accPending + s.accDone > 0 || exists t :: 0 <= t < |s.threads| && AtAccept(s.threads[t])
  }

  ghost predicate AllDriven(s: State) {
    Listening(s) && forall c: ConnId | c < |s.conns| :: Driven(s, c)
  }

  // ---------------------------------------------------------------- steps of threads

  /** A thread that moves from q to p still takes d on, whatever it did before. */
  predicate Follows(q: Pc, p: Pc, d: ConnId) {
    && (Accepts(q, d) ==> Accepts(p, d)) && (Claiming(q, d) ==> Claiming(p, d)) && (Reads(q, d) ==> Reads(p, d))
    && (Closes(q, d) ==> Closes(p, d)) && (q == DiCall(d) ==> p == DiCall(d))
  }

  /** Thread t moves to p, and operations are only added. */
  predicate Moved(s: State, s': State, t: nat, p: Pc) {
    t < |s.threads| && s'.threads == s.threads[t := p] && s.ops <= s'.ops && s.past.lost <= s'.past.lost
  }

  lemma Carried(s: State, s': State, t: nat, p: Pc, d: ConnId)
    requires Moved(s, s', t, p) && d < |s.conns| && d < |s'.conns| && s'.conns[d] == s.conns[d]
    requires Driven(s, d) && Follows(s.threads[t], p, d)
    ensures Driven(s', d)
  {
    hide Accepts, Claiming, Reads, Closes, Receiving;
    WatchedStill(s, s', t, p, d);
    hide Watched;
    SomeoneStill(s, s', t, p, d);
  }

  lemma WatchedStill(s: State, s': State, t: nat, p: Pc, d: ConnId)
    requires Moved(s, s', t, p) && (Reads(s.threads[t], d) ==> Reads(p, d))
    ensures Watched(s, d) ==> Watched(s', d)
  {
    hide Reads, Receiving;
    if u :| 0 <= u < |s.threads| && Reads(s.threads[u], d) {
      assert Reads(s'.threads[u], d);
    } else if i :| 0 <= i < |s.ops| && Receiving(s.ops[i], d) {
      assert Receiving(s'.ops[i], d);
    }
  }

  lemma SomeoneStill(s: State, s': State, t: nat, p: Pc, d: ConnId)
    requires Moved(s, s', t, p) && Follows(s.threads[t], p, d)
    ensures (exists u :: 0 <= u < |s.threads| && Claiming(s.threads[u], d)) ==>
      exists u :: 0 <= u < |s'.threads| && Claiming(s'.threads[u], d)
    ensures (exists u :: 0 <= u < |s.threads| && Accepts(s.threads[u], d)) ==>
      exists u :: 0 <= u < |s'.threads| && Accepts(s'.threads[u], d)
    ensures (exists u :: 0 <= u < |s.threads| && Closes(s.threads[u], d)) ==>
      exists u :: 0 <= u < |s'.threads| && Closes(s'.threads[u], d)
    ensures (exists u :: 0 <= u < |s.threads| && s.threads[u] == DiCall(d)) ==>
      exists u :: 0 <= u < |s'.threads| && s'.threads[u] == DiCall(d)
  {
    hide Accepts, Claiming, Reads, Closes;
    if u :| 0 <= u < |s.threads| && Claiming(s.threads[u], d) { assert Claiming(s'.threads[u], d); }
    if u :| 0 <= u < |s.threads| && Accepts(s.threads[u], d) { assert Accepts(s'.threads[u], d); }
    if u :| 0 <= u < |s.threads| && Closes(s.threads[u], d) { assert Closes(s'.threads[u], d); }
    if u :| 0 <= u < |s.threads| && s.threads[u] == DiCall(d) { assert s'.threads[u] == DiCall(d); }
  }

  /** What a move from q to p makes of c: somebody still takes it on, or the thread itself does now. */
  predicate Drives(q: Pc, p: Pc, cn: Conn, cn': Conn, receiving: bool, lost: bool, c: ConnId) {
    && (cn'.connected ==> Reads(p, c) || receiving || (cn.connected && !Reads(q, c)))
    && (cn'.phase.Claimed? ==> Claiming(p, c) || (cn.phase.Claimed? && !Claiming(q, c)))
    && (cn'.phase.Starting? ==> Accepts(p, c) || (cn.phase.Starting? && !Accepts(q, c)))
    && (cn'.phase.Closing? ==>
          || Closes(p, c) || cn'.discPending + cn'.discDone > 0 || lost
          || (cn.phase.Closing? && !Closes(q, c) && cn.discPending + cn.discDone == 0))
    && (cn'.phase.Drained? ==> p == DiCall(c) || (cn.phase.Drained? && q != DiCall(c)))
  }

  lemma Driving(s: State, s': State, t: nat, p: Pc, c: ConnId, receiving: bool, lost: bool)
    requires Moved(s, s', t, p) && c < |s.conns| && c < |s'.conns| && Driven(s, c)
    requires (receiving ==> exists i :: 0 <= i < |s'.ops| && Receiving(s'.ops[i], c)) && (lost ==> c in s'.past.lost)
    requires Drives(s.threads[t], p, s.conns[c], s'.conns[c], receiving, lost, c)
    ensures Driven(s', c)
  {
    hide Accepts, Claiming, Reads, Closes, Receiving;
    assert s'.threads[t] == p;
    if s'.conns[c].connected && !Reads(p, c) && !receiving { WatchedStill(s, s', t, p, c); }
    if u :| 0 <= u < |s.threads| && Claiming(s.threads[u], c) { assert u != t ==> Claiming(s'.threads[u], c); }
    if u :| 0 <= u < |s.threads| && Accepts(s.threads[u], c) { assert u != t ==> Accepts(s'.threads[u], c); }
    if u :| 0 <= u < |s.threads| && Closes(s.threads[u], c) { assert u != t ==> Closes(s'.threads[u], c); }
    if u :| 0 <= u < |s.threads| && s.threads[u] == DiCall(c) { assert u != t ==> s'.threads[u] == DiCall(c); }
  }

  lemma NothingElse(p: Pc, c: ConnId, d: ConnId)
    requires WorksOn(p, c) && d != c
    ensures !Accepts(p, d) && !Claiming(p, d) && !Reads(p, d) && !Closes(p, d) && p != DiCall(d)
  {
  }

  /** A thread's step on one connection. */
  ghost predicate Drive(s: State, s': State, t: nat, p: Pc, c: ConnId, receiving: bool, lost: bool) {
    && Moved(s, s', t, p) && OnlyConn(s, s', c)
    && WorksOn(s.threads[t], c) && WorksOn(p, c) && !AtAccept(s.threads[t])
    && s'.running == s.running && s'.accPending == s.accPending && s'.accDone == s.accDone
    && (receiving ==> s'.ops != [] && Receiving(s'.ops[|s'.ops| - 1], c)) && (lost ==> c in s'.past.lost)
    && Drives(s.threads[t], p, s.conns[c], s'.conns[c], receiving, lost, c)
  }

  lemma KeepDriven(s: State, s': State, t: nat, p: Pc, c: ConnId, receiving: bool, lost: bool)
    requires AllDriven(s) && Drive(s, s', t, p, c, receiving, lost)
    ensures AllDriven(s')
  {
    hide Driven, Drives, WorksOn, AtAccept, Receiving, Accepts, Claiming, Reads, Closes;
    Driving(s, s', t, p, c, receiving, lost);
    forall d: ConnId | d < |s'.conns| ensures Driven(s', d) {
      if d != c {
        NothingElse(s.threads[t], c, d);
        NothingElse(p, c, d);
        Carried(s, s', t, p, d);
      }
    }
    ListeningStill(s, s', t, p);
  }

  lemma ListeningStill(s: State, s': State, t: nat, p: Pc)
    requires Listening(s) && t < |s.threads| && s'.threads == s.threads[t := p] && !AtAccept(s.threads[t])
    requires s'.running == s.running && s'.accPending == s.accPending && s'.accDone == s.accDone
    ensures Listening(s')
  {
    hide AtAccept;
    if u :| 0 <= u < |s.threads| && AtAccept(s.threads[u]) { assert AtAccept(s'.threads[u]); }
  }

  lemma UpDrives(s: State, t: nat, ok: bool) returns (p: Pc)
    requires CanGo(s, t) && s.threads[t].AcUp?
    ensures Drive(s, Advance(s, t, ok), t, p, s.threads[t].c, false, false)
  {
    p := Advance(s, t, ok).threads[t];
  }

  lemma CallDrives(s: State, t: nat, ok: bool) returns (p: Pc)
    requires CanGo(s, t) && s.threads[t].AcCall?
    ensures Drive(s, Advance(s, t, ok), t, p, s.threads[t].c, false, false)
  {
    p := Advance(s, t, ok).threads[t];
  }

  lemma ContextDrives(s: State, t: nat, ok: bool) returns (p: Pc)
    requires CanGo(s, t) && s.threads[t].AcCtx?
    ensures Drive(s, Advance(s, t, ok), t, p, s.threads[t].c, false, false)
  {
    hide CausesOf;
    p := Advance(s, t, ok).threads[t];
  }

  lemma GotDrives(s: State, t: nat, ok: bool) returns (p: Pc)
    requires CanGo(s, t) && s.threads[t].RvGot?
    ensures Drive(s, Advance(s, t, ok), t, p, s.threads[t].c, false, false)
  {
    hide CausesOf;
    p := Advance(s, t, ok).threads[t];
  }

  lemma CountDrives(s: State, t: nat, ok: bool) returns (p: Pc)
    requires CanGo(s, t) && s.threads[t].RvInc?
    ensures Drive(s, Advance(s, t, ok), t, p, s.threads[t].c, false, false)
  {
    p := Advance(s, t, ok).threads[t];
  }

  lemma ReceiveDrives(s: State, t: nat, ok: bool) returns (p: Pc)
    requires CanGo(s, t) && s.threads[t].RvPost?
    ensures Drive(s, Advance(s, t, ok), t, p, s.threads[t].c, ok, false)
  {
    p := Advance(s, t, ok).threads[t];
  }

  lemma FailDrives(s: State, t: nat, ok: bool) returns (p: Pc)
    requires CanGo(s, t) && s.threads[t].RvFail?
    ensures Drive(s, Advance(s, t, ok), t, p, s.threads[t].c, false, false)
  {
    p := Advance(s, t, ok).threads[t];
  }

  lemma SwapDrives(s: State, t: nat, ok: bool) returns (p: Pc)
    requires CanGo(s, t) && s.threads[t].DsCas?
    ensures Drive(s, Advance(s, t, ok), t, p, s.threads[t].c, false, false)
  {
    p := Advance(s, t, ok).threads[t];
  }

  lemma PostDrives(s: State, t: nat, ok: bool) returns (p: Pc)
    requires CanGo(s, t) && s.threads[t].DsPost?
    ensures Drive(s, Advance(s, t, ok), t, p, s.threads[t].c, false, !ok)
  {
    p := Advance(s, t, ok).threads[t];
  }

  lemma ReleaseDrives(s: State, t: nat, ok: bool) returns (p: Pc)
    requires CanGo(s, t) && s.threads[t].CnDec?
    ensures Drive(s, Advance(s, t, ok), t, p, s.threads[t].c, false, false)
  {
    p := Advance(s, t, ok).threads[t];
  }

  lemma TestDrives(s: State, t: nat, ok: bool) returns (p: Pc)
    requires CanGo(s, t) && s.threads[t].DiTest?
    ensures Drive(s, Advance(s, t, ok), t, p, s.threads[t].c, false, false)
  {
    p := Advance(s, t, ok).threads[t];
  }

  lemma RepostDrives(s: State, t: nat, ok: bool) returns (p: Pc)
    requires CanGo(s, t) && s.threads[t].DiRepost?
    ensures Drive(s, Advance(s, t, ok), t, p, s.threads[t].c, false, false)
  {
    p := Advance(s, t, ok).threads[t];
  }

  lemma ReportDrives(s: State, t: nat, ok: bool) returns (p: Pc)
    requires CanGo(s, t) && s.threads[t].DiCall?
    ensures Drive(s, Advance(s, t, ok), t, p, s.threads[t].c, false, false)
  {
    p := Advance(s, t, ok).threads[t];
  }

  lemma SentDrives(s: State, t: nat, ok: bool) returns (p: Pc)
    requires CanGo(s, t) && (s.threads[t].SnGot? || s.threads[t].SdInc?)
    ensures Drive(s, Advance(s, t, ok), t, p, s.threads[t].c, false, false)
  {
    p := Advance(s, t, ok).threads[t];
  }

  lemma CheckDrives(s: State, t: nat, ok: bool) returns (p: Pc)
    requires CanGo(s, t) && s.threads[t].SdTest?
    ensures Drive(s, Advance(s, t, ok), t, p, s.threads[t].c, false, false)
  {
    hide CausesOf, BufOf;
    p := Advance(s, t, ok).threads[t];
  }

  lemma SendDrives(s: State, t: nat, ok: bool) returns (p: Pc)
    requires CanGo(s, t) && s.threads[t].SdPost?
    ensures Drive(s, Advance(s, t, ok), t, p, s.threads[t].c, false, false)
  {
    p := Advance(s, t, ok).threads[t];
  }

  lemma DropDrives(s: State, t: nat, ok: bool) returns (p: Pc)
    requires CanGo(s, t) && (s.threads[t].SdFail? || s.threads[t].SdOver?)
    ensures Drive(s, Advance(s, t, ok), t, p, s.threads[t].c, false, false)
  {
    p := Advance(s, t, ok).threads[t];
  }

  lemma KeepWork(s: State, t: nat, ok: bool)
    requires AllDriven(s) && CanGo(s, t)
    requires var q := s.threads[t]; !q.Idle? && !q.AcDec? && !AtAccept(q)
    ensures AllDriven(Advance(s, t, ok))
  {
    var q := s.threads[t];
    assert t < |s.threads| && !q.StWait? && !q.PopFree? && !q.RefAccept? && !q.PostAccept?;
    hide AllDriven, Drive, Advance, CanGo, AtAccept;
    var p: Pc;
    match q {
      case AcUp(_) => p := UpDrives(s, t, ok);
      case AcCall(_) => p := CallDrives(s, t, ok);
      case AcCtx(_) => p := ContextDrives(s, t, ok);
      case RvGot(_, _, _) => p := GotDrives(s, t, ok);
      case RvInc(_, _, _) => p := CountDrives(s, t, ok);
      case RvPost(_, _, _) => p := ReceiveDrives(s, t, ok);
      case RvFail(_, _, _) => p := FailDrives(s, t, ok);
      case DsCas(_, _) => p := SwapDrives(s, t, ok);
      case DsPost(_, _) => p := PostDrives(s, t, ok);
      case CnDec(_, _) => p := ReleaseDrives(s, t, ok);
      case DiTest(_) => p := TestDrives(s, t, ok);
      case DiRepost(_) => p := RepostDrives(s, t, ok);
      case DiCall(_) => p := ReportDrives(s, t, ok);
      case SnGot(_, _) => p := SentDrives(s, t, ok);
      case SdInc(_, _) => p := SentDrives(s, t, ok);
      case SdTest(_, _) => p := CheckDrives(s, t, ok);
      case SdPost(_, _) => p := SendDrives(s, t, ok);
      case SdFail(_, _) => p := DropDrives(s, t, ok);
      case SdOver(_, _) => p := DropDrives(s, t, ok);
    }
    KeepDriven(s, Advance(s, t, ok), t, p, q.c, q.RvPost? && ok, q.DsPost? && !ok);
  }

  // ---------------------------------------------------------------- Accept and Start

  /** Thread t moves to p and no connection changes but n, if that exists. */
  lemma KeepAtAccept(s: State, s': State, t: nat, p: Pc, n: ConnId)
    requires AllDriven(s) && Moved(s, s', t, p) && Listening(s')
    requires |s.conns| <= |s'.conns| && forall d: ConnId | d < |s'.conns| && d != n ::
      d < |s.conns| && s'.conns[d] == s.conns[d] && Follows(s.threads[t], p, d)
    requires n < |s'.conns| ==>
      if n < |s.conns| then Drives(s.threads[t], p, s.conns[n], s'.conns[n], false, false, n)
      else s'.conns[n] == NewConn && Claiming(p, n)
    ensures AllDriven(s')
  {
    hide Driven, Drives, Listening, Follows;
    forall d: ConnId | d < |s'.conns| ensures Driven(s', d) {
      if d != n {
        assert s'.conns[d] == s.conns[d] && Follows(s.threads[t], p, d);
        assert Driven(s, d);
        Carried(s, s', t, p, d);
      } else if n < |s.conns| {
        Driving(s, s', t, p, n, false, false);
      } else {
        NewDriven(s', t, n);
      }
    }
  }

  lemma NewDriven(s: State, t: nat, n: ConnId)
    requires n < |s.conns| && s.conns[n] == NewConn && t < |s.threads| && Claiming(s.threads[t], n)
    ensures Driven(s, n)
  {
    hide Claiming;
  }

  lemma ListeningAt(s: State, t: nat)
    requires t < |s.threads| && AtAccept(s.threads[t])
    ensures Listening(s)
  {
    hide AtAccept;
  }

  lemma KeepReuse(s: State, t: nat, ok: bool)
    requires AllDriven(s) && CanGo(s, t) && s.threads[t].PopFree? && s.free != []
    ensures AllDriven(Advance(s, t, ok))
  {
    var s', n := Advance(s, t, ok), s.free[0];
    var p := s'.threads[t];
    ListeningAt(s', t);
    assert n in s.free;
    assert Drives(s.threads[t], p, s.conns[n], s'.conns[n], false, false, n);
    assert Moved(s, s', t, p) && OnlyConn(s, s', n) && forall d | d != n :: Follows(s.threads[t], p, d);
    hide AllDriven, Drives, Follows, Advance;
    KeepAtAccept(s, s', t, p, n);
  }

  lemma KeepFresh(s: State, t: nat, ok: bool)
    requires AllDriven(s) && CanGo(s, t) && s.threads[t].PopFree? && s.free == []
    ensures AllDriven(Advance(s, t, ok))
  {
    var s', n := Advance(s, t, ok), |s.conns|;
    var p := s'.threads[t];
    if ok { ListeningAt(s', t); }
    assert Moved(s, s', t, p) && forall d | d != n :: Follows(s.threads[t], p, d);
    hide Driven, Drives, Follows, Advance;
    KeepAtAccept(s, s', t, p, n);
  }

  lemma KeepStarts(s: State, t: nat, ok: bool)
    requires AllDriven(s) && CanGo(s, t) && (s.threads[t].StWait? || s.threads[t].RefAccept?)
    ensures AllDriven(Advance(s, t, ok))
  {
    var s' := Advance(s, t, ok);
    var p := s'.threads[t];
    ListeningAt(s', t);
    assert Moved(s, s', t, p) && s'.conns == s.conns && forall d :: Follows(s.threads[t], p, d);
    hide AllDriven, Drives, Follows, Advance;
    KeepAtAccept(s, s', t, p, |s.conns|);
  }

  lemma KeepAcceptPosted(s: State, t: nat, ok: bool)
    requires AllDriven(s) && CanGo(s, t) && s.threads[t].PostAccept?
    ensures AllDriven(Advance(s, t, ok))
  {
    var s', n := Advance(s, t, ok), s.threads[t].n;
    var p := s'.threads[t];
    assert Drives(s.threads[t], p, s.conns[n], s'.conns[n], false, false, n);
    assert Moved(s, s', t, p) && OnlyConn(s, s', n) && forall d | d != n :: Follows(s.threads[t], p, d);
    assert Listening(s');
    hide AllDriven, Drives, Follows, Advance;
    KeepAtAccept(s, s', t, p, n);
  }

  lemma KeepDone(s: State, t: nat, ok: bool)
    requires AllDriven(s) && CanGo(s, t) && (s.threads[t].AcDec? || s.threads[t].Idle?)
    ensures AllDriven(Advance(s, t, ok))
  {
    var s' := Advance(s, t, ok);
    var p := s'.threads[t];
    ListeningStill(s, s', t, p);
    assert Moved(s, s', t, p) && s'.conns == s.conns && forall d :: Follows(s.threads[t], p, d);
    hide AllDriven, Drives, Follows, Advance;
    KeepAtAccept(s, s', t, p, |s.conns|);
  }

  lemma KeepGo(s: State, t: nat, ok: bool)
    requires AllDriven(s) && CanGo(s, t)
    ensures AllDriven(Advance(s, t, ok))
  {
    var q := s.threads[t];
    hide AllDriven, Advance, CanGo;
    if q.PopFree? {
      if s.free != [] { KeepReuse(s, t, ok); } else { KeepFresh(s, t, ok); }
    } else if q.StWait? || q.RefAccept? {
      KeepStarts(s, t, ok);
    } else if q.PostAccept? {
      KeepAcceptPosted(s, t, ok);
    } else if q.AcDec? || q.Idle? {
      KeepDone(s, t, ok);
    } else {
      KeepWork(s, t, ok);
    }
  }

  // ---------------------------------------------------------------- other steps

  /** A thread enters a call, or takes a completion of an accept or a disconnect. */
  lemma KeepEntered(s: State, s': State, t: nat, p: Pc, n: ConnId)
    requires AllDriven(s) && t < |s.threads| && s.threads[t].Idle? && Moved(s, s', t, p) && OnlyConn(s, s', n)
    requires Drives(Idle, p, s.conns[n], s'.conns[n], false, false, n)
    requires s'.running == s.running && (s'.accPending + s'.accDone >= s.accPending + s.accDone || AtAccept(p))
    ensures AllDriven(s')
  {
    hide Driven, Drives;
    if AtAccept(p) { ListeningAt(s', t); } else { ListeningMore(s, s', t, p); }
    hide AtAccept, Listening;
    KeepAtAccept(s, s', t, p, n);
  }

  lemma ListeningMore(s: State, s': State, t: nat, p: Pc)
    requires Listening(s) && t < |s.threads| && s'.threads == s.threads[t := p] && !AtAccept(s.threads[t])
    requires s'.running == s.running && s'.accPending + s'.accDone >= s.accPending + s.accDone
    ensures Listening(s')
  {
    hide AtAccept;
    if u :| 0 <= u < |s.threads| && AtAccept(s.threads[u]) { assert AtAccept(s'.threads[u]); }
  }

  lemma TargetThere(s: State)
    requires Inv(s) && s.accDone > 0
    ensures s.ctxConn < |s.conns|
  {
    hide Conns, AcceptOk, Contexts, Talks;
  }

  lemma KeepAcceptTaken(s: State, t: nat)
    requires AllDriven(s) && Inv(s) && Enabled(s, TakeAccept(t), ORDERLY)
    ensures AllDriven(DoTakeAccept(s, t))
  {
    TargetThere(s);
    hide Inv;
    var s', n := DoTakeAccept(s, t), s.ctxConn;
    var p := s'.threads[t];
    assert Drives(Idle, p, s.conns[n], s'.conns[n], false, false, n);
    hide AllDriven, Drives;
    KeepEntered(s, s', t, p, n);
  }

  lemma KeepDisconnectTaken(s: State, t: nat, c: ConnId)
    requires AllDriven(s) && Enabled(s, TakeDisconnect(t, c), ORDERLY)
    ensures AllDriven(DoTakeDisconnect(s, t, c))
  {
    var s' := DoTakeDisconnect(s, t, c);
    var p := s'.threads[t];
    assert Drives(Idle, p, s.conns[c], s'.conns[c], false, false, c);
    hide AllDriven, Drives;
    KeepEntered(s, s', t, p, c);
  }

  lemma KeepSendCalled(s: State, t: nat, x: Ctx, c: ConnId, bytes: Chunk)
    requires AllDriven(s) && t < |s.threads| && s.threads[t] == Idle && c < |s.conns|
    ensures AllDriven(DoAppSend(s, t, x, c, bytes))
  {
    var s', p := DoAppSend(s, t, x, c, bytes), SdTest(c, x);
    assert Drives(Idle, p, s.conns[c], s'.conns[c], false, false, c);
    hide AllDriven, Drives;
    KeepEntered(s, s', t, p, c);
  }

  lemma KeepLeaving(s: State, t: nat, c: ConnId)
    requires AllDriven(s) && t < |s.threads| && s.threads[t] == Idle && c < |s.conns|
    ensures AllDriven(DoAppDisconnect(s, t, c))
  {
    hide CausesOf;
    var s', p := DoAppDisconnect(s, t, c), DsCas(c, ToIdle);
    assert Drives(Idle, p, s.conns[c], s'.conns[c], false, false, c);
    hide AllDriven, Drives;
    KeepEntered(s, s', t, p, c);
  }

  lemma KeepStarted(s: State, t: nat)
    requires AllDriven(s) && t < |s.threads| && s.threads[t] == Idle
    ensures AllDriven(At(s.(running := true), t, StWait))
  {
    var s' := At(s.(running := true), t, StWait);
    ListeningAt(s', t);
    hide AllDriven, Drives, Listening;
    KeepAtAccept(s, s', t, StWait, |s.conns|);
  }

  lemma KeepIoTaken(s: State, t: nat, i: nat)
    requires AllDriven(s) && Enabled(s, TakeIo(t, i), ORDERLY)
    ensures AllDriven(DoTakeIo(s, t, i))
  {
    var s' := DoTakeIo(s, t, i);
    forall d: ConnId | d < |s'.conns| ensures Driven(s', d) {
      assert Driven(s, d);
      TakenStill(s, t, i, d);
    }
    ListeningStill(s, s', t, s'.threads[t]);
  }

  lemma TakenStill(s: State, t: nat, i: nat, d: ConnId)
    requires d < |s.conns| && Driven(s, d) && Enabled(s, TakeIo(t, i), ORDERLY)
    ensures Driven(DoTakeIo(s, t, i), d)
  {
    var s' := DoTakeIo(s, t, i);
    var p := s'.threads[t];
    assert s'.threads == s.threads[t := p] && s'.ops == s.ops[i := Taken] && s'.conns == s.conns && s'.past == s.past;
    assert s.threads[t].Idle? && (Receiving(s.ops[i], d) ==> Reads(p, d)) && !Receiving(Taken, d);
    hide DoTakeIo, Enabled;
    WatchedTaken(s, s', t, i, p, d);
    IdleElse(d);
    SomeoneStill(s, s'.(ops := s.ops), t, p, d);
    hide Watched, Accepts, Claiming, Reads, Closes, Receiving;
  }

  lemma IdleElse(d: ConnId)
    ensures !Accepts(Idle, d) && !Claiming(Idle, d) && !Reads(Idle, d) && !Closes(Idle, d)
  {
  }

  lemma WatchedTaken(s: State, s': State, t: nat, i: nat, p: Pc, d: ConnId)
    requires t < |s.threads| && i < |s.ops| && s'.threads == s.threads[t := p] && s'.ops == s.ops[i := Taken]
    requires s.threads[t].Idle? && (Receiving(s.ops[i], d) ==> Reads(p, d))
    ensures Watched(s, d) ==> Watched(s', d)
  {
    IdleElse(d);
    hide Reads, Receiving;
    if u :| 0 <= u < |s.threads| && Reads(s.threads[u], d) {
      assert Reads(s'.threads[u], d);
    } else if k :| 0 <= k < |s.ops| && Receiving(s.ops[k], d) {
      if k == i { assert Reads(s'.threads[t], d); } else { assert Receiving(s'.ops[k], d); }
    }
  }

  /** What a step of the kernel or of the application leaves of a connection. */
  predicate Stays(cn: Conn, cn': Conn) {
    && (cn'.connected ==> cn.connected)
    && (cn'.phase == cn.phase || cn'.phase.Free?)
    && (cn.discPending + cn.discDone > 0 ==> cn'.discPending + cn'.discDone > 0)
  }

  lemma KeepStays(s: State, s': State)
    requires AllDriven(s) && s'.threads == s.threads && |s'.conns| == |s.conns| && s'.past == s.past
    requires forall c | 0 <= c < |s.conns| :: Stays(s.conns[c], s'.conns[c])
    requires |s'.ops| == |s.ops| && forall i, c: ConnId | 0 <= i < |s.ops|
        && Receiving(s.ops[i], c) :: Receiving(s'.ops[i], c)
    requires s'.running ==> s.running && s'.accPending + s'.accDone == s.accPending + s.accDone
    ensures AllDriven(s')
  {
    hide Accepts, Claiming, Reads, Closes, AtAccept;
    forall d: ConnId | d < |s'.conns| ensures Driven(s', d) {
      assert Driven(s, d) && Stays(s.conns[d], s'.conns[d]);
      if i :| 0 <= i < |s.ops| && Receiving(s.ops[i], d) { assert Receiving(s'.ops[i], d); }
    }
  }

  lemma KeepKernel(s: State, a: Step)
    requires AllDriven(s) && Enabled(s, a, ORDERLY)
    requires a.KernelAccept? || a.KernelRecv? || a.KernelSend? || a.KernelDisconnect?
    ensures AllDriven(Apply(s, a, ORDERLY))
  {
    var s' := Apply(s, a, ORDERLY);
    assert forall c | 0 <= c < |s.conns| :: Stays(s.conns[c], s'.conns[c]);
    hide AllDriven, Stays;
    KeepStays(s, s');
  }

  lemma KeepClose(s: State, c: ConnId)
    requires AllDriven(s) && c < |s.conns|
    ensures AllDriven(DoAppClose(s, c))
  {
    var s' := DoAppClose(s, c);
    assert forall d | 0 <= d < |s.conns| :: Stays(s.conns[d], s'.conns[d]);
    hide AllDriven, Stays;
    KeepStays(s, s');
  }

  lemma KeepApp(s: State, a: Step)
    requires AllDriven(s) && Enabled(s, a, ORDERLY)
    requires a.AppBind? || a.AppPop? || a.AppPush? || a.AppStop?
    ensures AllDriven(Apply(s, a, ORDERLY))
  {
    var s' := Apply(s, a, ORDERLY);
    assert forall c | 0 <= c < |s.conns| :: Stays(s.conns[c], s'.conns[c]);
    hide AllDriven, Stays;
    KeepStays(s, s');
  }

  lemma KeepAllDriven(s: State, a: Step)
    requires Inv(s) && AllDriven(s) && Enabled(s, a, ORDERLY)
    ensures AllDriven(Apply(s, a, ORDERLY))
  {
    hide Inv, AllDriven, Advance, DoTakeAccept, DoTakeIo, DoTakeDisconnect, DoAppSend, DoAppDisconnect, DoAppClose;
    match a {
      case Go(t, ok) => KeepGo(s, t, ok);
      case TakeAccept(t) => KeepAcceptTaken(s, t);
      case TakeDisconnect(t, c) => KeepDisconnectTaken(s, t, c);
      case TakeIo(t, i) => KeepIoTaken(s, t, i);
      case AppSend(t, x, c, bytes) => KeepSendCalled(s, t, x, c, bytes);
      case AppDisconnect(t, c) => KeepLeaving(s, t, c);
      case AppClose(c) => KeepClose(s, c);
      case AppStart(t) => KeepStarted(s, t);
      case KernelAccept => KeepKernel(s, a);
      case KernelRecv(_, _) => KeepKernel(s, a);
      case KernelSend(_) => KeepKernel(s, a);
      case KernelDisconnect(_) => KeepKernel(s, a);
      case _ => KeepApp(s, a);
    }
  }

  lemma NextDriven(s: State, s': State)
    requires Inv(s) && AllDriven(s) && Next(s, s', ORDERLY)
    ensures AllDriven(s')
  {
    hide Inv, AllDriven, Enabled, Apply;
    var a :| Enabled(s, a, ORDERLY) && s' == Apply(s, a, ORDERLY);
    KeepAllDriven(s, a);
  }

  lemma {:induction false} RunDriven(states: seq<State>, n: nat)
    requires Run(states, ORDERLY) && n < |states|
    ensures AllDriven(states[n])
  {
    hide Inv, Next;
    if n == 0 {
      assert AllDriven(states[0]);
    } else {
      hide AllDriven, Init;
      RunDriven(states, n - 1);
      RunInv(states, n - 1);
      assert Next(states[n - 1], states[n - 1 + 1], ORDERLY);
      NextDriven(states[n - 1], states[n]);
    }
  }

  lemma DrivenReachable(s: State)
    requires Reachable(s, ORDERLY)
    ensures AllDriven(s)
  {
    hide AllDriven;
    var states :| Run(states, ORDERLY) && states[|states| - 1] == s;
    RunDriven(states, |states| - 1);
  }

  // ---------------------------------------------------------------- what holds throughout

  /**
   * No connection is forgotten. Outside the application's hands it is on the free list, with a thread inside Accept,
   * the target of AcceptEx, or with its accept branch; while it is connected a receive is outstanding, or a thread
   * reads it or is about to disconnect it; while it is being closed its DisconnectEx is still to be posted,
   * outstanding or being handled, unless DisconnectEx has failed; and then a thread is about to call OnDisconnect.
   */
  lemma NeverForgotten(s: State, c: ConnId)
    requires Reachable(s, ORDERLY) && c < |s.conns|
    ensures s.conns[c].connected ==> Watched(s, c)
    ensures match s.conns[c].phase
      case Free => c in s.free
      case Claimed => exists t :: 0 <= t < |s.threads| && Claiming(s.threads[t], c)
      case Accepting => s.accPending + s.accDone > 0 && s.ctxConn == c
      case Starting => exists t :: 0 <= t < |s.threads| && Accepts(s.threads[t], c)
      case Active => s.conns[c].connected
      case Closing => Closed(s, c)
      case Drained => exists t :: 0 <= t < |s.threads| && s.threads[t] == DiCall(c)
      case Down => true
  {
    DrivenReachable(s);
    assert Driven(s, c);
    hide AllDriven, Watched, Closed, Accepts, Claiming;
    InvReachable(s);
    PhaseOk(s, c);
  }

  lemma PhaseOk(s: State, c: ConnId)
    requires Inv(s) && c < |s.conns|
    ensures s.conns[c].phase.Free? ==> c in s.free
    ensures s.conns[c].phase.Accepting? ==> s.accPending + s.accDone > 0 && s.ctxConn == c
    ensures s.conns[c].phase.Active? ==> s.conns[c].connected
  {
    assert ConnAt(s, c);
    hide Ids, Conns, AcceptOk, Contexts, Talks;
  }

  /** While the acceptor runs an accept is outstanding, or a thread will post one. */
  lemma NeverDeaf(s: State)
    requires Reachable(s, ORDERLY) && s.running
    ensures s.accPending + s.accDone > 0 || exists t :: 0 <= t < |s.threads| && AtAccept(s.threads[t])
  {
    DrivenReachable(s);
    hide Driven;
  }
}
