/**
 * The inductive invariant of the completion-port protocol, and that every step keeps it as long as
 * AsyncDisconnect does not win before the first receive reference.
 */
module PortInvariant {
  import opened Bytes
  import opened CompletionPort
  import opened PortLoad

  // ---------------------------------------------------------------- the upcall protocol

  /** What a handler has been told of one connection. */
  datatype Talk = Shut | Open(given: seq<Chunk>) | Broken

  /** OnConnection, any number of OnData, OnDisconnect, and again; anything else breaks the protocol. */
  function Hear(w: Talk, e: Event): (r: Talk) {
    match e
    case OnConnection(_) => if w.Shut? then Open([]) else Broken
    case OnData(_, data) => if w.Open? then Open(w.given + [data]) else Broken
    case OnDisconnect(_) => if w.Open? then Shut else Broken
  }

  function Scan(log: seq<Event>, c: ConnId): (r: Talk) {
    if log == [] then Shut
    else
      var e := log[|log| - 1];
      var w := Scan(log[..|log| - 1], c);
      if e.c == c then Hear(w, e) else w
  }

  lemma ScanAdd(log: seq<Event>, e: Event, c: ConnId)
    ensures Scan(log + [e], c) == if e.c == c then Hear(Scan(log, c), e) else Scan(log, c)
  {
    assert (log + [e])[..|log|] == log;
  }

  // ---------------------------------------------------------------- the invariant

  predicate InUse(p: Phase) {
    p.Starting? || p.Active? || p.Closing? || p.Drained? || p.Down?
  }

  /** What one connection's fields say of the total that is held of it. */
  predicate ConnOk(cn: Conn, l: Load, inFree: nat, target: bool) {
    // references
    && cn.iorefs == l.refs
    && (cn.phase.Drained? || cn.phase.Down? ==> l.refs == l.sends)
    && (!InUse(cn.phase) ==> l.refs == 0 && !cn.live)
    // who may act on the connection in which phase
    && l.start == (if cn.phase.Starting? then 1 else 0)
    && l.start + l.duty <= 1
    && (l.duty > 0 ==> cn.phase.Active? || cn.phase.Closing?)
    && cn.discPending + cn.discDone + l.post <= (if cn.phase.Closing? then 1 else 0)
    && l.drain == (if cn.phase.Drained? then 1 else 0)
    && l.claim == (if cn.phase.Claimed? then 1 else 0)
    && inFree == (if cn.phase.Free? then 1 else 0)
    && target == cn.phase.Accepting?
    // flags
    && (cn.phase.Starting? ==> cn.connected == (l.raw == 0) && cn.live == (l.uncalled == 0))
    && (!cn.phase.Starting? ==> cn.connected == cn.phase.Active?)
    && (cn.phase.Active? || cn.phase.Closing? || cn.phase.Drained? ==> cn.live)
    && (cn.bound ==> cn.live && cn.client.Some?)
    && (l.busy > 0 ==> cn.live)
    && 0 <= cn.checked <= INITIAL_REF_MAX && cn.refmax <= INITIAL_REF_MAX
    // data
    && Payloads(cn.arrived, cn.given, l.data)
  }

  /** What has arrived and not been given to OnData is held by someone. */
  predicate Payloads(arrived: seq<Chunk>, given: seq<Chunk>, held: multiset<Chunk>) {
    given <= arrived && multiset(arrived[|given|..]) == held
  }

  predicate IsTarget(s: State, c: ConnId) {
    s.accPending + s.accDone > 0 && s.ctxConn == c
  }

  ghost predicate ConnAt(s: State, c: ConnId)
    requires c < |s.conns|
  {
    ConnOk(s.conns[c], Total(s, c), multiset(s.free)[c], IsTarget(s, c))
  }

  ghost predicate Conns(s: State) {
    forall c: ConnId | c < |s.conns| :: ConnAt(s, c)
  }

  predicate IoIds(o: Io, n: nat) {
    o.Taken? || o.c < n
  }

  ghost predicate Ids(s: State) {
    && s.workers <= |s.threads|
    && (forall t | 0 <= t < |s.threads| :: PcIds(s.threads[t], |s.conns|))
    && (forall i | 0 <= i < |s.ops| :: IoIds(s.ops[i], |s.conns|))
    && (forall n | n in s.free :: n < |s.conns|)
    && (s.accPending + s.accDone > 0 ==> s.ctxConn < |s.conns|)
  }

  predicate Claims(p: Pc, n: ConnId) {
    (p.RefAccept? || p.PostAccept?) ==> p.n == n
  }

  /** At most one AcceptEx is outstanding or about to be posted. */
  ghost predicate AcceptOk(s: State) {
    var r := Duties(s);
    && s.accPending + s.accDone + r.token <= 1
    && s.accRefs == s.accPending + s.accDone + r.aref
    && r.starter <= 1
    && (forall t | 0 <= t < |s.threads| :: Claims(s.threads[t], s.ctxConn))
  }

  predicate PcKind(p: Pc) {
    && ((p.RvGot? || p.RvInc? || p.RvPost? || p.RvFail?) ==> p.x.In?)
    && ((p.SnGot? || p.SdTest? || p.SdInc? || p.SdPost? || p.SdFail? || p.SdOver?) ==> p.x.Out?)
  }

  predicate IoKind(o: Io) {
    && (o.Recv? ==> o.x.In?)
    && (o.Send? ==> o.x.Out?)
  }

  /** Every context created so far. */
  ghost function AllCtx(ins: nat, outs: nat): multiset<Ctx> {
    multiset(set n: nat | n < ins :: In(n)) + multiset(set n: nat | n < outs :: Out(n))
  }

  /** Where the contexts are: held by a thread or an operation, pooled, or with the application. */
  ghost function CtxPlaces(s: State): multiset<Ctx> {
    Duties(s).ctx + Pools(s)
  }

  function Pools(s: State): (b: multiset<Ctx>) {
    multiset(s.inPool) + multiset(s.outPool) + s.held
  }

  predicate PoolKinds(s: State) {
    && (forall x | x in s.inPool :: x.In?)
    && (forall x | x in s.outPool :: x.Out?)
    && (forall x | x in s.held :: x.Out?)
  }

  ghost predicate Contexts(s: State) {
    && CtxPlaces(s) == AllCtx(s.inCount, s.outCount)
    && (forall t | 0 <= t < |s.threads| :: PcKind(s.threads[t]))
    && (forall i | 0 <= i < |s.ops| :: IoKind(s.ops[i]))
    && PoolKinds(s)
  }

  ghost predicate Talks(s: State) {
    forall c: ConnId :: Scan(s.log, c) == TalkOf(s, c)
  }

  function TalkOf(s: State, c: ConnId): (w: Talk) {
    if c < |s.conns| && s.conns[c].live && !s.conns[c].phase.Down? then Open(s.conns[c].given) else Shut
  }

  ghost predicate Inv(s: State) {
    Ids(s) && Conns(s) && AcceptOk(s) && Contexts(s) && Talks(s)
  }

  lemma AllCtxNone()
    ensures AllCtx(0, 0) == multiset{}
  {
    assert (set n: nat | n < 0 :: In(n)) == {};
    assert (set n: nat | n < 0 :: Out(n)) == {};
  }

  lemma IdleDuties(s: State)
    requires s.ops == [] && forall t | 0 <= t < |s.threads| :: s.threads[t] == Idle
    ensures Duties(s) == NoRole
  {
    IdleRoles(s.threads);
    JoinNone(ThreadRoles(s.threads), |s.threads|);
    JoinNone(IoRoles(s.ops), |s.ops|);
    hide Join, ThreadRoles, IoRoles;
    NoneAndNone();
  }

  lemma NoneAndNone()
    ensures And(NoRole, NoRole) == NoRole
  {
    assert multiset{} + multiset{} == NoRole.ctx;
  }

  lemma IdleRoles(ts: seq<Pc>)
    requires forall t | 0 <= t < |ts| :: ts[t] == Idle
    ensures forall i: nat | i < |ts| :: ThreadRoles(ts)(i) == NoRole
  {
  }

  lemma InitContexts(s: State)
    requires Init(s)
    ensures AcceptOk(s) && Contexts(s)
  {
    hide Duties, AllCtx, CtxPlaces, PcRole;
    IdleDuties(s);
    AllCtxNone();
    InitPlaces(s);
  }

  lemma InitPlaces(s: State)
    requires s.inPool == [] && s.outPool == [] && s.held == multiset{} && Duties(s) == NoRole
    ensures CtxPlaces(s) == multiset{}
  {
    hide Duties;
    assert multiset(s.inPool) == multiset{} && multiset(s.outPool) == multiset{};
  }

  lemma InvInit(s: State)
    requires Init(s)
    ensures Inv(s)
  {
    InitContexts(s);
    hide Contexts, AcceptOk, Total, Duties;
    assert Ids(s) && Conns(s);
    assert Talks(s);
  }

  // ---------------------------------------------------------------- shares and rests

  lemma PlusAssociates(a: Load, b: Load, c: Load)
    ensures Plus(Plus(a, b), c) == Plus(a, Plus(b, c))
  {
    assert (a.data + b.data) + c.data == a.data + (b.data + c.data);
  }

  lemma AndAssociates(a: Role, b: Role, c: Role)
    ensures And(And(a, b), c) == And(a, And(b, c))
  {
    assert (a.ctx + b.ctx) + c.ctx == a.ctx + (b.ctx + c.ctx);
  }

  /** What everyone but thread t holds of c. */
  function Rest(s: State, t: nat, c: ConnId): (l: Load) {
    Plus(OtherThreads(s.threads, t, c), IoTotal(s.ops, c))
  }

  function RestDuties(s: State, t: nat): (r: Role) {
    And(OtherThreadDuties(s.threads, t), IoDuties(s.ops))
  }

  /** Totals before and after thread t moves to p and nothing else is held differently. */
  lemma Move(s: State, s': State, t: nat, p: Pc, c: ConnId)
    requires t < |s.threads| && s'.threads == s.threads[t := p] && s'.ops == s.ops
    ensures Sane(Rest(s, t, c))
    ensures Total(s, c) == Plus(PcLoad(s.threads[t], c), Rest(s, t, c))
    ensures Total(s', c) == Plus(PcLoad(p, c), Rest(s, t, c))
  {
    ThreadMove(s.threads, t, p, c);
    TotalsSane(s, c);
    PlusAssociates(PcLoad(s.threads[t], c), OtherThreads(s.threads, t, c), IoTotal(s.ops, c));
    PlusAssociates(PcLoad(p, c), OtherThreads(s.threads, t, c), IoTotal(s.ops, c));
  }

  lemma MoveDuties(s: State, s': State, t: nat, p: Pc)
    requires t < |s.threads| && s'.threads == s.threads[t := p] && s'.ops == s.ops
    ensures Sound(RestDuties(s, t))
    ensures Duties(s) == And(PcRole(s.threads[t]), RestDuties(s, t))
    ensures Duties(s') == And(PcRole(p), RestDuties(s, t))
  {
    ThreadDutyMove(s.threads, t, p);
    TotalsSane(s, 0);
    AndAssociates(PcRole(s.threads[t]), OtherThreadDuties(s.threads, t), IoDuties(s.ops));
    AndAssociates(PcRole(p), OtherThreadDuties(s.threads, t), IoDuties(s.ops));
  }

  /** What the invariant says of thread t's program counter. */
  lemma Stand(s: State, t: nat)
    requires Inv(s) && t < |s.threads|
    ensures PcIds(s.threads[t], |s.conns|) && PcKind(s.threads[t]) && Claims(s.threads[t], s.ctxConn)
  {
  }

  /** The program counter speaks of no connection but c. */
  predicate WorksOn(p: Pc, c: ConnId) {
    match p
    case Idle => true
    case AcDec => true
    case StWait => true
    case PopFree(_) => false
    case RefAccept(_, _) => false
    case PostAccept(_, _) => false
    case _ => p.c == c
  }

  lemma NothingElsewhere(p: Pc, c: ConnId, d: ConnId)
    requires WorksOn(p, c) && d != c
    ensures PcLoad(p, d) == NoLoad
  {
  }

  lemma OwnHere(p: Pc, c: ConnId)
    requires WorksOn(p, c)
    ensures PcLoad(p, c) == OwnLoad(p)
  {
  }

  /** What the invariant says of a connection, with the share of the thread that works on it apart. */
  lemma Focus(s: State, t: nat, c: ConnId)
    requires Conns(s) && t < |s.threads| && c < |s.conns| && WorksOn(s.threads[t], c)
    ensures Sane(Rest(s, t, c))
    ensures ConnOk(s.conns[c], Plus(OwnLoad(s.threads[t]), Rest(s, t, c)), multiset(s.free)[c], IsTarget(s, c))
  {
    Move(s, s.(threads := s.threads[t := s.threads[t]]), t, s.threads[t], c);
    OwnHere(s.threads[t], c);
    hide PcLoad, OwnLoad;
    assert ConnAt(s, c);
  }

  // ---------------------------------------------------------------- frames

  /** The free list and the accept context are as they were. */
  predicate SameLists(s: State, s': State) {
    s'.free == s.free && s'.accPending == s.accPending && s'.accDone == s.accDone && s'.ctxConn == s.ctxConn
  }

  predicate SamePools(s: State, s': State) {
    && s'.inPool == s.inPool && s'.outPool == s.outPool && s'.held == s.held
    && s'.inCount == s.inCount && s'.outCount == s.outCount
  }

  /** Only connection c may differ. */
  predicate OnlyConn(s: State, s': State, c: ConnId) {
    c < |s.conns| == |s'.conns| && s'.conns == s.conns[c := s'.conns[c]]
  }

  /** A connection whose fields nobody touched, while thread t moves on without changing what it holds of it. */
  lemma Untouched(s: State, s': State, t: nat, p: Pc, d: ConnId)
    requires t < |s.threads| && s'.threads == s.threads[t := p] && s'.ops == s.ops
    requires d < |s.conns| && d < |s'.conns| && s'.conns[d] == s.conns[d] && ConnAt(s, d)
    requires multiset(s'.free)[d] == multiset(s.free)[d] && IsTarget(s', d) == IsTarget(s, d)
    requires PcLoad(p, d) == PcLoad(s.threads[t], d)
    ensures ConnAt(s', d)
  {
    hide ConnOk, PcLoad, Plus, Rest, Total, Sane;
    Move(s, s', t, p, d);
  }

  /** What the invariant says of a connection, with thread t's share apart. */
  lemma Share(s: State, t: nat, d: ConnId)
    requires t < |s.threads| && d < |s.conns| && ConnAt(s, d)
    ensures Sane(Rest(s, t, d))
    ensures ConnOk(s.conns[d], Plus(PcLoad(s.threads[t], d), Rest(s, t, d)), multiset(s.free)[d], IsTarget(s, d))
  {
    hide ConnOk, PcLoad, Plus, Rest, Total, Sane;
    Move(s, s.(threads := s.threads[t := s.threads[t]]), t, s.threads[t], d);
  }

  /** A connection in order after thread t's move. */
  lemma Returned(s: State, s': State, t: nat, p: Pc, d: ConnId)
    requires t < |s.threads| && s'.threads == s.threads[t := p] && s'.ops == s.ops && d < |s'.conns|
    requires ConnOk(s'.conns[d], Plus(PcLoad(p, d), Rest(s, t, d)), multiset(s'.free)[d], IsTarget(s', d))
    ensures ConnAt(s', d)
  {
    hide ConnOk, PcLoad, Plus, Rest, Total, Sane;
    Move(s, s', t, p, d);
  }

  lemma SameTotals(s: State, s': State, c: ConnId)
    requires s'.threads == s.threads && s'.ops == s.ops
    ensures Total(s', c) == Total(s, c) && Duties(s') == Duties(s)
  {
  }

  /** A connection in order after a step that moves no thread. */
  lemma Refitted(s: State, s': State, d: ConnId)
    requires s'.threads == s.threads && s'.ops == s.ops && d < |s'.conns|
    requires ConnOk(s'.conns[d], Total(s, d), multiset(s'.free)[d], IsTarget(s', d))
    ensures ConnAt(s', d)
  {
    hide ConnOk;
    SameTotals(s, s', d);
    hide Total;
  }

  /** A connection nobody touched, while no thread moves. */
  lemma Alike(s: State, s': State, d: ConnId)
    requires s'.threads == s.threads && s'.ops == s.ops
    requires d < |s.conns| && d < |s'.conns| && s'.conns[d] == s.conns[d] && ConnAt(s, d)
    requires multiset(s'.free)[d] == multiset(s.free)[d] && IsTarget(s', d) == IsTarget(s, d)
    ensures ConnAt(s', d)
  {
    hide ConnOk;
    SameTotals(s, s', d);
    hide Total;
  }

  lemma KeepIds(s: State, s': State, t: nat, p: Pc)
    requires Ids(s) && t < |s.threads| && s'.threads == s.threads[t := p] && s'.ops == s.ops
    requires |s'.conns| == |s.conns| && SameLists(s, s') && s'.workers == s.workers && PcIds(p, |s.conns|)
    ensures Ids(s')
  {
  }

  /** A step on one connection keeps all of them in order if it keeps that one. */
  lemma KeepConns(s: State, s': State, t: nat, p: Pc, c: ConnId)
    requires Conns(s) && t < |s.threads| && s'.threads == s.threads[t := p] && s'.ops == s.ops
    requires OnlyConn(s, s', c) && SameLists(s, s')
    requires WorksOn(p, c) && WorksOn(s.threads[t], c)
    requires ConnOk(s'.conns[c], Plus(OwnLoad(p), Rest(s, t, c)), multiset(s.free)[c], IsTarget(s, c))
    ensures Conns(s')
  {
    hide PcLoad, OwnLoad, ConnOk, Plus, Rest, Sane, WorksOn;
    forall d: ConnId | d < |s'.conns| ensures ConnAt(s', d) {
      assert ConnAt(s, d);
      Move(s, s', t, p, d);
      if d == c {
        OwnHere(p, c);
      } else {
        NothingElsewhere(p, c, d);
        NothingElsewhere(s.threads[t], c, d);
      }
    }
  }

  /** A step that neither posts operations nor handles contexts nor counts accepts. */
  lemma KeepDuties(s: State, s': State, t: nat, p: Pc)
    requires AcceptOk(s) && Contexts(s) && t < |s.threads| && s'.threads == s.threads[t := p] && s'.ops == s.ops
    requires PcRole(p) == PcRole(s.threads[t]) && PcKind(p) && Claims(p, s.ctxConn)
    requires SameLists(s, s') && s'.accRefs == s.accRefs && SamePools(s, s')
    ensures AcceptOk(s') && Contexts(s')
  {
    MoveDuties(s, s', t, p);
  }

  lemma KeepTalks(s: State, s': State, c: ConnId)
    requires Talks(s) && s'.log == s.log && OnlyConn(s, s', c)
    requires TalkOf(s', c) == TalkOf(s, c)
    ensures Talks(s')
  {
    forall d: ConnId ensures Scan(s'.log, d) == TalkOf(s', d) {
      assert Scan(s.log, d) == TalkOf(s, d);
    }
  }

  /** A step whose upcall is e. */
  lemma KeepTalksSaying(s: State, s': State, e: Event)
    requires Talks(s) && s'.log == s.log + [e] && OnlyConn(s, s', e.c)
    requires TalkOf(s', e.c) == Hear(TalkOf(s, e.c), e)
    ensures Talks(s')
  {
    forall d: ConnId ensures Scan(s'.log, d) == TalkOf(s', d) {
      assert Scan(s.log, d) == TalkOf(s, d);
      ScanAdd(s.log, e, d);
    }
  }

  /** Thread t moves to p, and of what others can see only connection c changes. */
  ghost predicate MovesOn(s: State, s': State, t: nat, p: Pc, c: ConnId) {
    && t < |s.threads| && s'.threads == s.threads[t := p] && s'.ops == s.ops && s'.workers == s.workers
    && OnlyConn(s, s', c) && SameLists(s, s') && SamePools(s, s')
    && s'.accRefs == s.accRefs && s'.log == s.log
  }

  /** A thread that moves from q to p stays with connection c and keeps its role. */
  ghost predicate Relay(q: Pc, p: Pc, c: ConnId) {
    WorksOn(q, c) && WorksOn(p, c) && PcRole(p) == PcRole(q) && (PcKind(q) ==> PcKind(p))
  }

  /** What the invariant says of the connection a thread works on, with the thread's own share apart. */
  lemma Hold(s: State, t: nat, p: Pc, c: ConnId)
    requires Inv(s) && t < |s.threads| && c < |s.conns| && Relay(s.threads[t], p, c)
    ensures Sane(Rest(s, t, c))
    ensures ConnOk(s.conns[c], Plus(OwnLoad(s.threads[t]), Rest(s, t, c)), multiset(s.free)[c], IsTarget(s, c))
  {
    hide ConnOk, Conns, Ids, AcceptOk, Contexts, Talks, Plus, Rest, Sane, PcRole, WorksOn;
    Focus(s, t, c);
  }

  /** A step on one connection that makes no upcall and hands over no context. */
  lemma KeepMove(s: State, s': State, t: nat, p: Pc, c: ConnId)
    requires Inv(s) && MovesOn(s, s', t, p, c) && Relay(s.threads[t], p, c)
    requires ConnOk(s'.conns[c], Plus(OwnLoad(p), Rest(s, t, c)), multiset(s.free)[c], IsTarget(s, c))
    requires TalkOf(s', c) == TalkOf(s, c)
    ensures Inv(s')
  {
    hide ConnOk, Conns, Ids, AcceptOk, Contexts, Talks, Plus, Rest, Scan, TalkOf;
    hide PcLoad, OwnLoad, PcRole, PcKind;
    Stand(s, t);
    assert PcIds(p, |s.conns|) && Claims(p, s.ctxConn);
    hide PcIds, WorksOn, Claims;
    KeepConns(s, s', t, p, c);
    KeepDuties(s, s', t, p);
    KeepTalks(s, s', c);
    KeepIds(s, s', t, p);
  }

  /** The same with an upcall. */
  lemma KeepSay(s: State, s': State, t: nat, p: Pc, e: Event)
    requires Inv(s) && MovesOn(s, s'.(log := s.log), t, p, e.c) && s'.log == s.log + [e] && Relay(s.threads[t], p, e.c)
    requires ConnOk(s'.conns[e.c], Plus(OwnLoad(p), Rest(s, t, e.c)), multiset(s.free)[e.c], IsTarget(s, e.c))
    requires TalkOf(s', e.c) == Hear(TalkOf(s, e.c), e)
    ensures Inv(s')
  {
    hide ConnOk, Conns, Ids, AcceptOk, Contexts, Talks, Plus, Rest, Scan, TalkOf, Hear;
    hide PcLoad, OwnLoad, PcRole, PcKind;
    Stand(s, t);
    assert PcIds(p, |s.conns|) && Claims(p, s.ctxConn);
    hide PcIds, WorksOn, Claims;
    KeepConns(s, s', t, p, e.c);
    KeepDuties(s, s', t, p);
    KeepTalksSaying(s, s', e);
    KeepIds(s, s', t, p);
  }

  // ---------------------------------------------------------------- contexts

  lemma SplitFirst(xs: seq<Ctx>)
    requires xs != []
    ensures multiset(xs) == multiset{xs[0]} + multiset(xs[1..])
  {
    assert xs == [xs[0]] + xs[1..];
  }

  /** x leaves or joins the first of three pools. */
  lemma TakeFrom(x: multiset<Ctx>, a: multiset<Ctx>, a': multiset<Ctx>, b: multiset<Ctx>, h: multiset<Ctx>)
    requires a == x + a'
    ensures x + (a' + b + h) == multiset{} + (a + b + h) + multiset{}
  {
  }

  lemma PoolsInKind(s: State)
    requires Contexts(s)
    ensures PoolKinds(s)
  {
  }

  lemma OnlyOne(rest: seq<Chunk>, data: Chunk)
    requires multiset(rest) == multiset{data}
    ensures rest == [data]
  {
    assert |rest| == |multiset(rest)| == 1;
    assert rest[0] in multiset(rest);
  }

  /** Thread t trades a context with the pools. */
  lemma KeepPlaces(s: State, s': State, t: nat, p: Pc, made: multiset<Ctx>)
    requires AcceptOk(s) && Contexts(s) && t < |s.threads| && s'.threads == s.threads[t := p] && s'.ops == s.ops
    requires var q := s.threads[t]; PcRole(p) == PcRole(q).(ctx := PcRole(p).ctx)
    requires PcRole(p).ctx + Pools(s') == PcRole(s.threads[t]).ctx + Pools(s) + made
    requires AllCtx(s'.inCount, s'.outCount) == AllCtx(s.inCount, s.outCount) + made
    requires PcKind(p) && Claims(p, s.ctxConn) && PoolKinds(s')
    requires SameLists(s, s') && s'.accRefs == s.accRefs
    ensures AcceptOk(s') && Contexts(s')
  {
    hide AllCtx, PcRole, Pools, PoolKinds, RestDuties, Duties, PcKind, Sound;
    MoveDuties(s, s', t, p);
    var q := s.threads[t];
    Regroup(PcRole(q).ctx, PcRole(p).ctx, RestDuties(s, t).ctx, Pools(s), Pools(s'), made);
  }

  lemma Regroup(a: multiset<Ctx>, b: multiset<Ctx>, rest: multiset<Ctx>, pa: multiset<Ctx>, pb: multiset<Ctx>,
          made: multiset<Ctx>)
    requires b + pb == a + pa + made
    ensures (b + rest) + pb == (a + rest) + pa + made
  {
    assert (b + rest) + pb == rest + (b + pb);
    assert (a + rest) + pa + made == rest + (a + pa + made);
  }

  /** Thread t puts the context it holds on top of the pool it came from. */
  lemma KeepGivenBack(s: State, s': State, t: nat, p: Pc, x: Ctx)
    requires AcceptOk(s) && Contexts(s) && t < |s.threads| && s'.threads == s.threads[t := p] && s'.ops == s.ops
    requires PcRole(s.threads[t]).ctx == multiset{x} && PcRole(p) == PcRole(s.threads[t]).(ctx := multiset{})
    requires if x.In? then s'.inPool == [x] + s.inPool && s'.outPool == s.outPool
             else s'.outPool == [x] + s.outPool && s'.inPool == s.inPool
    requires s'.held == s.held && s'.inCount == s.inCount && s'.outCount == s.outCount
    requires PcKind(p) && Claims(p, s.ctxConn)
    requires SameLists(s, s') && s'.accRefs == s.accRefs
    ensures AcceptOk(s') && Contexts(s')
  {
    hide AllCtx, PcRole, AcceptOk, Contexts;
    PoolsInKind(s);
    GivenBack(s, s', x);
    hide Pools;
    assert AllCtx(s.inCount, s.outCount) + multiset{} == AllCtx(s.inCount, s.outCount);
    KeepPlaces(s, s', t, p, multiset{});
  }

  lemma GivenBack(s: State, s': State, x: Ctx)
    requires PoolKinds(s) && s'.held == s.held
    requires if x.In? then s'.inPool == [x] + s.inPool && s'.outPool == s.outPool
             else s'.outPool == [x] + s.outPool && s'.inPool == s.inPool
    ensures multiset{} + Pools(s') == multiset{x} + Pools(s) + multiset{} && PoolKinds(s')
  {
    SplitFirst([x] + if x.In? then s.inPool else s.outPool);
    BackOnTop(multiset{x}, multiset(s.inPool), multiset(s.outPool), s.held);
  }

  lemma BackOnTop(x: multiset<Ctx>, a: multiset<Ctx>, b: multiset<Ctx>, h: multiset<Ctx>)
    ensures multiset{} + ((x + a) + b + h) == x + (a + b + h) + multiset{}
    ensures multiset{} + (a + (x + b) + h) == x + (a + b + h) + multiset{}
  {
  }

  lemma AllCtxIn(ins: nat, outs: nat)
    ensures AllCtx(ins + 1, outs) == AllCtx(ins, outs) + multiset{In(ins)}
  {
    assert (set n: nat | n < ins + 1 :: In(n)) == (set n: nat | n < ins :: In(n)) + {In(ins)};
  }

  lemma AllCtxOut(ins: nat, outs: nat)
    ensures AllCtx(ins, outs + 1) == AllCtx(ins, outs) + multiset{Out(outs)}
  {
    assert (set n: nat | n < outs + 1 :: Out(n)) == (set n: nat | n < outs :: Out(n)) + {Out(outs)};
  }
}
