/**
 * What threads and outstanding operations hold: references, duties and contexts, and their totals.
 */
module PortLoad {
  import opened Bytes
  import opened CompletionPort

  /** What one thread or operation holds of one connection. */
  datatype Load = Load(
    refs: int,    // references counted by iorefs_
    sends: int,   // those of refs taken by AsyncSend
    start: int,   // runs the accept branch, before the first receive reference
    uncalled: int,   // those of start that have not called OnConnection
    raw: int,     // those of uncalled that have not set connected_
    duty: int,    // carries the receive loop, holding a reference
    post: int,    // is about to post, or is testing, the disconnect
    drain: int,   // is about to call OnDisconnect
    claim: int,   // is passing the connection to AcceptEx
    busy: int,    // is inside AsyncSend
    passed: int,  // those of busy between the limit check and the increment
    worker: int,  // is a worker
    data: multiset<Chunk>  // completed, non-empty receive payloads not yet given to OnData
  )

  /** What one thread or operation holds of the acceptor and of the pools. */
  datatype Role = Role(
    token: int,    // may post AcceptEx
    aref: int,     // references counted by the acceptor's iorefs_
    starter: int,  // is inside Start
    ctx: multiset<Ctx>
  )

  const NoLoad := Load(0, 0, 0, 0, 0, 0, 0, 0, 0, 0, 0, 0, multiset{})
  const NoRole := Role(0, 0, 0, multiset{})

  function Plus(a: Load, b: Load): (r: Load) {
    Load(a.refs + b.refs, a.sends + b.sends, a.start + b.start, a.uncalled + b.uncalled, a.raw + b.raw,
         a.duty + b.duty, a.post + b.post, a.drain + b.drain, a.claim + b.claim, a.busy + b.busy,
         a.passed + b.passed, a.worker + b.worker, a.data + b.data)
  }

  function And(a: Role, b: Role): (r: Role) {
    Role(a.token + b.token, a.aref + b.aref, a.starter + b.starter, a.ctx + b.ctx)
  }

  // ---------------------------------------------------------------- inequalities every holder meets

  predicate Sane(l: Load) {
    && 0 <= l.sends <= l.refs && 0 <= l.duty <= l.refs - l.sends <= l.worker + l.duty
    && 0 <= l.raw <= l.uncalled <= l.start && 0 <= l.post && 0 <= l.drain && 0 <= l.claim
    && 0 <= l.passed <= l.busy && |l.data| <= l.duty
  }

  predicate Sound(r: Role) {
    0 <= r.aref && 0 <= r.starter && 0 <= r.token <= r.aref + r.starter
  }

  /** Holds references, and at most the end of a receive loop. */
  predicate Light(l: Load) {
    && l.start == 0 && l.uncalled == 0 && l.raw == 0 && l.post == 0 && l.drain == 0 && l.claim == 0
    && l.busy == 0 && l.passed == 0 && l.data == multiset{}
  }

  function DebtLoad(d: Debt): (l: Load)
    ensures Sane(l) && Light(l)
  {
    match d
    case SendRef => NoLoad.(refs := 1, sends := 1)
    case RecvRef => NoLoad.(refs := 1, worker := 1)
    case RecvRefAccept => NoLoad.(refs := 1, duty := 1, worker := 1)
    case TwoRecvRefs => NoLoad.(refs := 2, duty := 1, worker := 1)
  }

  function ThenLoad(k: Then): (l: Load)
    ensures Sane(l) && Light(l)
  {
    match k
    case ToIdle => NoLoad
    case ToAccept => NoLoad.(worker := 1)
    case ToDebt(d) => DebtLoad(d)
  }

  function PcLoad(p: Pc, c: ConnId): (l: Load)
    ensures Sane(l)
  {
    match p
    case Idle => NoLoad
    case StWait => NoLoad
    case AcDec => NoLoad
    case PopFree(who) => CallerLoad(who, c)
    case RefAccept(who, n) => if n == c then CallerLoad(who, c).(claim := 1) else CallerLoad(who, c)
    case PostAccept(who, n) => if n == c then CallerLoad(who, c).(claim := 1) else CallerLoad(who, c)
    case _ => if p.c == c then OwnLoad(p) else NoLoad
  }

  function CallerLoad(who: Caller, c: ConnId): (l: Load)
    ensures Sane(l)
  {
    if who.Branch? && who.c == c then NoLoad.(start := 1, uncalled := 1, raw := 1, worker := 1) else NoLoad
  }

  function OwnLoad(p: Pc): (l: Load)
    ensures Sane(l)
  {
    match p
    case AcUp(_) => NoLoad.(start := 1, uncalled := 1, raw := 1, worker := 1)
    case AcCall(_) => NoLoad.(start := 1, uncalled := 1, worker := 1)
    case AcCtx(_) => NoLoad.(start := 1, worker := 1)
    case RvGot(_, _, data) =>
      NoLoad.(refs := 1, duty := 1, worker := 1, data := if data == [] then multiset{} else multiset{data})
    case RvInc(_, _, after) =>
      if after.AfterAccept? then NoLoad.(start := 1, worker := 1)
      else NoLoad.(refs := 1, duty := 1, worker := 1)
    case RvPost(_, _, after) => NoLoad.(refs := if after.AfterAccept? then 1 else 2, duty := 1, worker := 1)
    case RvFail(_, _, after) => NoLoad.(refs := if after.AfterAccept? then 1 else 2, duty := 1, worker := 1)
    case DsCas(_, k) => ThenLoad(k)
    case DsPost(_, k) => ThenLoad(k).(post := 1)
    case CnDec(_, d) => DebtLoad(d)
    case DiTest(_) => NoLoad.(post := 1, worker := 1)
    case DiRepost(_) => NoLoad.(post := 1, worker := 1)
    case DiCall(_) => NoLoad.(drain := 1, worker := 1)
    case SnGot(_, _) => NoLoad.(refs := 1, sends := 1)
    case SdTest(_, _) => NoLoad.(busy := 1)
    case SdOver(_, _) => NoLoad.(busy := 1)
    case SdInc(_, _) => NoLoad.(busy := 1, passed := 1)
    case SdPost(_, _) => NoLoad.(refs := 1, sends := 1, busy := 1)
    case SdFail(_, _) => NoLoad.(refs := 1, sends := 1, busy := 1)
    case _ => NoLoad
  }

  function IoLoad(o: Io, c: ConnId): (l: Load)
    ensures Sane(l) && l.busy == 0
  {
    match o
    case Taken => NoLoad
    case Send(d, _, _) => if d == c then NoLoad.(refs := 1, sends := 1) else NoLoad
    case Recv(d, _, done, data) =>
      if d != c then NoLoad
      else NoLoad.(refs := 1, duty := 1, data := if done && data != [] then multiset{data} else multiset{})
  }

  function AfterAref(a: After): (n: int) {
    if a.AfterAccept? then 1 else 0
  }

  function ThenAref(k: Then): (n: int) {
    if k.ToAccept? || k == ToDebt(RecvRefAccept) then 1 else 0
  }

  function PcRole(p: Pc): (r: Role)
    ensures Sound(r)
  {
    match p
    case Idle => NoRole
    case StWait => NoRole.(starter := 1)
    case PopFree(who) => if who.Branch? then NoRole.(token := 1, aref := 1) else NoRole.(token := 1, starter := 1)
    case RefAccept(who, _) =>
      if who.Branch? then NoRole.(token := 1, aref := 1) else NoRole.(token := 1, starter := 1)
    case PostAccept(who, _) =>
      if who.Branch? then NoRole.(token := 1, aref := 2) else NoRole.(token := 1, aref := 1, starter := 1)
    case AcUp(_) => NoRole.(aref := 1)
    case AcCall(_) => NoRole.(aref := 1)
    case AcCtx(_) => NoRole.(aref := 1)
    case AcDec => NoRole.(aref := 1)
    case RvGot(_, x, _) => NoRole.(ctx := multiset{x})
    case RvInc(_, x, a) => NoRole.(aref := AfterAref(a), ctx := multiset{x})
    case RvPost(_, x, a) => NoRole.(aref := AfterAref(a), ctx := multiset{x})
    case RvFail(_, x, a) => NoRole.(aref := AfterAref(a), ctx := multiset{x})
    case DsCas(_, k) => NoRole.(aref := ThenAref(k))
    case DsPost(_, k) => NoRole.(aref := ThenAref(k))
    case CnDec(_, d) => NoRole.(aref := ThenAref(ToDebt(d)))
    case DiTest(_) => NoRole
    case DiRepost(_) => NoRole
    case DiCall(_) => NoRole
    case SnGot(_, x) => NoRole.(ctx := multiset{x})
    case SdTest(_, x) => NoRole.(ctx := multiset{x})
    case SdInc(_, x) => NoRole.(ctx := multiset{x})
    case SdPost(_, x) => NoRole.(ctx := multiset{x})
    case SdFail(_, x) => NoRole.(ctx := multiset{x})
    case SdOver(_, x) => NoRole.(ctx := multiset{x})
  }

  function IoRole(o: Io): (r: Role)
    ensures Sound(r)
  {
    if o.Taken? then NoRole else NoRole.(ctx := multiset{o.x})
  }

  // ---------------------------------------------------------------- totals

  /** The sum of f(0), ..., f(n - 1) without f(skip). */
  function Sum(f: nat -> Load, n: nat, skip: int): (r: Load) {
    if n == 0 then NoLoad
    else if n - 1 == skip then Sum(f, n - 1, skip)
    else Plus(Sum(f, n - 1, skip), f(n - 1))
  }

  function Join(f: nat -> Role, n: nat, skip: int): (r: Role) {
    if n == 0 then NoRole
    else if n - 1 == skip then Join(f, n - 1, skip)
    else And(Join(f, n - 1, skip), f(n - 1))
  }

  const NONE := -1

  function ThreadLoads(ts: seq<Pc>, c: ConnId): nat -> Load {
    (i: nat) => if i < |ts| then PcLoad(ts[i], c) else NoLoad
  }

  function IoLoads(os: seq<Io>, c: ConnId): nat -> Load {
    (i: nat) => if i < |os| then IoLoad(os[i], c) else NoLoad
  }

  function ThreadRoles(ts: seq<Pc>): nat -> Role {
    (i: nat) => if i < |ts| then PcRole(ts[i]) else NoRole
  }

  function IoRoles(os: seq<Io>): nat -> Role {
    (i: nat) => if i < |os| then IoRole(os[i]) else NoRole
  }

  function ThreadTotal(ts: seq<Pc>, c: ConnId): (l: Load) { Sum(ThreadLoads(ts, c), |ts|, NONE) }
  function IoTotal(os: seq<Io>, c: ConnId): (l: Load) { Sum(IoLoads(os, c), |os|, NONE) }
  function ThreadDuties(ts: seq<Pc>): (r: Role) { Join(ThreadRoles(ts), |ts|, NONE) }
  function IoDuties(os: seq<Io>): (r: Role) { Join(IoRoles(os), |os|, NONE) }

  /** Everything threads and operations hold of c. */
  function Total(s: State, c: ConnId): (l: Load) { Plus(ThreadTotal(s.threads, c), IoTotal(s.ops, c)) }

  /** Everything threads and operations hold of the acceptor and the pools. */
  function Duties(s: State): (r: Role) { And(ThreadDuties(s.threads), IoDuties(s.ops)) }

  lemma {:induction false} SumSane(f: nat -> Load, n: nat, skip: int)
    requires forall i: nat | i < n :: Sane(f(i))
    ensures Sane(Sum(f, n, skip))
  {
    if n > 0 { SumSane(f, n - 1, skip); }
  }

  lemma {:induction false} JoinSound(f: nat -> Role, n: nat, skip: int)
    requires forall i: nat | i < n :: Sound(f(i))
    ensures Sound(Join(f, n, skip))
  {
    if n > 0 { JoinSound(f, n - 1, skip); }
  }

  lemma {:induction false} SumSame(f: nat -> Load, g: nat -> Load, n: nat, skip: int)
    requires forall i: nat | i < n && i != skip :: f(i) == g(i)
    ensures Sum(f, n, skip) == Sum(g, n, skip)
  {
    if n > 0 { SumSame(f, g, n - 1, skip); }
  }

  lemma {:induction false} JoinSame(f: nat -> Role, g: nat -> Role, n: nat, skip: int)
    requires forall i: nat | i < n && i != skip :: f(i) == g(i)
    ensures Join(f, n, skip) == Join(g, n, skip)
  {
    if n > 0 { JoinSame(f, g, n - 1, skip); }
  }

  lemma {:induction false} SumPast(f: nat -> Load, n: nat, skip: int)
    requires skip >= n
    ensures Sum(f, n, skip) == Sum(f, n, NONE)
  {
    if n > 0 { SumPast(f, n - 1, skip); }
  }

  lemma {:induction false} JoinPast(f: nat -> Role, n: nat, skip: int)
    requires skip >= n
    ensures Join(f, n, skip) == Join(f, n, NONE)
  {
    if n > 0 { JoinPast(f, n - 1, skip); }
  }

  lemma PlusSwap(a: Load, b: Load)
    ensures Plus(a, b) == Plus(b, a)
  {
    assert a.data + b.data == b.data + a.data;
  }

  lemma PlusGroup(a: Load, b: Load, c: Load)
    ensures Plus(Plus(a, b), c) == Plus(a, Plus(b, c))
  {
    assert (a.data + b.data) + c.data == a.data + (b.data + c.data);
  }

  lemma AndSwap(a: Role, b: Role)
    ensures And(a, b) == And(b, a)
  {
    assert a.ctx + b.ctx == b.ctx + a.ctx;
  }

  lemma AndGroup(a: Role, b: Role, c: Role)
    ensures And(And(a, b), c) == And(a, And(b, c))
  {
    assert (a.ctx + b.ctx) + c.ctx == a.ctx + (b.ctx + c.ctx);
  }

  /** A sum is one entry plus the sum of the others. */
  lemma {:induction false} SumSplit(f: nat -> Load, n: nat, i: nat)
    requires i < n
    ensures Sum(f, n, NONE) == Plus(f(i), Sum(f, n, i))
  {
    hide Plus;
    if n - 1 == i {
      SumPast(f, i, i);
      PlusSwap(Sum(f, i, i), f(i));
    } else {
      SumSplit(f, n - 1, i);
      PlusGroup(f(i), Sum(f, n - 1, i), f(n - 1));
    }
  }

  lemma {:induction false} JoinSplit(f: nat -> Role, n: nat, i: nat)
    requires i < n
    ensures Join(f, n, NONE) == And(f(i), Join(f, n, i))
  {
    hide And;
    if n - 1 == i {
      JoinPast(f, i, i);
      AndSwap(Join(f, i, i), f(i));
    } else {
      JoinSplit(f, n - 1, i);
      AndGroup(f(i), Join(f, n - 1, i), f(n - 1));
    }
  }

  /** What all threads but t hold of c. */
  function OtherThreads(ts: seq<Pc>, t: nat, c: ConnId): (l: Load) { Sum(ThreadLoads(ts, c), |ts|, t) }
  function OtherIos(os: seq<Io>, i: nat, c: ConnId): (l: Load) { Sum(IoLoads(os, c), |os|, i) }
  function OtherThreadDuties(ts: seq<Pc>, t: nat): (r: Role) { Join(ThreadRoles(ts), |ts|, t) }
  function OtherIoDuties(os: seq<Io>, i: nat): (r: Role) { Join(IoRoles(os), |os|, i) }

  /** Moving thread t to p replaces its share of c's total, whatever the others hold. */
  lemma ThreadMove(ts: seq<Pc>, t: nat, p: Pc, c: ConnId)
    requires t < |ts|
    ensures var rest := OtherThreads(ts, t, c);
      && Sane(rest)
      && ThreadTotal(ts, c) == Plus(PcLoad(ts[t], c), rest)
      && ThreadTotal(ts[t := p], c) == Plus(PcLoad(p, c), rest)
  {
    var f, g := ThreadLoads(ts, c), ThreadLoads(ts[t := p], c);
    SumSplit(f, |ts|, t);
    SumSplit(g, |ts|, t);
    SumSame(f, g, |ts|, t);
    SumSane(f, |ts|, t);
  }

  lemma ThreadDutyMove(ts: seq<Pc>, t: nat, p: Pc)
    requires t < |ts|
    ensures var rest := OtherThreadDuties(ts, t);
      && Sound(rest)
      && ThreadDuties(ts) == And(PcRole(ts[t]), rest)
      && ThreadDuties(ts[t := p]) == And(PcRole(p), rest)
  {
    var f, g := ThreadRoles(ts), ThreadRoles(ts[t := p]);
    JoinSplit(f, |ts|, t);
    JoinSplit(g, |ts|, t);
    JoinSame(f, g, |ts|, t);
    JoinSound(f, |ts|, t);
  }

  lemma IoChange(os: seq<Io>, i: nat, o: Io, c: ConnId)
    requires i < |os|
    ensures var rest := OtherIos(os, i, c);
      && Sane(rest)
      && IoTotal(os, c) == Plus(IoLoad(os[i], c), rest)
      && IoTotal(os[i := o], c) == Plus(IoLoad(o, c), rest)
  {
    var f, g := IoLoads(os, c), IoLoads(os[i := o], c);
    SumSplit(f, |os|, i);
    SumSplit(g, |os|, i);
    SumSame(f, g, |os|, i);
    SumSane(f, |os|, i);
  }

  lemma IoDutyChange(os: seq<Io>, i: nat, o: Io)
    requires i < |os|
    ensures var rest := OtherIoDuties(os, i);
      && Sound(rest)
      && IoDuties(os) == And(IoRole(os[i]), rest)
      && IoDuties(os[i := o]) == And(IoRole(o), rest)
  {
    var f, g := IoRoles(os), IoRoles(os[i := o]);
    JoinSplit(f, |os|, i);
    JoinSplit(g, |os|, i);
    JoinSame(f, g, |os|, i);
    JoinSound(f, |os|, i);
  }

  lemma IoAdd(os: seq<Io>, o: Io, c: ConnId)
    ensures IoTotal(os + [o], c) == Plus(IoTotal(os, c), IoLoad(o, c))
    ensures IoDuties(os + [o]) == And(IoDuties(os), IoRole(o))
  {
    SumSame(IoLoads(os + [o], c), IoLoads(os, c), |os|, NONE);
    JoinSame(IoRoles(os + [o]), IoRoles(os), |os|, NONE);
  }

  lemma TotalsSane(s: State, c: ConnId)
    ensures Sane(ThreadTotal(s.threads, c)) && Sane(IoTotal(s.ops, c)) && Sane(Total(s, c))
    ensures Sound(ThreadDuties(s.threads)) && Sound(IoDuties(s.ops)) && Sound(Duties(s))
  {
    SumSane(ThreadLoads(s.threads, c), |s.threads|, NONE);
    SumSane(IoLoads(s.ops, c), |s.ops|, NONE);
    JoinSound(ThreadRoles(s.threads), |s.threads|, NONE);
    JoinSound(IoRoles(s.ops), |s.ops|, NONE);
  }

  /** Two threads together hold no more than all. */
  lemma TwoDuties(ts: seq<Pc>, t: nat, u: nat)
    requires t < |ts| && u < |ts| && t != u
    ensures ThreadDuties(ts).token >= PcRole(ts[t]).token + PcRole(ts[u]).token
    ensures ThreadDuties(ts).starter >= PcRole(ts[t]).starter + PcRole(ts[u]).starter
  {
    ThreadDutyMove(ts, t, Idle);
    ThreadDutyMove(ts[t := Idle], u, Idle);
  }

  lemma TwoLoads(ts: seq<Pc>, t: nat, u: nat, c: ConnId)
    requires t < |ts| && u < |ts| && t != u
    ensures ThreadTotal(ts, c).duty >= PcLoad(ts[t], c).duty + PcLoad(ts[u], c).duty
  {
    ThreadMove(ts, t, Idle, c);
    ThreadMove(ts[t := Idle], u, Idle, c);
  }

  lemma {:induction false} SumNone(f: nat -> Load, n: nat)
    requires forall i: nat | i < n :: f(i) == NoLoad
    ensures Sum(f, n, NONE) == NoLoad
  {
    if n > 0 { SumNone(f, n - 1); assert multiset{} + multiset{} == NoLoad.data; }
  }

  lemma {:induction false} JoinNone(f: nat -> Role, n: nat)
    requires forall i: nat | i < n :: f(i) == NoRole
    ensures Join(f, n, NONE) == NoRole
  {
    if n > 0 { JoinNone(f, n - 1); assert multiset{} + multiset{} == NoRole.ctx; }
  }
}
