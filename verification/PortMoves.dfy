/** Steps of the kernel, of EasyAcceptor and of the application keep the invariant, as do posts and dequeues. */
module PortMoves {
  import opened Bytes
  import opened CompletionPort
  import opened PortLoad
  import opened PortInvariant
  import opened PortBranches

  // ---------------------------------------------------------------- posting a receive or a send

  lemma MovePosting(s: State, s': State, t: nat, p: Pc, o: Io, c: ConnId)
    requires t < |s.threads| && s'.threads == s.threads[t := p] && s'.ops == s.ops + [o]
    ensures Sane(Rest(s, t, c))
    ensures Total(s, c) == Plus(PcLoad(s.threads[t], c), Rest(s, t, c))
    ensures Total(s', c) == Plus(Plus(PcLoad(p, c), IoLoad(o, c)), Rest(s, t, c))
  {
    hide PcLoad, IoLoad, Sane;
    ThreadMove(s.threads, t, p, c);
    Move(s, s.(threads := s'.threads), t, p, c);
    IoAdd(s.ops, o, c);
    Rearrange(PcLoad(p, c), OtherThreads(s.threads, t, c), IoTotal(s.ops, c), IoLoad(o, c));
  }

  lemma Rearrange(a: Load, b: Load, c: Load, d: Load)
    ensures Plus(Plus(a, b), Plus(c, d)) == Plus(Plus(a, d), Plus(b, c))
  {
    assert (a.data + b.data) + (c.data + d.data) == (a.data + d.data) + (b.data + c.data);
  }

  lemma RearrangeRoles(a: Role, b: Role, c: Role, d: Role)
    ensures And(And(a, b), And(c, d)) == And(And(a, d), And(b, c))
  {
    assert (a.ctx + b.ctx) + (c.ctx + d.ctx) == (a.ctx + d.ctx) + (b.ctx + c.ctx);
  }

  lemma PostingDuties(s: State, s': State, t: nat, p: Pc, o: Io)
    requires t < |s.threads| && s'.threads == s.threads[t := p] && s'.ops == s.ops + [o]
    requires And(PcRole(p), IoRole(o)) == PcRole(s.threads[t])
    ensures Duties(s') == Duties(s)
  {
    hide PcRole, IoRole, Sound;
    ThreadDutyMove(s.threads, t, p);
    IoAdd(s.ops, o, 0);
    RearrangeRoles(PcRole(p), OtherThreadDuties(s.threads, t), IoDuties(s.ops), IoRole(o));
    AndAssociates(PcRole(s.threads[t]), OtherThreadDuties(s.threads, t), IoDuties(s.ops));
  }

  /** Posting an operation hands the thread's context and reference to it. */
  lemma KeepPosting(s: State, s': State, t: nat, p: Pc, o: Io, c: ConnId)
    requires Inv(s) && t < |s.threads| && c < |s.conns|
    requires s' == s.(threads := s.threads[t := p], ops := s.ops + [o], past := s'.past)
    requires And(PcRole(p), IoRole(o)) == PcRole(s.threads[t])
    requires PcIds(p, |s.conns|) && PcKind(p) && Claims(p, s.ctxConn) && IoIds(o, |s.conns|) && IoKind(o)
    requires WorksOn(p, c) && WorksOn(s.threads[t], c) && !o.Taken? && o.c == c
    requires ConnOk(s.conns[c], Plus(Plus(OwnLoad(p), IoLoad(o, c)), Rest(s, t, c)), multiset(s.free)[c],
        IsTarget(s, c))
    ensures Inv(s')
  {
    hide PcRole, IoRole, AllCtx, PcLoad, OwnLoad, Scan, Plus, ConnOk;
    PostingDuties(s, s', t, p, o);
    hide Duties;
    forall d: ConnId | d < |s'.conns| ensures ConnAt(s', d) {
      assert ConnAt(s, d);
      MovePosting(s, s', t, p, o, d);
      if d == c {
        OwnHere(p, c);
      } else {
        NothingElsewhere(p, c, d);
        NothingElsewhere(s.threads[t], c, d);
        assert Plus(NoLoad, NoLoad) == NoLoad by { NoneAdded(); }
      }
    }
    KeepTalks(s, s', c);
    assert AcceptOk(s') && Contexts(s') && Ids(s') by { PostingRest(s, s', t, p, o); }
  }

  lemma NoneAdded()
    ensures Plus(NoLoad, NoLoad) == NoLoad
  {
    assert multiset{} + multiset{} == NoLoad.data;
  }

  lemma PostingRest(s: State, s': State, t: nat, p: Pc, o: Io)
    requires Inv(s) && t < |s.threads|
    requires s' == s.(threads := s.threads[t := p], ops := s.ops + [o], past := s'.past)
    requires PcIds(p, |s.conns|) && PcKind(p) && Claims(p, s.ctxConn) && IoIds(o, |s.conns|) && IoKind(o)
    requires Duties(s') == Duties(s)
    ensures AcceptOk(s') && Contexts(s') && Ids(s')
  {
    hide Duties, AllCtx, Conns, Talks;
  }

  lemma RvPostOk(cn: Conn, c: ConnId, x: Ctx, after: After, r: Load, f: nat, g: bool)
    requires Sane(r) && ConnOk(cn, Plus(OwnLoad(RvPost(c, x, after)), r), f, g)
    ensures ConnOk(cn, Plus(Plus(OwnLoad(if after.AfterAccept? then AcDec else CnDec(c, RecvRef)),
                                 IoLoad(Recv(c, x, false, []), c)), r), f, g)
  {
    hide OwnLoad, ConnOk, Plus, IoLoad;
    var d := Plus(OwnLoad(if after.AfterAccept? then AcDec else CnDec(c, RecvRef)), IoLoad(Recv(c, x, false, []), c));
    RvPostLoads(c, x, after);
    AnyWorkerOk(cn, OwnLoad(RvPost(c, x, after)), d.worker, r, f, g);
  }

  /** The posted receive carries what the thread held, but for its being a worker. */
  lemma RvPostLoads(c: ConnId, x: Ctx, after: After)
    ensures var d := Plus(OwnLoad(if after.AfterAccept? then AcDec else CnDec(c, RecvRef)),
        IoLoad(Recv(c, x, false, []), c));
      d == OwnLoad(RvPost(c, x, after)).(worker := d.worker)
  {
    hide OwnLoad, IoLoad, Sane;
    PendingLoad(c, x);
    PostingLoad(c, x, after);
    PostedLoad(c, after);
    PlusNoData(OwnLoad(if after.AfterAccept? then AcDec else CnDec(c, RecvRef)), IoLoad(Recv(c, x, false, []), c));
  }

  lemma PendingLoad(c: ConnId, x: Ctx)
    ensures IoLoad(Recv(c, x, false, []), c) == NoLoad.(refs := 1, duty := 1)
  {
  }

  lemma PostingLoad(c: ConnId, x: Ctx, after: After)
    ensures OwnLoad(RvPost(c, x, after)) == NoLoad.(refs := if after.AfterAccept? then 1 else 2, duty := 1, worker := 1)
  {
  }

  lemma PostedLoad(c: ConnId, after: After)
    ensures OwnLoad(if after.AfterAccept? then AcDec else CnDec(c, RecvRef))
         == if after.AfterAccept? then NoLoad else NoLoad.(refs := 1, worker := 1)
  {
  }

  lemma PlusNoData(a: Load, b: Load)
    requires a.data == NoLoad.data == b.data
    ensures Plus(a, b).data == NoLoad.data
  {
    assert multiset{} + multiset{} == NoLoad.data;
  }

  lemma RvPostRoles(c: ConnId, x: Ctx, after: After)
    ensures And(PcRole(if after.AfterAccept? then AcDec else CnDec(c, RecvRef)), IoRole(Recv(c, x, false, [])))
         == PcRole(RvPost(c, x, after))
  {
    assert PcRole(if after.AfterAccept? then AcDec else CnDec(c, RecvRef)) == NoRole.(aref := AfterAref(after));
    assert IoRole(Recv(c, x, false, [])) == NoRole.(ctx := multiset{x});
    assert PcRole(RvPost(c, x, after)) == NoRole.(aref := AfterAref(after), ctx := multiset{x});
    hide PcRole, IoRole;
    assert multiset{} + multiset{x} == multiset{x};
  }

  lemma KeepRvPost(s: State, t: nat)
    requires Inv(s) && t < |s.threads| && s.threads[t].RvPost?
    ensures var q := s.threads[t]; Inv(GoRvPost(s, t, q.c, q.x, q.after, true))
  {
    hide ConnOk, Conns, AcceptOk, Contexts, Talks, Plus, Rest, Sane, Scan, PcLoad, OwnLoad, PcRole, IoRole, IoLoad;
    Stand(s, t);
    var q := s.threads[t];
    var s' := GoRvPost(s, t, q.c, q.x, q.after, true);
    Focus(s, t, q.c);
    RvPostOk(s.conns[q.c], q.c, q.x, q.after, Rest(s, t, q.c), multiset(s.free)[q.c], IsTarget(s, q.c));
    RvPostRoles(q.c, q.x, q.after);
    KeepPosting(s, s', t, s'.threads[t], Recv(q.c, q.x, false, []), q.c);
  }

  lemma LessBusyOk(cn: Conn, d: Load, r: Load, f: nat, g: bool)
    requires ConnOk(cn, Plus(d, r), f, g) && d.busy >= 0
    ensures ConnOk(cn, Plus(d.(busy := 0), r), f, g)
  {
    hide Payloads;
  }

  lemma SdPostOk(cn: Conn, c: ConnId, x: Ctx, r: Load, f: nat, g: bool)
    requires Sane(r) && ConnOk(cn, Plus(OwnLoad(SdPost(c, x)), r), f, g)
    ensures ConnOk(cn, Plus(Plus(OwnLoad(Idle), IoLoad(Send(c, x, false), c)), r), f, g)
  {
    hide OwnLoad, IoLoad, ConnOk, Plus;
    SdPostLoads(c, x);
    LessBusyOk(cn, OwnLoad(SdPost(c, x)), r, f, g);
  }

  lemma SdPostLoads(c: ConnId, x: Ctx)
    ensures Plus(OwnLoad(Idle), IoLoad(Send(c, x, false), c)) == OwnLoad(SdPost(c, x)).(busy := 0)
    ensures OwnLoad(SdPost(c, x)).busy >= 0
  {
    var a, b := OwnLoad(Idle), IoLoad(Send(c, x, false), c);
    assert a == NoLoad && b == NoLoad.(refs := 1, sends := 1);
    PlusNoData(a, b);
    assert OwnLoad(SdPost(c, x)) == NoLoad.(refs := 1, sends := 1, busy := 1);
    hide OwnLoad, IoLoad;
  }

  lemma SdPostRoles(c: ConnId, x: Ctx)
    ensures And(PcRole(Idle), IoRole(Send(c, x, false))) == PcRole(SdPost(c, x))
  {
    assert multiset{} + multiset{x} == multiset{x};
  }

  lemma KeepSdPost(s: State, t: nat)
    requires Inv(s) && t < |s.threads| && s.threads[t].SdPost?
    ensures var q := s.threads[t]; Inv(GoSdPost(s, t, q.c, q.x, true))
  {
    hide ConnOk, Conns, AcceptOk, Contexts, Talks, Plus, Rest, Sane, Scan, PcLoad, OwnLoad, PcRole, IoRole, IoLoad;
    Stand(s, t);
    var q := s.threads[t];
    var s' := GoSdPost(s, t, q.c, q.x, true);
    Focus(s, t, q.c);
    SdPostOk(s.conns[q.c], q.c, q.x, Rest(s, t, q.c), multiset(s.free)[q.c], IsTarget(s, q.c));
    SdPostRoles(q.c, q.x);
    KeepPosting(s, s', t, Idle, Send(q.c, q.x, false), q.c);
  }

  // ---------------------------------------------------------------- completions of receives and sends

  /** What everyone but operation i holds of c. */
  function IoRest(s: State, i: nat, c: ConnId): (l: Load) {
    Plus(ThreadTotal(s.threads, c), OtherIos(s.ops, i, c))
  }

  lemma SanePlus(a: Load, b: Load)
    requires Sane(a) && Sane(b)
    ensures Sane(Plus(a, b))
  {
  }

  lemma IoMove(s: State, s': State, i: nat, o: Io, c: ConnId)
    requires i < |s.ops| && s'.ops == s.ops[i := o] && s'.threads == s.threads
    ensures Sane(IoRest(s, i, c))
    ensures Total(s, c) == Plus(IoLoad(s.ops[i], c), IoRest(s, i, c))
    ensures Total(s', c) == Plus(IoLoad(o, c), IoRest(s, i, c))
  {
    hide IoLoad, Plus, Sane, ThreadTotal, OtherIos, IoTotal;
    IoChange(s.ops, i, o, c);
    TotalsSane(s, c);
    SanePlus(ThreadTotal(s.threads, c), OtherIos(s.ops, i, c));
    Middle(ThreadTotal(s.threads, c), IoLoad(s.ops[i], c), OtherIos(s.ops, i, c));
    Middle(ThreadTotal(s.threads, c), IoLoad(o, c), OtherIos(s.ops, i, c));
  }

  lemma Middle(a: Load, b: Load, c: Load)
    ensures Plus(a, Plus(b, c)) == Plus(b, Plus(a, c))
  {
    assert a.data + (b.data + c.data) == b.data + (a.data + c.data);
  }

  lemma MiddleRoles(a: Role, b: Role, c: Role)
    ensures And(a, And(b, c)) == And(b, And(a, c))
  {
    assert a.ctx + (b.ctx + c.ctx) == b.ctx + (a.ctx + c.ctx);
  }

  lemma IoKeepsDuties(s: State, s': State, i: nat, o: Io)
    requires i < |s.ops| && s'.ops == s.ops[i := o] && s'.threads == s.threads && IoRole(o) == IoRole(s.ops[i])
    ensures Duties(s') == Duties(s)
  {
    hide IoRole, PcRole;
    IoDutyChange(s.ops, i, o);
  }

  /** An operation changes its status without changing hands. */
  lemma KeepIo(s: State, s': State, i: nat, o: Io)
    requires Inv(s) && i < |s.ops| && !o.Taken? && !s.ops[i].Taken? && o.c == s.ops[i].c
    requires IoRole(o) == IoRole(s.ops[i]) && IoKind(o) == IoKind(s.ops[i])
    requires s' == s.(ops := s.ops[i := o], conns := s'.conns)
    requires OnlyConn(s, s', o.c) && TalkOf(s', o.c) == TalkOf(s, o.c)
    requires ConnOk(s'.conns[o.c], Plus(IoLoad(o, o.c), IoRest(s, i, o.c)), multiset(s.free)[o.c], IsTarget(s, o.c))
    ensures Inv(s')
  {
    hide ConnOk, Plus, IoRole, Scan, AllCtx;
    IoKeepsDuties(s, s', i, o);
    hide Duties;
    forall d: ConnId | d < |s'.conns| ensures ConnAt(s', d) {
      assert ConnAt(s, d);
      IoMove(s, s', i, o, d);
    }
    hide IoLoad, IoRest, Total, Conns, TalkOf;
    KeepTalks(s, s', o.c);
    hide Talks;
    IoMoveRest(s, s', i, o);
  }

  lemma IoMoveRest(s: State, s': State, i: nat, o: Io)
    requires Ids(s) && AcceptOk(s) && Contexts(s) && i < |s.ops| && !o.Taken?
    requires o.c < |s.conns| == |s'.conns| && IoKind(o)
    requires s' == s.(ops := s.ops[i := o], conns := s'.conns)
    requires Duties(s') == Duties(s)
    ensures Ids(s') && AcceptOk(s') && Contexts(s')
  {
    hide Duties, AllCtx;
  }

  lemma ArriveOk(cn: Conn, c: ConnId, x: Ctx, data: Chunk, r: Load, f: nat, g: bool)
    requires Sane(r) && ConnOk(cn, Plus(IoLoad(Recv(c, x, false, []), c), r), f, g)
    ensures var cn' := if data == [] then cn else cn.(arrived := cn.arrived + [data]);
      ConnOk(cn', Plus(IoLoad(Recv(c, x, true, data), c), r), f, g)
  {
    assert r.data == multiset{};
    if data != [] {
      assert |multiset(cn.arrived[|cn.given|..])| == |cn.arrived[|cn.given|..]|;
      assert (cn.arrived + [data])[|cn.given|..] == [data];
    }
  }

  lemma UndoneHasNoData(c: ConnId, x: Ctx, data: Chunk)
    ensures IoLoad(Recv(c, x, false, data), c) == IoLoad(Recv(c, x, false, []), c)
  {
  }

  lemma IoFocus(s: State, i: nat)
    requires Inv(s) && i < |s.ops| && !s.ops[i].Taken?
    ensures s.ops[i].c < |s.conns|
    ensures var c := s.ops[i].c;
      Sane(IoRest(s, i, c)) && ConnOk(s.conns[c], Plus(IoLoad(s.ops[i], c), IoRest(s, i, c)), multiset(s.free)[c],
        IsTarget(s, c))
  {
    var c := s.ops[i].c;
    IoMove(s, s.(ops := s.ops[i := s.ops[i]]), i, s.ops[i], c);
    assert ConnAt(s, c);
  }

  lemma KeepKernelRecv(s: State, i: nat, data: Chunk)
    requires Inv(s) && i < |s.ops| && s.ops[i].Recv? && !s.ops[i].done
    ensures Inv(DoKernelRecv(s, i, data))
  {
    hide Inv, ConnOk, Plus, IoRest, Sane, IoLoad, DoKernelRecv;
    var Recv(c, x, _, before) := s.ops[i];
    IoFocus(s, i);
    Arrived(s, i, data);
    hide TalkOf;
    UndoneHasNoData(c, x, before);
    ArriveOk(s.conns[c], c, x, data, IoRest(s, i, c), multiset(s.free)[c], IsTarget(s, c));
    KeepIo(s, DoKernelRecv(s, i, data), i, Recv(c, x, true, data));
  }

  /** What a completing receive changes. */
  lemma Arrived(s: State, i: nat, data: Chunk)
    requires i < |s.ops| && s.ops[i].Recv? && s.ops[i].c < |s.conns|
    ensures var s', c := DoKernelRecv(s, i, data), s.ops[i].c;
      && s' == s.(ops := s.ops[i := Recv(c, s.ops[i].x, true, data)], conns := s'.conns)
      && OnlyConn(s, s', c) && TalkOf(s', c) == TalkOf(s, c)
      && s'.conns[c] == (if data == [] then s.conns[c] else s.conns[c].(arrived := s.conns[c].arrived + [data]))
  {
  }

  lemma KeepKernelSend(s: State, i: nat)
    requires Inv(s) && i < |s.ops| && s.ops[i].Send?
    ensures Inv(s.(ops := s.ops[i := s.ops[i].(done := true)]))
  {
    var Send(c, x, _) := s.ops[i];
    hide ConnOk, Conns, Ids, AcceptOk, Contexts, Talks, Plus, IoRest, Sane, Scan;
    IoFocus(s, i);
    KeepIo(s, s.(ops := s.ops[i := Send(c, x, true)]), i, Send(c, x, true));
  }

  // ---------------------------------------------------------------- dequeuing them

  /** What everyone but thread t and operation i holds of c. */
  function PairRest(s: State, t: nat, i: nat, c: ConnId): (l: Load) {
    Plus(OtherThreads(s.threads, t, c), OtherIos(s.ops, i, c))
  }

  lemma TakeMove(s: State, s': State, t: nat, p: Pc, i: nat, c: ConnId)
    requires t < |s.threads| && s.threads[t] == Idle && s'.threads == s.threads[t := p]
    requires i < |s.ops| && s'.ops == s.ops[i := Taken]
    ensures Sane(PairRest(s, t, i, c))
    ensures Total(s, c) == Plus(IoLoad(s.ops[i], c), PairRest(s, t, i, c))
    ensures Total(s', c) == Plus(PcLoad(p, c), PairRest(s, t, i, c))
  {
    hide PcLoad, IoLoad, Plus, Sane, OtherThreads, OtherIos, ThreadTotal, IoTotal;
    var a, b := OtherThreads(s.threads, t, c), OtherIos(s.ops, i, c);
    ThreadMove(s.threads, t, p, c);
    IoChange(s.ops, i, Taken, c);
    NoShare(c);
    NoneFirst(a);
    NoneFirst(b);
    SanePlus(a, b);
    Middle(a, IoLoad(s.ops[i], c), b);
    PlusAssociates(PcLoad(p, c), a, b);
  }

  lemma NoShare(c: ConnId)
    ensures PcLoad(Idle, c) == NoLoad && IoLoad(Taken, c) == NoLoad
  {
  }

  lemma NoneFirst(a: Load)
    ensures Plus(NoLoad, a) == a
  {
    assert multiset{} + a.data == a.data;
  }

  lemma NoRoleFirst(a: Role)
    ensures And(NoRole, a) == a
  {
    assert multiset{} + a.ctx == a.ctx;
  }

  lemma TakeDuties(s: State, s': State, t: nat, p: Pc, i: nat)
    requires t < |s.threads| && s.threads[t] == Idle && s'.threads == s.threads[t := p]
    requires i < |s.ops| && s'.ops == s.ops[i := Taken] && PcRole(p) == IoRole(s.ops[i])
    ensures Duties(s') == Duties(s)
  {
    var a, b := OtherThreadDuties(s.threads, t), OtherIoDuties(s.ops, i);
    ThreadDutyMove(s.threads, t, p);
    IoDutyChange(s.ops, i, Taken);
    assert PcRole(Idle) == NoRole && IoRole(Taken) == NoRole;
    hide PcRole, IoRole;
    NoRoleFirst(a);
    NoRoleFirst(b);
    MiddleRoles(a, IoRole(s.ops[i]), b);
    AndAssociates(PcRole(p), a, b);
  }

  function TakenPc(o: Io): (p: Pc)
    requires !o.Taken?
  {
    match o
    case Recv(c, x, _, data) => RvGot(c, x, data)
    case Send(c, x, _) => SnGot(c, x)
  }

  lemma TakenLoad(o: Io, c: ConnId)
    requires !o.Taken? && o.done
    ensures PcLoad(TakenPc(o), c) == IoLoad(o, c).(worker := PcLoad(TakenPc(o), c).worker)
    ensures PcRole(TakenPc(o)) == IoRole(o)
  {
    hide PcLoad, IoLoad, PcRole, IoRole;
    match o
    case Recv(d, x, _, data) => TakenRecv(d, x, data, c);
    case Send(d, x, _) => TakenSend(d, x, c);
  }

  lemma TakenRecv(d: ConnId, x: Ctx, data: Chunk, c: ConnId)
    ensures var p, o := RvGot(d, x, data), Recv(d, x, true, data);
      PcLoad(p, c) == IoLoad(o, c).(worker := PcLoad(p, c).worker) && PcRole(p) == IoRole(o)
  {
  }

  lemma TakenSend(d: ConnId, x: Ctx, c: ConnId)
    ensures var p, o := SnGot(d, x), Send(d, x, true);
      PcLoad(p, c) == IoLoad(o, c).(worker := PcLoad(p, c).worker) && PcRole(p) == IoRole(o)
  {
  }

  lemma KeepTakeIo(s: State, t: nat, i: nat)
    requires Inv(s) && t < |s.threads| && s.threads[t] == Idle && i < |s.ops| && !s.ops[i].Taken? && s.ops[i].done
    ensures Inv(DoTakeIo(s, t, i))
  {
    var o := s.ops[i];
    var p := TakenPc(o);
    var s' := DoTakeIo(s, t, i);
    assert s' == s.(threads := s.threads[t := p], ops := s.ops[i := Taken]);
    hide ConnOk, Plus, AllCtx, PcLoad, IoLoad, PcRole, IoRole, DoTakeIo;
    TakenLoad(o, o.c);
    TakeDuties(s, s', t, p, i);
    forall c: ConnId | c < |s'.conns| ensures ConnAt(s', c) {
      assert ConnAt(s, c);
      TakenLoad(o, c);
      TakeMove(s, s', t, p, i, c);
      AnyWorkerOk(s.conns[c], IoLoad(o, c), PcLoad(p, c).worker, PairRest(s, t, i, c), multiset(s.free)[c],
        IsTarget(s, c));
    }
    hide Conns, Duties;
    KeepTakeRest(s, s', t, i);
  }

  lemma KeepTakeRest(s: State, s': State, t: nat, i: nat)
    requires Ids(s) && AcceptOk(s) && Contexts(s) && Talks(s)
    requires t < |s.threads| && i < |s.ops| && !s.ops[i].Taken?
    requires s' == s.(threads := s.threads[t := TakenPc(s.ops[i])], ops := s.ops[i := Taken])
    requires Duties(s') == Duties(s)
    ensures Ids(s') && AcceptOk(s') && Contexts(s') && Talks(s')
  {
    hide Duties, AllCtx, Scan;
  }
}
