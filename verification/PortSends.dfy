/**
 * What becomes of the calls of AsyncSend: of each thread's calls, in order, every one is posted with its bytes, or
 * stopped at the limit, or refused by WSASend, and at most the last is still in the thread's hands. A posted buffer
 * is left alone until its completion has been taken.
 */
module PortSends {
  import opened Bytes
  import opened CompletionPort
  import opened PortLoad
  import opened PortInvariant
  import opened PortSafety

  /** The calls of thread t. */
  function Mine(sent: seq<Shipment>, t: nat): (mine: seq<Shipment>) {
    if sent == [] then []
    else
      var last := sent[|sent| - 1];
      Mine(sent[..|sent| - 1], t) + if last.t == t then [last] else []
  }

  /** The calls that have come to an end. */
  function Settled(outcomes: seq<Outcome>): (sent: seq<Shipment>)
    ensures |sent| == |outcomes| && forall k | 0 <= k < |sent| :: sent[k] == outcomes[k].ship
  {
    seq(|outcomes|, k requires 0 <= k < |outcomes| => outcomes[k].ship)
  }

  /** The connection and context of the send a thread has in hand, before WSASend or the limit decides. */
  function Hand(p: Pc): (h: Option<(ConnId, Ctx)>) {
    match p
    case SdTest(c, x) => Some((c, x))
    case SdInc(c, x) => Some((c, x))
    case SdPost(c, x) => Some((c, x))
    case _ => None
  }

  function InHand(s: State, t: nat): (sent: seq<Shipment>) {
    if t < |s.threads| && Hand(s.threads[t]).Some? then
      var h := Hand(s.threads[t]).value;
      [Shipment(t, h.0, BufOf(s, h.1))]
    else []
  }

  ghost predicate Paired(s: State, t: nat) {
    Mine(s.past.sent, t) == Mine(Settled(s.past.outcomes), t) + InHand(s, t)
  }

  /** A posted send is operation i, whose buffer holds the bytes until the completion is taken. */
  predicate Lasts(s: State, o: Outcome) {
    match o.fate
    case Posted(i) =>
      i < |s.ops|
      && (s.ops[i].Taken? || (s.ops[i].Send? && s.ops[i].c == o.ship.c && BufOf(s, s.ops[i].x) == o.ship.bytes))
    case Stopped(count, limit) => count > limit
    case Unsent => true
  }

  /** The operations are posted in the order of the outcomes. */
  predicate InTurn(outcomes: seq<Outcome>, n: nat) {
    && (forall k | 0 <= k < |outcomes| && outcomes[k].fate.Posted? :: outcomes[k].fate.i < n)
    && (forall k, l | 0 <= k < l < |outcomes| && outcomes[k].fate.Posted? && outcomes[l].fate.Posted? ::
          outcomes[k].fate.i < outcomes[l].fate.i)
  }

  /** Send operation i is the outcome of a call. */
  ghost predicate Called(s: State, i: nat) {
    exists k :: 0 <= k < |s.past.outcomes| && s.past.outcomes[k].fate == Posted(i)
  }

  ghost predicate Accounted(s: State) {
    && (forall t: nat :: Paired(s, t))
    && (forall k | 0 <= k < |s.past.outcomes| :: Lasts(s, s.past.outcomes[k]))
    && InTurn(s.past.outcomes, |s.ops|)
    && (forall i | 0 <= i < |s.ops| && s.ops[i].Send? :: Called(s, i))
  }

  lemma MineMore(sent: seq<Shipment>, ship: Shipment, t: nat)
    ensures Mine(sent + [ship], t) == Mine(sent, t) + if ship.t == t then [ship] else []
  {
    assert (sent + [ship])[..|sent|] == sent;
  }

  lemma SettledMore(outcomes: seq<Outcome>, o: Outcome)
    ensures Settled(outcomes + [o]) == Settled(outcomes) + [o.ship]
  {
  }

  // ---------------------------------------------------------------- steps that send nothing

  /** Operation o has become o': taken, or the same send or receive at another stage. */
  predicate Ages(o: Io, o': Io) {
    o'.Taken? || (o'.Send? && o.Send? && o'.c == o.c && o'.x == o.x) || (o'.Recv? && o.Recv?)
  }

  ghost predicate Ageing(s: State, s': State) {
    && |s.ops| <= |s'.ops| && s'.bufs == s.bufs
    && (forall i | 0 <= i < |s.ops| :: Ages(s.ops[i], s'.ops[i]))
    && (forall i | |s.ops| <= i < |s'.ops| :: !s'.ops[i].Send?)
  }

  /** No call is made or comes to an end. */
  ghost predicate Calm(s: State, s': State) {
    && Ageing(s, s') && s'.past.sent == s.past.sent && s'.past.outcomes == s.past.outcomes
    && forall t: nat :: InHand(s', t) == InHand(s, t)
  }

  lemma LastsOn(s: State, s': State, o: Outcome)
    requires Ageing(s, s') && Lasts(s, o)
    ensures Lasts(s', o)
  {
    hide BufOf;
    if o.fate.Posted? { assert Ages(s.ops[o.fate.i], s'.ops[o.fate.i]); }
    assert forall x :: BufOf(s', x) == BufOf(s, x) by { SameBufs(s, s'); }
  }

  lemma SameBufs(s: State, s': State)
    requires s'.bufs == s.bufs
    ensures forall x :: BufOf(s', x) == BufOf(s, x)
  {
  }

  lemma KeepCalm(s: State, s': State)
    requires Accounted(s) && Calm(s, s')
    ensures Accounted(s')
  {
    hide Mine, Settled, InHand, Lasts;
    forall t: nat ensures Paired(s', t) { assert Paired(s, t); }
    forall k | 0 <= k < |s'.past.outcomes| ensures Lasts(s', s'.past.outcomes[k]) {
      LastsOn(s, s', s.past.outcomes[k]);
    }
    forall i | 0 <= i < |s'.ops| && s'.ops[i].Send? ensures Called(s', i) {
      assert Ages(s.ops[i], s'.ops[i]);
      assert Called(s, i);
    }
  }

  /** A thread moves on without taking up a send or letting go of one. */
  lemma SameHands(s: State, s': State, t: nat, p: Pc)
    requires t < |s.threads| && s'.threads == s.threads[t := p] && s'.bufs == s.bufs && Hand(p) == Hand(s.threads[t])
    ensures forall u: nat :: InHand(s', u) == InHand(s, u)
  {
    hide Hand, BufOf;
    SameBufs(s, s');
  }

  // ---------------------------------------------------------------- calls

  /** The context a caller holds is with no thread and of no operation. */
  lemma HeldApart(s: State, x: Ctx)
    requires Inv(s) && x in s.held
    ensures forall u | 0 <= u < |s.threads| && Hand(s.threads[u]).Some? :: Hand(s.threads[u]).value.1 != x
    ensures forall i | 0 <= i < |s.ops| && !s.ops[i].Taken? :: s.ops[i].x != x
  {
    NobodyElse(s, x);
    forall u | 0 <= u < |s.threads| && Hand(s.threads[u]).Some? ensures Hand(s.threads[u]).value.1 != x {
      ThreadHas(s, u);
    }
    forall i | 0 <= i < |s.ops| && !s.ops[i].Taken? ensures s.ops[i].x != x {
      OperationHas(s, i);
    }
    hide Inv, Duties, PcRole, Hand;
  }

  lemma ThreadHas(s: State, u: nat)
    requires u < |s.threads| && Hand(s.threads[u]).Some?
    ensures Duties(s).ctx[Hand(s.threads[u]).value.1] >= 1
  {
    ThreadDutyMove(s.threads, u, s.threads[u]);
    assert PcRole(s.threads[u]).ctx[Hand(s.threads[u]).value.1] == 1;
    hide PcRole, Hand;
  }

  lemma OperationHas(s: State, i: nat)
    requires i < |s.ops| && !s.ops[i].Taken?
    ensures Duties(s).ctx[s.ops[i].x] >= 1
  {
    IoDutyChange(s.ops, i, s.ops[i]);
    assert IoRole(s.ops[i]).ctx[s.ops[i].x] == 1;
    hide IoRole;
  }

  lemma NobodyElse(s: State, x: Ctx)
    requires Inv(s) && x in s.held
    ensures Duties(s).ctx[x] == 0
  {
    hide Ids, Conns, AcceptOk, Talks, Duties, AllCtx;
    OnceAtMost(s.inCount, s.outCount, x);
    assert CtxPlaces(s) == AllCtx(s.inCount, s.outCount);
    assert CtxPlaces(s)[x] == Duties(s).ctx[x] + Pools(s)[x] && Pools(s)[x] >= s.held[x] >= 1;
  }

  lemma OnceAtMost(ins: nat, outs: nat, x: Ctx)
    ensures AllCtx(ins, outs)[x] <= 1
  {
    var a, b := set n: nat | n < ins :: In(n), set n: nat | n < outs :: Out(n);
    assert multiset(a)[x] <= 1 && multiset(b)[x] <= 1;
    assert x.In? ==> x !in b;
    assert x.Out? ==> x !in a;
  }

  lemma Entered(s: State, t: nat, x: Ctx, c: ConnId, bytes: Chunk)
    requires t < |s.threads|
    ensures var s' := DoAppSend(s, t, x, c, bytes);
      && s'.threads == s.threads[t := SdTest(c, x)] && s'.ops == s.ops
      && s'.past.sent == s.past.sent + [Shipment(t, c, bytes)] && s'.past.outcomes == s.past.outcomes
      && BufOf(s', x) == bytes && forall y | y != x :: BufOf(s', y) == BufOf(s, y)
  {
  }

  lemma HandsApart(s: State, s': State, t: nat, x: Ctx, c: ConnId, bytes: Chunk)
    requires t < |s.threads| && s.threads[t] == Idle && s'.threads == s.threads[t := SdTest(c, x)]
    requires BufOf(s', x) == bytes && forall y | y != x :: BufOf(s', y) == BufOf(s, y)
    requires forall u | 0 <= u < |s.threads| && Hand(s.threads[u]).Some? :: Hand(s.threads[u]).value.1 != x
    ensures InHand(s, t) == [] && InHand(s', t) == [Shipment(t, c, bytes)]
    ensures forall u: nat | u != t :: InHand(s', u) == InHand(s, u)
  {
    assert Hand(Idle) == None && Hand(SdTest(c, x)) == Some((c, x));
    hide BufOf, Hand;
  }

  /** AsyncSend is called with bytes that nobody else has in hand, or posted. */
  lemma KeepCalled(s: State, t: nat, x: Ctx, c: ConnId, bytes: Chunk)
    requires Inv(s) && Accounted(s) && t < |s.threads| && s.threads[t] == Idle && x in s.held
    ensures Accounted(DoAppSend(s, t, x, c, bytes))
  {
    hide Inv, Mine, Settled, Lasts, BufOf, Hand, InHand, DoAppSend;
    var s', ship := DoAppSend(s, t, x, c, bytes), Shipment(t, c, bytes);
    HeldApart(s, x);
    Entered(s, t, x, c, bytes);
    HandsApart(s, s', t, x, c, bytes);
    forall u: nat ensures Paired(s', u) {
      assert Paired(s, u);
      MineMore(s.past.sent, ship, u);
    }
    forall k | 0 <= k < |s'.past.outcomes| ensures Lasts(s', s'.past.outcomes[k]) {
      LastsApart(s, s', x, s.past.outcomes[k]);
    }
    forall i | 0 <= i < |s'.ops| && s'.ops[i].Send? ensures Called(s', i) { assert Called(s, i); }
  }

  lemma LastsApart(s: State, s': State, x: Ctx, o: Outcome)
    requires Lasts(s, o) && s'.ops == s.ops && forall y | y != x :: BufOf(s', y) == BufOf(s, y)
    requires forall i | 0 <= i < |s.ops| && !s.ops[i].Taken? :: s.ops[i].x != x
    ensures Lasts(s', o)
  {
    hide BufOf;
  }

  // ---------------------------------------------------------------- ends of calls

  /** The call in thread t's hands comes to an end. */
  lemma KeepSettled(s: State, s': State, t: nat, p: Pc, fate: Fate)
    requires Accounted(s) && t < |s.threads| && Hand(s.threads[t]).Some? && Hand(p).None?
    requires s'.threads == s.threads[t := p] && s'.bufs == s.bufs && s'.past.sent == s.past.sent
    requires var h := Hand(s.threads[t]).value;
      var o := Outcome(Shipment(t, h.0, BufOf(s, h.1)), fate);
      && s'.past.outcomes == s.past.outcomes + [o] && Lasts(s', o)
      && s'.ops == s.ops + (if fate.Posted? then [Send(h.0, h.1, false)] else [])
          && (fate.Posted? ==> fate.i == |s.ops|)
    ensures Accounted(s')
  {
    hide Mine, Settled, Lasts, BufOf, Hand;
    var o := s'.past.outcomes[|s.past.outcomes|];
    SameBufs(s, s');
    SettledMore(s.past.outcomes, o);
    forall u: nat ensures Paired(s', u) {
      assert Paired(s, u);
      MineMore(Settled(s.past.outcomes), o.ship, u);
    }
    LastsMore(s, s', o);
    forall i | 0 <= i < |s'.ops| && s'.ops[i].Send? ensures Called(s', i) {
      if i < |s.ops| {
        assert Called(s, i);
        var k :| 0 <= k < |s.past.outcomes| && s.past.outcomes[k].fate == Posted(i);
        assert s'.past.outcomes[k].fate == Posted(i);
      } else {
        assert s'.past.outcomes[|s.past.outcomes|].fate == Posted(i);
      }
    }
  }

  lemma LastsMore(s: State, s': State, o: Outcome)
    requires Accounted(s) && s'.bufs == s.bufs && s.ops <= s'.ops
    requires s'.past.outcomes == s.past.outcomes + [o] && Lasts(s', o)
    ensures forall k | 0 <= k < |s'.past.outcomes| :: Lasts(s', s'.past.outcomes[k])
  {
    hide BufOf;
    SameBufs(s, s');
    forall k | 0 <= k < |s'.past.outcomes| ensures Lasts(s', s'.past.outcomes[k]) {
      if k < |s.past.outcomes| { assert Lasts(s, s.past.outcomes[k]); }
    }
  }

  lemma KeepStopped(s: State, t: nat, c: ConnId, x: Ctx)
    requires Accounted(s) && t < |s.threads| && s.threads[t] == SdTest(c, x) && c < |s.conns|
    requires s.conns[c].iorefs > s.conns[c].refmax
    ensures Accounted(GoSdTest(s, t, c, x))
  {
    hide CausesOf, Accounted, BufOf;
    var s', cn := GoSdTest(s, t, c, x), s.conns[c];
    SameBufs(s, Blame(s, c, Crowded(cn.iorefs, cn.refmax)));
    KeepSettled(s, s', t, SdOver(c, x), Stopped(cn.iorefs, cn.refmax));
  }

  lemma KeepPosted(s: State, t: nat, c: ConnId, x: Ctx)
    requires Accounted(s) && t < |s.threads| && s.threads[t] == SdPost(c, x)
    ensures Accounted(GoSdPost(s, t, c, x, true))
  {
    hide CausesOf, Accounted;
    KeepSettled(s, GoSdPost(s, t, c, x, true), t, Idle, Posted(|s.ops|));
  }

  lemma KeepUnsent(s: State, t: nat, c: ConnId, x: Ctx)
    requires Accounted(s) && t < |s.threads| && s.threads[t] == SdPost(c, x)
    ensures Accounted(GoSdPost(s, t, c, x, false))
  {
    hide CausesOf, Accounted, BufOf;
    SameBufs(s, Blame(s, c, SendFailed));
    KeepSettled(s, GoSdPost(s, t, c, x, false), t, SdFail(c, x), Unsent);
  }

  // ---------------------------------------------------------------- all other steps

  /** Thread t moves on; at most a receive is posted. */
  ghost predicate Quietly(s: State, s': State, t: nat, p: Pc) {
    && t < |s.threads| && s'.threads == s.threads[t := p] && s'.bufs == s.bufs && Hand(p) == Hand(s.threads[t])
    && s'.past.sent == s.past.sent && s'.past.outcomes == s.past.outcomes
    && (s'.ops == s.ops || (s'.ops != [] && s'.ops[|s'.ops| - 1].Recv? && s'.ops[..|s'.ops| - 1] == s.ops))
  }

  lemma KeepQuiet(s: State, s': State, t: nat, p: Pc)
    requires Accounted(s) && Quietly(s, s', t, p)
    ensures Accounted(s')
  {
    hide Accounted, InHand, Hand;
    SameHands(s, s', t, p);
    forall i | 0 <= i < |s.ops| ensures Ages(s.ops[i], s'.ops[i]) {
      if s'.ops != s.ops { assert s'.ops[..|s'.ops| - 1][i] == s'.ops[i]; }
    }
    hide Ages;
    KeepCalm(s, s');
  }

  lemma StartsQuietly(s: State, t: nat, ok: bool) returns (p: Pc)
    requires CanGo(s, t) && (s.threads[t].Idle? || s.threads[t].StWait? || s.threads[t].AcDec?)
    ensures Quietly(s, Advance(s, t, ok), t, p)
  {
    hide CausesOf;
    p := Advance(s, t, ok).threads[t];
  }

  lemma PopsQuietly(s: State, t: nat, ok: bool) returns (p: Pc)
    requires CanGo(s, t) && s.threads[t].PopFree?
    ensures Quietly(s, Advance(s, t, ok), t, p)
  {
    hide CausesOf;
    p := Advance(s, t, ok).threads[t];
  }

  lemma ListensQuietly(s: State, t: nat, ok: bool) returns (p: Pc)
    requires CanGo(s, t) && (s.threads[t].RefAccept? || s.threads[t].PostAccept?)
    ensures Quietly(s, Advance(s, t, ok), t, p)
  {
    hide CausesOf;
    p := Advance(s, t, ok).threads[t];
  }

  lemma AcceptsQuietly(s: State, t: nat, ok: bool) returns (p: Pc)
    requires CanGo(s, t) && (s.threads[t].AcUp? || s.threads[t].AcCall?)
    ensures Quietly(s, Advance(s, t, ok), t, p)
  {
    hide CausesOf;
    p := Advance(s, t, ok).threads[t];
  }

  lemma ContextQuietly(s: State, t: nat, ok: bool) returns (p: Pc)
    requires CanGo(s, t) && s.threads[t].AcCtx?
    ensures Quietly(s, Advance(s, t, ok), t, p)
  {
    hide CausesOf;
    p := Advance(s, t, ok).threads[t];
  }

  lemma GotQuietly(s: State, t: nat, ok: bool) returns (p: Pc)
    requires CanGo(s, t) && s.threads[t].RvGot?
    ensures Quietly(s, Advance(s, t, ok), t, p)
  {
    hide CausesOf;
    p := Advance(s, t, ok).threads[t];
  }

  lemma CountsQuietly(s: State, t: nat, ok: bool) returns (p: Pc)
    requires CanGo(s, t) && (s.threads[t].RvInc? || s.threads[t].RvFail?)
    ensures Quietly(s, Advance(s, t, ok), t, p)
  {
    hide CausesOf;
    p := Advance(s, t, ok).threads[t];
  }

  lemma ReceivesQuietly(s: State, t: nat, ok: bool) returns (p: Pc)
    requires CanGo(s, t) && s.threads[t].RvPost?
    ensures Quietly(s, Advance(s, t, ok), t, p)
  {
    hide CausesOf;
    p := Advance(s, t, ok).threads[t];
  }

  lemma LeavesQuietly(s: State, t: nat, ok: bool) returns (p: Pc)
    requires CanGo(s, t) && (s.threads[t].DsCas? || s.threads[t].DsPost?)
    ensures Quietly(s, Advance(s, t, ok), t, p)
  {
    hide CausesOf;
    p := Advance(s, t, ok).threads[t];
  }

  lemma ReleasesQuietly(s: State, t: nat, ok: bool) returns (p: Pc)
    requires CanGo(s, t) && s.threads[t].CnDec?
    ensures Quietly(s, Advance(s, t, ok), t, p)
  {
    hide CausesOf;
    p := Advance(s, t, ok).threads[t];
  }

  lemma ClosesQuietly(s: State, t: nat, ok: bool) returns (p: Pc)
    requires CanGo(s, t) && (s.threads[t].DiTest? || s.threads[t].DiRepost? || s.threads[t].DiCall?)
    ensures Quietly(s, Advance(s, t, ok), t, p)
  {
    hide CausesOf;
    p := Advance(s, t, ok).threads[t];
  }

  lemma SendsQuietly(s: State, t: nat, ok: bool) returns (p: Pc)
    requires CanGo(s, t) && (s.threads[t].SnGot? || s.threads[t].SdInc? || s.threads[t].SdFail? || s.threads[t].SdOver?)
    ensures Quietly(s, Advance(s, t, ok), t, p)
  {
    hide CausesOf;
    p := Advance(s, t, ok).threads[t];
  }

  lemma PassesQuietly(s: State, t: nat, ok: bool) returns (p: Pc)
    requires CanGo(s, t) && s.threads[t].SdTest? && s.conns[s.threads[t].c].iorefs <= s.conns[s.threads[t].c].refmax
    ensures Quietly(s, Advance(s, t, ok), t, p)
  {
    hide CausesOf;
    p := Advance(s, t, ok).threads[t];
  }

  lemma GoQuietly(s: State, t: nat, ok: bool) returns (p: Pc)
    requires CanGo(s, t) && !s.threads[t].SdPost?
    requires s.threads[t].SdTest? ==> s.conns[s.threads[t].c].iorefs <= s.conns[s.threads[t].c].refmax
    ensures Quietly(s, Advance(s, t, ok), t, p)
  {
    var q := s.threads[t];
    hide Advance, CanGo, Quietly;
    if q.Idle? || q.StWait? || q.AcDec? {
      p := StartsQuietly(s, t, ok);
    } else if q.PopFree? {
      p := PopsQuietly(s, t, ok);
    } else if q.RefAccept? || q.PostAccept? {
      p := ListensQuietly(s, t, ok);
    } else if q.AcUp? || q.AcCall? {
      p := AcceptsQuietly(s, t, ok);
    } else if q.AcCtx? {
      p := ContextQuietly(s, t, ok);
    } else if q.RvGot? {
      p := GotQuietly(s, t, ok);
    } else if q.RvInc? || q.RvFail? {
      p := CountsQuietly(s, t, ok);
    } else if q.RvPost? {
      p := ReceivesQuietly(s, t, ok);
    } else if q.DsCas? || q.DsPost? {
      p := LeavesQuietly(s, t, ok);
    } else if q.CnDec? {
      p := ReleasesQuietly(s, t, ok);
    } else if q.DiTest? || q.DiRepost? || q.DiCall? {
      p := ClosesQuietly(s, t, ok);
    } else if q.SdTest? {
      p := PassesQuietly(s, t, ok);
    } else {
      p := SendsQuietly(s, t, ok);
    }
  }

  lemma KeepDecided(s: State, t: nat, ok: bool)
    requires Accounted(s) && CanGo(s, t) && s.threads[t].SdPost?
    ensures Accounted(Advance(s, t, ok))
  {
    hide Accounted, GoSdPost;
    var q := s.threads[t];
    if ok { KeepPosted(s, t, q.c, q.x); } else { KeepUnsent(s, t, q.c, q.x); }
  }

  lemma KeepOver(s: State, t: nat, ok: bool)
    requires Accounted(s) && CanGo(s, t) && s.threads[t].SdTest?
    requires s.conns[s.threads[t].c].iorefs > s.conns[s.threads[t].c].refmax
    ensures Accounted(Advance(s, t, ok))
  {
    hide Accounted, GoSdTest;
    KeepStopped(s, t, s.threads[t].c, s.threads[t].x);
  }

  lemma KeepGo(s: State, t: nat, ok: bool)
    requires Accounted(s) && CanGo(s, t)
    ensures Accounted(Advance(s, t, ok))
  {
    var q := s.threads[t];
    assert q.SdTest? ==> q.c < |s.conns|;
    hide Accounted, Quietly, Advance, CanGo;
    if q.SdPost? {
      KeepDecided(s, t, ok);
    } else if q.SdTest? && s.conns[q.c].iorefs > s.conns[q.c].refmax {
      KeepOver(s, t, ok);
    } else {
      var p := GoQuietly(s, t, ok);
      KeepQuiet(s, Advance(s, t, ok), t, p);
    }
  }

  lemma TakenCalm(s: State, a: Step)
    requires Enabled(s, a, ORDERLY) && (a.TakeAccept? || a.TakeIo? || a.TakeDisconnect?)
    ensures Calm(s, Apply(s, a, ORDERLY))
  {
    var s' := Apply(s, a, ORDERLY);
    SameHands(s, s', a.t, s'.threads[a.t]);
    hide InHand, BufOf;
  }

  lemma StillCalm(s: State, s': State)
    requires s'.threads == s.threads && s'.bufs == s.bufs && s'.past == s.past && |s'.ops| == |s.ops|
    requires forall i | 0 <= i < |s.ops| :: Ages(s.ops[i], s'.ops[i])
    ensures Calm(s, s')
  {
    SameBufs(s, s');
    hide BufOf, Hand, Ages;
  }

  lemma KernelCalm(s: State, a: Step)
    requires Enabled(s, a, ORDERLY)
    requires a.KernelAccept? || a.KernelRecv? || a.KernelSend? || a.KernelDisconnect?
    ensures Calm(s, Apply(s, a, ORDERLY))
  {
    hide Calm;
    StillCalm(s, Apply(s, a, ORDERLY));
  }

  lemma AppCalm(s: State, a: Step)
    requires Enabled(s, a, ORDERLY) && (a.AppBind? || a.AppPop? || a.AppPush? || a.AppStop?)
    ensures Calm(s, Apply(s, a, ORDERLY))
  {
    hide Calm;
    StillCalm(s, Apply(s, a, ORDERLY));
  }

  lemma CloseCalm(s: State, a: Step)
    requires Enabled(s, a, ORDERLY) && a.AppClose?
    ensures Calm(s, Apply(s, a, ORDERLY))
  {
    hide Calm;
    StillCalm(s, Apply(s, a, ORDERLY));
  }

  lemma EnteredCalm(s: State, a: Step)
    requires Enabled(s, a, ORDERLY) && (a.AppDisconnect? || a.AppStart?)
    ensures Calm(s, Apply(s, a, ORDERLY))
  {
    hide CausesOf;
    var s' := Apply(s, a, ORDERLY);
    SameHands(s, s', a.t, s'.threads[a.t]);
    hide InHand, BufOf;
  }

  lemma KeepAccounted(s: State, a: Step)
    requires Inv(s) && Accounted(s) && Enabled(s, a, ORDERLY)
    ensures Accounted(Apply(s, a, ORDERLY))
  {
    hide Inv, Accounted, Calm;
    if a.Go? {
      hide Advance;
      KeepGo(s, a.t, a.ok);
    } else if a.AppSend? {
      hide DoAppSend;
      KeepCalled(s, a.t, a.x, a.c, a.bytes);
    } else {
      hide Apply, Enabled;
      if a.TakeAccept? || a.TakeIo? || a.TakeDisconnect? {
        TakenCalm(s, a);
      } else if a.AppDisconnect? || a.AppStart? {
        EnteredCalm(s, a);
      } else if a.AppClose? {
        CloseCalm(s, a);
      } else if a.AppBind? || a.AppPop? || a.AppPush? || a.AppStop? {
        AppCalm(s, a);
      } else {
        KernelCalm(s, a);
      }
      KeepCalm(s, Apply(s, a, ORDERLY));
    }
  }

  lemma NextAccounted(s: State, s': State)
    requires Inv(s) && Accounted(s) && Next(s, s', ORDERLY)
    ensures Accounted(s')
  {
    hide Inv, Accounted, Enabled, Apply;
    var a :| Enabled(s, a, ORDERLY) && s' == Apply(s, a, ORDERLY);
    KeepAccounted(s, a);
  }

  lemma {:induction false} RunAccounted(states: seq<State>, n: nat)
    requires Run(states, ORDERLY) && n < |states|
    ensures Accounted(states[n])
  {
    hide Inv, Next;
    if n == 0 {
      assert Accounted(states[0]);
    } else {
      hide Accounted, Init;
      RunAccounted(states, n - 1);
      RunInv(states, n - 1);
      assert Next(states[n - 1], states[n - 1 + 1], ORDERLY);
      NextAccounted(states[n - 1], states[n]);
    }
  }

  lemma AccountedReachable(s: State)
    requires Reachable(s, ORDERLY)
    ensures Accounted(s)
  {
    hide Accounted;
    var states :| Run(states, ORDERLY) && states[|states| - 1] == s;
    RunAccounted(states, |states| - 1);
  }

  // ---------------------------------------------------------------- what holds throughout

  /**
   * The calls of AsyncSend that a thread has made have come to their ends in the order it made them, but for the one
   * it is in, if any; and only a send that found more references than the limit was stopped.
   */
  lemma SendsAnswered(s: State, t: nat)
    requires Reachable(s, ORDERLY)
    ensures Mine(s.past.sent, t) == Mine(Settled(s.past.outcomes), t) + InHand(s, t)
    ensures forall k | 0 <= k < |s.past.outcomes| && s.past.outcomes[k].fate.Stopped? ::
      s.past.outcomes[k].fate.count > s.past.outcomes[k].fate.limit
  {
    AccountedReachable(s);
    assert Paired(s, t);
    hide Mine, Settled, InHand, InTurn;
    forall k | 0 <= k < |s.past.outcomes| && s.past.outcomes[k].fate.Stopped?
      ensures s.past.outcomes[k].fate.count > s.past.outcomes[k].fate.limit
    {
      assert Lasts(s, s.past.outcomes[k]);
    }
  }

  /**
   * What WSASend gets is what the caller passed, on the caller's connection, and its buffer is not touched while the
   * operation is outstanding; every send operation there is was called for, and none twice.
   */
  lemma BuffersLast(s: State, i: nat)
    requires Reachable(s, ORDERLY) && i < |s.ops| && s.ops[i].Send?
    ensures exists k ::
      && 0 <= k < |s.past.outcomes| && s.past.outcomes[k].fate == Posted(i)
      && s.past.outcomes[k].ship.c == s.ops[i].c && s.past.outcomes[k].ship.bytes == BufOf(s, s.ops[i].x)
    ensures forall k, l | 0 <= k < l < |s.past.outcomes| :: s.past.outcomes[k].fate.Posted? ==>
      s.past.outcomes[l].fate != s.past.outcomes[k].fate
  {
    AccountedReachable(s);
    assert Called(s, i);
    hide Mine, Settled, InHand, BufOf;
    var k :| 0 <= k < |s.past.outcomes| && s.past.outcomes[k].fate == Posted(i);
    assert Lasts(s, s.past.outcomes[k]);
  }
}
