/**
 * Why Close must not be called while a thread is inside AsyncSend: the thread has passed the limit check, and takes
 * its reference on a connection that is already back on the free list.
 */
module PortHasty {
  import opened Bytes
  import opened CompletionPort
  import opened PortRuns
  import opened PortSafety

  const HASTY := Policy(false, false, true, true)

  /** Nothing is outstanding for any connection on the free list. */
  predicate FreeIsQuiet(s: State) {
    forall i | 0 <= i < |s.ops| && !s.ops[i].Taken? :: s.ops[i].c !in s.free
  }

  /** OnConnection has been called, a send without bytes entered, and its connection closed by the peer. */
  const CONNECTED := NOTHING.(causes := map[][0 := {}])
  const SENT := CONNECTED.(sent := [Shipment(1, 0, [])])
  const GONE := SENT.(causes := SENT.causes[0 := {} + {PeerClosed}])
  const SETTLED := GONE.(outcomes := [Outcome(Shipment(1, 0, []), Posted(1))])
  const BUFS: map<Ctx, Chunk> := map[][Out(0) := []]

  /** One worker, one application thread, and no connection yet. */
  function Empty(app: Pc, running: bool): (s: State) {
    State(1, [Idle, app], [], [], running, 0, 0, 0, 0, [], [], [], multiset{}, 0, 0, map[], [], NOTHING)
  }

  /** The same with one connection, while the acceptor starts up. */
  function Early(w: Pc, app: Pc, running: bool, cn: Conn, acc: (int, nat, nat), log: seq<Event>): (s: State) {
    State(1, [w, app], [cn], [], running, acc.0, 0, acc.1, acc.2, [], [], [], multiset{},
          if w.RvInc? || w.RvPost? then 1 else 0, 0, map[], log, if log == [] then NOTHING else CONNECTED)
  }

  /** And once the receive is posted: the input pool, and the output context if the application holds it. */
  function World(w: Pc, app: Pc, cn: Conn, free: seq<ConnId>, ops: seq<Io>, pool: seq<Ctx>, held: multiset<Ctx>,
                 log: seq<Event>): (s: State)
  {
    State(1, [w, app], [cn], free, false, 0, 0, 0, 0, ops, pool, [], held, 1,
          if held == multiset{} && app == Idle && |ops| < 2 then 0 else 1, map[], log, CONNECTED)
  }

  // The connection in each stage of the run, and what has been said of it.

  const TARGET := NewConn.(phase := Accepting)
  const BEGUN := NewConn.(phase := Starting)
  const UP := BEGUN.(connected := true)
  const CALLED := UP.(live := true)
  const BOUND := CALLED.(bound := true, client := Some(0), refmax := 256)
  const ACTIVE := BOUND.(phase := Active, iorefs := 1)
  const CHECKED := ACTIVE.(checked := 256)
  const CLOSING := CHECKED.(connected := false, phase := Closing)
  const COUNTED := CLOSING.(iorefs := 0)
  const DOWN := COUNTED.(phase := Down)
  const FREED := DOWN.(bound := false, live := false, phase := Free)
  const OPENED := [OnConnection(0)]
  const SHUT := [OnConnection(0), OnDisconnect(0)]
  const WAITING := [Recv(0, In(0), false, [])]
  const EMPTIED := [Recv(0, In(0), true, [])]
  const NONE: multiset<Ctx> := multiset{}

  // Start posts the first AcceptEx, and a worker takes its completion.

  const S0 := Empty(Idle, false)
  const S1 := Empty(StWait, true)
  const S2 := Empty(PopFree(Starter), true)
  const S3 := Early(Idle, RefAccept(Starter, 0), true, NewConn, (0, 0, 0), [])
  const S4 := Early(Idle, PostAccept(Starter, 0), true, NewConn, (1, 0, 0), [])
  const S5 := Early(Idle, Idle, true, TARGET, (1, 1, 0), [])
  const S6 := Early(Idle, Idle, true, TARGET, (1, 0, 1), [])
  const S7 := Early(PopFree(Branch(0)), Idle, true, BEGUN, (1, 0, 0), [])
  const S8 := Early(AcUp(0), Idle, false, BEGUN, (1, 0, 0), [])
  const S9 := Early(AcCall(0), Idle, false, UP, (1, 0, 0), [])
  const S10 := Early(AcCtx(0), Idle, false, CALLED, (1, 0, 0), OPENED)
  const S11 := Early(AcCtx(0), Idle, false, BOUND, (1, 0, 0), OPENED)
  const S12 := Early(RvInc(0, In(0), AfterAccept), Idle, false, BOUND, (1, 0, 0), OPENED)
  const S13 := Early(RvPost(0, In(0), AfterAccept), Idle, false, ACTIVE, (1, 0, 0), OPENED)
  const S14 := World(AcDec, Idle, ACTIVE, [], WAITING, [], NONE, OPENED).(accRefs := 1)
  const S15 := World(Idle, Idle, ACTIVE, [], WAITING, [], NONE, OPENED)

  // A send passes the limit check.

  const S16 := World(Idle, Idle, ACTIVE, [], WAITING, [], multiset{Out(0)}, OPENED)
  const S17 := World(Idle, SdTest(0, Out(0)), ACTIVE, [], WAITING, [], NONE, OPENED).(bufs := BUFS, past := SENT)
  const S18 := World(Idle, SdInc(0, Out(0)), CHECKED, [], WAITING, [], NONE, OPENED).(bufs := BUFS, past := SENT)

  // The peer closes: an empty read, a disconnect, and nothing is counted any more.

  const S19 := World(Idle, SdInc(0, Out(0)), CHECKED, [], EMPTIED, [], NONE, OPENED).(bufs := BUFS, past := SENT)
  const S20 := World(RvGot(0, In(0), []), SdInc(0, Out(0)), CHECKED, [], [Taken], [], NONE, OPENED).(bufs := BUFS,
    past := SENT)
  const S21 := World(DsCas(0, ToDebt(RecvRef)), SdInc(0, Out(0)), CHECKED, [], [Taken], [In(0)], NONE,
    OPENED).(bufs := BUFS, past := GONE)
  const S22 := World(DsPost(0, ToDebt(RecvRef)), SdInc(0, Out(0)), CLOSING, [], [Taken], [In(0)], NONE,
    OPENED).(bufs := BUFS, past := GONE)
  const S23 := World(CnDec(0, RecvRef), SdInc(0, Out(0)), CLOSING.(discPending := 1), [], [Taken], [In(0)], NONE,
    OPENED).(bufs := BUFS, past := GONE)
  const S24 := World(Idle, SdInc(0, Out(0)), COUNTED.(discPending := 1), [], [Taken], [In(0)], NONE,
    OPENED).(bufs := BUFS, past := GONE)
  const S25 := World(Idle, SdInc(0, Out(0)), COUNTED.(discDone := 1), [], [Taken], [In(0)], NONE,
    OPENED).(bufs := BUFS, past := GONE)
  const S26 := World(DiTest(0), SdInc(0, Out(0)), COUNTED, [], [Taken], [In(0)], NONE, OPENED).(bufs := BUFS,
    past := GONE)
  const S27 := World(DiCall(0), SdInc(0, Out(0)), COUNTED.(phase := Drained), [], [Taken], [In(0)], NONE,
    OPENED).(bufs := BUFS, past := GONE)
  const S28 := World(Idle, SdInc(0, Out(0)), DOWN, [], [Taken], [In(0)], NONE, SHUT).(bufs := BUFS, past := GONE)

  // Close puts the connection on the free list, and the send goes on.

  const S29 := World(Idle, SdInc(0, Out(0)), FREED, [0], [Taken], [In(0)], NONE, SHUT).(bufs := BUFS, past := GONE)
  const S30 := World(Idle, SdPost(0, Out(0)), FREED.(iorefs := 1), [0], [Taken], [In(0)], NONE, SHUT).(bufs := BUFS,
    past := GONE)
  const S31 := World(Idle, Idle, FREED.(iorefs := 1), [0], [Taken, Send(0, Out(0), false)], [In(0)], NONE,
    SHUT).(bufs := BUFS, past := SETTLED)

  lemma Trace0()
    ensures Reachable(S0, HASTY)
  {
    ReachInit(S0, HASTY);
  }

  lemma Trace1()
    ensures Reachable(S1, HASTY)
  {
    hide Reachable;
    Trace0();
    Do(HASTY, S0, AppStart(1), S1);
  }

  lemma Trace2()
    ensures Reachable(S2, HASTY)
  {
    hide Reachable;
    Trace1();
    Do(HASTY, S1, Go(1, true), S2);
  }

  lemma Trace3()
    ensures Reachable(S3, HASTY)
  {
    hide Reachable;
    Trace2();
    Do(HASTY, S2, Go(1, true), S3);
  }

  lemma Trace4()
    ensures Reachable(S4, HASTY)
  {
    hide Reachable;
    Trace3();
    Do(HASTY, S3, Go(1, true), S4);
  }

  lemma Trace5()
    ensures Reachable(S5, HASTY)
  {
    hide Reachable;
    Trace4();
    Do(HASTY, S4, Go(1, true), S5);
  }

  lemma Trace6()
    ensures Reachable(S6, HASTY)
  {
    hide Reachable;
    Trace5();
    Do(HASTY, S5, KernelAccept, S6);
  }

  lemma Trace7()
    ensures Reachable(S7, HASTY)
  {
    hide Reachable;
    Trace6();
    Do(HASTY, S6, TakeAccept(0), S7);
  }

  lemma Trace8()
    ensures Reachable(S8, HASTY)
  {
    hide Reachable;
    Trace7();
    Do(HASTY, S7, Go(0, false), S8);
  }

  lemma Trace9()
    ensures Reachable(S9, HASTY)
  {
    hide Reachable;
    Trace8();
    Do(HASTY, S8, Go(0, true), S9);
  }

  lemma Trace10()
    ensures Reachable(S10, HASTY)
  {
    hide Reachable;
    Trace9();
    Do(HASTY, S9, Go(0, true), S10);
  }

  lemma Trace11()
    ensures Reachable(S11, HASTY)
  {
    hide Reachable;
    Trace10();
    Do(HASTY, S10, AppBind(0, 0, 256), S11);
  }

  lemma Trace12()
    ensures Reachable(S12, HASTY)
  {
    hide Reachable;
    Trace11();
    Do(HASTY, S11, Go(0, true), S12);
  }

  lemma Trace13()
    ensures Reachable(S13, HASTY)
  {
    hide Reachable;
    Trace12();
    Do(HASTY, S12, Go(0, true), S13);
  }

  lemma Trace14()
    ensures Reachable(S14, HASTY)
  {
    hide Reachable;
    Trace13();
    Do(HASTY, S13, Go(0, true), S14);
  }

  lemma Trace15()
    ensures Reachable(S15, HASTY)
  {
    hide Reachable;
    Trace14();
    Do(HASTY, S14, Go(0, true), S15);
  }

  lemma Trace16()
    ensures Reachable(S16, HASTY)
  {
    hide Reachable;
    Trace15();
    assert S15.held + multiset{Out(0)} == S16.held;
    Do(HASTY, S15, AppPop, S16);
  }

  lemma Trace17()
    ensures Reachable(S17, HASTY)
  {
    hide Reachable;
    Trace16();
    assert S16.held - multiset{Out(0)} == S17.held;
    Do(HASTY, S16, AppSend(1, Out(0), 0, []), S17);
  }

  lemma Trace18()
    ensures Reachable(S18, HASTY)
  {
    hide Reachable;
    Trace17();
    Do(HASTY, S17, Go(1, true), S18);
  }

  lemma Trace19()
    ensures Reachable(S19, HASTY)
  {
    hide Reachable;
    Trace18();
    Do(HASTY, S18, KernelRecv(0, []), S19);
  }

  lemma Trace20()
    ensures Reachable(S20, HASTY)
  {
    hide Reachable;
    Trace19();
    assert S19.ops[0 := Taken] == [Taken];
    Do(HASTY, S19, TakeIo(0, 0), S20);
  }

  lemma Trace21()
    ensures Reachable(S21, HASTY)
  {
    hide Reachable;
    Trace20();
    Do(HASTY, S20, Go(0, true), S21);
  }

  lemma Trace22()
    ensures Reachable(S22, HASTY)
  {
    hide Reachable;
    Trace21();
    Do(HASTY, S21, Go(0, true), S22);
  }

  lemma Trace23()
    ensures Reachable(S23, HASTY)
  {
    hide Reachable;
    Trace22();
    Do(HASTY, S22, Go(0, true), S23);
  }

  lemma Trace24()
    ensures Reachable(S24, HASTY)
  {
    hide Reachable;
    Trace23();
    Do(HASTY, S23, Go(0, true), S24);
  }

  lemma Trace25()
    ensures Reachable(S25, HASTY)
  {
    hide Reachable;
    Trace24();
    Do(HASTY, S24, KernelDisconnect(0), S25);
  }

  lemma Trace26()
    ensures Reachable(S26, HASTY)
  {
    hide Reachable;
    Trace25();
    Do(HASTY, S25, TakeDisconnect(0, 0), S26);
  }

  lemma Trace27()
    ensures Reachable(S27, HASTY)
  {
    hide Reachable;
    Trace26();
    Do(HASTY, S26, Go(0, true), S27);
  }

  lemma Trace28()
    ensures Reachable(S28, HASTY)
  {
    hide Reachable;
    Trace27();
    Do(HASTY, S27, Go(0, true), S28);
  }

  lemma Trace29()
    ensures Reachable(S29, HASTY)
  {
    hide Reachable;
    Trace28();
    Do(HASTY, S28, AppClose(0), S29);
  }

  lemma Trace30()
    ensures Reachable(S30, HASTY)
  {
    hide Reachable;
    Trace29();
    Do(HASTY, S29, Go(1, true), S30);
  }

  lemma Trace31()
    ensures Reachable(S31, HASTY)
  {
    hide Reachable;
    Trace30();
    Do(HASTY, S30, Go(1, true), S31);
  }

  /**
   * In all reachable states nothing is outstanding for a connection on the free list, exactly when Close is never
   * called while a thread is inside AsyncSend on the connection.
   */
  lemma FreeIsQuietIff(hasty: bool)
    ensures (forall s: State | Reachable(s, Policy(false, false, hasty, true)) :: FreeIsQuiet(s)) <==> !hasty
  {
    if hasty {
      Trace31();
      hide Reachable;
      assert S31.ops[1].c in S31.free;
    } else {
      forall s: State | Reachable(s, ORDERLY) ensures FreeIsQuiet(s) {
        OrderlyIsQuiet(s);
      }
    }
  }

  lemma OrderlyIsQuiet(s: State)
    requires Reachable(s, ORDERLY)
    ensures FreeIsQuiet(s)
  {
    forall i | 0 <= i < |s.ops| && !s.ops[i].Taken? ensures s.ops[i].c !in s.free {
      OperationInUse(s, i);
    }
    hide Reachable;
  }
}
