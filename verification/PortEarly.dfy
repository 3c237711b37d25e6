/**
 * Why AsyncDisconnect must not win before the first receive reference: without that condition the upcall
 * protocol breaks, and with it the protocol holds in every run.
 */
module PortEarly {
  import opened Bytes
  import opened CompletionPort
  import opened PortInvariant
  import opened PortRuns
  import opened PortSafety

  /** Every handler is told of every connection in order. */
  ghost predicate InOrder(s: State) {
    forall c: ConnId :: !Scan(s.log, c).Broken?
  }

  const EARLY := Policy(true, false, false, true)

  /** OnConnection has been called, and then the application disconnects. */
  const CONNECTED := NOTHING.(causes := map[][0 := {}])
  const LEFT := CONNECTED.(causes := CONNECTED.causes[0 := {} + {Asked}])

  /** Two workers, one application thread, and no connection yet. */
  function Empty(app: Pc, running: bool): (s: State) {
    State(2, [Idle, Idle, app], [], [], running, 0, 0, 0, 0, [], [], [], multiset{}, 0, 0, map[], [], NOTHING)
  }

  /** The same with one connection. */
  function World(w0: Pc, w1: Pc, app: Pc, running: bool, cn: Conn, acc: (int, nat, nat), ops: seq<Io>, log: seq<Event>):
    (s: State)
  {
    State(2, [w0, w1, app], [cn], [], running, acc.0, 0, acc.1, acc.2, ops, [], [], multiset{},
          if ops == [] && !w0.RvInc? && !w0.RvPost? then 0 else 1, 0, map[], log,
              if log == [] then NOTHING else CONNECTED)
  }

  // The connection in each stage of the run, and what has been said of it.

  const TARGET := NewConn.(phase := Accepting)
  const BEGUN := NewConn.(phase := Starting)
  const UP := BEGUN.(connected := true)
  const CALLED := UP.(live := true)
  const BOUND := CALLED.(bound := true, client := Some(0), refmax := 256)
  const ENDED := BOUND.(connected := false, phase := Closing)
  const DOWN := ENDED.(phase := Phase.Down)
  const AGAIN := ENDED.(phase := Active, iorefs := 1)
  const PAYLOAD: Chunk := [7]
  const FED := AGAIN.(arrived := [PAYLOAD])
  const OPENED := [OnConnection(0)]
  const SHUT := [OnConnection(0), OnDisconnect(0)]
  const BROKEN := [OnConnection(0), OnDisconnect(0), OnData(0, PAYLOAD)]
  const RECEIVING := [Recv(0, In(0), false, [])]
  const RECEIVED := [Recv(0, In(0), true, PAYLOAD)]

  // Start posts the first AcceptEx.

  const S0 := Empty(Idle, false)
  const S1 := Empty(StWait, true)
  const S2 := Empty(PopFree(Starter), true)
  const S3 := World(Idle, Idle, RefAccept(Starter, 0), true, NewConn, (0, 0, 0), [], [])
  const S4 := World(Idle, Idle, PostAccept(Starter, 0), true, NewConn, (1, 0, 0), [], [])
  const S5 := World(Idle, Idle, Idle, true, TARGET, (1, 1, 0), [], [])

  // A worker takes the accept completion; no further connection can be created.

  const S6 := World(Idle, Idle, Idle, true, TARGET, (1, 0, 1), [], [])
  const S7 := World(PopFree(Branch(0)), Idle, Idle, true, BEGUN, (1, 0, 0), [], [])
  const S8 := World(AcUp(0), Idle, Idle, false, BEGUN, (1, 0, 0), [], [])
  const S9 := World(AcCall(0), Idle, Idle, false, UP, (1, 0, 0), [], [])
  const S10 := World(AcCtx(0), Idle, Idle, false, CALLED, (1, 0, 0), [], OPENED)

  // Before the first receive is counted the application disconnects, and wins.

  const S11 := World(AcCtx(0), Idle, Idle, false, BOUND, (1, 0, 0), [], OPENED)
  const S12 := World(AcCtx(0), Idle, DsCas(0, ToIdle), false, BOUND, (1, 0, 0), [], OPENED).(past := LEFT)
  const S13 := World(AcCtx(0), Idle, DsPost(0, ToIdle), false, ENDED, (1, 0, 0), [], OPENED).(past := LEFT)
  const S14 := World(AcCtx(0), Idle, Idle, false, ENDED.(discPending := 1), (1, 0, 0), [], OPENED).(past := LEFT)

  // The disconnect completion finds no reference and calls OnDisconnect.

  const S15 := World(AcCtx(0), Idle, Idle, false, ENDED.(discDone := 1), (1, 0, 0), [], OPENED).(past := LEFT)
  const S16 := World(AcCtx(0), DiTest(0), Idle, false, ENDED, (1, 0, 0), [], OPENED).(past := LEFT)
  const S17 := World(AcCtx(0), DiCall(0), Idle, false, ENDED.(phase := Drained), (1, 0, 0), [], OPENED).(past := LEFT)
  const S18 := World(AcCtx(0), Idle, Idle, false, DOWN, (1, 0, 0), [], SHUT).(past := LEFT)

  // The accept branch goes on and posts its receive, which delivers data.

  const S19 := World(RvInc(0, In(0), AfterAccept), Idle, Idle, false, DOWN, (1, 0, 0), [], SHUT).(past := LEFT)
  const S20 := World(RvPost(0, In(0), AfterAccept), Idle, Idle, false, AGAIN, (1, 0, 0), [], SHUT).(past := LEFT)
  const S21 := World(AcDec, Idle, Idle, false, AGAIN, (1, 0, 0), RECEIVING, SHUT).(past := LEFT)
  const S22 := World(AcDec, Idle, Idle, false, FED, (1, 0, 0), RECEIVED, SHUT).(past := LEFT)
  const S23 := World(AcDec, RvGot(0, In(0), PAYLOAD), Idle, false, FED, (1, 0, 0), [Taken], SHUT).(past := LEFT)
  const S24 := World(AcDec, RvInc(0, In(0), AfterRecv), Idle, false, FED.(given := [PAYLOAD]), (1, 0, 0), [Taken],
    BROKEN).(past := LEFT)

  lemma Trace0()
    ensures Reachable(S0, EARLY)
  {
    ReachInit(S0, EARLY);
  }

  lemma Trace1()
    ensures Reachable(S1, EARLY)
  {
    hide Reachable;
    Trace0();
    Do(EARLY, S0, AppStart(2), S1);
  }

  lemma Trace2()
    ensures Reachable(S2, EARLY)
  {
    hide Reachable;
    Trace1();
    Do(EARLY, S1, Go(2, true), S2);
  }

  lemma Trace3()
    ensures Reachable(S3, EARLY)
  {
    hide Reachable;
    Trace2();
    Do(EARLY, S2, Go(2, true), S3);
  }

  lemma Trace4()
    ensures Reachable(S4, EARLY)
  {
    hide Reachable;
    Trace3();
    Do(EARLY, S3, Go(2, true), S4);
  }

  lemma Trace5()
    ensures Reachable(S5, EARLY)
  {
    hide Reachable;
    Trace4();
    Do(EARLY, S4, Go(2, true), S5);
  }

  lemma Trace6()
    ensures Reachable(S6, EARLY)
  {
    hide Reachable;
    Trace5();
    Do(EARLY, S5, KernelAccept, S6);
  }

  lemma Trace7()
    ensures Reachable(S7, EARLY)
  {
    hide Reachable;
    Trace6();
    Do(EARLY, S6, TakeAccept(0), S7);
  }

  lemma Trace8()
    ensures Reachable(S8, EARLY)
  {
    hide Reachable;
    Trace7();
    Do(EARLY, S7, Go(0, false), S8);
  }

  lemma Trace9()
    ensures Reachable(S9, EARLY)
  {
    hide Reachable;
    Trace8();
    Do(EARLY, S8, Go(0, true), S9);
  }

  lemma Trace10()
    ensures Reachable(S10, EARLY)
  {
    hide Reachable;
    Trace9();
    Do(EARLY, S9, Go(0, true), S10);
  }

  lemma Trace11()
    ensures Reachable(S11, EARLY)
  {
    hide Reachable;
    Trace10();
    Do(EARLY, S10, AppBind(0, 0, 256), S11);
  }

  lemma Trace12()
    ensures Reachable(S12, EARLY)
  {
    hide Reachable;
    Trace11();
    Do(EARLY, S11, AppDisconnect(2, 0), S12);
  }

  lemma Trace13()
    ensures Reachable(S13, EARLY)
  {
    hide Reachable;
    Trace12();
    Do(EARLY, S12, Go(2, true), S13);
  }

  lemma Trace14()
    ensures Reachable(S14, EARLY)
  {
    hide Reachable;
    Trace13();
    Do(EARLY, S13, Go(2, true), S14);
  }

  lemma Trace15()
    ensures Reachable(S15, EARLY)
  {
    hide Reachable;
    Trace14();
    Do(EARLY, S14, KernelDisconnect(0), S15);
  }

  lemma Trace16()
    ensures Reachable(S16, EARLY)
  {
    hide Reachable;
    Trace15();
    Do(EARLY, S15, TakeDisconnect(1, 0), S16);
  }

  lemma Trace17()
    ensures Reachable(S17, EARLY)
  {
    hide Reachable;
    Trace16();
    Do(EARLY, S16, Go(1, true), S17);
  }

  lemma Trace18()
    ensures Reachable(S18, EARLY)
  {
    hide Reachable;
    Trace17();
    Do(EARLY, S17, Go(1, true), S18);
  }

  lemma Trace19()
    ensures Reachable(S19, EARLY)
  {
    hide Reachable;
    Trace18();
    Do(EARLY, S18, Go(0, true), S19);
  }

  lemma Trace20()
    ensures Reachable(S20, EARLY)
  {
    hide Reachable;
    Trace19();
    Do(EARLY, S19, Go(0, true), S20);
  }

  lemma Trace21()
    ensures Reachable(S21, EARLY)
  {
    hide Reachable;
    Trace20();
    Do(EARLY, S20, Go(0, true), S21);
  }

  lemma Trace22()
    ensures Reachable(S22, EARLY)
  {
    hide Reachable;
    Trace21();
    assert [] + [PAYLOAD] == [PAYLOAD];
    Do(EARLY, S21, KernelRecv(0, PAYLOAD), S22);
  }

  lemma Trace23()
    ensures Reachable(S23, EARLY)
  {
    hide Reachable;
    Trace22();
    Do(EARLY, S22, TakeIo(1, 0), S23);
  }

  lemma Trace24()
    ensures Reachable(S24, EARLY)
  {
    hide Reachable;
    Trace23();
    assert [] + [PAYLOAD] == [PAYLOAD];
    Do(EARLY, S23, Go(1, true), S24);
  }

  lemma TraceBreaks()
    ensures exists s: State :: Reachable(s, EARLY) && !InOrder(s)
  {
    hide Reachable;
    Trace24();
    ScanAdd([], OnConnection(0), 0);
    ScanAdd(OPENED, OnDisconnect(0), 0);
    ScanAdd(SHUT, OnData(0, PAYLOAD), 0);
    assert [] + OPENED == OPENED && OPENED + [OnDisconnect(0)] == SHUT && SHUT + [OnData(0, PAYLOAD)] == BROKEN;
    assert Scan(S24.log, 0).Broken?;
  }

  /**
   * The upcall protocol holds in every run exactly when AsyncDisconnect cannot win between the accept
   * completion and the accept branch's first receive reference.
   */
  lemma InOrderIff(early: bool)
    ensures (forall s: State | Reachable(s, Policy(early, false, false, true)) :: InOrder(s)) <==> !early
  {
    if early {
      TraceBreaks();
    } else {
      forall s: State | Reachable(s, ORDERLY) ensures InOrder(s) {
        forall c: ConnId ensures !Scan(s.log, c).Broken? { UpcallOrder(s, c); }
      }
    }
  }
}
