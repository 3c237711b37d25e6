/**
 * Why Close should not be called while a thread is about to make AsyncDisconnect's compare-and-swap: the connection
 * may be recycled before the thread goes on, and the thread then disconnects the connection's next peer.
 */
module PortLate {
  import opened Bytes
  import opened CompletionPort
  import opened PortRuns
  import opened PortCauses

  /** Three workers and an application thread. */
  function World(threads: seq<Pc>, conns: seq<Conn>, free: seq<ConnId>, running: bool, acc: (int, ConnId, nat, nat),
                 ins: nat, log: seq<Event>, past: History): (s: State)
  {
    State(3, threads, conns, free, running, acc.0, acc.1, acc.2, acc.3, [], [], [], multiset{}, ins, 0, map[], log,
          past)
  }

  // The first connection in each stage of the run, what has been said of it, and why it should be disconnected.

  const TARGET := NewConn.(phase := Accepting)
  const BEGUN := NewConn.(phase := Starting)
  const UP := BEGUN.(connected := true)
  const TURNED := UP.(live := true, phase := Active)
  const BOUND := TURNED.(bound := true, client := Some(0), refmax := 256)
  const CLOSING := BOUND.(connected := false, phase := Closing)
  const FREED := CLOSING.(bound := false, live := false, phase := Free)
  const REUSED := FREED.(client := None, phase := Claimed)
  const AGAIN := REUSED.(phase := Starting)
  const NEXT := AGAIN.(connected := true, live := true)
  const READ := NEXT.(phase := Active, iorefs := 1)
  const OPENED := [OnConnection(0)]
  const SHUT := [OnConnection(0), OnDisconnect(0)]
  const REOPENED := [OnConnection(0), OnDisconnect(0), OnConnection(0)]
  const REFUSED := NOTHING.(causes := map[][0 := {Refused}])
  const ASKED := REFUSED.(causes := REFUSED.causes[0 := {Refused} + {Asked}])
  const CLEARED := ASKED.(causes := ASKED.causes[0 := {}])

  // Start posts the first AcceptEx.

  const S0 := World([Idle, Idle, Idle, Idle], [], [], false, (0, 0, 0, 0), 0, [], NOTHING)
  const S1 := World([Idle, Idle, Idle, StWait], [], [], true, (0, 0, 0, 0), 0, [], NOTHING)
  const S2 := World([Idle, Idle, Idle, PopFree(Starter)], [], [], true, (0, 0, 0, 0), 0, [], NOTHING)
  const S3 := World([Idle, Idle, Idle, RefAccept(Starter, 0)], [NewConn], [], true, (0, 0, 0, 0), 0, [], NOTHING)
  const S4 := World([Idle, Idle, Idle, PostAccept(Starter, 0)], [NewConn], [], true, (1, 0, 0, 0), 0, [], NOTHING)
  const S5 := World([Idle, Idle, Idle, Idle], [TARGET], [], true, (1, 0, 1, 0), 0, [], NOTHING)

  // A worker takes its completion and posts the next; OnConnection refuses, and the worker is about to disconnect.

  const S6 := World([Idle, Idle, Idle, Idle], [TARGET], [], true, (1, 0, 0, 1), 0, [], NOTHING)
  const S7 := World([PopFree(Branch(0)), Idle, Idle, Idle], [BEGUN], [], true, (1, 0, 0, 0), 0, [], NOTHING)
  const S8 := World([RefAccept(Branch(0), 1), Idle, Idle, Idle], [BEGUN, NewConn], [], true, (1, 1, 0, 0), 0, [],
    NOTHING)
  const S9 := World([PostAccept(Branch(0), 1), Idle, Idle, Idle], [BEGUN, NewConn], [], true, (2, 1, 0, 0), 0, [],
    NOTHING)
  const S10 := World([AcUp(0), Idle, Idle, Idle], [BEGUN, TARGET], [], true, (2, 1, 1, 0), 0, [], NOTHING)
  const S11 := World([AcCall(0), Idle, Idle, Idle], [UP, TARGET], [], true, (2, 1, 1, 0), 0, [], NOTHING)
  const S12 := World([DsCas(0, ToAccept), Idle, Idle, Idle], [TURNED, TARGET], [], true, (2, 1, 1, 0), 0,
    OPENED, REFUSED)

  // Meanwhile the application takes the connection and disconnects it itself, all the way to Close.

  const S13 := World([DsCas(0, ToAccept), Idle, Idle, Idle], [BOUND, TARGET], [], true, (2, 1, 1, 0), 0,
    OPENED, REFUSED)
  const S14 := World([DsCas(0, ToAccept), Idle, Idle, DsCas(0, ToIdle)], [BOUND, TARGET], [], true, (2, 1, 1, 0),
    0, OPENED, ASKED)
  const S15 := World([DsCas(0, ToAccept), Idle, Idle, DsPost(0, ToIdle)], [CLOSING, TARGET], [], true, (2, 1, 1,
    0), 0, OPENED, ASKED)
  const S16 := World([DsCas(0, ToAccept), Idle, Idle, Idle], [CLOSING.(discPending := 1), TARGET], [], true, (2, 1,
    1, 0), 0, OPENED, ASKED)
  const S17 := World([DsCas(0, ToAccept), Idle, Idle, Idle], [CLOSING.(discDone := 1), TARGET], [], true, (2, 1, 1,
    0), 0, OPENED, ASKED)
  const S18 := World([DsCas(0, ToAccept), DiTest(0), Idle, Idle], [CLOSING, TARGET], [], true, (2, 1, 1, 0), 0,
    OPENED, ASKED)
  const S19 := World([DsCas(0, ToAccept), DiCall(0), Idle, Idle], [CLOSING.(phase := Drained), TARGET], [], true,
    (2, 1, 1, 0), 0, OPENED, ASKED)
  const S20 := World([DsCas(0, ToAccept), Idle, Idle, Idle], [CLOSING.(phase := Down), TARGET], [], true, (2, 1, 1,
    0), 0, SHUT, ASKED)
  const S21 := World([DsCas(0, ToAccept), Idle, Idle, Idle], [FREED, TARGET], [0], true, (2, 1, 1, 0), 0,
    SHUT, ASKED)

  // The connection is recycled for the second accept, and accepted once more.

  const S22 := World([DsCas(0, ToAccept), Idle, Idle, Idle], [FREED, TARGET], [0], true, (2, 1, 0, 1), 0,
    SHUT, ASKED)
  const S23 := World([DsCas(0, ToAccept), PopFree(Branch(1)), Idle, Idle], [FREED, BEGUN], [0], true, (2, 1, 0, 0),
    0, SHUT, ASKED)
  const S24 := World([DsCas(0, ToAccept), RefAccept(Branch(1), 0), Idle, Idle], [REUSED, BEGUN], [], true, (2, 0,
    0, 0), 0, SHUT, ASKED)
  const S25 := World([DsCas(0, ToAccept), PostAccept(Branch(1), 0), Idle, Idle], [REUSED, BEGUN], [], true, (3, 0,
    0, 0), 0, SHUT, ASKED)
  const S26 := World([DsCas(0, ToAccept), AcUp(1), Idle, Idle], [REUSED.(phase := Accepting), BEGUN], [], true, (3,
    0, 1, 0), 0, SHUT, ASKED)
  const S27 := World([DsCas(0, ToAccept), AcUp(1), Idle, Idle], [REUSED.(phase := Accepting), BEGUN], [], true, (3,
    0, 0, 1), 0, SHUT, ASKED)

  // The next peer is connected.

  const S28 := World([DsCas(0, ToAccept), AcUp(1), PopFree(Branch(0)), Idle], [AGAIN, BEGUN], [], true, (3, 0, 0,
    0), 0, SHUT, ASKED)
  const S29 := World([DsCas(0, ToAccept), AcUp(1), AcUp(0), Idle], [AGAIN, BEGUN], [], false, (3, 0, 0, 0), 0,
    SHUT, ASKED)
  const S30 := World([DsCas(0, ToAccept), AcUp(1), AcCall(0), Idle], [AGAIN.(connected := true), BEGUN], [], false,
    (3, 0, 0, 0), 0, SHUT, ASKED)
  const S31 := World([DsCas(0, ToAccept), AcUp(1), AcCtx(0), Idle], [NEXT, BEGUN], [], false, (3, 0, 0, 0), 0,
    REOPENED, CLEARED)
  const S32 := World([DsCas(0, ToAccept), AcUp(1), RvInc(0, In(0), AfterAccept), Idle], [NEXT, BEGUN], [], false,
    (3, 0, 0, 0), 1, REOPENED, CLEARED)
  const S33 := World([DsCas(0, ToAccept), AcUp(1), RvPost(0, In(0), AfterAccept), Idle], [READ, BEGUN], [], false,
    (3, 0, 0, 0), 1, REOPENED, CLEARED)

  // The first worker goes on, and disconnects it.

  const S34 := World([DsPost(0, ToAccept), AcUp(1), RvPost(0, In(0), AfterAccept), Idle],
    [READ.(connected := false, phase := Closing), BEGUN], [], false, (3, 0, 0, 0), 1, REOPENED, CLEARED)

  lemma Trace0()
    ensures Reachable(S0, ORDERLY)
  {
    ReachInit(S0, ORDERLY);
  }

  lemma Trace1()
    ensures Reachable(S1, ORDERLY)
  {
    hide Reachable;
    Trace0();
    Do(ORDERLY, S0, AppStart(3), S1);
  }

  lemma Trace2()
    ensures Reachable(S2, ORDERLY)
  {
    hide Reachable;
    Trace1();
    Do(ORDERLY, S1, Go(3, true), S2);
  }

  lemma Trace3()
    ensures Reachable(S3, ORDERLY)
  {
    hide Reachable;
    Trace2();
    assert S2.conns + [NewConn] == S3.conns;
    Do(ORDERLY, S2, Go(3, true), S3);
  }

  lemma Trace4()
    ensures Reachable(S4, ORDERLY)
  {
    hide Reachable;
    Trace3();
    Do(ORDERLY, S3, Go(3, true), S4);
  }

  lemma Trace5()
    ensures Reachable(S5, ORDERLY)
  {
    hide Reachable;
    Trace4();
    Do(ORDERLY, S4, Go(3, true), S5);
  }

  lemma Trace6()
    ensures Reachable(S6, ORDERLY)
  {
    hide Reachable;
    Trace5();
    Do(ORDERLY, S5, KernelAccept, S6);
  }

  lemma Trace7()
    ensures Reachable(S7, ORDERLY)
  {
    hide Reachable;
    Trace6();
    Do(ORDERLY, S6, TakeAccept(0), S7);
  }

  lemma Trace8()
    ensures Reachable(S8, ORDERLY)
  {
    hide Reachable;
    Trace7();
    assert S7.conns + [NewConn] == S8.conns;
    Do(ORDERLY, S7, Go(0, true), S8);
  }

  lemma Trace9()
    ensures Reachable(S9, ORDERLY)
  {
    hide Reachable;
    Trace8();
    Do(ORDERLY, S8, Go(0, true), S9);
  }

  lemma Trace10()
    ensures Reachable(S10, ORDERLY)
  {
    hide Reachable;
    Trace9();
    Do(ORDERLY, S9, Go(0, true), S10);
  }

  lemma Trace11()
    ensures Reachable(S11, ORDERLY)
  {
    hide Reachable;
    Trace10();
    Do(ORDERLY, S10, Go(0, true), S11);
  }

  lemma Trace12()
    ensures Reachable(S12, ORDERLY)
  {
    hide Reachable;
    Trace11();
    assert S11.log + [OnConnection(0)] == S12.log;
    Do(ORDERLY, S11, Go(0, false), S12);
  }

  lemma Trace13()
    ensures Reachable(S13, ORDERLY)
  {
    hide Reachable;
    Trace12();
    Do(ORDERLY, S12, AppBind(0, 0, 256), S13);
  }

  lemma Trace14()
    ensures Reachable(S14, ORDERLY)
  {
    hide Reachable;
    Trace13();
    Do(ORDERLY, S13, AppDisconnect(3, 0), S14);
  }

  lemma Trace15()
    ensures Reachable(S15, ORDERLY)
  {
    hide Reachable;
    Trace14();
    Do(ORDERLY, S14, Go(3, true), S15);
  }

  lemma Trace16()
    ensures Reachable(S16, ORDERLY)
  {
    hide Reachable;
    Trace15();
    Do(ORDERLY, S15, Go(3, true), S16);
  }

  lemma Trace17()
    ensures Reachable(S17, ORDERLY)
  {
    hide Reachable;
    Trace16();
    Do(ORDERLY, S16, KernelDisconnect(0), S17);
  }

  lemma Trace18()
    ensures Reachable(S18, ORDERLY)
  {
    hide Reachable;
    Trace17();
    Do(ORDERLY, S17, TakeDisconnect(1, 0), S18);
  }

  lemma Trace19()
    ensures Reachable(S19, ORDERLY)
  {
    hide Reachable;
    Trace18();
    Do(ORDERLY, S18, Go(1, true), S19);
  }

  lemma Trace20()
    ensures Reachable(S20, ORDERLY)
  {
    hide Reachable;
    Trace19();
    assert S19.log + [OnDisconnect(0)] == S20.log;
    Do(ORDERLY, S19, Go(1, true), S20);
  }

  lemma Trace21()
    ensures Reachable(S21, ORDERLY)
  {
    hide Reachable;
    Trace20();
    Do(ORDERLY, S20, AppClose(0), S21);
  }

  lemma Trace22()
    ensures Reachable(S22, ORDERLY)
  {
    hide Reachable;
    Trace21();
    Do(ORDERLY, S21, KernelAccept, S22);
  }

  lemma Trace23()
    ensures Reachable(S23, ORDERLY)
  {
    hide Reachable;
    Trace22();
    Do(ORDERLY, S22, TakeAccept(1), S23);
  }

  lemma Trace24()
    ensures Reachable(S24, ORDERLY)
  {
    hide Reachable;
    Trace23();
    Do(ORDERLY, S23, Go(1, true), S24);
  }

  lemma Trace25()
    ensures Reachable(S25, ORDERLY)
  {
    hide Reachable;
    Trace24();
    Do(ORDERLY, S24, Go(1, true), S25);
  }

  lemma Trace26()
    ensures Reachable(S26, ORDERLY)
  {
    hide Reachable;
    Trace25();
    Do(ORDERLY, S25, Go(1, true), S26);
  }

  lemma Trace27()
    ensures Reachable(S27, ORDERLY)
  {
    hide Reachable;
    Trace26();
    Do(ORDERLY, S26, KernelAccept, S27);
  }

  lemma Trace28()
    ensures Reachable(S28, ORDERLY)
  {
    hide Reachable;
    Trace27();
    Do(ORDERLY, S27, TakeAccept(2), S28);
  }

  lemma Trace29()
    ensures Reachable(S29, ORDERLY)
  {
    hide Reachable;
    Trace28();
    Do(ORDERLY, S28, Go(2, false), S29);
  }

  lemma Trace30()
    ensures Reachable(S30, ORDERLY)
  {
    hide Reachable;
    Trace29();
    Do(ORDERLY, S29, Go(2, true), S30);
  }

  lemma Trace31()
    ensures Reachable(S31, ORDERLY)
  {
    hide Reachable;
    Trace30();
    assert S30.log + [OnConnection(0)] == S31.log;
    Do(ORDERLY, S30, Go(2, true), S31);
  }

  lemma Trace32()
    ensures Reachable(S32, ORDERLY)
  {
    hide Reachable;
    Trace31();
    Do(ORDERLY, S31, Go(2, true), S32);
  }

  lemma Trace33()
    ensures Reachable(S33, ORDERLY)
  {
    hide Reachable;
    Trace32();
    Do(ORDERLY, S32, Go(2, true), S33);
  }

  lemma Trace34()
    ensures Reachable(S34, ORDERLY)
  {
    hide Reachable;
    Trace33();
    Do(ORDERLY, S33, Go(0, true), S34);
  }

  /**
   * In all reachable states every connection that has been disconnected has a reason that arose since its OnConnection,
   * exactly when Close is never called while a thread is about to make AsyncDisconnect's compare-and-swap on it.
   */
  lemma ExplainedIff(late: bool)
    ensures (forall s: State | Reachable(s, Policy(false, false, false, late)) :: Explained(s)) <==> !late
  {
    hide Reachable, Explained;
    if late {
      Trace34();
      Unexplained();
    } else {
      forall s: State | Reachable(s, STRICT) ensures Explained(s) {
        StrictExplained(s);
      }
    }
  }

  lemma Unexplained()
    ensures !Explained(S34)
  {
    assert CausesOf(S34, 0) == {};
  }
}
