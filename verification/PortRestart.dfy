/**
 * Why Start must not be entered while another Start is in progress: the loop that waits for the acceptor's count to
 * reach zero lets both of them pass before either has counted its AcceptEx.
 */
module PortRestart {
  import opened CompletionPort
  import opened PortRuns
  import opened PortSafety

  const RESTART := Policy(false, true, false, true)

  /** Two application threads, the connections, and the acceptor: its count, its context's connection, its AcceptEx. */
  function World(t0: Pc, t1: Pc, running: bool, conns: seq<Conn>, acc: (int, ConnId, nat)): (s: State) {
    State(0, [t0, t1], conns, [], running, acc.0, acc.1, acc.2, 0, [], [], [], multiset{}, 0, 0, map[], [], NOTHING)
  }

  const TARGET := NewConn.(phase := Accepting)

  // Start, Stop, and Start again: both threads wait for a count that is zero.

  const S0 := World(Idle, Idle, false, [], (0, 0, 0))
  const S1 := World(StWait, Idle, true, [], (0, 0, 0))
  const S2 := World(StWait, Idle, false, [], (0, 0, 0))
  const S3 := World(StWait, StWait, true, [], (0, 0, 0))
  const S4 := World(PopFree(Starter), StWait, true, [], (0, 0, 0))
  const S5 := World(PopFree(Starter), PopFree(Starter), true, [], (0, 0, 0))

  // Both take a connection, and the second overwrites the accept context.

  const S6 := World(RefAccept(Starter, 0), PopFree(Starter), true, [NewConn], (0, 0, 0))
  const S7 := World(RefAccept(Starter, 0), RefAccept(Starter, 1), true, [NewConn, NewConn], (0, 1, 0))
  const S8 := World(PostAccept(Starter, 0), RefAccept(Starter, 1), true, [NewConn, NewConn], (1, 1, 0))
  const S9 := World(PostAccept(Starter, 0), PostAccept(Starter, 1), true, [NewConn, NewConn], (2, 1, 0))
  const S10 := World(Idle, PostAccept(Starter, 1), true, [TARGET, NewConn], (2, 1, 1))
  const S11 := World(Idle, Idle, true, [TARGET, TARGET], (2, 1, 2))

  lemma Trace0()
    ensures Reachable(S0, RESTART)
  {
    ReachInit(S0, RESTART);
  }

  lemma Trace1()
    ensures Reachable(S1, RESTART)
  {
    hide Reachable;
    Trace0();
    Do(RESTART, S0, AppStart(0), S1);
  }

  lemma Trace2()
    ensures Reachable(S2, RESTART)
  {
    hide Reachable;
    Trace1();
    Do(RESTART, S1, AppStop, S2);
  }

  lemma Trace3()
    ensures Reachable(S3, RESTART)
  {
    hide Reachable;
    Trace2();
    Do(RESTART, S2, AppStart(1), S3);
  }

  lemma Trace4()
    ensures Reachable(S4, RESTART)
  {
    hide Reachable;
    Trace3();
    Do(RESTART, S3, Go(0, true), S4);
  }

  lemma Trace5()
    ensures Reachable(S5, RESTART)
  {
    hide Reachable;
    Trace4();
    Do(RESTART, S4, Go(1, true), S5);
  }

  lemma Trace6()
    ensures Reachable(S6, RESTART)
  {
    hide Reachable;
    Trace5();
    assert S5.conns + [NewConn] == S6.conns;
    Do(RESTART, S5, Go(0, true), S6);
  }

  lemma Trace7()
    ensures Reachable(S7, RESTART)
  {
    hide Reachable;
    Trace6();
    assert S6.conns + [NewConn] == S7.conns;
    Do(RESTART, S6, Go(1, true), S7);
  }

  lemma Trace8()
    ensures Reachable(S8, RESTART)
  {
    hide Reachable;
    Trace7();
    Do(RESTART, S7, Go(0, true), S8);
  }

  lemma Trace9()
    ensures Reachable(S9, RESTART)
  {
    hide Reachable;
    Trace8();
    Do(RESTART, S8, Go(1, true), S9);
  }

  lemma Trace10()
    ensures Reachable(S10, RESTART)
  {
    hide Reachable;
    Trace9();
    Do(RESTART, S9, Go(0, true), S10);
  }

  lemma Trace11()
    ensures Reachable(S11, RESTART)
  {
    hide Reachable;
    Trace10();
    Do(RESTART, S10, Go(1, true), S11);
  }

  /**
   * In all reachable states at most one AcceptEx is outstanding, exactly when Start is never entered while another
   * Start is in progress.
   */
  lemma OneAcceptIff(restart: bool)
    ensures (forall s: State | Reachable(s, Policy(false, restart, false, true)) ::
        s.accPending + s.accDone <= 1) <==> !restart
  {
    if restart {
      Trace11();
      hide Reachable;
      assert S11.accPending + S11.accDone == 2;
    } else {
      forall s: State | Reachable(s, ORDERLY) ensures s.accPending + s.accDone <= 1 {
        OneAccept(s);
      }
    }
  }
}
