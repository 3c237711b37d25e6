/**
 * The command thread's side of EasyBaseServer as an object: its list, its session pool and its handlers. What the
 * connections do while it works is a parameter of each round.
 */
module BaseServer {
  import opened Bytes
  import opened CompletionPort
  import opened Framing
  import opened PortInvariant
  import opened Server
  import opened ServerFrames
  import opened ServerSafety
  import opened ServerCommands
  import opened ServerSends

  class EasyBaseServer {
    var port: State             // the connections and everything below them
    var commandList: seq<Command>
    var objectList: seq<SessionId>
    var sessions: seq<Session>
    var faulted: bool           // a handler has left its memory
    var pushed: seq<Command>    // history
    var done: seq<Command>      // history
    var origin: Book            // history
    var acts: seq<Act>          // history

    /** The state of the transition system while the list is walked (at an index) or not. */
    function View(draining: bool, at: nat): (v: Server)
      reads this
    {
      Server(port, commandList, draining, at, objectList, sessions, faulted, pushed, done, origin, acts)
    }

    /** The pool holds sessions in their initial state, each once. */
    ghost predicate Pooled()
      reads this
    {
      Idling(objectList, sessions)
    }

    constructor (port: State)
      requires Init(port)
      ensures this.port == port && commandList == [] && objectList == [] && sessions == [] && Pooled()
      ensures !faulted && pushed == [] && done == [] && acts == []
    {
      this.port := port;
      commandList, objectList, sessions, faulted, pushed, done := [], [], [], false, [], [];
      origin, acts := Book([], []), [];
    }

    /** EasyPool::Allocate: a session in its initial state, from the front of the pool or new, that is nobody's. */
    method Allocate() returns (i: SessionId)
      requires Pooled()
      modifies this`objectList, this`sessions
      ensures Pooled() && i < |sessions| && sessions[i] == Session(None, []) && i !in objectList
      ensures old(sessions) <= sessions && (i < |old(sessions)| <==> old(objectList) != [])
      ensures forall k | k != i :: k in objectList <==> k in old(objectList)
      ensures View(false, 0) == AfterAllocate(old(View(false, 0))) && i == Allocated(old(View(false, 0)))
    {
      hide Idling;
      TakeFront(objectList, sessions);
      if objectList == [] {
        i := |sessions|;
        sessions := sessions + [Session(None, [])];
      } else {
        i := objectList[0];
        objectList := objectList[1..];
      }
    }

    /** EasyPool::Free */
    method Free(i: SessionId)
      requires Pooled() && i < |sessions| && sessions[i] == Session(None, []) && i !in objectList
      modifies this`objectList
      ensures Pooled() && objectList == old(objectList) + [i]
    {
      AddBack(objectList, sessions, i);
      objectList := objectList + [i];
    }

    /**
     * _InitializeSessionPool: each turn takes back the object the turn before put there, so that the pool ends
     * up with one session, however many it was asked for.
     */
    method InitializeSessionPool(maxSession: nat)
      requires Init(port) && Commander(port) < |port.threads|
      requires commandList == [] && objectList == [] && sessions == [] && !faulted && pushed == [] && done == []
      requires acts == []
      modifies this`objectList, this`sessions, this`origin
      ensures |sessions| == |objectList| == (if maxSession == 0 then 0 else 1)
      ensures Start(View(false, 0))
    {
      hide Init;
      var i := 0;
      while i < maxSession
        invariant i <= maxSession
        invariant sessions == (if i == 0 then [] else [Session(None, [])])
        invariant objectList == (if i == 0 then [] else [0])
      {
        var session := Allocate();
        Free(session);
        i := i + 1;
      }
      origin := Book(objectList, seq(|sessions|, _ => None));
    }

    /** PushCommand, with the mutex held. */
    method PushCommand(cmd: Command)
      modifies this`commandList, this`pushed
      ensures View(false, 0) == Pushed(old(View(false, 0)), cmd)
    {
      commandList := commandList + [cmd];
      pushed := pushed + [cmd];
    }

    /**
     * Session i of the pool, or a new one, and connection c now name each other, with the session's limit on c; no
     * other session and no other connection has changed.
     */
    method OnCommandOnConnect(c: ConnId, ghost at: nat) returns (i: SessionId)
      requires Pooled() && Enabled(port, AppBind(c, Allocated(View(true, at)), SESSION_REF_MAX), ORDERLY)
      modifies this`port, this`objectList, this`sessions
      ensures Pooled() && i < |sessions| && sessions[i] == Session(Some(c), []) && i !in objectList
      ensures c < |port.conns| && port.conns[c].bound && port.conns[c].client == Some(i)
      ensures port.conns[c].refmax == SESSION_REF_MAX
      ensures |sessions| >= |old(sessions)|
      ensures forall j | 0 <= j < |old(sessions)| && j != i :: sessions[j] == old(sessions[j])
      ensures |port.conns| == |old(port.conns)|
      ensures forall d | 0 <= d < |port.conns| && d != c :: port.conns[d] == old(port.conns[d])
      ensures View(true, at) == DoConnect(old(View(true, at)), c)
    {
      hide Idling, DoConnect, DoAppBind, Enabled;
      ConnectIs(View(true, at), c);
      BoundNow(port, c, Allocated(View(true, at)));
      i := Allocate();
      TakeOut(objectList, sessions, i, Session(Some(c), []));
      sessions := sessions[i := sessions[i].(conn := Some(c))];
      port := DoAppBind(port, c, i, SESSION_REF_MAX);
    }

    /** The client of connection c, if it has one, got the data behind all before; nothing else has changed. */
    method OnCommandOnData(c: ConnId, data: Chunk, ghost at: nat) returns (ok: bool)
      requires c < |port.conns|
      modifies this`sessions
      ensures |sessions| == |old(sessions)|
      ensures var client := port.conns[c].client;
        && (ok <==> client.Some? && client.value < |sessions|)
        && forall j | 0 <= j < |sessions| :: sessions[j].conn == old(sessions[j].conn)
            && sessions[j].fed == old(sessions[j].fed) + (if client == Some(j) then [data] else [])
      ensures View(true, at) == DoData(old(View(true, at)), c, data)
    {
      var session := port.conns[c].client;
      ok := session.Some? && session.value < |sessions|;
      if ok {
        var fed := sessions[session.value].fed;
        sessions := sessions[session.value := sessions[session.value].(fed := fed + [data])];
      }
    }

    /** EasySession::OnDisconnect closes the connection and resets the session, which then goes back to the pool. */
    method CloseSession(c: ConnId, i: SessionId, ghost at: nat)
      requires Pooled() && i < |sessions| && sessions[i].conn == Some(c)
      requires Enabled(port, AppClose(c), ORDERLY) && port.conns[c].client == Some(i)
      modifies this`port, this`objectList, this`sessions
      ensures Pooled() && |sessions| == |old(sessions)| && sessions[i] == Session(None, [])
      ensures objectList == old(objectList) + [i]
      ensures forall j | 0 <= j < |sessions| && j != i :: sessions[j] == old(sessions[j])
      ensures |port.conns| == |old(port.conns)| && !port.conns[c].bound && !port.conns[c].live
      ensures forall d | 0 <= d < |port.conns| && d != c :: port.conns[d] == old(port.conns[d])
      ensures port.free ==
        if port.conns[c].iorefs == 0 && !port.conns[c].connected then [c] + old(port.free) else old(port.free)
      ensures View(true, at) == DoDisconnect(old(View(true, at)), c)
    {
      hide Idling, DoDisconnect, DoAppClose, Enabled, MayClose, ClientOf, Apply;
      NotIdling(objectList, sessions, i);
      DisconnectIs(View(true, at), c, i);
      ClosedNow(port, c);
      port := DoAppClose(port, c);
      TakeOut(objectList, sessions, i, Session(None, []));
      sessions := sessions[i := Session(None, [])];
      Free(i);
    }

    /**
     * The session of connection c, if it has one, is back in its initial state and last in the pool, and c is
     * nobody's; it is on the free list if nothing is outstanding on it. No other session and no other connection has
     * changed.
     */
    method OnCommandOnDisconnect(c: ConnId, ghost at: nat) returns (ok: bool)
      requires Pooled() && c < |port.conns|
      requires ClientOf(View(true, at), c).Some? ==>
        sessions[ClientOf(View(true, at), c).value].conn == Some(c) && Enabled(port, AppClose(c), ORDERLY)
      modifies this`port, this`objectList, this`sessions
      ensures Pooled() && |sessions| == |old(sessions)| && |port.conns| == |old(port.conns)|
      ensures ok <==> ClientOf(old(View(true, at)), c).Some?
      ensures !ok ==> port == old(port) && sessions == old(sessions) && objectList == old(objectList)
      ensures ok ==>
        var i := old(port.conns[c].client.value);
        && i < |sessions| && sessions[i] == Session(None, []) && objectList == old(objectList) + [i]
        && forall j | 0 <= j < |sessions| && j != i :: sessions[j] == old(sessions[j])
      ensures ok ==>
        && !port.conns[c].bound && !port.conns[c].live
        && (forall d | 0 <= d < |port.conns| && d != c :: port.conns[d] == old(port.conns[d]))
        && port.free ==
            if port.conns[c].iorefs == 0 && !port.conns[c].connected then [c] + old(port.free) else old(port.free)
      ensures View(true, at) == DoDisconnect(old(View(true, at)), c)
    {
      hide Idling, Enabled, Apply;
      var session := port.conns[c].client;
      ok := session.Some? && session.value < |sessions|;
      if ok {
        CloseSession(c, session.value, at);
      }
    }

    /**
     * SendData of session i, up to the call of AsyncSend: the encoded packet is in an output buffer, and the command
     * thread is about to send that buffer on the session's connection.
     */
    method OnCommandSendData(i: SessionId, packet: Packet, ghost at: nat)
      requires i < |sessions| && !SendFaults(View(true, at), i, packet) ==>
        MaySend(View(true, at), sessions[i].conn.value, packet)
      modifies this`port, this`faulted
      ensures faulted == (old(faulted) || SendFaults(old(View(true, at)), i, packet))
      ensures i < |sessions| && !SendFaults(old(View(true, at)), i, packet) ==>
        var t, c, x := Commander(port), sessions[i].conn.value, NextOut(old(port));
        && t < |port.threads| && port.threads[t] == SdTest(c, x) && BufOf(port, x) == Encode(packet)
        && port.past.sent == old(port.past.sent) + [Shipment(t, c, Encode(packet))]
      ensures i >= |sessions| || SendFaults(old(View(true, at)), i, packet) ==> port == old(port)
      ensures View(true, at) == DoSendData(old(View(true, at)), i, packet)
    {
      hide Encode, MaySend, DoSendData, DoAppPop, DoAppSend;
      SendingIs(View(true, at), i, packet);
      if i < |sessions| {
        if sessions[i].conn.None? || PACKET_HEAD + |packet.body| > MAX_OUTPUT_BUFFER {
          faulted := true;
        } else {
          var t, x := Commander(port), NextOut(port);
          SendingNow(port, sessions[i].conn.value, Encode(packet));
          port := DoAppPop(port);
          port := DoAppSend(port, t, x, sessions[i].conn.value, Encode(packet));
        }
      }
    }

    /** Disconnect of session i, up to the compare-and-swap of AsyncDisconnect on its connection. */
    method OnCommandDisconnect(i: SessionId, ghost at: nat)
      requires i < |sessions| ==> MayDisconnect(View(true, at), i)
      modifies this`port, this`sessions
      ensures i < |old(sessions)| && old(sessions)[i].conn.Some? ==>
        && sessions == old(sessions) && Commander(port) < |port.threads|
        && port.threads[Commander(port)] == DsCas(sessions[i].conn.value, ToIdle)
      ensures View(true, at) == DoForceDisconnect(old(View(true, at)), i)
    {
      hide CausesOf, MayDisconnect, DoForceDisconnect, DoAppDisconnect;
      LeavingIs(View(true, at), i);
      if i < |sessions| {
        match sessions[i].conn {
          case None => sessions := sessions[i := Session(None, [])];
          case Some(c) => port := DoAppDisconnect(port, Commander(port), c);
        }
      }
    }

    /** _OnCommand */
    method OnCommand(at: nat)
      requires at < |commandList| && ServerInv(View(true, at)) && Ready(View(true, at))
      modifies this`port, this`objectList, this`sessions, this`faulted, this`done, this`acts
      ensures MayProcess(old(View(true, at)), commandList[at])
      ensures View(true, at + 1) == DoProcess(old(View(true, at)))
    {
      hide ServerInv, Enabled, DoConnect, DoData, DoDisconnect, DoSendData, DoForceDisconnect, Scan, Heard;
      CommandFindsSession(View(true, at));
      PoolOk(View(true, at));
      match commandList[at] {
        case Told(OnConnection(c)) => var _ := OnCommandOnConnect(c, at);
        case Told(OnData(c, data)) => var _ := OnCommandOnData(c, data, at);
        case Told(OnDisconnect(c)) => var _ := OnCommandOnDisconnect(c, at);
        case SendData(i, packet) => OnCommandSendData(i, packet, at);
        case Disconnect(i) => OnCommandDisconnect(i, at);
      }
      done, acts := done + [commandList[at]], acts + [Act(commandList[at], true)];
    }

    /** The steps of the network layer that can be taken while the list is walked, one after the other. */
    method Meanwhile(steps: seq<Step>, ghost at: nat)
      requires ServerInv(View(true, at)) && Carried(View(true, at)) && !faulted
      modifies this`port
      ensures ServerInv(View(true, at)) && Carried(View(true, at)) && port.log == old(port.log)
    {
      hide ServerInv, Carried, Enabled, Apply, IsUpcall;
      for k := 0 to |steps|
        invariant ServerInv(View(true, at)) && Carried(View(true, at)) && port.log == old(port.log)
      {
        var a := steps[k];
        if Enabled(port, a, ORDERLY) && !Reserved(a) && !IsUpcall(port, a) {
          KeepSilent(View(true, at), a);
          CarryPort(View(true, at), a);
          Unheard(View(true, at), a);
          port := Apply(port, a, ORDERLY);
        }
      }
    }

    /**
     * One round of _CommandHandler, from taking the mutex to releasing it, whatever steps the threads and the kernel
     * take before each command: the commands are processed in order and find their sessions, their packets are given
     * to AsyncSend, and nothing is pushed meanwhile. The round goes on to its end unless a handler leaves its memory,
     * or the steps given end before the command thread has come back from the call of an earlier command.
     */
    method HandleCommands(meanwhile: seq<seq<Step>>) returns (at: nat)
      requires ServerInv(View(false, 0)) && Carried(View(false, 0)) && !faulted
      modifies this
      ensures at <= |old(commandList)| && done == old(done) + old(commandList)[..at]
      ensures port.log == old(port.log) && pushed == old(pushed)
      ensures at == |old(commandList)| && !faulted ==> commandList == [] && ServerInv(View(false, 0))
      ensures Carried(View(false, 0))
      ensures at < |old(commandList)| || faulted ==> commandList == old(commandList) && ServerInv(View(true, at))
      ensures at < |old(commandList)| && !faulted ==> !Ready(View(true, at))
    {
      hide ServerInv, Carried, DoProcess, MayProcess, Ready;
      KeepLock(View(false, 0));
      CarrySame(View(false, 0), View(true, 0));
      at := 0;
      while at < |commandList| && !faulted
        invariant at <= |commandList| && commandList == old(commandList) && pushed == old(pushed)
        invariant ServerInv(View(true, at)) && Carried(View(true, at))
        invariant done == old(done) + commandList[..at] && port.log == old(port.log)
        decreases |commandList| - at
      {
        if at < |meanwhile| { Meanwhile(meanwhile[at], at); }
        if !Ready(View(true, at)) {
          CarrySame(View(true, at), View(false, 0));
          return;
        }
        CommandFindsSession(View(true, at));
        KeepProcess(View(true, at));
        CarryProcess(View(true, at));
        Turned(View(true, at));
        SameLog(View(true, at), DoProcess(View(true, at)));
        OnCommand(at);
        at := at + 1;
      }
      CarrySame(View(true, at), View(false, 0));
      if !faulted {
        KeepUnlock(View(true, at));
        CarrySame(View(true, at), View(true, at).(list := [], draining := false, at := 0));
        commandList := [];
      }
    }
  }

  /** The list holds sessions in their initial state, each once. */
  ghost predicate Idling(list: seq<SessionId>, sessions: seq<Session>) {
    forall k | k in list :: k < |sessions| && sessions[k] == Session(None, []) && multiset(list)[k] == 1
  }

  lemma TakeFront(list: seq<SessionId>, sessions: seq<Session>)
    requires Idling(list, sessions)
    ensures list != [] ==>
      && list[0] < |sessions| && sessions[list[0]] == Session(None, []) && list[0] !in list[1..]
      && Idling(list[1..], sessions) && forall k | k != list[0] :: k in list[1..] <==> k in list
    ensures list == [] ==> Idling(list, sessions + [Session(None, [])])
  {
    if list != [] {
      var i, rest := list[0], list[1..];
      assert list == [i] + rest;
      assert i in list;
      forall k | k in rest ensures k in list && multiset(rest)[k] == 1 {
        assert k in list && multiset(rest)[k] >= 1;
      }
    }
  }

  lemma AddBack(list: seq<SessionId>, sessions: seq<Session>, i: SessionId)
    requires Idling(list, sessions) && i < |sessions| && sessions[i] == Session(None, []) && i !in list
    ensures Idling(list + [i], sessions)
  {
    forall k | k in list + [i] ensures multiset(list + [i])[k] == 1 {
      assert multiset(list + [i])[k] == multiset(list)[k] + multiset([i])[k];
      assert multiset(list)[i] == 0;
    }
  }

  lemma NotIdling(list: seq<SessionId>, sessions: seq<Session>, i: SessionId)
    requires Idling(list, sessions) && i < |sessions| && sessions[i].conn.Some?
    ensures i !in list
  {
  }

  lemma TakeOut(list: seq<SessionId>, sessions: seq<Session>, i: SessionId, session: Session)
    requires Idling(list, sessions) && i < |sessions| && i !in list
    ensures Idling(list, sessions[i := session])
  {
  }

  lemma BoundNow(s: State, c: ConnId, i: SessionId)
    requires c < |s.conns|
    ensures var s' := DoAppBind(s, c, i, SESSION_REF_MAX);
      && |s'.conns| == |s.conns| && s'.conns[c].bound && s'.conns[c].client == Some(i)
      && s'.conns[c].refmax == SESSION_REF_MAX && forall d | 0 <= d < |s.conns| && d != c :: s'.conns[d] == s.conns[d]
  {
  }

  lemma ClosedNow(s: State, c: ConnId)
    requires c < |s.conns|
    ensures var s' := DoAppClose(s, c);
      && |s'.conns| == |s.conns| && !s'.conns[c].bound && !s'.conns[c].live
      && s'.conns[c].iorefs == s.conns[c].iorefs && s'.conns[c].connected == s.conns[c].connected
      && (forall d | 0 <= d < |s.conns| && d != c :: s'.conns[d] == s.conns[d])
      && s'.free == if s.conns[c].iorefs == 0 && !s.conns[c].connected then [c] + s.free else s.free
  {
  }

  lemma ConnectIs(v: Server, c: ConnId)
    requires Idling(v.pool, v.sessions) && Enabled(v.port, AppBind(c, Allocated(v), SESSION_REF_MAX), ORDERLY)
    ensures forall k | k in v.pool :: k < |v.sessions|
    ensures c < |v.port.conns| && Allocated(v) < |AfterAllocate(v).sessions|
    ensures DoConnect(v, c) ==
      var i, w := Allocated(v), AfterAllocate(v);
      w.(port := DoAppBind(v.port, c, i, SESSION_REF_MAX), sessions := w.sessions[i := w.sessions[i].(conn := Some(c))])
  {
    assert v.pool != [] ==> v.pool[0] in v.pool;
    hide DoAppBind;
  }

  lemma DisconnectIs(v: Server, c: ConnId, i: SessionId)
    requires i < |v.sessions| && v.sessions[i].conn == Some(c)
    requires Enabled(v.port, AppClose(c), ORDERLY) && v.port.conns[c].client == Some(i)
    ensures c < |v.port.conns| && ClientOf(v, c) == Some(i) && MayClose(v, i)
    ensures DoDisconnect(v, c) ==
      v.(port := DoAppClose(v.port, c), sessions := v.sessions[i := Session(None, [])], pool := v.pool + [i])
  {
    hide DoAppClose;
  }

  lemma PoolOk(v: Server)
    requires ServerInv(v)
    ensures Idling(v.pool, v.sessions)
  {
    hide Inv, InOrder, Calls, Served, FaceOf;
    forall k | k in v.pool ensures k < |v.sessions| && v.sessions[k] == Session(None, []) && multiset(v.pool)[k] == 1 {
      assert Owned(v, k) && multiset(v.pool)[k] >= 1;
    }
  }

  lemma SendingIs(v: Server, i: SessionId, packet: Packet)
    requires i < |v.sessions| && !SendFaults(v, i, packet) ==> MaySend(v, v.sessions[i].conn.value, packet)
    ensures i >= |v.sessions| ==> DoSendData(v, i, packet) == v
    ensures i < |v.sessions| && SendFaults(v, i, packet) ==> DoSendData(v, i, packet) == v.(faulted := true)
    ensures i < |v.sessions| && !SendFaults(v, i, packet) ==>
      var t, x, c := Commander(v.port), NextOut(v.port), v.sessions[i].conn.value;
      && t < |v.port.threads| == |DoAppPop(v.port).threads|
      && DoSendData(v, i, packet) == v.(port := DoAppSend(DoAppPop(v.port), t, x, c, Encode(packet)))
  {
    hide Encode, DoAppSend;
  }

  lemma SendingNow(s: State, c: ConnId, bytes: Chunk)
    requires Commander(s) < |DoAppPop(s).threads|
    ensures var t, x := Commander(s), NextOut(s);
      var s' := DoAppSend(DoAppPop(s), t, x, c, bytes);
      && Commander(s') == t < |s'.threads| && s'.threads[t] == SdTest(c, x) && BufOf(s', x) == bytes
      && s'.past.sent == s.past.sent + [Shipment(t, c, bytes)]
  {
  }

  lemma LeavingIs(v: Server, i: SessionId)
    requires i < |v.sessions| ==> MayDisconnect(v, i)
    ensures i >= |v.sessions| ==> DoForceDisconnect(v, i) == v
    ensures i < |v.sessions| && v.sessions[i].conn.None? ==>
      DoForceDisconnect(v, i) == v.(sessions := v.sessions[i := Session(None, [])])
    ensures i < |v.sessions| && v.sessions[i].conn.Some? ==>
      var t, c := Commander(v.port), v.sessions[i].conn.value;
      && t < |v.port.threads| && DoForceDisconnect(v, i) == v.(port := DoAppDisconnect(v.port, t, c))
      && var s' := DoAppDisconnect(v.port, t, c);
        Commander(s') == t < |s'.threads| && s'.threads[t] == DsCas(c, ToIdle)
  {
    hide CausesOf;
  }

  /** A step without an upcall is not heard of. */
  lemma Unheard(v: Server, a: Step)
    requires ServerInv(v) && Can(v, Port(a)) && !IsUpcall(v.port, a)
    ensures Apply(v.port, a, ORDERLY).log == v.port.log && DoPort(v, a) == v.(port := Apply(v.port, a, ORDERLY))
  {
    hide Inv, InOrder, Ledger, Calls, Served, Enabled, Apply, IsUpcall;
    StepSilent(v.port, a);
  }

  /** A turn of the loop leaves the list alone. */
  lemma Turned(v: Server)
    requires v.at < |v.list| && MayProcess(v, v.list[v.at])
    ensures var v' := DoProcess(v);
      v'.list == v.list && v'.done == v.done + [v.list[v.at]] && v'.at == v.at + 1 && v'.draining == v.draining
      && v'.pushed == v.pushed
  {
    hide Enabled, Apply, DoAppPop;
  }

  lemma SameLog(v: Server, v': Server)
    requires ServerInv(v) && ServerInv(v') && v'.pushed == v.pushed
    ensures v'.port.log == v.port.log
  {
    hide Inv, Ledger, Calls, Served, Heard;
  }
}
