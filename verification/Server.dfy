/**
 * The server on top of the completion port (EasyBaseServer): upcalls and the application push commands onto a queue
 * behind a mutex, one thread drains it, and sessions from a pool are bound to connections.
 *
 * No shutdown is under way, commands are always allocated, and AsyncDisconnect keeps to the policy of PortSafety.
 */
module Server {
  import opened Bytes
  import opened CompletionPort
  import opened Framing

  type SessionId = nat

  /** The limit EasySession::OnConnection sets. */
  const SESSION_REF_MAX := 256

  /** A command carries what an upcall was told, or what the application wants of a session. */
  datatype Command =
    | Told(e: Event)                        // COMMAND_ONCONNECT, COMMAND_ONDATA, COMMAND_ONDISCONNECT
    | SendData(i: SessionId, packet: Packet)
    | Disconnect(i: SessionId)

  /** A session: m_pConnection, and the chunks passed to OnData since OnConnection. */
  datatype Session = Session(conn: Option<ConnId>, fed: seq<Chunk>)

  /** What a session holds: its connection, and whether it was asked to disconnect it. */
  datatype Tie = Tie(c: ConnId, ended: bool)

  /** The pool, and what each session ever created holds. */
  datatype Book = Book(pool: seq<SessionId>, ties: seq<Option<Tie>>)

  /** A command carried out: one from the queue, or a SendData called by a handler or by the server's loop. */
  datatype Act = Act(cmd: Command, queued: bool)

  datatype Server = Server(
    port: State,
    list: seq<Command>,      // m_CommandList
    draining: bool,          // the command thread holds m_CommandMutex and walks the list
    at: nat,                 // its iterator
    pool: seq<SessionId>,    // m_ObjectList of the session pool
    sessions: seq<Session>,  // every session ever created
    faulted: bool,           // a handler has left its memory
    pushed: seq<Command>,    // history: the commands pushed
    done: seq<Command>,      // history: the commands processed
    origin: Book,            // history: the pool and the sessions at the start
    acts: seq<Act>           // history: the commands carried out
  )

  /** The command thread: the first thread of the application. */
  function Commander(s: State): (t: nat) { s.workers }

  ghost predicate Start(v: Server) {
    && Init(v.port) && Commander(v.port) < |v.port.threads|
    && v.list == [] && !v.draining && v.at == 0 && !v.faulted
    && (forall i | i in v.pool :: i < |v.sessions|)
    && (forall i: nat | i < |v.sessions| :: v.sessions[i] == Session(None, []) && multiset(v.pool)[i] == 1)
    && v.pushed == [] && v.done == [] && v.acts == []
    && v.origin == Book(v.pool, seq(|v.sessions|, _ => None))
  }

  /** The commands in the queue that have not been processed. */
  function Waiting(v: Server): (list: seq<Command>) {
    if v.draining && v.at <= |v.list| then v.list[v.at..] else v.list
  }

  // ---------------------------------------------------------------- the session pool

  /** EasyPool::Allocate: the front of the list, or a new object. */
  function Allocated(v: Server): (i: SessionId) {
    if v.pool != [] then v.pool[0] else |v.sessions|
  }

  function AfterAllocate(v: Server): (v': Server) {
    if v.pool != [] then v.(pool := v.pool[1..])
    else v.(sessions := v.sessions + [Session(None, [])])
  }

  // ---------------------------------------------------------------- commands

  /** _OnCommandOnConnect: a session from the pool takes the connection. */
  function DoConnect(v: Server, c: ConnId): (v': Server)
    requires Enabled(v.port, AppBind(c, Allocated(v), SESSION_REF_MAX), ORDERLY)
    requires forall i | i in v.pool :: i < |v.sessions|
  {
    var i, w := Allocated(v), AfterAllocate(v);
    assert v.pool != [] ==> v.pool[0] in v.pool;
    w.(port := Apply(v.port, AppBind(c, i, SESSION_REF_MAX), ORDERLY),
       sessions := w.sessions[i := w.sessions[i].(conn := Some(c))])
  }

  /** The session an upcall's connection names as its client, if it names one. */
  function ClientOf(v: Server, c: ConnId): (i: Option<SessionId>)
    requires c < |v.port.conns|
  {
    var client := v.port.conns[c].client;
    if client.Some? && client.value < |v.sessions| then client else None
  }

  /** _OnCommandOnData: the connection's client gets the data, if it has one. */
  function DoData(v: Server, c: ConnId, data: Chunk): (v': Server)
    requires c < |v.port.conns|
  {
    match ClientOf(v, c)
    case None => v
    case Some(i) => v.(sessions := v.sessions[i := v.sessions[i].(fed := v.sessions[i].fed + [data])])
  }

  /** Whether closing the session's connection, if it has one, is allowed. */
  ghost predicate MayClose(v: Server, i: SessionId)
    requires i < |v.sessions|
  {
    v.sessions[i].conn.Some? ==> Enabled(v.port, AppClose(v.sessions[i].conn.value), ORDERLY)
  }

  /** _OnCommandOnDisconnect: the client closes its connection, forgets it and goes back to the pool. */
  function DoDisconnect(v: Server, c: ConnId): (v': Server)
    requires c < |v.port.conns| && (ClientOf(v, c).Some? ==> MayClose(v, ClientOf(v, c).value))
  {
    match ClientOf(v, c)
    case None => v
    case Some(i) =>
      var conn := v.sessions[i].conn;
      var port := if conn.Some? then Apply(v.port, AppClose(conn.value), ORDERLY) else v.port;
      v.(port := port, sessions := v.sessions[i := Session(None, [])], pool := v.pool + [i])
  }

  /** The buffer PopOutputBuffer gives. */
  function NextOut(s: State): (x: Ctx) {
    if s.outPool != [] then s.outPool[0] else Out(s.outCount)
  }

  /** EasySession::SendData does not look whether it has a connection, nor whether the packet fits its buffer. */
  predicate SendFaults(v: Server, i: SessionId, packet: Packet) {
    i < |v.sessions| && (v.sessions[i].conn.None? || PACKET_HEAD + |packet.body| > MAX_OUTPUT_BUFFER)
  }

  /** The call of AsyncSend that SendData ends in. */
  function SendStep(v: Server, c: ConnId, packet: Packet): (a: Step)
    requires Sendable(packet)
  {
    AppSend(Commander(v.port), NextOut(v.port), c, Encode(packet))
  }

  ghost predicate MaySend(v: Server, c: ConnId, packet: Packet)
    requires Sendable(packet)
  {
    Enabled(DoAppPop(v.port), SendStep(v, c, packet), ORDERLY)
  }

  /** _OnCommandSendData: the packet goes into an output buffer and to AsyncSend, which the thread then runs. */
  function DoSendData(v: Server, i: SessionId, packet: Packet): (v': Server)
    requires i < |v.sessions| && !SendFaults(v, i, packet) ==> MaySend(v, v.sessions[i].conn.value, packet)
  {
    if i >= |v.sessions| then v
    else if SendFaults(v, i, packet) then v.(faulted := true)
    else v.(port := Apply(DoAppPop(v.port), SendStep(v, v.sessions[i].conn.value, packet), ORDERLY))
  }

  ghost predicate MayDisconnect(v: Server, i: SessionId)
    requires i < |v.sessions|
  {
    v.sessions[i].conn.Some? ==>
      Enabled(v.port, AppDisconnect(Commander(v.port), v.sessions[i].conn.value), ORDERLY)
  }

  /** _OnCommandDisconnect: AsyncDisconnect on the session's connection; without one the session is only reset. */
  function DoForceDisconnect(v: Server, i: SessionId): (v': Server)
    requires i < |v.sessions| ==> MayDisconnect(v, i)
  {
    if i >= |v.sessions| then v
    else
      match v.sessions[i].conn
      case None => v.(sessions := v.sessions[i := Session(None, [])])
      case Some(c) => v.(port := Apply(v.port, AppDisconnect(Commander(v.port), c), ORDERLY))
  }

  // ---------------------------------------------------------------- steps

  datatype Move =
    | Port(a: Step)      // a step below the server; an upcall pushes its command before it returns
    | Push(cmd: Command) // a command of the application
    | Lock               // the command thread is notified and takes the mutex
    | Process            // one turn of its loop
    | Unlock             // the list is cleared and the mutex released
    | Reply(i: SessionId, packet: Packet) // a handler on the command thread, or its loop, calls SendData of a session

  /** The steps inside which a handler is called. */
  predicate IsUpcall(s: State, a: Step) {
    a.Go? && a.t < |s.threads| &&
    (s.threads[a.t].AcCall? || s.threads[a.t].DiCall? || (s.threads[a.t].RvGot? && s.threads[a.t].data != []))
  }

  /** Whether processing the command keeps to what the network layer asks of its user. */
  ghost predicate MayProcess(v: Server, cmd: Command) {
    match cmd
    case Told(OnConnection(c)) =>
      && Enabled(v.port, AppBind(c, Allocated(v), SESSION_REF_MAX), ORDERLY)
      && forall i | i in v.pool :: i < |v.sessions|
    case Told(OnData(c, _)) => c < |v.port.conns|
    case Told(OnDisconnect(c)) =>
      c < |v.port.conns| && (ClientOf(v, c).Some? ==> MayClose(v, ClientOf(v, c).value))
    case SendData(i, packet) =>
      i < |v.sessions| && !SendFaults(v, i, packet) ==> MaySend(v, v.sessions[i].conn.value, packet)
    case Disconnect(i) => i < |v.sessions| ==> MayDisconnect(v, i)
  }

  /** Steps that only the command thread takes, and only in what it does for a session. */
  predicate Reserved(a: Step) {
    a.AppBind? || a.AppClose? || a.AppSend?
  }

  /** Upcalls wait for the mutex, and OnConnection accepts; sessions send only on the command thread. */
  ghost predicate Can(v: Server, m: Move) {
    && !v.faulted
    && match m
       case Port(a) =>
         && Enabled(v.port, a, ORDERLY) && !Reserved(a)
         && (IsUpcall(v.port, a) ==> !v.draining && a.ok)
       case Push(cmd) => !v.draining && !cmd.Told?
       case Lock => !v.draining
       case Process => v.draining && v.at < |v.list| && Ready(v)
       case Unlock => v.draining && v.at == |v.list|
       case Reply(_, _) => Ready(v)
  }

  /** The command thread is not inside a call that an earlier command has made. */
  predicate Ready(v: Server) {
    Commander(v.port) < |v.port.threads| && v.port.threads[Commander(v.port)].Idle?
  }

  function Handled(v: Server, cmd: Command): (v': Server)
    requires MayProcess(v, cmd)
  {
    match cmd
    case Told(OnConnection(c)) => DoConnect(v, c)
    case Told(OnData(c, data)) => DoData(v, c, data)
    case Told(OnDisconnect(c)) => DoDisconnect(v, c)
    case SendData(i, packet) => DoSendData(v, i, packet)
    case Disconnect(i) => DoForceDisconnect(v, i)
  }

  function DoProcess(v: Server): (v': Server)
    requires v.at < |v.list| && MayProcess(v, v.list[v.at])
  {
    var cmd := v.list[v.at];
    Handled(v, cmd).(at := v.at + 1, done := v.done + [cmd], acts := v.acts + [Act(cmd, true)])
  }

  function DoReply(v: Server, i: SessionId, packet: Packet): (v': Server)
    requires MayProcess(v, SendData(i, packet))
  {
    DoSendData(v, i, packet).(acts := v.acts + [Act(SendData(i, packet), false)])
  }

  function Pushed(v: Server, cmd: Command): (v': Server) {
    v.(list := v.list + [cmd], pushed := v.pushed + [cmd])
  }

  /** A step below the server; if it made an upcall, the upcall has pushed its command. */
  function DoPort(v: Server, a: Step): (v': Server)
    requires Enabled(v.port, a, ORDERLY)
  {
    var port := Apply(v.port, a, ORDERLY);
    var w := v.(port := port);
    if |port.log| > |v.port.log| then Pushed(w, Told(port.log[|v.port.log|])) else w
  }

  ghost predicate ServerNext(v: Server, v': Server) {
    || (exists a: Step :: Can(v, Port(a)) && v' == DoPort(v, a))
    || (exists cmd: Command :: Can(v, Push(cmd)) && v' == Pushed(v, cmd))
    || (Can(v, Lock) && v' == v.(draining := true, at := 0))
    || (Can(v, Process) && MayProcess(v, v.list[v.at]) && v' == DoProcess(v))
    || (Can(v, Unlock) && v' == v.(list := [], draining := false, at := 0))
    || (exists i: SessionId, packet: Packet ::
          Can(v, Reply(i, packet)) && MayProcess(v, SendData(i, packet)) && v' == DoReply(v, i, packet))
  }

  ghost predicate ServerRun(states: seq<Server>) {
    && states != []
    && Start(states[0])
    && (forall i | 0 <= i < |states| - 1 :: ServerNext(states[i], states[i + 1]))
  }

  ghost predicate ServerReachable(v: Server) {
    exists states: seq<Server> :: ServerRun(states) && states[|states| - 1] == v
  }
}
