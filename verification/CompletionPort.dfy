/**
 * The completion-port side of the network layer as a transition system.
 *
 * Worker threads, application threads and the kernel take turns; each step is one interlocked
 * operation, one list operation, one kernel call or one upcall, together with the plain reads and
 * writes the thread makes on data nobody else can reach at that moment.
 */
module CompletionPort {
  import opened Bytes

  type ConnId = nat

  /** An overlapped context: one that receives or one that sends. */
  datatype Ctx = In(id: nat) | Out(id: nat)

  /**
   * Where a connection stands in its life. The code keeps no such field: it is a history variable
   * which no step reads, except to say which calls the application may make.
   */
  datatype Phase =
    | Free       // on the acceptor's free list
    | Claimed    // popped or created by Accept, AcceptEx not yet posted
    | Accepting  // target of the outstanding AcceptEx
    | Starting   // accept completed, first receive reference not yet taken
    | Active     // first receive reference taken, or given up on by the accept branch
    | Closing    // a compare-and-swap on connected_ has won
    | Drained    // the disconnect completion has read a zero reference count
    | Down       // OnDisconnect has been called

  datatype Conn = Conn(
    iorefs: int,
    connected: bool,
    refmax: int,
    checked: int,           // history: the largest limit that let a send pass
    client: Option<nat>,
    discPending: nat,       // DisconnectEx operations the kernel has not completed
    discDone: nat,          // disconnect completions in the port
    phase: Phase,
    live: bool,             // OnConnection has been called, Close has not
    bound: bool,            // the application has taken the connection and not closed it
    arrived: seq<Chunk>,    // non-empty receive payloads of this period, in completion order
    given: seq<Chunk>       // payloads passed to OnData in this period, in call order
  )

  const INITIAL_REF_MAX := 65536

  /** Who called Accept: the branch handling the completion of c, or Start. */
  datatype Caller = Branch(c: ConnId) | Starter

  /** What follows AsyncRecv. */
  datatype After = AfterAccept | AfterRecv

  /** The references a thread still has to give back on a connection. */
  datatype Debt = SendRef | RecvRef | RecvRefAccept | TwoRecvRefs

  /** What follows AsyncDisconnect. */
  datatype Then = ToIdle | ToAccept | ToDebt(d: Debt)

  /** What a thread does next. */
  datatype Pc =
    | Idle
    // EasyAcceptor::Start and EasyAcceptor::Accept
    | StWait
    | PopFree(who: Caller)
    | RefAccept(who: Caller, n: ConnId)
    | PostAccept(who: Caller, n: ConnId)
    // OPERATION_ACCEPT
    | AcUp(c: ConnId)
    | AcCall(c: ConnId)
    | AcCtx(c: ConnId)
    | AcDec
    // OPERATION_RECV and AsyncRecv
    | RvGot(c: ConnId, x: Ctx, data: Chunk)
    | RvInc(c: ConnId, x: Ctx, after: After)
    | RvPost(c: ConnId, x: Ctx, after: After)
    | RvFail(c: ConnId, x: Ctx, after: After)
    // AsyncDisconnect
    | DsCas(c: ConnId, k: Then)
    | DsPost(c: ConnId, k: Then)
    // InterlockedDecrement of iorefs_
    | CnDec(c: ConnId, d: Debt)
    // OPERATION_DISCONNECT
    | DiTest(c: ConnId)
    | DiRepost(c: ConnId)
    | DiCall(c: ConnId)
    // OPERATION_SEND
    | SnGot(c: ConnId, x: Ctx)
    // AsyncSend
    | SdTest(c: ConnId, x: Ctx)
    | SdInc(c: ConnId, x: Ctx)
    | SdPost(c: ConnId, x: Ctx)
    | SdFail(c: ConnId, x: Ctx)
    | SdOver(c: ConnId, x: Ctx)

  /** A receive or send that the kernel holds, or whose completion waits in the port or has been taken. */
  datatype Io =
    | Recv(c: ConnId, x: Ctx, done: bool, data: Chunk)
    | Send(c: ConnId, x: Ctx, done: bool)
    | Taken

  /** Upcalls, in the order in which they are made. */
  datatype Event = OnConnection(c: ConnId) | OnData(c: ConnId, data: Chunk) | OnDisconnect(c: ConnId)

  /** Why a connection is to be disconnected. */
  datatype Cause =
    | Asked                           // the application calls AsyncDisconnect
    | PeerClosed                      // a receive completes without data
    | Refused                         // OnConnection returns false
    | NoContext                       // there is no context for the first receive
    | RecvFailed                      // WSARecv fails
    | SendFailed                      // WSASend fails
    | Crowded(count: int, limit: int) // a send finds more references than the limit

  /** A call of AsyncSend: the thread, the connection and the bytes of the buffer. */
  datatype Shipment = Shipment(t: nat, c: ConnId, bytes: Chunk)

  /** What became of it: operation i, or the limit or WSASend was against it. */
  datatype Fate = Posted(i: nat) | Stopped(count: int, limit: int) | Unsent

  datatype Outcome = Outcome(ship: Shipment, fate: Fate)

  /** What has happened, besides the upcalls. No step reads it. */
  datatype History = History(
    sent: seq<Shipment>,              // calls of AsyncSend
    outcomes: seq<Outcome>,           // of those calls, as they come
    causes: map<ConnId, set<Cause>>,  // reasons to disconnect, since OnConnection
    lost: set<ConnId>                 // connections on which DisconnectEx has failed
  )

  datatype State = State(
    workers: nat,             // threads below this index run WorkerThread, the rest belong to the application
    threads: seq<Pc>,
    conns: seq<Conn>,         // every connection ever created
    free: seq<ConnId>,        // free_connection_, most recently pushed first
    running: bool,
    accRefs: int,             // the acceptor's iorefs_
    ctxConn: ConnId,          // context_.connection_ of the acceptor
    accPending: nat,          // AcceptEx operations the kernel has not completed
    accDone: nat,             // accept completions in the port
    ops: seq<Io>,             // every receive and send ever posted
    inPool: seq<Ctx>,
    outPool: seq<Ctx>,
    held: multiset<Ctx>,           // output contexts the application has popped
    inCount: nat,
    outCount: nat,
    bufs: map<Ctx, Chunk>,         // what the application has put into the output contexts
    log: seq<Event>,
    past: History
  )

  ghost predicate Init(s: State) {
    && s.workers <= |s.threads|
    && (forall t | 0 <= t < |s.threads| :: s.threads[t] == Idle)
    && s.conns == [] && s.free == [] && !s.running && s.accRefs == 0
    && s.accPending == 0 && s.accDone == 0 && s.ops == []
    && s.inPool == [] && s.outPool == [] && s.held == multiset{}
    && s.inCount == 0 && s.outCount == 0 && s.bufs == map[] && s.log == []
    && s.past == NOTHING
  }

  /** One step. `ok` is the outcome of a call that may fail. */
  datatype Step =
    | KernelAccept
    | KernelRecv(i: nat, data: Chunk)
    | KernelSend(i: nat)
    | KernelDisconnect(c: ConnId)
    | TakeAccept(t: nat)
    | TakeIo(t: nat, i: nat)
    | TakeDisconnect(t: nat, c: ConnId)
    | Go(t: nat, ok: bool)
    | AppBind(c: ConnId, client: nat, limit: nat)
    | AppPop
    | AppPush(x: Ctx)
    | AppSend(t: nat, x: Ctx, c: ConnId, bytes: Chunk)
    | AppDisconnect(t: nat, c: ConnId)
    | AppClose(c: ConnId)
    | AppStart(t: nat)
    | AppStop

  // ---------------------------------------------------------------- small updates

  function At(s: State, t: nat, p: Pc): (r: State)
    requires t < |s.threads|
  {
    s.(threads := s.threads[t := p])
  }

  function Set(s: State, c: ConnId, cn: Conn): (r: State)
    requires c < |s.conns|
  {
    s.(conns := s.conns[c := cn])
  }

  // ---------------------------------------------------------------- history

  /** The reasons there have been to disconnect c since its OnConnection. */
  function CausesOf(s: State, c: ConnId): (causes: set<Cause>) {
    if c in s.past.causes then s.past.causes[c] else {}
  }

  function SetCauses(s: State, c: ConnId, causes: set<Cause>): (r: State) {
    s.(past := s.past.(causes := s.past.causes[c := causes]))
  }

  function Blame(s: State, c: ConnId, cause: Cause): (r: State) {
    SetCauses(s, c, CausesOf(s, c) + {cause})
  }

  /** The bytes in an output context. */
  function BufOf(s: State, x: Ctx): (bytes: Chunk) {
    if x in s.bufs then s.bufs[x] else []
  }

  function Settle(s: State, t: nat, c: ConnId, x: Ctx, fate: Fate): (r: State) {
    s.(past := s.past.(outcomes := s.past.outcomes + [Outcome(Shipment(t, c, BufOf(s, x)), fate)]))
  }

  /** Nothing has happened yet. */
  const NOTHING := History([], [], map[], {})

  /** A connection as EasyConnection::Create leaves it. */
  const NewConn := Conn(0, false, INITIAL_REF_MAX, 0, None, 0, 0, Claimed, false, false, [], [])

  // ---------------------------------------------------------------- EasyAcceptor::Accept

  /** Takes a connection from the free list or creates one, and makes it the accept context's connection. */
  function GoPopFree(s: State, t: nat, who: Caller, ok: bool): (r: State)
    requires t < |s.threads| && (forall n | n in s.free :: n < |s.conns|)
  {
    if s.free != [] then
      var n := s.free[0];
      assert n in s.free;
      var s1 := Set(s, n, s.conns[n].(client := None, phase := Claimed));
      At(s1.(free := s.free[1..], ctxConn := n), t, RefAccept(who, n))
    else if ok then
      var n := |s.conns|;
      At(s.(conns := s.conns + [NewConn], ctxConn := n), t, RefAccept(who, n))
    else
      At(s.(running := false), t, AfterAcceptCall(who))
  }

  function AfterAcceptCall(who: Caller): (p: Pc) {
    match who
    case Branch(c) => AcUp(c)
    case Starter => Idle
  }

  function GoRefAccept(s: State, t: nat, who: Caller, n: ConnId): (r: State)
    requires t < |s.threads|
  {
    At(s.(accRefs := s.accRefs + 1), t, PostAccept(who, n))
  }

  /** AcceptEx succeeds or is pending; either way its completion will reach the port. */
  function GoPostAccept(s: State, t: nat, who: Caller, n: ConnId): (r: State)
    requires t < |s.threads| && n < |s.conns|
  {
    At(Set(s, n, s.conns[n].(phase := Accepting)).(accPending := s.accPending + 1), t, AfterAcceptCall(who))
  }

  // ---------------------------------------------------------------- OPERATION_ACCEPT

  function GoAcUp(s: State, t: nat, c: ConnId): (r: State)
    requires t < |s.threads| && c < |s.conns|
  {
    At(Set(s, c, s.conns[c].(connected := true)), t, AcCall(c))
  }

  /** The OnConnection upcall; a handler that refuses leads to AsyncDisconnect. */
  function GoAcCall(s: State, t: nat, c: ConnId, ok: bool): (r: State)
    requires t < |s.threads| && c < |s.conns|
  {
    var cn := s.conns[c].(live := true, arrived := [], given := []);
    var s1 := SetCauses(s.(log := s.log + [OnConnection(c)]), c, if ok then {} else {Refused});
    if ok then At(Set(s1, c, cn), t, AcCtx(c))
    else At(Set(s1, c, cn.(phase := Active)), t, DsCas(c, ToAccept))
  }

  /** PopInputContext: from the pool, or a new context, or none. */
  function GoAcCtx(s: State, t: nat, c: ConnId, ok: bool): (r: State)
    requires t < |s.threads| && c < |s.conns|
  {
    if s.inPool != [] then
      At(s.(inPool := s.inPool[1..]), t, RvInc(c, s.inPool[0], AfterAccept))
    else if ok then
      At(s.(inCount := s.inCount + 1), t, RvInc(c, In(s.inCount), AfterAccept))
    else
      At(Set(Blame(s, c, NoContext), c, s.conns[c].(phase := Active)), t, DsCas(c, ToAccept))
  }

  function GoAcDec(s: State, t: nat): (r: State)
    requires t < |s.threads|
  {
    At(s.(accRefs := s.accRefs - 1), t, Idle)
  }

  // ---------------------------------------------------------------- OPERATION_RECV and AsyncRecv

  /** An empty read returns the context and disconnects; any other is handed to OnData. */
  function GoRvGot(s: State, t: nat, c: ConnId, x: Ctx, data: Chunk): (r: State)
    requires t < |s.threads| && c < |s.conns|
  {
    if data == [] then
      At(Blame(s.(inPool := [x] + s.inPool), c, PeerClosed), t, DsCas(c, ToDebt(RecvRef)))
    else
      var s1 := Set(s, c, s.conns[c].(given := s.conns[c].given + [data]));
      At(s1.(log := s.log + [OnData(c, data)]), t, RvInc(c, x, AfterRecv))
  }

  function GoRvInc(s: State, t: nat, c: ConnId, x: Ctx, after: After): (r: State)
    requires t < |s.threads| && c < |s.conns|
  {
    var cn := s.conns[c];
    var cn1 := cn.(iorefs := cn.iorefs + 1, phase := if after.AfterAccept? then Active else cn.phase);
    At(Set(s, c, cn1), t, RvPost(c, x, after))
  }

  function GoRvPost(s: State, t: nat, c: ConnId, x: Ctx, after: After, ok: bool): (r: State)
    requires t < |s.threads|
  {
    if ok then
      At(s.(ops := s.ops + [Recv(c, x, false, [])]), t,
         if after.AfterAccept? then AcDec else CnDec(c, RecvRef))
    else
      At(Blame(s, c, RecvFailed), t, RvFail(c, x, after))
  }

  function GoRvFail(s: State, t: nat, c: ConnId, x: Ctx, after: After): (r: State)
    requires t < |s.threads|
  {
    At(s.(inPool := [x] + s.inPool), t,
       DsCas(c, ToDebt(if after.AfterAccept? then RecvRefAccept else TwoRecvRefs)))
  }

  // ---------------------------------------------------------------- AsyncDisconnect

  function Resume(c: ConnId, k: Then): (p: Pc) {
    match k
    case ToIdle => Idle
    case ToAccept => AcDec
    case ToDebt(d) => CnDec(c, d)
  }

  /** InterlockedCompareExchange(&connected_, 0, 1) */
  function GoDsCas(s: State, t: nat, c: ConnId, k: Then): (r: State)
    requires t < |s.threads| && c < |s.conns|
  {
    if s.conns[c].connected then
      At(Set(s, c, s.conns[c].(connected := false, phase := Closing)), t, DsPost(c, k))
    else
      At(s, t, Resume(c, k))
  }

  function GoDsPost(s: State, t: nat, c: ConnId, k: Then, ok: bool): (r: State)
    requires t < |s.threads| && c < |s.conns|
  {
    var cn := s.conns[c];
    At(if ok then Set(s, c, cn.(discPending := cn.discPending + 1)) else s.(past := s.past.(lost := s.past.lost + {c})),
       t, Resume(c, k))
  }

  function GoCnDec(s: State, t: nat, c: ConnId, d: Debt): (r: State)
    requires t < |s.threads| && c < |s.conns|
  {
    At(Set(s, c, s.conns[c].(iorefs := s.conns[c].iorefs - 1)), t,
       match d
       case SendRef => Idle
       case RecvRef => Idle
       case RecvRefAccept => AcDec
       case TwoRecvRefs => CnDec(c, RecvRef))
  }

  // ---------------------------------------------------------------- OPERATION_DISCONNECT

  function GoDiTest(s: State, t: nat, c: ConnId): (r: State)
    requires t < |s.threads| && c < |s.conns|
  {
    if s.conns[c].iorefs != 0 then At(s, t, DiRepost(c))
    else At(Set(s, c, s.conns[c].(phase := Drained)), t, DiCall(c))
  }

  function GoDiRepost(s: State, t: nat, c: ConnId): (r: State)
    requires t < |s.threads| && c < |s.conns|
  {
    At(Set(s, c, s.conns[c].(discDone := s.conns[c].discDone + 1)), t, Idle)
  }

  function GoDiCall(s: State, t: nat, c: ConnId): (r: State)
    requires t < |s.threads| && c < |s.conns|
  {
    At(Set(s, c, s.conns[c].(phase := Down)).(log := s.log + [OnDisconnect(c)]), t, Idle)
  }

  // ---------------------------------------------------------------- OPERATION_SEND and AsyncSend

  function Larger(a: int, b: int): (m: int) { if a < b then b else a }

  function GoSnGot(s: State, t: nat, c: ConnId, x: Ctx): (r: State)
    requires t < |s.threads|
  {
    At(s.(outPool := [x] + s.outPool), t, CnDec(c, SendRef))
  }

  function GoSdTest(s: State, t: nat, c: ConnId, x: Ctx): (r: State)
    requires t < |s.threads| && c < |s.conns|
  {
    var cn := s.conns[c];
    if cn.iorefs > cn.refmax then
      At(Settle(Blame(s, c, Crowded(cn.iorefs, cn.refmax)), t, c, x, Stopped(cn.iorefs, cn.refmax)), t, SdOver(c, x))
    else At(Set(s, c, cn.(checked := Larger(cn.checked, cn.refmax))), t, SdInc(c, x))
  }

  function GoSdOver(s: State, t: nat, c: ConnId, x: Ctx): (r: State)
    requires t < |s.threads|
  {
    At(s.(outPool := [x] + s.outPool), t, DsCas(c, ToIdle))
  }

  function GoSdInc(s: State, t: nat, c: ConnId, x: Ctx): (r: State)
    requires t < |s.threads| && c < |s.conns|
  {
    At(Set(s, c, s.conns[c].(iorefs := s.conns[c].iorefs + 1)), t, SdPost(c, x))
  }

  function GoSdPost(s: State, t: nat, c: ConnId, x: Ctx, ok: bool): (r: State)
    requires t < |s.threads|
  {
    if ok then At(Settle(s.(ops := s.ops + [Send(c, x, false)]), t, c, x, Posted(|s.ops|)), t, Idle)
    else At(Settle(Blame(s, c, SendFailed), t, c, x, Unsent), t, SdFail(c, x))
  }

  function GoSdFail(s: State, t: nat, c: ConnId, x: Ctx): (r: State)
    requires t < |s.threads|
  {
    At(s.(outPool := [x] + s.outPool), t, DsCas(c, ToDebt(SendRef)))
  }

  // ---------------------------------------------------------------- the transition relation

  /** The connections a thread's next step may touch exist. */
  predicate PcIds(p: Pc, n: nat) {
    match p
    case Idle => true
    case StWait => true
    case AcDec => true
    case PopFree(who) => who.Branch? ==> who.c < n
    case RefAccept(who, m) => m < n && (who.Branch? ==> who.c < n)
    case PostAccept(who, m) => m < n && (who.Branch? ==> who.c < n)
    case _ => p.c < n
  }

  /** Which of the calls that the code does not withstand are made nevertheless. */
  datatype Policy = Policy(
    early: bool,    // AsyncDisconnect wins before the accept branch has taken its receive reference or given up
    restart: bool,  // Start is entered while another Start is in progress
    hasty: bool,    // Close is called while a thread is inside AsyncSend on the connection
    late: bool      // Close is called while a thread has still to make AsyncDisconnect's compare-and-swap on it
  )

  /** The last rule matters only to why a connection is disconnected. */
  const ORDERLY := Policy(false, false, false, true)

  /** Whether a step can be taken. */
  predicate Enabled(s: State, a: Step, p: Policy) {
    match a
    case KernelAccept => s.accPending > 0
    case KernelRecv(i, data) =>
      i < |s.ops| && s.ops[i].Recv? && !s.ops[i].done && |data| <= MAX_INPUT_BUFFER
    case KernelSend(i) => i < |s.ops| && s.ops[i].Send? && !s.ops[i].done
    case KernelDisconnect(c) => c < |s.conns| && s.conns[c].discPending > 0
    case TakeAccept(t) => t < s.workers && t < |s.threads| && s.threads[t].Idle? && s.accDone > 0
    case TakeIo(t, i) =>
      t < s.workers && t < |s.threads| && s.threads[t].Idle? && i < |s.ops| && !s.ops[i].Taken? && s.ops[i].done
    case TakeDisconnect(t, c) =>
      t < s.workers && t < |s.threads| && s.threads[t].Idle? && c < |s.conns| && s.conns[c].discDone > 0
    case Go(t, ok) =>
      && CanGo(s, t)
      && !s.threads[t].Idle?
      && (s.threads[t].StWait? ==> s.accRefs == 0)
      && (s.threads[t].DsCas? ==>
            var cn := s.conns[s.threads[t].c];
            cn.connected && cn.phase.Starting? ==> p.early)
    case AppBind(c, client, limit) =>
      c < |s.conns| && s.conns[c].live && !s.conns[c].bound && limit < INITIAL_REF_MAX
    case AppPop => true
    case AppPush(x) => x in s.held
    case AppSend(t, x, c, bytes) =>
      && s.workers <= t < |s.threads| && s.threads[t].Idle? && x in s.held
      && c < |s.conns| && s.conns[c].live && |bytes| <= MAX_OUTPUT_BUFFER
    case AppDisconnect(t, c) =>
      s.workers <= t < |s.threads| && s.threads[t].Idle? && c < |s.conns| && s.conns[c].live
    case AppClose(c) =>
      && c < |s.conns| && s.conns[c].bound && s.conns[c].phase.Down?
      && (!p.hasty ==> forall t | 0 <= t < |s.threads| :: !Sending(s.threads[t], c))
      && (!p.late ==> forall t | 0 <= t < |s.threads| :: !Leaving(s.threads[t], c))
    case AppStart(t) =>
      && s.workers <= t < |s.threads| && s.threads[t].Idle? && !s.running
      && (!p.restart ==> forall u | 0 <= u < |s.threads| :: !InStart(s.threads[u]))
    case AppStop => true
  }

  /** The thread is inside AsyncSend on c. */
  predicate Sending(p: Pc, c: ConnId) {
    InSend(p) && p.c == c
  }

  /** The thread is about to make AsyncDisconnect's compare-and-swap on c. */
  predicate Leaving(p: Pc, c: ConnId) {
    p.DsCas? && p.c == c
  }

  predicate InSend(p: Pc) {
    p.SdTest? || p.SdInc? || p.SdPost? || p.SdFail? || p.SdOver?
  }

  /** The thread is inside EasyAcceptor::Start. */
  predicate InStart(p: Pc) {
    p.StWait? || ((p.PopFree? || p.RefAccept? || p.PostAccept?) && p.who.Starter?)
  }

  /** What a thread's next step touches exists. */
  predicate CanGo(s: State, t: nat) {
    t < |s.threads| && PcIds(s.threads[t], |s.conns|) && forall n | n in s.free :: n < |s.conns|
  }

  /** The step a thread takes from its program counter. */
  function Advance(s: State, t: nat, ok: bool): (r: State)
    requires CanGo(s, t)
  {
    match s.threads[t]
    case Idle => s
    case StWait => At(s, t, PopFree(Starter))
    case PopFree(who) => GoPopFree(s, t, who, ok)
    case RefAccept(who, n) => GoRefAccept(s, t, who, n)
    case PostAccept(who, n) => GoPostAccept(s, t, who, n)
    case AcUp(c) => GoAcUp(s, t, c)
    case AcCall(c) => GoAcCall(s, t, c, ok)
    case AcCtx(c) => GoAcCtx(s, t, c, ok)
    case AcDec => GoAcDec(s, t)
    case RvGot(c, x, data) => GoRvGot(s, t, c, x, data)
    case RvInc(c, x, after) => GoRvInc(s, t, c, x, after)
    case RvPost(c, x, after) => GoRvPost(s, t, c, x, after, ok)
    case RvFail(c, x, after) => GoRvFail(s, t, c, x, after)
    case DsCas(c, k) => GoDsCas(s, t, c, k)
    case DsPost(c, k) => GoDsPost(s, t, c, k, ok)
    case CnDec(c, d) => GoCnDec(s, t, c, d)
    case DiTest(c) => GoDiTest(s, t, c)
    case DiRepost(c) => GoDiRepost(s, t, c)
    case DiCall(c) => GoDiCall(s, t, c)
    case SnGot(c, x) => GoSnGot(s, t, c, x)
    case SdTest(c, x) => GoSdTest(s, t, c, x)
    case SdInc(c, x) => GoSdInc(s, t, c, x)
    case SdPost(c, x) => GoSdPost(s, t, c, x, ok)
    case SdFail(c, x) => GoSdFail(s, t, c, x)
    case SdOver(c, x) => GoSdOver(s, t, c, x)
  }

  function DoKernelRecv(s: State, i: nat, data: Chunk): (r: State)
    requires i < |s.ops| && s.ops[i].Recv?
  {
    var c := s.ops[i].c;
    var s1 := s.(ops := s.ops[i := s.ops[i].(done := true, data := data)]);
    if data == [] || c >= |s.conns| then s1
    else Set(s1, c, s.conns[c].(arrived := s.conns[c].arrived + [data]))
  }

  function DoTakeIo(s: State, t: nat, i: nat): (r: State)
    requires t < |s.threads| && i < |s.ops| && !s.ops[i].Taken?
  {
    At(s.(ops := s.ops[i := Taken]), t,
       match s.ops[i]
       case Recv(c, x, _, data) => RvGot(c, x, data)
       case Send(c, x, _) => SnGot(c, x))
  }

  function DoKernelDisconnect(s: State, c: ConnId): (r: State)
    requires c < |s.conns| && s.conns[c].discPending > 0
  {
    var cn := s.conns[c];
    Set(s, c, cn.(discPending := cn.discPending - 1, discDone := cn.discDone + 1))
  }

  function DoTakeAccept(s: State, t: nat): (r: State)
    requires t < |s.threads| && s.accDone > 0
  {
    var s1 := At(s.(accDone := s.accDone - 1), t, PopFree(Branch(s.ctxConn)));
    if s.ctxConn < |s.conns| then Set(s1, s.ctxConn, s.conns[s.ctxConn].(phase := Starting)) else s1
  }

  function DoTakeDisconnect(s: State, t: nat, c: ConnId): (r: State)
    requires t < |s.threads| && c < |s.conns| && s.conns[c].discDone > 0
  {
    At(Set(s, c, s.conns[c].(discDone := s.conns[c].discDone - 1)), t, DiTest(c))
  }

  /** SetClient and SetRefMax: the application takes the connection. */
  function DoAppBind(s: State, c: ConnId, client: nat, limit: nat): (r: State)
    requires c < |s.conns|
  {
    Set(s, c, s.conns[c].(bound := true, client := Some(client), refmax := limit))
  }

  function DoAppSend(s: State, t: nat, x: Ctx, c: ConnId, bytes: Chunk): (r: State)
    requires t < |s.threads|
  {
    var past := s.past.(sent := s.past.sent + [Shipment(t, c, bytes)]);
    At(s.(held := s.held - multiset{x}, bufs := s.bufs[x := bytes], past := past), t, SdTest(c, x))
  }

  function DoAppDisconnect(s: State, t: nat, c: ConnId): (r: State)
    requires t < |s.threads|
  {
    At(Blame(s, c, Asked), t, DsCas(c, ToIdle))
  }

  /** PopOutputBuffer */
  function DoAppPop(s: State): (r: State) {
    if s.outPool != [] then s.(outPool := s.outPool[1..], held := s.held + multiset{s.outPool[0]})
    else s.(outCount := s.outCount + 1, held := s.held + multiset{Out(s.outCount)})
  }

  /** EasyConnection::Close by the application, after which it no longer uses the connection. */
  function DoAppClose(s: State, c: ConnId): (r: State)
    requires c < |s.conns|
  {
    var cn := s.conns[c].(bound := false, live := false);
    if cn.iorefs != 0 || cn.connected then Set(s, c, cn)
    else Set(s, c, cn.(phase := Free)).(free := [c] + s.free)
  }

  function Apply(s: State, a: Step, p: Policy): (r: State)
    requires Enabled(s, a, p)
  {
    match a
    case KernelAccept => s.(accPending := s.accPending - 1, accDone := s.accDone + 1)
    case KernelRecv(i, data) => DoKernelRecv(s, i, data)
    case KernelSend(i) => s.(ops := s.ops[i := s.ops[i].(done := true)])
    case KernelDisconnect(c) => DoKernelDisconnect(s, c)
    case TakeAccept(t) => DoTakeAccept(s, t)
    case TakeIo(t, i) => DoTakeIo(s, t, i)
    case TakeDisconnect(t, c) => DoTakeDisconnect(s, t, c)
    case Go(t, ok) => Advance(s, t, ok)
    case AppBind(c, client, limit) => DoAppBind(s, c, client, limit)
    case AppPop => DoAppPop(s)
    case AppPush(x) => s.(held := s.held - multiset{x}, outPool := [x] + s.outPool)
    case AppSend(t, x, c, bytes) => DoAppSend(s, t, x, c, bytes)
    case AppDisconnect(t, c) => DoAppDisconnect(s, t, c)
    case AppClose(c) => DoAppClose(s, c)
    case AppStart(t) => At(s.(running := true), t, StWait)
    case AppStop => s.(running := false)
  }

  ghost predicate Next(s: State, s': State, p: Policy) {
    exists a: Step :: Enabled(s, a, p) && s' == Apply(s, a, p)
  }

  /** The states of a run, oldest first. */
  ghost predicate Run(states: seq<State>, p: Policy) {
    && states != []
    && Init(states[0])
    && (forall i | 0 <= i < |states| - 1 :: Next(states[i], states[i + 1], p))
  }

  ghost predicate Reachable(s: State, p: Policy) {
    exists states: seq<State> :: Run(states, p) && states[|states| - 1] == s
  }
}
