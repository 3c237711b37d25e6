/**
 * The two ways the Linux connection writes to its socket: SendMessage(len, buffer), called by any thread behind a
 * semaphore, and SendMessage(), called when EPOLLOUT fires to write what the first could not. A step is one
 * semaphore operation, one send, or the plain writes between two of these.
 *
 * send returns between 1 and the number of bytes asked for, or -1 with EAGAIN; EPOLLOUT fires only while it is
 * registered; and nobody touches a caller's buffer until its message has left the semaphore.
 */
module LinuxSend {
  import opened Bytes

  /** Where a thread is in SendMessage(len, buffer). */
  datatype Pc =
    | Idle
    | Wait(msg: seq<byte>)      // sem_wait
    | Write                     // send
    | Clear                     // everything was written
    | Post                      // sem_post

  /** Where the epoll thread is in SendMessage(), with its own pointer and total. */
  datatype Drain = Quiet | Flush(left: seq<byte>) | Reset | Release

  /** A call of SendMessage(len, buffer). */
  datatype Calling = Calling(t: nat, msg: seq<byte>)

  /** A call that got past the semaphore: what has been written of it, and whether the rest was dropped. */
  datatype Entry = Entry(t: nat, msg: seq<byte>, sent: nat, cut: bool)

  /** Who holds the semaphore; a history variable, as are the calls and the entries. */
  datatype Owner = Nobody | Thread(t: nat) | Parked | Epoll

  datatype State = State(
    sem: nat,
    threads: seq<Pc>,
    drain: Drain,
    armed: bool,                // EPOLLOUT is registered
    buffer: seq<byte>,          // send_context_: len_ bytes from buffer_
    wire: seq<byte>,            // what the socket has taken
    calls: seq<Calling>,
    entries: seq<Entry>,
    owner: Owner
  )

  ghost predicate Init(s: State) {
    && s.sem == 1 && (forall t | 0 <= t < |s.threads| :: s.threads[t] == Idle)
    && s.drain == Quiet && !s.armed && s.buffer == [] && s.wire == [] && s.calls == [] && s.entries == []
        && s.owner == Nobody
  }

  datatype Outcome = Wrote(n: nat) | Again

  datatype Step =
    | Call(t: nat, msg: seq<byte>)
    | Acquire(t: nat)
    | Send(t: nat, r: Outcome)
    | ClearContext(t: nat)
    | PostBy(t: nat)
    | Fire                            // EPOLLOUT: SendMessage() starts
    | Drained(r: Outcome)
    | ResetContext
    | PostByEpoll

  predicate Possible(r: Outcome, len: nat) {
    r.Wrote? ==> 1 <= r.n <= len
  }

  predicate Enabled(s: State, a: Step) {
    match a
    case Call(t, msg) => t < |s.threads| && s.threads[t].Idle? && msg != []
    case Acquire(t) => t < |s.threads| && s.threads[t].Wait? && s.sem > 0
    case Send(t, r) => t < |s.threads| && s.threads[t].Write? && Possible(r, |s.buffer|)
    case ClearContext(t) => t < |s.threads| && s.threads[t].Clear?
    case PostBy(t) => t < |s.threads| && s.threads[t].Post?
    case Fire => s.armed && s.drain.Quiet?
    case Drained(r) => s.drain.Flush? && Possible(r, |s.drain.left|)
    case ResetContext => s.drain.Reset?
    case PostByEpoll => s.drain.Release?
  }

  function At(s: State, t: nat, p: Pc): (r: State)
    requires t < |s.threads|
  {
    s.(threads := s.threads[t := p])
  }

  /** The socket takes n bytes of the message in progress. */
  function Took(s: State, bytes: seq<byte>): (r: State) {
    if s.entries == [] then s.(wire := s.wire + bytes)
    else
      var last := s.entries[|s.entries| - 1];
      s.(wire := s.wire + bytes, entries := s.entries[|s.entries| - 1 := last.(sent := last.sent + |bytes|)])
  }

  /** What is left of the message in progress is dropped. */
  function Cut(s: State): (r: State) {
    if s.entries == [] then s
    else
      var last := s.entries[|s.entries| - 1];
      s.(entries := s.entries[|s.entries| - 1 := last.(cut := true)])
  }

  function DoSend(s: State, t: nat, r: Outcome): (s': State)
    requires t < |s.threads| && Possible(r, |s.buffer|)
  {
    match r
    case Again => At(s.(armed := true, owner := Parked), t, Idle)
    case Wrote(n) =>
      var s1 := Took(s, s.buffer[..n]);
      if n == |s.buffer| then At(s1, t, Clear) else s1.(buffer := s.buffer[n..])
  }

  function DoDrained(s: State, r: Outcome): (s': State)
    requires s.drain.Flush? && Possible(r, |s.drain.left|)
  {
    var left := s.drain.left;
    match r
    case Again => Cut(s).(drain := Reset)
    case Wrote(n) => Took(s, left[..n]).(drain := if n == |left| then Reset else Flush(left[n..]))
  }

  function Apply(s: State, a: Step): (s': State)
    requires Enabled(s, a)
  {
    match a
    case Call(t, msg) => At(s.(calls := s.calls + [Calling(t, msg)]), t, Wait(msg))
    case Acquire(t) =>
      var msg := s.threads[t].msg;
      var entry := Entry(t, msg, 0, false);
      At(s.(sem := s.sem - 1, buffer := msg, entries := s.entries + [entry], owner := Thread(t)), t, Write)
    case Send(t, r) => DoSend(s, t, r)
    case ClearContext(t) => At(s.(buffer := []), t, Post)
    case PostBy(t) => At(s.(sem := s.sem + 1, owner := Nobody), t, Idle)
    case Fire => if s.buffer == [] then s else s.(drain := Flush(s.buffer), owner := Epoll)
    case Drained(r) => DoDrained(s, r)
    case ResetContext => s.(buffer := [], armed := false, drain := Release)
    case PostByEpoll => s.(sem := s.sem + 1, drain := Quiet, owner := Nobody)
  }

  /** `again`: whether the drain can meet EAGAIN. */
  ghost predicate Next(s: State, s': State, again: bool) {
    exists a: Step :: Enabled(s, a) && (a == Drained(Again) ==> again) && s' == Apply(s, a)
  }

  ghost predicate Run(states: seq<State>, again: bool) {
    && states != [] && Init(states[0])
    && (forall i | 0 <= i < |states| - 1 :: Next(states[i], states[i + 1], again))
  }

  ghost predicate Reachable(s: State, again: bool) {
    exists states: seq<State> :: Run(states, again) && states[|states| - 1] == s
  }

  // ---------------------------------------------------------------- the wire

  predicate EntryOk(e: Entry) {
    e.sent <= |e.msg| && (e.cut ==> e.sent < |e.msg|)
  }

  /** Nothing more will be written of it. */
  predicate Over(e: Entry) {
    e.sent == |e.msg| || e.cut
  }

  /** The part of the message that was written. */
  function Part(e: Entry): (s: seq<byte>) {
    if e.sent <= |e.msg| then e.msg[..e.sent] else e.msg
  }

  /** The parts of the first n messages one after the other. */
  function Written(entries: seq<Entry>, n: nat): (s: seq<byte>)
    requires n <= |entries|
  {
    if n == 0 then [] else Written(entries, n - 1) + Part(entries[n - 1])
  }

  /** What remains to be written of the message in progress. */
  function Rest(e: Entry): (s: seq<byte>)
    requires EntryOk(e)
  {
    if e.cut then [] else e.msg[e.sent..]
  }

  /** One writer at a time. */
  ghost predicate Turns(s: State) {
    && s.sem == (if s.owner.Nobody? then 1 else 0)
    && (forall t | 0 <= t < |s.threads| ::
          (s.threads[t].Write? || s.threads[t].Clear? || s.threads[t].Post?) <==> s.owner == Thread(t))
    && (s.owner.Thread? ==> s.owner.t < |s.threads|)
    && (forall t | 0 <= t < |s.threads| && s.threads[t].Wait? :: s.threads[t].msg != [])
    && (!s.drain.Quiet? <==> s.owner.Epoll?)
    && (s.armed <==> s.owner.Parked? || s.drain.Flush? || s.drain.Reset?)
  }

  /** The wire carries the parts, and only the last message may have more to come. */
  ghost predicate Wired(entries: seq<Entry>, wire: seq<byte>) {
    && (forall i | 0 <= i < |entries| :: EntryOk(entries[i]))
    && (forall i | 0 <= i < |entries| - 1 :: Over(entries[i]))
    && wire == Written(entries, |entries|)
  }

  ghost predicate Inv(s: State) {
    && Turns(s) && Wired(s.entries, s.wire)
    && (!s.owner.Nobody? ==> s.entries != [])
    && (s.entries != [] ==> Progress(s, s.entries[|s.entries| - 1]))
  }

  ghost predicate Progress(s: State, e: Entry) {
    match s.owner
    case Nobody => Over(e)
    case Thread(t) =>
      t < |s.threads| && EntryOk(e) && !e.cut
      && (if s.threads[t].Write? then s.buffer == Rest(e) && s.buffer != [] else e.sent == |e.msg|)
    case Parked => EntryOk(e) && !e.cut && s.buffer == Rest(e) && s.buffer != []
    case Epoll =>
      if s.drain.Flush? then EntryOk(e) && !e.cut && s.drain.left == Rest(e) && s.drain.left != [] else Over(e)
  }

  // ---------------------------------------------------------------- every step keeps the invariant

  lemma {:induction false} WrittenSame(a: seq<Entry>, b: seq<Entry>, n: nat)
    requires n <= |a| && n <= |b| && forall i | 0 <= i < n :: Part(a[i]) == Part(b[i])
    ensures Written(a, n) == Written(b, n)
  {
    if n > 0 { WrittenSame(a, b, n - 1); }
  }

  lemma PartGrows(e: Entry, n: nat)
    requires EntryOk(e) && !e.cut && n <= |Rest(e)|
    ensures var e' := e.(sent := e.sent + n);
      && Part(e') == Part(e) + Rest(e)[..n] && EntryOk(e') && Rest(e') == Rest(e)[n..]
      && (n == |Rest(e)| ==> e'.sent == |e'.msg|)
  {
  }

  lemma Appended(a: seq<byte>, b: seq<byte>, c: seq<byte>)
    ensures (a + b) + c == a + (b + c)
  {
  }

  /** The last message's part grows by the bytes that the wire grows by. */
  lemma WiredMore(entries: seq<Entry>, wire: seq<byte>, e: Entry, bytes: seq<byte>)
    requires entries != [] && Wired(entries, wire) && EntryOk(e) && Part(e) == Part(entries[|entries| - 1]) + bytes
    ensures Wired(entries[|entries| - 1 := e], wire + bytes)
  {
    hide Part, EntryOk, Over;
    var last := |entries| - 1;
    var longer := entries[last := e];
    WrittenSame(entries, longer, last);
    assert Written(longer, last + 1) == Written(longer, last) + Part(e);
    Appended(Written(entries, last), Part(entries[last]), bytes);
    hide Written;
  }

  /** Writing the next bytes of the last message appends them to the wire. */
  lemma TookOk(s: State, n: nat)
    requires s.entries != [] && Wired(s.entries, s.wire)
    requires var e := s.entries[|s.entries| - 1]; EntryOk(e) && !e.cut && n <= |Rest(e)|
    ensures var e := s.entries[|s.entries| - 1];
      var s' := Took(s, Rest(e)[..n]);
      && s' == s.(wire := s'.wire, entries := s'.entries)
      && |s'.entries| == |s.entries| && Wired(s'.entries, s'.wire)
      && var e' := s'.entries[|s'.entries| - 1];
        EntryOk(e') && !e'.cut && Rest(e') == Rest(e)[n..] && (n == |Rest(e)| ==> e'.sent == |e'.msg|)
  {
    hide Wired, EntryOk, Rest, Part;
    var last := |s.entries| - 1;
    var e := s.entries[last];
    PartGrows(e, n);
    WiredMore(s.entries, s.wire, e.(sent := e.sent + n), Rest(e)[..n]);
  }

  lemma KeepAcquire(s: State, t: nat)
    requires Inv(s) && Enabled(s, Acquire(t))
    ensures Inv(Apply(s, Acquire(t)))
  {
    var s' := Apply(s, Acquire(t));
    var n := |s.entries|;
    WrittenSame(s.entries, s'.entries, n);
    assert Written(s'.entries, n + 1) == Written(s.entries, n) + [];
    assert s'.entries[n].msg[0..] == s'.entries[n].msg;
  }

  /** After a write by thread t: the rest is still to be written, or it was the last. */
  lemma Sent(s: State, s1: State, t: nat, n: nat)
    requires Turns(s) && s.owner == Thread(t) && t < |s.threads| && s.threads[t].Write? && n <= |s.buffer|
    requires s1 == s.(wire := s1.wire, entries := s1.entries) && s1.entries != [] && Wired(s1.entries, s1.wire)
    requires var e := s1.entries[|s1.entries| - 1];
      EntryOk(e) && !e.cut && Rest(e) == s.buffer[n..] && (n == |s.buffer| ==> e.sent == |e.msg|)
    ensures Inv(if n == |s.buffer| then At(s1, t, Clear) else s1.(buffer := s.buffer[n..]))
  {
    hide Wired, EntryOk, Rest;
    var s' := if n == |s.buffer| then At(s1, t, Clear) else s1.(buffer := s.buffer[n..]);
    assert Turns(s');
    hide Turns;
  }

  lemma Blocked(s: State, t: nat)
    requires Inv(s) && s.owner == Thread(t) && t < |s.threads| && s.threads[t].Write?
    ensures Inv(At(s.(armed := true, owner := Parked), t, Idle))
  {
    hide Wired, EntryOk, Rest;
    assert Turns(At(s.(armed := true, owner := Parked), t, Idle));
    hide Turns;
  }

  lemma KeepSend(s: State, t: nat, r: Outcome)
    requires Inv(s) && Enabled(s, Send(t, r))
    ensures Inv(Apply(s, Send(t, r)))
  {
    assert s.owner == Thread(t);
    match r {
      case Again => Blocked(s, t);
      case Wrote(n) =>
        var e := s.entries[|s.entries| - 1];
        assert s.buffer == Rest(e) && EntryOk(e) && !e.cut;
        hide EntryOk, Rest, Took, Wired, Turns, Inv;
        TookOk(s, n);
        Sent(s, Took(s, s.buffer[..n]), t, n);
    }
  }

  lemma KeepDrained(s: State, r: Outcome)
    requires Inv(s) && Enabled(s, Drained(r))
    ensures Inv(Apply(s, Drained(r)))
  {
    assert s.owner == Epoll;
    var e := s.entries[|s.entries| - 1];
    assert s.drain.left == Rest(e) && EntryOk(e) && !e.cut;
    hide EntryOk, Rest, Took;
    if r.Wrote? { TookOk(s, r.n); } else { CutOk(s); }
    hide Wired;
  }

  lemma CutOk(s: State)
    requires s.entries != [] && Wired(s.entries, s.wire)
    requires var e := s.entries[|s.entries| - 1]; EntryOk(e) && !e.cut && Rest(e) != []
    ensures var s' := Cut(s);
      |s'.entries| == |s.entries| && Wired(s'.entries, s'.wire) && s'.entries[|s'.entries| - 1].cut
  {
    WrittenSame(s.entries, Cut(s).entries, |s.entries|);
    hide Written;
  }

  lemma KeepThread(s: State, a: Step)
    requires Inv(s) && Enabled(s, a) && (a.Call? || a.ClearContext? || a.PostBy?)
    ensures Inv(Apply(s, a))
  {
    hide Wired, EntryOk, Rest;
  }

  lemma KeepEpoll(s: State, a: Step)
    requires Inv(s) && Enabled(s, a) && (a.Fire? || a.ResetContext? || a.PostByEpoll?)
    ensures Inv(Apply(s, a))
  {
    hide Wired, EntryOk, Rest;
  }

  lemma KeepApply(s: State, a: Step)
    requires Inv(s) && Enabled(s, a)
    ensures Inv(Apply(s, a))
  {
    hide Inv, Enabled, Apply;
    match a {
      case Acquire(t) => KeepAcquire(s, t);
      case Send(t, r) => KeepSend(s, t, r);
      case Drained(r) => KeepDrained(s, r);
      case Call(_, _) => KeepThread(s, a);
      case ClearContext(_) => KeepThread(s, a);
      case PostBy(_) => KeepThread(s, a);
      case _ => KeepEpoll(s, a);
    }
  }

  lemma {:induction false} RunInv(states: seq<State>, n: nat, again: bool)
    requires Run(states, again) && n < |states|
    ensures Inv(states[n])
  {
    hide Inv, Next;
    if n == 0 {
      InitInv(states[0]);
    } else {
      RunInv(states, n - 1, again);
      assert Next(states[n - 1], states[n - 1 + 1], again);
      KeepNext(states[n - 1], states[n], again);
    }
  }

  lemma InitInv(s: State)
    requires Init(s)
    ensures Inv(s)
  {
  }

  lemma KeepNext(s: State, s': State, again: bool)
    requires Inv(s) && Next(s, s', again)
    ensures Inv(s')
  {
    hide Inv;
    var a :| Enabled(s, a) && s' == Apply(s, a);
    KeepApply(s, a);
  }

  lemma SemaphoreFree(s: State)
    requires Inv(s)
    ensures s.sem > 0 ==> s.owner.Nobody?
  {
    hide Wired, Progress;
  }

  lemma WireFacts(s: State)
    requires Inv(s)
    ensures s.wire == Written(s.entries, |s.entries|)
    ensures forall i | 0 <= i < |s.entries| :: EntryOk(s.entries[i])
    ensures forall i | 0 <= i < |s.entries| && (i < |s.entries| - 1 || s.owner.Nobody?) :: Over(s.entries[i])
  {
    hide Turns, Written, EntryOk, Over;
  }

  /**
   * In every interleaving the bytes on the wire are the parts of the messages in semaphore order, never
   * interleaved; each part is the whole message, unless the message is the last and still in progress, or the
   * drain met EAGAIN again and dropped what was left of it.
   */
  lemma WireIntegrity(s: State, again: bool)
    requires Reachable(s, again)
    ensures s.wire == Written(s.entries, |s.entries|)
    ensures forall i | 0 <= i < |s.entries| :: s.entries[i].sent <= |s.entries[i].msg|
    ensures forall i | 0 <= i < |s.entries| && (i < |s.entries| - 1 || s.sem > 0) ::
      s.entries[i].sent == |s.entries[i].msg| <==> !s.entries[i].cut
    ensures forall i | 0 <= i < |s.entries| && !s.entries[i].cut && s.entries[i].sent < |s.entries[i].msg| ::
      i == |s.entries| - 1 && s.sem == 0
  {
    hide Inv;
    var states :| Run(states, again) && states[|states| - 1] == s;
    RunInv(states, |states| - 1, again);
    hide Run, Reachable;
    SemaphoreFree(s);
    WireFacts(s);
  }

  /** At most one thread is past the semaphore, and none while a message waits for EPOLLOUT or is being drained. */
  lemma OneWriter(s: State, t: nat, again: bool)
    requires Reachable(s, again) && t < |s.threads| && (s.threads[t].Write? || s.threads[t].Clear?
        || s.threads[t].Post?)
    ensures s.sem == 0 && s.drain.Quiet? && !s.armed
    ensures forall u | 0 <= u < |s.threads| && u != t :: s.threads[u].Idle? || s.threads[u].Wait?
  {
    var states :| Run(states, again) && states[|states| - 1] == s;
    RunInv(states, |states| - 1, again);
    hide Run, Reachable, Written;
    assert s.owner == Thread(t);
  }

  /** A message that met EAGAIN will be drained: EPOLLOUT is registered and the context still holds the rest. */
  lemma ParkedIsDrained(s: State, again: bool)
    requires Reachable(s, again) && s.sem == 0
    requires forall t | 0 <= t < |s.threads| :: s.threads[t].Idle? || s.threads[t].Wait?
    ensures s.entries != [] && (s.drain.Quiet? ==>
      var e := s.entries[|s.entries| - 1];
      s.armed && e.sent < |e.msg| && s.buffer == e.msg[e.sent..])
  {
    var states :| Run(states, again) && states[|states| - 1] == s;
    RunInv(states, |states| - 1, again);
    hide Run, Reachable, Written;
    OwnerBusy(s);
  }

  lemma OwnerBusy(s: State)
    requires Inv(s)
    ensures s.owner.Thread? ==>
      var t := s.owner.t;
      t < |s.threads| && (s.threads[t].Write? || s.threads[t].Clear? || s.threads[t].Post?)
  {
    hide Written;
  }

  // ---------------------------------------------------------------- whose messages they are

  /** The messages of thread t. */
  function Of(calls: seq<Calling>, t: nat): (msgs: seq<seq<byte>>) {
    if calls == [] then []
    else
      var last := calls[|calls| - 1];
      Of(calls[..|calls| - 1], t) + if last.t == t then [last.msg] else []
  }

  /** The calls that got past the semaphore. */
  function Past(entries: seq<Entry>): (calls: seq<Calling>)
    ensures |calls| == |entries| && forall k | 0 <= k < |calls| :: calls[k] == Calling(entries[k].t, entries[k].msg)
  {
    seq(|entries|, k requires 0 <= k < |entries| => Calling(entries[k].t, entries[k].msg))
  }

  function Waiting(s: State, t: nat): (msgs: seq<seq<byte>>) {
    if t < |s.threads| && s.threads[t].Wait? then [s.threads[t].msg] else []
  }

  ghost predicate Truthful(s: State) {
    forall t: nat :: Of(s.calls, t) == Of(Past(s.entries), t) + Waiting(s, t)
  }

  lemma OfMore(calls: seq<Calling>, call: Calling, t: nat)
    ensures Of(calls + [call], t) == Of(calls, t) + if call.t == t then [call.msg] else []
  {
    assert (calls + [call])[..|calls|] == calls;
  }

  /** The entries are those of the same calls. */
  ghost predicate SamePast(s: State, s': State) {
    |s'.entries| == |s.entries|
    && forall k | 0 <= k < |s.entries| :: s'.entries[k].t == s.entries[k].t && s'.entries[k].msg == s.entries[k].msg
  }

  lemma KeepSame(s: State, s': State)
    requires Truthful(s) && s'.calls == s.calls && SamePast(s, s') && forall t: nat :: Waiting(s', t) == Waiting(s, t)
    ensures Truthful(s')
  {
    hide Of, Waiting;
    assert Past(s'.entries) == Past(s.entries);
  }

  lemma TruthfulCall(s: State, t: nat, msg: seq<byte>)
    requires Truthful(s) && Enabled(s, Call(t, msg))
    ensures Truthful(Apply(s, Call(t, msg)))
  {
    hide Of;
    var s' := Apply(s, Call(t, msg));
    forall u: nat ensures Of(s'.calls, u) == Of(Past(s'.entries), u) + Waiting(s', u) {
      OfMore(s.calls, Calling(t, msg), u);
    }
  }

  lemma TruthfulAcquire(s: State, t: nat)
    requires Truthful(s) && Enabled(s, Acquire(t))
    ensures Truthful(Apply(s, Acquire(t)))
  {
    hide Of;
    var s', msg := Apply(s, Acquire(t)), s.threads[t].msg;
    assert Past(s'.entries) == Past(s.entries) + [Calling(t, msg)];
    forall u: nat ensures Of(s'.calls, u) == Of(Past(s'.entries), u) + Waiting(s', u) {
      OfMore(Past(s.entries), Calling(t, msg), u);
    }
  }

  lemma SameEntries(s: State, bytes: seq<byte>)
    ensures SamePast(s, Took(s, bytes)) && SamePast(s, Cut(s))
    ensures Took(s, bytes) == s.(wire := s.wire + bytes, entries := Took(s, bytes).entries)
    ensures Cut(s) == s.(entries := Cut(s).entries)
  {
  }

  lemma TruthfulSend(s: State, t: nat, r: Outcome)
    requires Truthful(s) && Enabled(s, Send(t, r))
    ensures Truthful(Apply(s, Send(t, r)))
  {
    var s' := Apply(s, Send(t, r));
    SameEntries(s, if r.Wrote? then s.buffer[..r.n] else []);
    hide Took;
    assert SamePast(s, s') && s'.calls == s.calls;
    hide SamePast, Truthful;
    KeepSame(s, s');
  }

  lemma TruthfulDrain(s: State, r: Outcome)
    requires Truthful(s) && Enabled(s, Drained(r))
    ensures Truthful(Apply(s, Drained(r)))
  {
    var s' := Apply(s, Drained(r));
    SameEntries(s, if r.Wrote? then s.drain.left[..r.n] else []);
    hide Took, Cut;
    assert SamePast(s, s') && s'.calls == s.calls;
    hide SamePast, Truthful;
    KeepSame(s, s');
  }

  lemma TruthfulElse(s: State, a: Step)
    requires Truthful(s) && Enabled(s, a) && !a.Call? && !a.Acquire? && !a.Send? && !a.Drained?
    ensures Truthful(Apply(s, a))
  {
    hide Truthful;
    KeepSame(s, Apply(s, a));
  }

  lemma NextTruthful(s: State, s': State, again: bool)
    requires Truthful(s) && Next(s, s', again)
    ensures Truthful(s')
  {
    hide Truthful, Enabled, Apply;
    var a :| Enabled(s, a) && s' == Apply(s, a);
    match a {
      case Call(t, msg) => TruthfulCall(s, t, msg);
      case Acquire(t) => TruthfulAcquire(s, t);
      case Send(t, r) => TruthfulSend(s, t, r);
      case Drained(r) => TruthfulDrain(s, r);
      case _ => TruthfulElse(s, a);
    }
  }

  lemma {:induction false} RunTruthful(states: seq<State>, n: nat, again: bool)
    requires Run(states, again) && n < |states|
    ensures Truthful(states[n])
  {
    hide Next;
    if n == 0 {
      assert Truthful(states[0]);
    } else {
      hide Truthful, Init;
      RunTruthful(states, n - 1, again);
      assert Next(states[n - 1], states[n - 1 + 1], again);
      NextTruthful(states[n - 1], states[n], again);
    }
  }

  /**
   * The messages on the wire are the callers': those of a thread, in the order of the semaphore, and then the one it
   * waits with, are the messages it called SendMessage with, in the order of its calls.
   */
  lemma CallersMessages(s: State, t: nat, again: bool)
    requires Reachable(s, again)
    ensures Of(s.calls, t) == Of(Past(s.entries), t) + Waiting(s, t)
  {
    hide Truthful;
    var states :| Run(states, again) && states[|states| - 1] == s;
    RunTruthful(states, |states| - 1, again);
    assert Truthful(s) ==> Of(s.calls, t) == Of(Past(s.entries), t) + Waiting(s, t) by { TruthfulOf(s, t); }
  }

  lemma TruthfulOf(s: State, t: nat)
    ensures Truthful(s) ==> Of(s.calls, t) == Of(Past(s.entries), t) + Waiting(s, t)
  {
    hide Of, Past, Waiting;
  }

  // ---------------------------------------------------------------- writing in pieces

  function Total(pieces: seq<nat>): (n: nat) {
    if pieces == [] then 0 else pieces[0] + Total(pieces[1..])
  }

  /** Thread t's sends take the given numbers of bytes, one after the other. */
  ghost predicate SendsTake(s: State, t: nat, pieces: seq<nat>, s': State)
    decreases |pieces|
  {
    if pieces == [] then s' == s
    else
      var a := Send(t, Wrote(pieces[0]));
      Enabled(s, a) && SendsTake(Apply(s, a), t, pieces[1..], s')
  }

  lemma OneMorePiece(wire: seq<byte>, left: seq<byte>, n: nat, m: nat)
    requires n <= |left| && m <= |left[n..]|
    ensures n + m <= |left| && (wire + left[..n]) + left[n..][..m] == wire + left[..n + m]
    ensures left[n..][m..] == left[n + m..]
  {
    assert left[n..][..m] == left[n..n + m];
  }

  /**
   * However the socket takes a message in pieces, the thread goes on until it has taken the last byte, without
   * waiting for EPOLLOUT and without letting go of the semaphore.
   */
  lemma {:induction false} SendInPieces(s: State, t: nat, pieces: seq<nat>, s': State)
    requires t < |s.threads| && s.threads[t].Write? && s.buffer != [] && SendsTake(s, t, pieces, s')
    ensures var n := Total(pieces);
      && n <= |s.buffer| && s'.wire == s.wire + s.buffer[..n] && s'.armed == s.armed && s'.sem == s.sem
      && s'.threads == s.threads[t := if n == |s.buffer| then Clear else Write]
      && (n < |s.buffer| ==> s'.buffer == s.buffer[n..])
    decreases |pieces|
  {
    if pieces == [] {
      assert s.threads[t := Write] == s.threads && s.wire + s.buffer[..0] == s.wire;
    } else {
      var n := pieces[0];
      var mid := Apply(s, Send(t, Wrote(n)));
      OnePiece(s, t, n);
      hide Apply, Enabled;
      if n < |s.buffer| {
        SendInPieces(mid, t, pieces[1..], s');
        OneMorePiece(s.wire, s.buffer, n, Total(pieces[1..]));
      } else {
        NoMore(mid, t, pieces[1..], s');
        hide SendsTake;
      }
    }
  }

  lemma OnePiece(s: State, t: nat, n: nat)
    requires Enabled(s, Send(t, Wrote(n)))
    ensures var s' := Apply(s, Send(t, Wrote(n)));
      && n <= |s.buffer| && s'.wire == s.wire + s.buffer[..n] && s'.armed == s.armed && s'.sem == s.sem
      && s'.threads == s.threads[t := if n == |s.buffer| then Clear else Write]
      && (n < |s.buffer| ==> s'.buffer == s.buffer[n..])
  {
    SameEntries(s, s.buffer[..n]);
    hide Took;
  }

  lemma NoMore(s: State, t: nat, pieces: seq<nat>, s': State)
    requires t < |s.threads| && s.threads[t].Clear? && SendsTake(s, t, pieces, s')
    ensures pieces == [] && s' == s && Total(pieces) == 0
  {
  }

  /** The same for the drain. */
  ghost predicate DrainTakes(s: State, pieces: seq<nat>, s': State)
    decreases |pieces|
  {
    if pieces == [] then s' == s
    else
      var a := Drained(Wrote(pieces[0]));
      Enabled(s, a) && DrainTakes(Apply(s, a), pieces[1..], s')
  }

  lemma OneDrain(s: State, n: nat)
    requires Enabled(s, Drained(Wrote(n)))
    ensures var s', left := Apply(s, Drained(Wrote(n))), s.drain.left;
      && 1 <= n <= |left| && s'.wire == s.wire + left[..n] && s'.sem == s.sem && s'.threads == s.threads
      && s'.drain == if n == |left| then Reset else Flush(left[n..])
  {
    SameEntries(s, s.drain.left[..n]);
    hide Took;
  }

  lemma NoMoreDrain(s: State, pieces: seq<nat>, s': State)
    requires s.drain.Reset? && DrainTakes(s, pieces, s')
    ensures pieces == [] && s' == s && Total(pieces) == 0
  {
  }

  lemma {:induction false} DrainInPieces(s: State, pieces: seq<nat>, s': State)
    requires s.drain.Flush? && s.drain.left != [] && DrainTakes(s, pieces, s')
    ensures var n, left := Total(pieces), s.drain.left;
      && n <= |left| && s'.wire == s.wire + left[..n] && s'.sem == s.sem && s'.threads == s.threads
      && s'.drain == if n == |left| then Reset else Flush(left[n..])
    decreases |pieces|
  {
    var left := s.drain.left;
    if pieces == [] {
      assert left[0..] == left && s.wire + left[..0] == s.wire;
    } else {
      var n := pieces[0];
      var mid := Apply(s, Drained(Wrote(n)));
      OneDrain(s, n);
      hide Apply, Enabled;
      if n < |left| {
        DrainInPieces(mid, pieces[1..], s');
        OneMorePiece(s.wire, left, n, Total(pieces[1..]));
      } else {
        NoMoreDrain(mid, pieces[1..], s');
        hide DrainTakes;
      }
    }
  }

  // ---------------------------------------------------------------- when a message loses its tail

  ghost predicate NoneCut(s: State) {
    forall i | 0 <= i < |s.entries| :: !s.entries[i].cut
  }

  lemma KeepNoneCut(s: State, s': State)
    requires NoneCut(s) && Next(s, s', false)
    ensures NoneCut(s')
  {
  }

  lemma {:induction false} RunNoneCut(states: seq<State>, n: nat)
    requires Run(states, false) && n < |states|
    ensures NoneCut(states[n])
  {
    hide NoneCut, Next;
    if n == 0 {
      InitNoneCut(states[0]);
    } else {
      RunNoneCut(states, n - 1);
      assert Next(states[n - 1], states[n - 1 + 1], false);
      KeepNoneCut(states[n - 1], states[n]);
    }
  }

  lemma InitNoneCut(s: State)
    requires Init(s)
    ensures NoneCut(s)
  {
  }

  lemma NeverCut(s: State)
    requires Reachable(s, false)
    ensures NoneCut(s)
  {
    hide NoneCut;
    var states :| Run(states, false) && states[|states| - 1] == s;
    RunNoneCut(states, |states| - 1);
  }

  lemma ReachInit(s: State)
    requires Init(s)
    ensures Reachable(s, true)
  {
    assert Run([s], true);
  }

  lemma Do(s: State, a: Step, s': State)
    requires Reachable(s, true) && Enabled(s, a) && Apply(s, a) == s'
    ensures Reachable(s', true)
  {
    assert Next(s, s', true);
    hide Init, Next;
    var states :| Run(states, true) && states[|states| - 1] == s;
    var longer := states + [s'];
    forall i | 0 <= i < |longer| - 1 ensures Next(longer[i], longer[i + 1], true) {
      if i < |states| - 1 { assert Next(states[i], states[i + 1], true); }
    }
    assert Run(longer, true);
  }

  const MESSAGE: seq<byte> := [7]
  const UNSENT := Entry(0, MESSAGE, 0, false)
  const CALLS := [Calling(0, MESSAGE)]

  // A message of one byte meets EAGAIN, is parked, and meets EAGAIN again when EPOLLOUT fires.

  const S0 := State(1, [Idle], Quiet, false, [], [], [], [], Nobody)
  const S1 := State(1, [Wait(MESSAGE)], Quiet, false, [], [], CALLS, [], Nobody)
  const S2 := State(0, [Write], Quiet, false, MESSAGE, [], CALLS, [UNSENT], Thread(0))
  const S3 := State(0, [Idle], Quiet, true, MESSAGE, [], CALLS, [UNSENT], Parked)
  const S4 := State(0, [Idle], Flush(MESSAGE), true, MESSAGE, [], CALLS, [UNSENT], Epoll)
  const S5 := State(0, [Idle], Reset, true, MESSAGE, [], CALLS, [UNSENT.(cut := true)], Epoll)
  const S6 := State(0, [Idle], Release, false, [], [], CALLS, [UNSENT.(cut := true)], Epoll)
  const S7 := State(1, [Idle], Quiet, false, [], [], CALLS, [UNSENT.(cut := true)], Nobody)

  lemma Parking()
    ensures Reachable(S3, true)
  {
    hide Reachable;
    ReachInit(S0);
    Do(S0, Call(0, MESSAGE), S1);
    Do(S1, Acquire(0), S2);
    Do(S2, Send(0, Again), S3);
  }

  lemma Dropping()
    ensures Reachable(S7, true)
  {
    hide Reachable;
    Parking();
    Do(S3, Fire, S4);
    Do(S4, Drained(Again), S5);
    Do(S5, ResetContext, S6);
    Do(S6, PostByEpoll, S7);
  }

  /**
   * Whenever the semaphore is free every message is on the wire to its last byte, if and only if no drain meets
   * EAGAIN.
   */
  lemma WholeIff(again: bool)
    ensures (forall s: State | Reachable(s, again) && s.sem > 0 ::
              forall i | 0 <= i < |s.entries| :: s.entries[i].sent == |s.entries[i].msg|)
            <==> !again
  {
    hide Reachable;
    if again {
      Dropping();
      assert S7.entries[0].sent < |S7.entries[0].msg|;
    } else {
      forall s: State | Reachable(s, false) && s.sem > 0
        ensures forall i | 0 <= i < |s.entries| :: s.entries[i].sent == |s.entries[i].msg|
      {
        WireIntegrity(s, false);
        NeverCut(s);
      }
    }
  }
}
