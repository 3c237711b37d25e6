/** From the fields one peer writes to the fields the other peer's handler reads. */
module EndToEnd {
  import opened Bytes
  import opened Framing
  import opened Session
  import opened Stream

  /** Frames of at most 513 bytes and chunks of at most 1024 meet the bound of Session.BoundsIff. */
  const MAX_FRAME := 513

  datatype Message = Message(typeId: uint16, fields: seq<Field>)

  /** A message whose fields a caller can pass, and whose payload fits a frame. */
  predicate Short(m: Message) {
    AllSmall(m.fields) && PACKET_HEAD + |WriteAll([], m.fields)| <= MAX_FRAME
  }

  predicate AllShort(ms: seq<Message>) {
    forall i | 0 <= i < |ms| :: Short(ms[i])
  }

  function PacketOf(m: Message): (p: Packet)
    requires Short(m)
  {
    Packet(m.typeId, WriteAll([], m.fields))
  }

  function PacketsOf(ms: seq<Message>): (ps: seq<Packet>)
    requires AllShort(ms)
    ensures |ps| == |ms| && forall i | 0 <= i < |ms| :: ps[i] == PacketOf(ms[i])
    ensures forall p | p in ps :: Sendable(p) && PACKET_HEAD + |p.body| <= MAX_FRAME
  {
    seq(|ms|, i requires 0 <= i < |ms| => PacketOf(ms[i]))
  }

  /** The types a handler of m expects: those of the fields that could be written. */
  function Expects(m: Message): (shapes: seq<Shape>)
    requires Short(m)
    ensures forall i | 0 <= i < |shapes| :: SizeOf(shapes[i]) < UINT16
  {
    Shapes(Accepted([], m.fields))
  }

  /** The head of a packet: its type in the first two bytes, its length in the next two, smallest digits first. */
  lemma HeadDigits(p: Packet, k: nat)
    requires Sendable(p) && k < 2
    ensures Encode(p)[k] == p.typeId / Pow256(k) % 256
    ensures Encode(p)[2 + k] == |p.body| / Pow256(k) % 256
    ensures Encode(p)[PACKET_HEAD..] == p.body
  {
    assert Pow256(1) == 256;
  }

  // ---------------------------------------------------------------- the function table

  /** A handler, known by the types it reads. */
  type Handler = shapes: seq<Shape> | forall i | 0 <= i < |shapes| :: SizeOf(shapes[i]) < UINT16

  /** m_pFuncList */
  type Registry = map<uint16, Handler>

  /** What becomes of a packet: the table has no function for its type, or the function reads its body. */
  datatype Handling = Unregistered | Handled(read: Option<(seq<Field>, seq<byte>)>)

  /** The packet's type selects the function, which gets the packet's body as a stream. */
  function Dispatched(reg: Registry, p: Packet): (h: Handling) {
    if p.typeId in reg then Handled(ReadAll(p.body, reg[p.typeId])) else Unregistered
  }

  /** The function registered for the message's type reads the message's fields. */
  predicate Understood(reg: Registry, m: Message)
    requires Short(m)
  {
    m.typeId in reg && reg[m.typeId] == Expects(m)
  }

  predicate AllUnderstood(reg: Registry, ms: seq<Message>)
    requires AllShort(ms)
  {
    forall i | 0 <= i < |ms| :: Understood(reg, ms[i])
  }

  /** What such a handler should read: those fields, and nothing left. */
  function Content(m: Message): (r: Option<(seq<Field>, seq<byte>)>)
    requires Short(m)
  {
    Some((Accepted([], m.fields), []))
  }

  /**
   * While the stream of any messages arrives in any chunks of at most 1024 bytes, reassembly stays in bounds
   * and has handed over a prefix of the messages' packets, in order: those that have arrived in full.
   */
  lemma PrefixArrives(ms: seq<Message>, chunks: seq<Chunk>, rest: seq<byte>)
    requires AllShort(ms) && Flatten(chunks) + rest == EncodeAll(PacketsOf(ms))
    requires forall c | c in chunks :: |c| <= MAX_INPUT_BUFFER
    ensures AllFit([], chunks)
    ensures var got := Packets(Flatten(chunks));
      && got <= PacketsOf(ms)
      && Flatten(chunks) == EncodeAll(got) + Leftover(Flatten(chunks))
      && |Leftover(Flatten(chunks))| < MAX_FRAME
  {
    hide Packets, Leftover, EncodeAll, Flatten, Framed, AllFit;
    var s, ps := Flatten(chunks), PacketsOf(ms);
    EncodedIsFramed(MAX_FRAME, ps);
    FramedInParts(MAX_FRAME, s, rest);
    LeftoverIsShort(MAX_FRAME, s);
    assert [] + s == s;
    SmallAllFit(MAX_FRAME, MAX_INPUT_BUFFER, [], chunks);
    ParseInParts(s, rest);
    assert EncodeAll(ps) + [] == EncodeAll(ps);
    ParseEncoded(ps, []);
    assert ps + Packets([]) == ps by { Unfold([]); }
    Reencode(s);
  }

  /** The function registered for a message's type reads back exactly the fields whose writes succeeded. */
  lemma DispatchedBack(reg: Registry, m: Message)
    requires Short(m) && Understood(reg, m)
    ensures Dispatched(reg, PacketOf(m)) == Handled(Content(m))
  {
    hide ReadAll, WriteAll, Accepted;
    StreamRoundTrip(m.fields);
  }

  /**
   * Once the whole stream has arrived, every message has been handed over, in order, and the function its type
   * selects reads back exactly the fields whose writes succeeded, to the last byte.
   */
  lemma AllArrive(reg: Registry, ms: seq<Message>, chunks: seq<Chunk>)
    requires AllShort(ms) && AllUnderstood(reg, ms) && Flatten(chunks) == EncodeAll(PacketsOf(ms))
    requires forall c | c in chunks :: |c| <= MAX_INPUT_BUFFER
    ensures AllFit([], chunks)
    ensures var got := Packets(Flatten(chunks));
      && |got| == |ms| && Leftover(Flatten(chunks)) == []
      && forall i | 0 <= i < |ms| :: Dispatched(reg, got[i]) == Handled(Content(ms[i]))
  {
    hide Packets, Leftover, EncodeAll, Flatten, AllFit, Content, PacketOf, Dispatched, Understood;
    var ps := PacketsOf(ms);
    assert Flatten(chunks) + [] == EncodeAll(ps);
    PrefixArrives(ms, chunks, []);
    assert EncodeAll(ps) + [] == EncodeAll(ps);
    ParseEncoded(ps, []);
    assert ps + Packets([]) == ps && Leftover([]) == [] by { Unfold([]); }
    forall i | 0 <= i < |ms|
      ensures Dispatched(reg, ps[i]) == Handled(Content(ms[i]))
    {
      DispatchedBack(reg, ms[i]);
    }
  }

  // ---------------------------------------------------------------- the same on the running objects

  /** Writes the fields one after the other; the refused ones leave no trace. */
  method WriteFields(out: OutputStream, fs: seq<Field>)
    requires out.Valid() && AllPassable(fs)
    modifies out, out.buffer
    ensures out.Valid() && out.Written() == WriteAll(old(out.Written()), fs)
  {
    hide Write, WriteAll;
    ghost var first := out.Written();
    var i := 0;
    assert fs[0..] == fs;
    while i < |fs|
      invariant i <= |fs| && out.Valid()
      invariant WriteAll(out.Written(), fs[i..]) == WriteAll(first, fs)
      decreases |fs| - i
    {
      WriteNext(out.Written(), fs, i);
      match fs[i] {
        case Scalar(size, value) => var _ := out.SerializeScalar(size, value);
        case Array(size, items) => var _ := out.SerializeArray(size, items);
      }
      i := i + 1;
    }
    WriteNext(out.Written(), fs, i);
  }

  lemma WriteNext(s: seq<byte>, fs: seq<Field>, i: nat)
    requires i <= |fs| && AllPassable(fs)
    ensures i < |fs| ==> WriteAll(s, fs[i..]) == WriteAll(Write(s, fs[i]), fs[i + 1..])
    ensures i == |fs| ==> WriteAll(s, fs[i..]) == s
  {
    if i < |fs| {
      assert fs[i..][1..] == fs[i + 1..];
    }
  }

  /**
   * The client's side: the fields in a fresh output stream, then SendData into a buffer of 1024 bytes, which they
   * leave exactly when they do not fit it with their header.
   */
  method Send(m: Message) returns (wire: Option<seq<byte>>)
    requires AllPassable(m.fields)
    ensures var body := WriteAll([], m.fields);
      wire == if PACKET_HEAD + |body| <= RECV_BUF then Some(Encode(Packet(m.typeId, body))) else None
  {
    hide WriteAll;
    var out := new OutputStream();
    WriteFields(out, m.fields);
    var buf := new byte[RECV_BUF](_ => 0);
    var total := BuildPacket(buf, m.typeId, out.Written());
    wire := match total case None => None case Some(n) => Some(buf[..n]);
  }

  /** The outcome of a read behind fields already read. */
  function Behind(done: seq<Field>, r: Option<(seq<Field>, seq<byte>)>): Option<(seq<Field>, seq<byte>)> {
    match r
    case None => None
    case Some(q) => Some((done + q.0, q.1))
  }

  lemma FrontOnly(r: Option<(seq<Field>, seq<byte>)>)
    ensures Behind([], r) == r
  {
    if r.Some? {
      assert [] + r.value.0 == r.value.0;
    }
  }

  lemma ReadNext(done: seq<Field>, s: seq<byte>, shapes: seq<Shape>, i: nat)
    requires i <= |shapes| && forall j | 0 <= j < |shapes| :: SizeOf(shapes[j]) < UINT16
    ensures i == |shapes| ==> Behind(done, ReadAll(s, shapes[i..])) == Some((done, s))
    ensures i < |shapes| && |s| < SizeOf(shapes[i]) ==> Behind(done, ReadAll(s, shapes[i..])) == None
    ensures i < |shapes| && |s| >= SizeOf(shapes[i]) ==>
      var n := SizeOf(shapes[i]);
      Behind(done, ReadAll(s, shapes[i..]))
      == Behind(done + [ValueOf(shapes[i], s[..n])], ReadAll(s[n..], shapes[i + 1..]))
  {
    if i == |shapes| {
      assert done + [] == done;
    } else {
      assert shapes[i..][1..] == shapes[i + 1..];
      var n := SizeOf(shapes[i]);
      if |s| >= n {
        var r := ReadAll(s[n..], shapes[i + 1..]);
        if r.Some? {
          assert (done + [ValueOf(shapes[i], s[..n])]) + r.value.0 == done + ([ValueOf(shapes[i], s[..n])] + r.value.0);
        }
      }
    }
  }

  /** One Serialize call of a handler. */
  method ReadOne(stream: InputStream, shape: Shape) returns (got: Option<Field>)
    requires stream.Valid() && SizeOf(shape) < UINT16
    modifies stream
    ensures stream.Valid()
    ensures got.None? ==> |old(stream.Unread())| < SizeOf(shape)
    ensures got.Some? ==>
      var n, s := SizeOf(shape), old(stream.Unread());
      n <= |s| && stream.Unread() == s[n..] && got.value == ValueOf(shape, s[..n])
  {
    ghost var s := stream.Unread();
    got := None;
    match shape {
      case ScalarOf(size) =>
        var ok, value := stream.SerializeScalar(size);
        if ok {
          assert s[..size] + s[..size][size..] == s[..size];
          got := Some(Scalar(size, value));
        }
      case ArrayOf(size, count) =>
        var dest := new byte[count * size](_ => 0);
        ghost var zeros := dest[..];
        var ok := stream.SerializeArray(size, count, dest);
        if ok {
          assert s[..count * size] + zeros[count * size..] == s[..count * size];
          got := Some(ValueOf(shape, dest[..]));
        }
    }
  }

  /** A registered function: reads the fields it expects from its stream. */
  method Handle(p: Packet, shapes: Handler) returns (r: Option<(seq<Field>, seq<byte>)>)
    requires Sendable(p)
    ensures r == ReadAll(p.body, shapes)
  {
    hide ReadAll, ValueOf, SizeOf;
    var stream := new InputStream(|p.body|, p.body);
    var fields, i := [], 0;
    assert shapes[0..] == shapes && stream.Unread() == p.body;
    FrontOnly(ReadAll(p.body, shapes));
    while i < |shapes|
      invariant i <= |shapes| && stream.Valid() && fresh(stream)
      invariant ReadAll(p.body, shapes) == Behind(fields, ReadAll(stream.Unread(), shapes[i..]))
      decreases |shapes| - i
    {
      ReadNext(fields, stream.Unread(), shapes, i);
      var got := ReadOne(stream, shapes[i]);
      if got.None? {
        return None;
      }
      fields := fields + [got.value];
      i := i + 1;
    }
    ReadNext(fields, stream.Unread(), shapes, i);
    return Some((fields, stream.Unread()));
  }

  /** A new session and the chunks of its connection. */
  method Reassemble(chunks: seq<Chunk>) returns (got: seq<Packet>)
    requires AllFit([], chunks)
    ensures got == Packets(Flatten(chunks))
  {
    var session := new EasySession();
    session.OnDataAll(chunks);
    assert [] + Flatten(chunks) == Flatten(chunks);
    got := session.handled;
    assert [] + got == got;
  }

  /** EasyDispatcher::OnPacketReceived, with the bounds check it lacks. */
  method OnPacketReceived(reg: Registry, p: Packet) returns (h: Handling)
    requires Sendable(p)
    ensures h == Dispatched(reg, p)
  {
    if p.typeId in reg {
      var r := Handle(p, reg[p.typeId]);
      h := Handled(r);
    } else {
      h := Unregistered;
    }
  }

  /** The packets handed over go to their handlers one after the other. */
  method HandleAll(reg: Registry, got: seq<Packet>) returns (read: seq<Handling>)
    requires forall p | p in got :: Sendable(p)
    ensures |read| == |got| && forall i | 0 <= i < |got| :: read[i] == Dispatched(reg, got[i])
  {
    hide Dispatched;
    read := [];
    for i := 0 to |got|
      invariant |read| == i
      invariant forall j | 0 <= j < i :: read[j] == Dispatched(reg, got[j])
    {
      var h := OnPacketReceived(reg, got[i]);
      read := read + [h];
    }
  }

  /** The server's side: a session receives the chunks of the stream and its packets are dispatched. */
  method Receive(reg: Registry, ms: seq<Message>, chunks: seq<Chunk>) returns (read: seq<Handling>)
    requires AllShort(ms) && AllUnderstood(reg, ms) && Flatten(chunks) == EncodeAll(PacketsOf(ms))
    requires forall c | c in chunks :: |c| <= MAX_INPUT_BUFFER
    ensures |read| == |ms| && forall i | 0 <= i < |ms| :: read[i] == Handled(Content(ms[i]))
  {
    hide Packets, Leftover, EncodeAll, Flatten, AllFit, Short, Content, PacketsOf, Dispatched, Understood;
    AllArrive(reg, ms, chunks);
    Reencode(Flatten(chunks));
    var got := Reassemble(chunks);
    read := HandleAll(reg, got);
  }
}
