/**
 * The wire format of packets and the meaning of a byte stream: a two-byte type, a two-byte length, both
 * little-endian, and that many bytes of body.
 */
module Framing {
  import opened Bytes

  const PACKET_HEAD := 4
  const RECV_BUF := 1024
  const UINT16 := 0x1_0000

  type uint16 = n: nat | n < 0x1_0000

  datatype Packet = Packet(typeId: uint16, body: seq<byte>)

  predicate Sendable(p: Packet) {
    |p.body| < UINT16
  }

  function Low(n: uint16): byte { n % 256 }
  function High(n: uint16): byte { n / 256 }
  function U16(lo: byte, hi: byte): (n: uint16) { lo + 256 * hi }

  function Encode(p: Packet): (s: seq<byte>)
    requires Sendable(p)
  {
    [Low(p.typeId), High(p.typeId), Low(|p.body|), High(|p.body|)] + p.body
  }

  function EncodeAll(ps: seq<Packet>): (s: seq<byte>)
    requires forall p | p in ps :: Sendable(p)
  {
    if ps == [] then [] else Encode(ps[0]) + EncodeAll(ps[1..])
  }

  function TypeOf(s: seq<byte>): (n: uint16)
    requires |s| >= PACKET_HEAD
  {
    U16(s[0], s[1])
  }

  function LenOf(s: seq<byte>): (n: uint16)
    requires |s| >= PACKET_HEAD
  {
    U16(s[2], s[3])
  }

  /** The stream starts with a whole packet. */
  predicate Whole(s: seq<byte>) {
    |s| >= PACKET_HEAD && |s| >= PACKET_HEAD + LenOf(s)
  }

  function First(s: seq<byte>): (p: Packet)
    requires Whole(s)
  {
    Packet(TypeOf(s), s[PACKET_HEAD..PACKET_HEAD + LenOf(s)])
  }

  function After(s: seq<byte>): (rest: seq<byte>)
    requires Whole(s)
    ensures |rest| < |s|
  {
    s[PACKET_HEAD + LenOf(s)..]
  }

  /** The packets a stream starts with. */
  function Packets(s: seq<byte>): (ps: seq<Packet>) {
    if Whole(s) then [First(s)] + Packets(After(s)) else []
  }

  /** What is left of a stream after its packets. */
  function Leftover(s: seq<byte>): (rest: seq<byte>)
    ensures |rest| <= |s| && !Whole(rest)
  {
    if Whole(s) then Leftover(After(s)) else s
  }

  // ---------------------------------------------------------------- streams in parts

  /** Parsing can be interrupted anywhere: the leftover of one part goes in front of the next. */
  lemma {:induction false} ParseInParts(a: seq<byte>, b: seq<byte>)
    ensures Packets(a + b) == Packets(a) + Packets(Leftover(a) + b)
    ensures Leftover(a + b) == Leftover(Leftover(a) + b)
  {
    if Whole(a) {
      assert Whole(a + b) && First(a + b) == First(a) && After(a + b) == After(a) + b;
      ParseInParts(After(a), b);
    }
  }

  lemma ParseOne(p: Packet, tail: seq<byte>)
    requires Sendable(p)
    ensures Packets(Encode(p) + tail) == [p] + Packets(tail)
    ensures Leftover(Encode(p) + tail) == Leftover(tail)
  {
    HeadIsPacket(p, tail);
  }

  /** Parsing undoes encoding, whatever follows. */
  lemma {:induction false} ParseEncoded(ps: seq<Packet>, s: seq<byte>)
    requires forall p | p in ps :: Sendable(p)
    ensures Packets(EncodeAll(ps) + s) == ps + Packets(s)
    ensures Leftover(EncodeAll(ps) + s) == Leftover(s)
    decreases |ps|
  {
    hide Encode, Packets, Leftover;
    if |ps| == 0 {
      assert EncodeAll(ps) + s == s;
      assert ps + Packets(s) == Packets(s);
    } else {
      var tail := EncodeAll(ps[1..]) + s;
      assert EncodeAll(ps) + s == Encode(ps[0]) + tail;
      ParseOne(ps[0], tail);
      ParseEncoded(ps[1..], s);
      assert [ps[0]] + (ps[1..] + Packets(s)) == ps + Packets(s);
    }
  }

  /** Encoding undoes parsing: a stream is its packets encoded again, then its leftover. */
  lemma {:induction false} Reencode(s: seq<byte>)
    ensures forall p | p in Packets(s) :: Sendable(p)
    ensures EncodeAll(Packets(s)) + Leftover(s) == s
    decreases |s|
  {
    if Whole(s) {
      Reencode(After(s));
      FirstEncoded(s);
      EncodeMore(First(s), Packets(After(s)));
      assert Encode(First(s)) + (EncodeAll(Packets(After(s))) + Leftover(s)) == s;
    }
  }

  lemma EncodeMore(p: Packet, ps: seq<Packet>)
    requires Sendable(p) && forall q | q in ps :: Sendable(q)
    ensures (forall q | q in [p] + ps :: Sendable(q)) && EncodeAll([p] + ps) == Encode(p) + EncodeAll(ps)
  {
    assert ([p] + ps)[1..] == ps;
  }

  lemma FirstEncoded(s: seq<byte>)
    requires Whole(s)
    ensures Sendable(First(s)) && Encode(First(s)) + After(s) == s
  {
    var p := First(s);
    assert |p.body| == LenOf(s);
  }

  lemma HeadIsPacket(p: Packet, tail: seq<byte>)
    requires Sendable(p)
    ensures var all := Encode(p) + tail; Whole(all) && First(all) == p && After(all) == tail
  {
    var all := Encode(p) + tail;
    assert all[..PACKET_HEAD] == [Low(p.typeId), High(p.typeId), Low(|p.body|), High(|p.body|)];
    assert all[2] == Low(|p.body|) && all[3] == High(|p.body|);
    assert all[PACKET_HEAD..PACKET_HEAD + |p.body|] == p.body;
  }

  // ---------------------------------------------------------------- frames of bounded length

  /** Every header in the stream announces a frame of at most `full` bytes. */
  predicate Framed(full: nat, s: seq<byte>)
    decreases |s|
  {
    |s| >= PACKET_HEAD ==>
      && PACKET_HEAD + LenOf(s) <= full
      && (Whole(s) ==> Framed(full, After(s)))
  }

  lemma {:induction false} LeftoverIsShort(full: nat, s: seq<byte>)
    requires Framed(full, s) && full >= PACKET_HEAD
    ensures |Leftover(s)| < full && Framed(full, Leftover(s))
  {
    if Whole(s) { LeftoverIsShort(full, After(s)); }
  }

  lemma {:induction false} FramedInParts(full: nat, a: seq<byte>, b: seq<byte>)
    requires Framed(full, a + b)
    ensures Framed(full, a) && Framed(full, Leftover(a) + b)
  {
    if |a| >= PACKET_HEAD {
      assert LenOf(a + b) == LenOf(a);
    }
    if Whole(a) {
      assert After(a + b) == After(a) + b;
      FramedInParts(full, After(a), b);
    }
  }

  /** A stream of packets of bounded length is framed by that bound wherever it is cut. */
  lemma {:induction false} EncodedIsFramed(full: nat, ps: seq<Packet>)
    requires forall p | p in ps :: Sendable(p) && PACKET_HEAD + |p.body| <= full
    ensures Framed(full, EncodeAll(ps))
  {
    if ps != [] {
      HeadIsPacket(ps[0], EncodeAll(ps[1..]));
      EncodedIsFramed(full, ps[1..]);
    }
  }
}
