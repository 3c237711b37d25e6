/**
 * Reassembly of packets from received chunks (EasySession), in a buffer of 1024 bytes with 16-bit counters.
 */
module Session {
  import opened Bytes
  import opened Framing

  /**
   * Whether handling one chunk stays inside the receive buffer: where a chunk does not fit, its first
   * |buf| + |data| - 1024 bytes are copied before packets are taken out. A header that announces 65532
   * bytes or more would wrap the 16-bit full length.
   */
  predicate Fits(buf: seq<byte>, data: seq<byte>)
    requires |buf| <= RECV_BUF
    decreases |data|
  {
    if |buf| + |data| <= RECV_BUF then
      NoWrap(buf + data)
    else
      var n := |buf| + |data| - RECV_BUF;
      && |buf| + n <= RECV_BUF
      && NoWrap(buf + data[..n])
      && Fits(Leftover(buf + data[..n]), data[n..])
  }

  /** No header met while packets are taken out of s wraps the full length. */
  predicate NoWrap(s: seq<byte>) {
    |Leftover(s)| >= PACKET_HEAD ==> PACKET_HEAD + LenOf(Leftover(s)) < UINT16
  }

  lemma Grouped(done: seq<Packet>, p: Packet, rest: seq<Packet>)
    ensures (done + [p]) + rest == done + ([p] + rest)
  {
  }

  lemma Grouped3(a: seq<Packet>, b: seq<Packet>, c: seq<Packet>)
    ensures (a + b) + c == a + (b + c)
  {
  }

  class EasySession {
    var recvBufLen: uint16
    const recvBuf: array<byte>
    /** The packets passed to _HandlePacket, which hands each to the dispatcher. */
    var handled: seq<Packet>

    predicate Valid()
      reads this, recvBuf
    {
      recvBuf.Length == RECV_BUF && recvBufLen <= RECV_BUF
    }

    /** The bytes received but not yet handled. */
    function Buffered(): (s: seq<byte>)
      requires Valid()
      reads this, recvBuf
    {
      recvBuf[..recvBufLen]
    }

    constructor ()
      ensures Valid() && fresh(recvBuf) && Buffered() == [] && handled == []
    {
      recvBuf := new byte[RECV_BUF];
      recvBufLen := 0;
      handled := [];
    }

    /** memcpy of n received bytes behind those already buffered. */
    method CopyIn(data: seq<byte>, n: nat)
      requires Valid() && n <= |data| && recvBufLen + n <= RECV_BUF
      modifies this`recvBufLen, recvBuf
      ensures Valid() && Buffered() == old(Buffered()) + data[..n]
    {
      var at := recvBufLen;
      forall i | 0 <= i < n {
        recvBuf[at + i] := data[i];
      }
      recvBufLen := recvBufLen + n;
    }

    /** memmove of everything behind the first n bytes to the front. */
    method DropFront(n: nat)
      requires Valid() && n <= recvBufLen
      modifies this`recvBufLen, recvBuf
      ensures Valid() && Buffered() == old(Buffered())[n..]
    {
      if recvBufLen > n {
        forall i | 0 <= i < recvBufLen - n {
          recvBuf[i] := recvBuf[n + i];
        }
      }
      recvBufLen := recvBufLen - n;
    }

    /** _HandlePacket on the packet in front, which then leaves the buffer. */
    method TakePacket(fullLength: uint16)
      requires Valid() && Whole(Buffered()) && fullLength == PACKET_HEAD + LenOf(Buffered())
      modifies this, recvBuf
      ensures Valid() && Buffered() == After(old(Buffered()))
      ensures handled == old(handled) + [First(old(Buffered()))]
    {
      ghost var now := Buffered();
      var packet := Packet(U16(recvBuf[0], recvBuf[1]), recvBuf[PACKET_HEAD..fullLength]);
      assert packet.body == now[PACKET_HEAD..fullLength];
      handled := handled + [packet];
      DropFront(fullLength);
    }

    /** The inner loop: hands over every whole packet in the buffer. */
    method HandleWhole()
      requires Valid() && NoWrap(Buffered())
      modifies this, recvBuf
      ensures Valid()
      ensures handled == old(handled) + Packets(old(Buffered()))
      ensures Buffered() == Leftover(old(Buffered()))
    {
      hide Packets, Leftover, First, After;
      ghost var all := Buffered();
      while recvBufLen >= PACKET_HEAD
        invariant Valid()
        invariant handled + Packets(Buffered()) == old(handled) + Packets(all)
        invariant Leftover(Buffered()) == Leftover(all)
        decreases recvBufLen
      {
        ghost var now := Buffered();
        Unfold(now);
        var len := U16(recvBuf[2], recvBuf[3]);
        assert len == LenOf(now);
        var fullLength: uint16 := (len + PACKET_HEAD) % UINT16;
        if recvBufLen >= fullLength {
          Grouped(handled, First(now), Packets(After(now)));
          TakePacket(fullLength);
        } else {
          break;
        }
      }
      Unfold(Buffered());
      assert handled + [] == handled;
    }

    /**
     * One turn of the outer loop: as much of the rest as fits is copied, or else the excess; then whole packets are
     * handed over. uint32 sums do not wrap here: Fits bounds the rest by the buffer. The excess goes through a 16-bit
     * variable.
     */
    method TakePart(rest: seq<byte>) returns (n: nat)
      requires Valid() && Fits(Buffered(), rest)
      modifies this, recvBuf
      ensures Valid() && n <= |rest| && !Whole(Buffered())
      ensures n == |rest| || (n > 0 && Fits(Buffered(), rest[n..]))
      ensures handled == old(handled) + Packets(old(Buffered()) + rest[..n])
      ensures Buffered() == Leftover(old(Buffered()) + rest[..n])
    {
      hide Packets, Leftover, Whole, NoWrap;
      var iLen := |rest|;
      if recvBufLen + iLen <= RECV_BUF {
        n := iLen;
        assert rest[..n] == rest;
      } else {
        var excess: uint16 := (recvBufLen + iLen - RECV_BUF) % UINT16;
        n := excess;
        assert n == recvBufLen + iLen - RECV_BUF;
      }
      CopyIn(rest, n);
      HandleWhole();
    }

    /** The outer loop, which runs at least once. */
    method OnData(data: Chunk)
      requires Valid() && Fits(Buffered(), data)
      modifies this, recvBuf
      ensures Valid()
      ensures handled == old(handled) + Packets(old(Buffered()) + data)
      ensures Buffered() == Leftover(old(Buffered()) + data)
    {
      hide Packets, Leftover, Whole, Fits;
      ghost var all := Buffered() + data;
      var p, more := 0, true;
      assert data[p..] == data;
      while more
        invariant p <= |data| && Valid()
        invariant more ==> Fits(Buffered(), data[p..])
        invariant !more ==> p == |data| && !Whole(Buffered())
        invariant handled + Packets(Buffered() + data[p..]) == old(handled) + Packets(all)
        invariant Leftover(Buffered() + data[p..]) == Leftover(all)
        decreases |data| - p, more
      {
        ghost var buf, rest, done := Buffered(), data[p..], handled;
        var n := TakePart(data[p..]);
        ParseRest(done, buf, rest, n);
        p := p + n;
        assert rest[n..] == data[p..];
        more := p < |data|;
      }
      assert Buffered() + data[p..] == Buffered();
      Unfold(Buffered());
      assert handled + [] == handled;
    }

    /** A session's life: the chunks of a connection one OnData after the other. */
    method OnDataAll(chunks: seq<Chunk>)
      requires Valid() && !Whole(Buffered()) && AllFit(Buffered(), chunks)
      modifies this, recvBuf
      ensures Valid() && !Whole(Buffered())
      ensures handled == old(handled) + Packets(old(Buffered()) + Flatten(chunks))
      ensures Buffered() == Leftover(old(Buffered()) + Flatten(chunks))
    {
      hide Packets, Leftover, Whole, Fits, Flatten;
      ghost var first := Buffered();
      var i := 0;
      Fed(first, chunks, 0);
      assert handled + [] == handled;
      while i < |chunks|
        invariant i <= |chunks| && Valid()
        invariant handled == old(handled) + Packets(first + Flatten(chunks[..i]))
        invariant Buffered() == Leftover(first + Flatten(chunks[..i]))
        invariant AllFit(Buffered(), chunks[i..])
      {
        ghost var buf := Buffered();
        Fed(first, chunks, i + 1);
        OnData(chunks[i]);
        Grouped3(old(handled), Packets(first + Flatten(chunks[..i])), Packets(buf + chunks[i]));
        i := i + 1;
      }
      assert chunks[..i] == chunks;
    }
  }

  // ---------------------------------------------------------------- sending

  /**
   * SendData's packet: type, length and body written into an output buffer; the length goes to AsyncSend. A packet
   * longer than the buffer is written beyond its end: None.
   */
  method BuildPacket(buf: array<byte>, typeId: uint16, data: seq<byte>) returns (total: Option<nat>)
    requires |data| < UINT16 && PACKET_HEAD <= buf.Length
    modifies buf
    ensures total == if PACKET_HEAD + |data| <= buf.Length then Some(PACKET_HEAD + |data|) else None
    ensures total.Some? ==>
      buf[..total.value] == Encode(Packet(typeId, data)) && buf[total.value..] == old(buf[total.value..])
  {
    hide Low, High, U16, Encode;
    buf[2], buf[3] := Low(|data|), High(|data|);
    buf[0], buf[1] := Low(typeId), High(typeId);
    if PACKET_HEAD + |data| > buf.Length {
      return None;
    }
    forall i | 0 <= i < |data| {
      buf[PACKET_HEAD + i] := data[i];
    }
    HalvesBack(|data|);
    var n := U16(buf[2], buf[3]) + PACKET_HEAD;
    assert buf[PACKET_HEAD..n] == data;
    HeadThenBody(buf[..n], Packet(typeId, data));
    total := Some(n);
  }

  lemma HeadThenBody(s: seq<byte>, p: Packet)
    requires Sendable(p) && |s| >= PACKET_HEAD && s[PACKET_HEAD..] == p.body
    requires s[0] == Low(p.typeId) && s[1] == High(p.typeId) && s[2] == Low(|p.body|) && s[3] == High(|p.body|)
    ensures s == Encode(p)
  {
    hide Low, High;
    assert s == [s[0], s[1], s[2], s[3]] + s[PACKET_HEAD..];
  }

  lemma HalvesBack(n: uint16)
    ensures U16(Low(n), High(n)) == n
  {
  }

  // ---------------------------------------------------------------- when a run of chunks stays in bounds

  /** Every OnData of the run stays in bounds. */
  predicate AllFit(buf: seq<byte>, chunks: seq<Chunk>)
    requires |buf| <= RECV_BUF
    decreases |chunks|
  {
    chunks == [] || (Fits(buf, chunks[0]) && (KeptShort(buf, chunks[0]); AllFit(Leftover(buf + chunks[0]),
      chunks[1..])))
  }

  /** A chunk that fits leaves no more than the buffer holds. */
  lemma {:induction false} KeptShort(buf: seq<byte>, data: Chunk)
    requires |buf| <= RECV_BUF && Fits(buf, data)
    ensures |Leftover(buf + data)| <= RECV_BUF
    decreases |data|
  {
    if |buf| + |data| > RECV_BUF {
      var n := |buf| + |data| - RECV_BUF;
      ParseRest([], buf, data, n);
      KeptShort(Leftover(buf + data[..n]), data[n..]);
    }
  }

  /** Handling part of a chunk first changes nothing. */
  lemma ParseRest(done: seq<Packet>, buf: seq<byte>, data: Chunk, n: nat)
    requires n <= |data|
    ensures var mid := Leftover(buf + data[..n]);
      && done + Packets(buf + data) == (done + Packets(buf + data[..n])) + Packets(mid + data[n..])
      && Leftover(buf + data) == Leftover(mid + data[n..])
  {
    hide Packets, Leftover;
    assert (buf + data[..n]) + data[n..] == buf + data;
    ParseInParts(buf + data[..n], data[n..]);
    Grouped3(done, Packets(buf + data[..n]), Packets(Leftover(buf + data[..n]) + data[n..]));
  }

  lemma Unfold(s: seq<byte>)
    ensures Whole(s) ==> Packets(s) == [First(s)] + Packets(After(s)) && Leftover(s) == Leftover(After(s))
    ensures !Whole(s) ==> Packets(s) == [] && Leftover(s) == s
    ensures !Whole(Leftover(s))
  {
  }

  /** One more chunk of a run. */
  lemma Fed(first: seq<byte>, chunks: seq<Chunk>, i: nat)
    requires i <= |chunks|
    ensures i == 0 && !Whole(first) ==>
      var all := first + Flatten(chunks[..0]);
      Packets(all) == [] && Leftover(all) == first
    ensures i > 0 ==>
      var s := first + Flatten(chunks[..i - 1]);
      var all := first + Flatten(chunks[..i]);
      && Packets(all) == Packets(s) + Packets(Leftover(s) + chunks[i - 1])
      && Leftover(all) == Leftover(Leftover(s) + chunks[i - 1])
  {
    hide Packets, Leftover, Whole;
    if i == 0 {
      assert first + Flatten(chunks[..0]) == first;
      Unfold(first);
    } else {
      var s := first + Flatten(chunks[..i - 1]);
      assert chunks[..i] == chunks[..i - 1] + [chunks[i - 1]];
      FlattenAppend(chunks[..i - 1], [chunks[i - 1]]);
      assert Flatten([chunks[i - 1]]) == chunks[i - 1];
      assert first + Flatten(chunks[..i]) == s + chunks[i - 1];
      ParseInParts(s, chunks[i - 1]);
    }
  }

  // ---------------------------------------------------------------- the bound on frames and chunks

  /** No header in a stream of frames of at most 1025 bytes wraps the full length. */
  lemma FramedNoWrap(full: nat, s: seq<byte>)
    requires Framed(full, s) && PACKET_HEAD <= full < UINT16
    ensures NoWrap(s)
  {
    LeftoverIsShort(full, s);
  }

  /** Frames of at most full bytes and a chunk that keeps 2 * (full - 1) + |data| within 2048 stay in bounds. */
  lemma {:induction false} SmallFits(full: nat, buf: seq<byte>, data: Chunk)
    requires PACKET_HEAD <= full && 2 * (full - 1) + |data| <= 2 * RECV_BUF
    requires Framed(full, buf + data) && !Whole(buf)
    ensures |buf| <= RECV_BUF && Fits(buf, data)
    decreases |data|
  {
    hide Framed, NoWrap;
    FramedInParts(full, buf, data);
    LeftoverIsShort(full, buf);
    if |buf| + |data| <= RECV_BUF {
      FramedNoWrap(full, buf + data);
    } else {
      var n := |buf| + |data| - RECV_BUF;
      var part := buf + data[..n];
      assert part + data[n..] == buf + data;
      FramedInParts(full, part, data[n..]);
      FramedNoWrap(full, part);
      SmallFits(full, Leftover(part), data[n..]);
    }
  }

  /** The same over a whole run, however the stream was cut. */
  lemma {:induction false} SmallAllFit(full: nat, chunk: nat, buf: seq<byte>, chunks: seq<Chunk>)
    requires PACKET_HEAD <= full && 2 * (full - 1) + chunk <= 2 * RECV_BUF
    requires Framed(full, buf + Flatten(chunks)) && !Whole(buf)
    requires forall c | c in chunks :: |c| <= chunk
    ensures |buf| <= RECV_BUF && AllFit(buf, chunks)
    decreases |chunks|
  {
    hide Framed, Whole, Fits;
    if chunks == [] {
      FramedInParts(full, buf, Flatten(chunks));
      LeftoverIsShort(full, buf);
      Unfold(buf);
    } else {
      var now := buf + chunks[0];
      assert now + Flatten(chunks[1..]) == buf + Flatten(chunks);
      FramedInParts(full, now, Flatten(chunks[1..]));
      SmallFits(full, buf, chunks[0]);
      SmallAllFit(full, chunk, Leftover(now), chunks[1..]);
    }
  }

  /** A run that stays in bounds does so up to any point and from there on. */
  lemma {:induction false} AllFitFrom(buf: seq<byte>, xs: seq<Chunk>, ys: seq<Chunk>)
    requires |buf| <= RECV_BUF && !Whole(buf)
    ensures AllFit(buf, xs + ys) ==> var mid := Leftover(buf + Flatten(xs)); |mid| <= RECV_BUF && AllFit(mid, ys)
    decreases |xs|
  {
    hide Whole, Fits;
    if xs == [] {
      assert xs + ys == ys && buf + Flatten(xs) == buf;
      Unfold(buf);
    } else if AllFit(buf, xs + ys) {
      assert (xs + ys)[1..] == xs[1..] + ys && (xs + ys)[0] == xs[0];
      KeptShort(buf, xs[0]);
      AllFitFrom(Leftover(buf + xs[0]), xs[1..], ys);
      assert (buf + xs[0]) + Flatten(xs[1..]) == buf + Flatten(xs);
      ParseInParts(buf + xs[0], Flatten(xs[1..]));
    }
  }

  /** A stream of n bytes: one frame with a body of len zero bytes, then empty frames of type 0. */
  function BigFirst(len: uint16, n: nat): seq<byte> {
    seq(n, i requires 0 <= i < n => BigFirstAt(len, i))
  }

  function BigFirstAt(len: uint16, i: nat): byte {
    if i == 2 then Low(len) else if i == 3 then High(len) else 0
  }

  function Zeros(n: nat): seq<byte> { seq(n, _ => 0) }

  lemma {:induction false} ZerosFramed(full: nat, n: nat)
    requires full >= PACKET_HEAD
    ensures Framed(full, Zeros(n))
  {
    if n >= PACKET_HEAD {
      ZerosFramed(full, n - PACKET_HEAD);
      assert After(Zeros(n)) == Zeros(n - PACKET_HEAD);
    }
  }

  lemma BigFirstFramed(full: nat, len: uint16, n: nat)
    requires full >= PACKET_HEAD + len
    ensures var s := BigFirst(len, n); Framed(full, s) && (|s| >= PACKET_HEAD ==> LenOf(s) == len)
  {
    var s := BigFirst(len, n);
    assert len % 256 + 256 * (len / 256) == len;
    if Whole(s) {
      ZerosFramed(full, |After(s)|);
      assert After(s) == Zeros(|After(s)|);
    }
  }

  function Singles(s: seq<byte>): (chunks: seq<Chunk>)
    ensures forall c | c in chunks :: |c| == 1
    ensures Flatten(chunks) == s
  {
    if s == [] then [] else [[s[0]]] + Singles(s[1..])
  }

  /**
   * The receive buffer is safe for every stream of frames of at most `full` bytes, however it is cut into
   * chunks of at most `chunk` bytes, exactly when 2 * (full - 1) + chunk <= 2048. With the repository's
   * chunks of 1024 bytes, that is frames of at most 513 bytes.
   */
  lemma BoundsIff(full: nat, chunk: nat)
    requires full >= PACKET_HEAD && chunk >= 1
    ensures (forall chunks: seq<Chunk> | (forall c | c in chunks :: |c| <= chunk) && Framed(full, Flatten(chunks)) ::
              AllFit([], chunks))
            <==> 2 * (full - 1) + chunk <= 2 * RECV_BUF
  {
    if 2 * (full - 1) + chunk <= 2 * RECV_BUF {
      forall chunks: seq<Chunk> | (forall c | c in chunks :: |c| <= chunk) && Framed(full, Flatten(chunks))
        ensures AllFit([], chunks)
      {
        assert [] + Flatten(chunks) == Flatten(chunks);
        SmallAllFit(full, chunk, [], chunks);
      }
    } else {
      var chunks := Overrun(full, chunk);
      assert !AllFit([], chunks);
    }
  }

  lemma BigFirstCut(len: uint16, n: nat, b: nat)
    requires b <= n && b < PACKET_HEAD + len
    ensures |BigFirst(len, n)| == n && !Whole(BigFirst(len, n)[..b])
  {
    var s := BigFirst(len, n);
    assert len % 256 + 256 * (len / 256) == len;
    assert b >= PACKET_HEAD ==> LenOf(s[..b]) == len;
  }

  lemma CutSizes(s: seq<byte>, b: nat, chunk: nat)
    requires b <= |s| <= b + chunk && chunk >= 1
    ensures forall c | c in Singles(s[..b]) + [s[b..]] :: |c| <= chunk
  {
  }

  /** Chunks that leave the buffer: one byte short of a longest frame (or a full buffer), then one chunk more. */
  lemma Overrun(full: nat, chunk: nat) returns (chunks: seq<Chunk>)
    requires full >= PACKET_HEAD && chunk >= 1 && 2 * (full - 1) + chunk > 2 * RECV_BUF
    ensures forall c | c in chunks :: |c| <= chunk
    ensures Framed(full, Flatten(chunks)) && !AllFit([], chunks)
  {
    hide AllFit, Framed, BigFirst, Singles, Whole;
    var len: uint16 := if full - PACKET_HEAD < UINT16 then full - PACKET_HEAD else UINT16 - 1;
    var b := if full - 1 < RECV_BUF then full - 1 else RECV_BUF;
    var s := BigFirst(len, b + chunk);
    BigFirstFramed(full, len, b + chunk);
    BigFirstCut(len, b + chunk, b);
    LastTooBig(s, b);
    chunks := Singles(s[..b]) + [s[b..]];
    CutSizes(s, b, chunk);
  }

  lemma JoinedAgain(s: seq<byte>, b: nat, xs: seq<Chunk>)
    requires b <= |s| && Flatten(xs) == s[..b]
    ensures Flatten(xs + [s[b..]]) == s && [] + Flatten(xs) == s[..b]
  {
    FlattenAppend(xs, [s[b..]]);
    FlattenFront(s[b..], []);
    assert [s[b..]] + [] == [s[b..]] && s[b..] + [] == s[b..];
    assert s[..b] + s[b..] == s;
  }

  lemma TooBig(buf: seq<byte>, data: seq<byte>)
    requires |buf| <= RECV_BUF < |buf| + |data| && 2 * |buf| + |data| > 2 * RECV_BUF
    ensures !Fits(buf, data)
  {
  }

  lemma OneFits(buf: seq<byte>, data: Chunk)
    requires |buf| <= RECV_BUF
    ensures AllFit(buf, [data]) ==> Fits(buf, data)
  {
    hide Fits;
  }

  /** A buffer that 2 * b + |data| > 2048 bytes would need does not take the data. */
  lemma LastTooBig(s: seq<byte>, b: nat)
    requires b <= |s| && b <= RECV_BUF < |s| && b + |s| > 2 * RECV_BUF && !Whole(s[..b])
    ensures var chunks := Singles(s[..b]) + [s[b..]]; Flatten(chunks) == s && !AllFit([], chunks)
  {
    hide Framed, Packets, Fits, Singles;
    var xs, ys := Singles(s[..b]), [s[b..]];
    JoinedAgain(s, b, xs);
    AllFitFrom([], xs, ys);
    Unfold(s[..b]);
    TooBig(s[..b], s[b..]);
    OneFits(s[..b], s[b..]);
    hide AllFit, Flatten, Leftover;
  }
}
