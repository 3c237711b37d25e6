/** The arithmetic of the small-object allocator: ROUND_UP, the size classes and the size of a chunk. */
module SizeClasses {

  const ALIGNMENT := 8
  const MAX_BYTES := 512
  const NUM_LIST := 64
  const OBJECT_OFFSET := 8
  const UINT32 := 0x1_0000_0000

  type uint32 = n: nat | n < 0x1_0000_0000

  /** x & ~y, bit by bit. */
  function AndNot(x: nat, y: nat): (r: nat) {
    if x == 0 then 0 else (if x % 2 == 1 && y % 2 == 0 then 1 else 0) + 2 * AndNot(x / 2, y / 2)
  }

  /** ROUND_UP: a true rounding when m is a power of two. */
  function RoundUp(v: nat, m: nat): (r: nat)
    requires m >= 1
  {
    AndNot(v + m - 1, m - 1)
  }

  /** _index and _round_up */
  function Index(bytes: nat): (k: int) { (bytes + ALIGNMENT - 1) / ALIGNMENT - 1 }
  function ClassSize(bytes: nat): (size: nat) { RoundUp(bytes, ALIGNMENT) }

  function Bit(n: nat, i: nat): (b: nat) { if i == 0 then n % 2 else Bit(n / 2, i - 1) }

  /** Bit i is set where it is set in x and not in y. */
  lemma {:induction false} AndNotBits(x: nat, y: nat, i: nat)
    ensures Bit(AndNot(x, y), i) == (if Bit(x, i) == 1 && Bit(y, i) == 0 then 1 else 0)
  {
    if x == 0 {
      ZeroBits(i);
    } else if i > 0 {
      AndNotBits(x / 2, y / 2, i - 1);
    }
  }

  lemma {:induction false} ZeroBits(i: nat)
    ensures Bit(0, i) == 0
  {
    if i > 0 { ZeroBits(i - 1); }
  }

  lemma {:induction false} AndNotBounds(x: nat, y: nat)
    ensures x - y <= AndNot(x, y) <= x
  {
    if x != 0 { AndNotBounds(x / 2, y / 2); }
  }

  lemma {:induction false} AndNotZero(x: nat)
    ensures AndNot(x, 0) == x
  {
    if x != 0 { AndNotZero(x / 2); }
  }

  /** Not a rounding to a multiple unless m is a power of two, but always within these bounds. */
  lemma RoundUpBounds(v: nat, m: nat)
    requires m >= 1
    ensures v <= RoundUp(v, m) <= v + m - 1
  {
    AndNotBounds(v + m - 1, m - 1);
  }

  /** The lowest bit is cleared, and the others by what is left of the mask. */
  lemma ClearBit(x: nat, y: nat)
    ensures AndNot(x, 2 * y + 1) == 2 * AndNot(x / 2, y)
  {
    assert (2 * y + 1) % 2 == 1 && (2 * y + 1) / 2 == y;
    if x == 0 { assert AndNot(x / 2, y) == 0; }
  }

  lemma Eighth(x: nat, a: nat, b: nat, c: nat)
    requires a == x / 2 && b == a / 2 && c == b / 2
    ensures 8 * c == x / 8 * 8
  {
    assert 2 * a <= x <= 2 * a + 1 && 2 * b <= a <= 2 * b + 1 && 2 * c <= b <= 2 * c + 1;
    assert 8 * c <= x <= 8 * c + 7;
  }

  lemma ClearLowBits(x: nat)
    ensures AndNot(x, 7) == x / 8 * 8
  {
    hide AndNot;
    var a := x / 2;
    var b := a / 2;
    var c := b / 2;
    ClearBit(x, 3);
    ClearBit(a, 1);
    ClearBit(b, 0);
    AndNotZero(c);
    Eighth(x, a, b, c);
  }

  /** Rounding a small size up stays in its class, and the class's list exists. */
  lemma ClassOf(bytes: nat)
    requires 1 <= bytes <= MAX_BYTES
    ensures 0 <= Index(bytes) < NUM_LIST
    ensures ClassSize(bytes) == ALIGNMENT * (Index(bytes) + 1)
    ensures Index(ClassSize(bytes)) == Index(bytes)
    ensures bytes <= ClassSize(bytes) < bytes + ALIGNMENT
  {
    ClearLowBits(bytes + 7);
  }

  // ---------------------------------------------------------------- chunks

  const OBJECTS := 20

  /** new_bytes of _chunk_alloc, where total has been requested for the class so far. */
  function ChunkBytes(bytes: nat, total: uint32): (n: nat)
    requires bytes >= 1
  {
    bytes * OBJECTS * 2 + RoundUp(total / 16, bytes)
  }

  function Objects(bytes: nat, total: uint32): (n: nat)
    requires bytes >= 1
  {
    ChunkBytes(bytes, total) / bytes
  }

  lemma QuotientBounds(x: nat, m: nat, k: nat)
    requires m >= 1 && x >= m * k
    ensures x / m >= k && x / m * m <= x
  {
    var q := x / m;
    assert x == q * m + x % m;
    assert x < (q + 1) * m;
    assert q + 1 <= k ==> (q + 1) * m <= k * m;
  }

  lemma {:induction false} Times(a: nat, b: nat, m: nat)
    ensures a <= b ==> a * m <= b * m
    decreases m
  {
    if m > 0 {
      Times(a, b, m - 1);
      assert a * m == a * (m - 1) + a && b * m == b * (m - 1) + b;
    }
  }

  lemma Forty(m: nat)
    requires m >= 1
    ensures 40 * m / m == 40
  {
    var q, r := 40 * m / m, 40 * m % m;
    assert 40 * m == q * m + r && 0 <= r < m;
    Times(q + 1, 40, m);
    Times(41, q, m);
    assert (q + 1) * m == q * m + m;
  }

  /** The first chunk of a class holds exactly 40 objects. */
  lemma FirstChunk(bytes: nat)
    requires bytes >= 1
    ensures ChunkBytes(bytes, 0) == 40 * bytes && Objects(bytes, 0) == 40
  {
    AndNotSelf(bytes - 1);
    Forty(bytes);
    hide AndNot;
  }

  lemma {:induction false} AndNotSelf(x: nat)
    ensures AndNot(x, x) == 0
  {
    if x != 0 { AndNotSelf(x / 2); }
  }

  /**
   * Whatever the class size, a chunk holds at least 40 objects within its bytes and its size fits an int32; and
   * until the 32-bit total wraps, the totals grow geometrically.
   */
  lemma ChunkHolds(bytes: nat, total: uint32)
    requires 1 <= bytes <= MAX_BYTES
    ensures Objects(bytes, total) >= 40
    ensures Objects(bytes, total) * bytes <= ChunkBytes(bytes, total) < 0x8000_0000
    ensures 40 * bytes + total / 16 <= ChunkBytes(bytes, total) < 41 * bytes + total / 16
    ensures var new_ := total + ChunkBytes(bytes, total); 16 * new_ >= 17 * total + 640 * bytes - 15
  {
    RoundUpBounds(total / 16, bytes);
    QuotientBounds(ChunkBytes(bytes, total), bytes, 40);
  }

  // ---------------------------------------------------------------- requests

  /** The size of the block that a request for n bytes gets, with the sum taken in 32 bits. */
  function BlockSize(n: uint32): (size: nat) {
    var bytes := (n + OBJECT_OFFSET) % UINT32;
    if bytes > MAX_BYTES then bytes else ClassSize(bytes)
  }

  /** A large request gets a block of its own size. */
  lemma LargeSize(n: uint32)
    requires MAX_BYTES < n + OBJECT_OFFSET < UINT32
    ensures BlockSize(n) == n + OBJECT_OFFSET
  {
    hide ClassSize;
    assert (n + OBJECT_OFFSET) % UINT32 == n + OBJECT_OFFSET;
  }

  /** A small request gets a block of its class. */
  lemma SmallSize(n: uint32)
    requires 1 <= n && n + OBJECT_OFFSET <= MAX_BYTES
    ensures var bytes := n + OBJECT_OFFSET;
      && 0 <= Index(bytes) < NUM_LIST && Index(ClassSize(bytes)) == Index(bytes)
      && BlockSize(n) == ClassSize(bytes) == ALIGNMENT * (Index(bytes) + 1)
      && bytes <= ClassSize(bytes) <= MAX_BYTES && ClassSize(bytes) >= 16
  {
    hide ClassSize, Index;
    ClassOf(n + OBJECT_OFFSET);
    assert (n + OBJECT_OFFSET) % UINT32 == n + OBJECT_OFFSET;
  }

  /** The block has room for its header and the requested bytes, and while free for its header and link. */
  predicate Roomy(n: uint32) {
    BlockSize(n) >= OBJECT_OFFSET + n && BlockSize(n) >= OBJECT_OFFSET + 8
  }

  lemma LittleSize(bytes: nat)
    requires bytes <= OBJECT_OFFSET
    ensures ClassSize(bytes) <= OBJECT_OFFSET
  {
    if bytes == 0 { ClearLowBits(7); } else { ClassOf(bytes); }
  }

  /** That is so exactly for requests of at least one byte whose sum with the header does not wrap. */
  lemma RoomyIff(n: uint32)
    ensures Roomy(n) <==> 1 <= n < UINT32 - OBJECT_OFFSET
  {
    hide ClassSize;
    var bytes := n + OBJECT_OFFSET;
    if bytes < UINT32 {
      assert bytes % UINT32 == bytes;
      if 1 <= n && bytes <= MAX_BYTES {
        SmallSize(n);
      } else if n == 0 {
        LittleSize(bytes);
      }
    } else {
      assert bytes % UINT32 == bytes - UINT32;
      LittleSize(bytes - UINT32);
    }
  }
}
