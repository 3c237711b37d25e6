/**
 * FTAllocator: blocks of 64 size classes with the free ones chained through their own memory, and larger blocks
 * from malloc. 64-bit layout: the size at offset 0 of a block, the link or the user's data at offset 8.
 */
module Allocator {
  import opened Bytes
  import opened SizeClasses

  type Addr = nat

  /** Memory: the 8-byte words stored so far, little-endian, at their addresses, which are multiples of 8. */
  type Memory = map<Addr, nat>

  /** The address of the word that holds the byte at a. */
  function WordOf(a: Addr): (w: Addr) {
    a - a % 8
  }

  function ByteOf(word: nat, k: nat): (v: byte) {
    if k == 0 then word % 256 else ByteOf(word / 256, k - 1)
  }

  /** A word from its lowest byte and the others. */
  function Joined(low: byte, high: nat): (word: nat)
    ensures word % 256 == low && word / 256 == high
  {
    low + 256 * high
  }

  /** The word with its byte k replaced. */
  function Replaced(word: nat, k: nat, v: byte): (w: nat) {
    if k == 0 then Joined(v, word / 256) else Joined(word % 256, Replaced(word / 256, k - 1, v))
  }

  lemma {:induction false} ReplacedByte(word: nat, k: nat, v: byte, j: nat)
    ensures ByteOf(Replaced(word, k, v), j) == if j == k then v else ByteOf(word, j)
  {
    hide Joined;
    if k > 0 && j > 0 { ReplacedByte(word / 256, k - 1, v, j - 1); }
  }

  function WordAt(mem: Memory, w: Addr): (word: nat) {
    if w in mem then mem[w] else 0
  }

  /** Memory after one byte is written. */
  function Poke(mem: Memory, a: Addr, v: byte): (mem': Memory) {
    mem[WordOf(a) := Replaced(WordAt(mem, WordOf(a)), a % 8, v)]
  }

  /** The byte at a; memory that was never written reads as zero. */
  function ByteAt(mem: Memory, a: Addr): (v: byte) {
    ByteOf(WordAt(mem, WordOf(a)), a % 8)
  }

  lemma Poked(mem: Memory, a: Addr, v: byte, c: Addr)
    ensures ByteAt(Poke(mem, a, v), c) == if c == a then v else ByteAt(mem, c)
  {
    hide ByteOf, Replaced;
    if WordOf(c) == WordOf(a) {
      ReplacedByte(WordAt(mem, WordOf(a)), a % 8, v, c % 8);
    }
  }

  datatype Use = Unused | Live(request: nat)
  datatype Block = Block(size: nat, use: Use)

  predicate Small(b: Block) { b.size <= MAX_BYTES }

  // ---------------------------------------------------------------- what must hold of memory

  /** The blocks lie apart, and each has room for its header and link and, in use, for the bytes requested. */
  ghost predicate Apart(blocks: map<Addr, Block>) {
    && (forall b | b in blocks :: Roomed(b, blocks[b]))
    && (forall b, d | b in blocks && d in blocks && b != d :: Before(b, blocks[b], d) || Before(d, blocks[d], b))
  }

  predicate Roomed(b: Addr, block: Block) {
    && b > 0 && b % 8 == 0 && block.size >= 16
    && (Small(block) ==> block.size % 8 == 0)
    && (block.use.Live? ==> block.use.request >= 1 && OBJECT_OFFSET + block.use.request <= block.size)
    && (block.use.Unused? ==> Small(block))
  }

  predicate Before(b: Addr, block: Block, d: Addr) {
    b + block.size <= d
  }

  /** Every block's first word is its size. */
  ghost predicate Headed(mem: Memory, blocks: map<Addr, Block>) {
    forall b | b in blocks :: b in mem && mem[b] == blocks[b].size
  }

  function NextOf(list: seq<Addr>, j: nat): (x: Addr) {
    if j + 1 < |list| then list[j + 1] else 0
  }

  predicate LinkedAt(mem: Memory, x: Addr, next: Addr) { x + 8 in mem && mem[x + 8] == next }

  /** The chain that starts at head passes the blocks of the list in order and ends with a null link. */
  ghost predicate Chain(mem: Memory, head: Addr, list: seq<Addr>) {
    && head == (if list == [] then 0 else list[0])
    && forall j | 0 <= j < |list| :: LinkedAt(mem, list[j], NextOf(list, j))
  }

  ghost predicate Distinct(list: seq<Addr>) {
    forall i, j | 0 <= i < j < |list| :: list[i] != list[j]
  }

  /** A class list holds the unused blocks of that class, each once. */
  ghost predicate Holds(list: seq<Addr>, k: nat, blocks: map<Addr, Block>) {
    && Distinct(list)
    && forall b :: b in list <==> b in blocks && blocks[b] == Block(ALIGNMENT * (k + 1), Unused)
  }

  ghost predicate Good(mem: Memory, heads: seq<Addr>, lists: seq<seq<Addr>>, blocks: map<Addr, Block>) {
    && |heads| == |lists| == NUM_LIST
    && Apart(blocks) && Headed(mem, blocks)
    && forall k: nat | k < NUM_LIST :: Chain(mem, heads[k], lists[k]) && Holds(lists[k], k, blocks)
  }

  // ---------------------------------------------------------------- writes inside a block

  /** An address behind the header of block x is no block's header and no other block's link. */
  lemma Inside(blocks: map<Addr, Block>, x: Addr, a: Addr, b: Addr)
    requires Apart(blocks) && x in blocks && x + 8 <= a < x + blocks[x].size && b in blocks
    ensures a != b && (b != x ==> a != b + 8)
  {
    assert Roomed(x, blocks[x]) && Roomed(b, blocks[b]);
    if b != x {
      assert Before(b, blocks[b], x) || Before(x, blocks[x], b);
    }
  }

  lemma HeadersKept(mem: Memory, blocks: map<Addr, Block>, x: Addr, a: Addr, w: nat)
    requires Apart(blocks) && Headed(mem, blocks) && x in blocks && x + 8 <= a < x + blocks[x].size
    ensures Headed(mem[a := w], blocks)
  {
    forall b | b in blocks ensures b in mem[a := w] && mem[a := w][b] == blocks[b].size {
      Inside(blocks, x, a, b);
    }
  }

  lemma ChainKept(mem: Memory, blocks: map<Addr, Block>, x: Addr, a: Addr, w: nat, head: Addr, list: seq<Addr>)
    requires Apart(blocks) && x in blocks && x + 8 <= a < x + blocks[x].size
    requires Chain(mem, head, list) && x !in list && forall b | b in list :: b in blocks
    ensures Chain(mem[a := w], head, list)
  {
    forall j | 0 <= j < |list| ensures list[j] + 8 in mem[a := w] && mem[a := w][list[j] + 8] == NextOf(list, j) {
      assert list[j] in list;
      Inside(blocks, x, a, list[j]);
    }
  }

  /** The user writes into a block in use. */
  lemma StoreKeeps(mem: Memory, heads: seq<Addr>, lists: seq<seq<Addr>>, blocks: map<Addr, Block>, x: Addr, a: Addr,
          w: nat)
    requires Good(mem, heads, lists, blocks)
    requires x in blocks && blocks[x].use.Live? && x + 8 <= a < x + blocks[x].size
    ensures Good(mem[a := w], heads, lists, blocks)
  {
    hide Apart, Headed, Chain;
    HeadersKept(mem, blocks, x, a, w);
    forall k: nat | k < NUM_LIST ensures Chain(mem[a := w], heads[k], lists[k]) {
      ChainKept(mem, blocks, x, a, w, heads[k], lists[k]);
    }
  }

  // ---------------------------------------------------------------- a block changes hands

  lemma ApartUse(blocks: map<Addr, Block>, x: Addr, use: Use)
    requires Apart(blocks) && x in blocks && Roomed(x, blocks[x].(use := use))
    ensures Apart(blocks[x := blocks[x].(use := use)])
  {
  }

  lemma ChainTail(mem: Memory, head: Addr, list: seq<Addr>)
    requires Chain(mem, head, list) && list != []
    ensures head + 8 in mem && Chain(mem, mem[head + 8], list[1..])
  {
    assert LinkedAt(mem, list[0], NextOf(list, 0));
    forall j | 0 <= j < |list[1..]| ensures LinkedAt(mem, list[1..][j], NextOf(list[1..], j)) {
      assert list[1..][j] == list[j + 1] && NextOf(list[1..], j) == NextOf(list, j + 1);
      assert LinkedAt(mem, list[j + 1], NextOf(list, j + 1));
    }
    hide LinkedAt;
  }

  lemma HoldsTail(list: seq<Addr>, k: nat, blocks: map<Addr, Block>, use: Use)
    requires Holds(list, k, blocks) && list != [] && use.Live?
    ensures list[0] in blocks && Holds(list[1..], k, blocks[list[0] := blocks[list[0]].(use := use)])
  {
    var x, rest := list[0], list[1..];
    assert x in list;
    assert x !in rest;
    assert forall b :: b in list <==> b == x || b in rest;
  }

  /** Another class does not notice a block of this one changing hands. */
  lemma HoldsElse(list: seq<Addr>, k: nat, blocks: map<Addr, Block>, x: Addr, block: Block)
    requires Holds(list, k, blocks) && block.size != ALIGNMENT * (k + 1)
    requires x in blocks ==> blocks[x].size != ALIGNMENT * (k + 1) || blocks[x].use.Live?
    ensures Holds(list, k, blocks[x := block])
  {
  }

  lemma PopKeeps(mem: Memory, heads: seq<Addr>, lists: seq<seq<Addr>>, blocks: map<Addr, Block>, k: nat, n: nat)
    requires Good(mem, heads, lists, blocks) && k < NUM_LIST && lists[k] != []
    requires n >= 1 && OBJECT_OFFSET + n <= ALIGNMENT * (k + 1)
    ensures var x := heads[k];
      && x in blocks && blocks[x] == Block(ALIGNMENT * (k + 1), Unused) && x + 8 in mem
      && Good(mem, heads[k := mem[x + 8]], lists[k := lists[k][1..]], blocks[x := blocks[x].(use := Live(n))])
  {
    hide Apart;
    var x := heads[k];
    assert Chain(mem, heads[k], lists[k]) && Holds(lists[k], k, blocks);
    assert x in lists[k];
    assert Roomed(x, blocks[x]) by { Room(blocks, x); }
    ApartUse(blocks, x, Live(n));
    ChainTail(mem, x, lists[k]);
    HoldsTail(lists[k], k, blocks, Live(n));
    hide Chain, Roomed;
    forall j: nat | j < NUM_LIST && j != k ensures Holds(lists[j], j, blocks[x := blocks[x].(use := Live(n))]) {
      HoldsElse(lists[j], j, blocks, x, blocks[x].(use := Live(n)));
    }
    hide Holds;
  }

  lemma Room(blocks: map<Addr, Block>, x: Addr)
    requires Apart(blocks) && x in blocks
    ensures Roomed(x, blocks[x])
  {
  }

  lemma ChainCons(mem: Memory, head: Addr, list: seq<Addr>, x: Addr)
    requires Chain(mem, head, list) && x !in list
    ensures Chain(mem[x + 8 := head], x, [x] + list)
  {
    var m, all := mem[x + 8 := head], [x] + list;
    assert all[0] == x && NextOf(all, 0) == head;
    forall j | 1 <= j < |all| ensures all[j] + 8 in m && m[all[j] + 8] == NextOf(all, j) {
      var y := list[j - 1];
      assert y in list && all[j] == y && y + 8 != x + 8;
      assert mem[y + 8] == NextOf(list, j - 1) == NextOf(all, j);
    }
  }

  lemma HoldsCons(list: seq<Addr>, k: nat, blocks: map<Addr, Block>, x: Addr)
    requires Holds(list, k, blocks) && x in blocks && blocks[x].use.Live? && blocks[x].size == ALIGNMENT * (k + 1)
    ensures Holds([x] + list, k, blocks[x := blocks[x].(use := Unused)])
  {
    assert x !in list;
    assert forall b :: b in [x] + list <==> b == x || b in list;
  }

  lemma PushKeeps(mem: Memory, heads: seq<Addr>, lists: seq<seq<Addr>>, blocks: map<Addr, Block>, x: Addr, k: nat)
    requires Good(mem, heads, lists, blocks) && k < NUM_LIST
    requires x in blocks && blocks[x].use.Live? && blocks[x].size == ALIGNMENT * (k + 1)
    ensures Good(mem[x + 8 := heads[k]], heads[k := x], lists[k := [x] + lists[k]],
        blocks[x := blocks[x].(use := Unused)])
  {
    hide Apart, Headed, Chain;
    var m, blocks' := mem[x + 8 := heads[k]], blocks[x := blocks[x].(use := Unused)];
    Room(blocks, x);
    ApartUse(blocks, x, Unused);
    HeadersKept(mem, blocks, x, x + 8, heads[k]);
    assert Headed(m, blocks') by { SameSizes(m, blocks, x); }
    ChainCons(mem, heads[k], lists[k], x);
    HoldsCons(lists[k], k, blocks, x);
    forall j: nat | j < NUM_LIST && j != k ensures Chain(m, heads[j], lists[j]) && Holds(lists[j], j, blocks') {
      ChainKept(mem, blocks, x, x + 8, heads[k], heads[j], lists[j]);
      HoldsElse(lists[j], j, blocks, x, blocks[x].(use := Unused));
    }
    hide Holds;
  }

  lemma SameSizes(mem: Memory, blocks: map<Addr, Block>, x: Addr)
    requires Headed(mem, blocks) && x in blocks
    ensures forall use :: Headed(mem, blocks[x := blocks[x].(use := use)])
  {
  }

  // ---------------------------------------------------------------- memory from malloc

  /** malloc's promise: an aligned address whose bytes overlap no block. */
  ghost predicate Gives(chunk: Addr, size: nat, blocks: map<Addr, Block>) {
    && chunk > 0 && chunk % 8 == 0
    && forall b | b in blocks :: b + blocks[b].size <= chunk || chunk + size <= b
  }

  /** Memory is as it was, except from chunk on for size bytes. */
  ghost predicate OnlyIn(mem: Memory, mem': Memory, chunk: Addr, size: nat) {
    forall a: Addr | a < chunk || chunk + size <= a :: (a in mem <==> a in mem') && (a in mem ==> mem[a] == mem'[a])
  }

  /** What was stored outside new memory stays. */
  lemma OutsideKept(mem: Memory, mem': Memory, chunk: Addr, size: nat, blocks: map<Addr, Block>)
    requires Gives(chunk, size, blocks) && OnlyIn(mem, mem', chunk, size) && Apart(blocks) && Headed(mem, blocks)
    ensures Headed(mem', blocks)
    ensures forall head, list | Chain(mem, head, list) && (forall b | b in list :: b in blocks) ::
        Chain(mem', head, list)
  {
    forall b | b in blocks ensures b in mem' && mem'[b] == blocks[b].size {
      Room(blocks, b);
    }
    forall head, list | Chain(mem, head, list) && (forall b | b in list :: b in blocks)
      ensures Chain(mem', head, list)
    {
      forall j | 0 <= j < |list| ensures list[j] + 8 in mem' && mem'[list[j] + 8] == NextOf(list, j) {
        assert list[j] in list;
        Room(blocks, list[j]);
      }
    }
  }

  /** A block of its own for a large request. */
  lemma LargeKeeps(mem: Memory, heads: seq<Addr>, lists: seq<seq<Addr>>, blocks: map<Addr, Block>, p: Addr,
          size: nat, n: nat)
    requires Good(mem, heads, lists, blocks) && Gives(p, size, blocks)
    requires n >= 1 && size == OBJECT_OFFSET + n > MAX_BYTES
    ensures p !in blocks && Good(mem[p := size], heads, lists, blocks[p := Block(size, Live(n))])
  {
    var mem', blocks' := mem[p := size], blocks[p := Block(size, Live(n))];
    assert p !in blocks by { if p in blocks { Room(blocks, p); } }
    OutsideKept(mem, mem', p, size, blocks);
    assert Apart(blocks');
    hide Apart, Chain, Gives;
    forall k: nat | k < NUM_LIST ensures Chain(mem', heads[k], lists[k]) && Holds(lists[k], k, blocks') {
      HoldsElse(lists[k], k, blocks, p, Block(size, Live(n)));
    }
  }

  lemma FreeLargeKeeps(mem: Memory, heads: seq<Addr>, lists: seq<seq<Addr>>, blocks: map<Addr, Block>, x: Addr)
    requires Good(mem, heads, lists, blocks) && x in blocks && blocks[x].use.Live?
    ensures Good(mem, heads, lists, blocks - {x})
  {
    hide Chain;
  }

  // ---------------------------------------------------------------- a chunk is cut into blocks

  function Node(chunk: Addr, bytes: nat, j: nat): (x: Addr) {
    chunk + j * bytes
  }

  lemma {:induction false} NodesApart(chunk: Addr, bytes: nat, i: nat, j: nat)
    requires i < j
    ensures Node(chunk, bytes, i) + bytes <= Node(chunk, bytes, j)
    decreases j
  {
    NodeNext(chunk, bytes, j - 1);
    if i + 1 < j { NodesApart(chunk, bytes, i, j - 1); }
    hide Node;
  }

  lemma NodeNext(chunk: Addr, bytes: nat, j: nat)
    ensures Node(chunk, bytes, j + 1) == Node(chunk, bytes, j) + bytes
  {
  }

  predicate SizedAt(mem: Memory, x: Addr, bytes: nat) { x in mem && mem[x] == bytes }

  /** Object j has its header, and unless it is the first its link to the one behind it. */
  ghost predicate Made(mem: Memory, chunk: Addr, bytes: nat, j: nat) {
    && SizedAt(mem, Node(chunk, bytes, j), bytes)
    && (j > 0 ==> LinkedAt(mem, Node(chunk, bytes, j), Node(chunk, bytes, j + 1)))
  }

  ghost predicate Filled(mem: Memory, chunk: Addr, bytes: nat, i: nat) {
    forall j: nat | j < i :: Made(mem, chunk, bytes, j)
  }

  /** What one turn of the loop in _refill, or its end, writes keeps the objects before. */
  lemma FillOne(mem: Memory, chunk: Addr, bytes: nat, i: nat, link: Addr)
    requires Filled(mem, chunk, bytes, i) && bytes >= 16
    ensures var x := Node(chunk, bytes, i); Filled(mem[x := bytes][x + 8 := link], chunk, bytes, i)
  {
    var x := Node(chunk, bytes, i);
    var m := mem[x := bytes][x + 8 := link];
    forall j: nat | j < i ensures Made(m, chunk, bytes, j) {
      NodesApart(chunk, bytes, j, i);
      assert Made(mem, chunk, bytes, j);
      hide Node;
    }
  }

  function Nodes(chunk: Addr, bytes: nat, from: nat, count: nat): (xs: seq<Addr>)
    requires from <= count
    ensures |xs| == count - from
    ensures forall j | 0 <= j < count - from :: xs[j] == Node(chunk, bytes, from + j)
  {
    seq<Addr>(count - from, j requires 0 <= j < count - from => Node(chunk, bytes, from + j))
  }

  /** The blocks of a new chunk: the first is in use, the others are not. */
  function NewBlocks(chunk: Addr, bytes: nat, count: nat, n: nat): (news: map<Addr, Block>) {
    map b | b in Nodes(chunk, bytes, 0, count) :: Block(bytes, if b == chunk then Live(n) else Unused)
  }

  /** An address of a new block is some node, and nodes lie in the chunk. */
  lemma NewBlock(chunk: Addr, bytes: nat, count: nat, n: nat, b: Addr) returns (j: nat)
    requires b in NewBlocks(chunk, bytes, count, n)
    ensures j < count && b == Node(chunk, bytes, j) && chunk <= b && b + bytes <= chunk + count * bytes
  {
    var xs := Nodes(chunk, bytes, 0, count);
    j :| 0 <= j < |xs| && xs[j] == b;
    NodesApart(chunk, bytes, j, count);
  }

  lemma NewApart(blocks: map<Addr, Block>, chunk: Addr, bytes: nat, count: nat, n: nat)
    requires Apart(blocks) && Gives(chunk, count * bytes, blocks)
    requires bytes >= 16 && bytes % 8 == 0 && bytes <= MAX_BYTES && n >= 1 && OBJECT_OFFSET + n <= bytes
    ensures Apart(blocks + NewBlocks(chunk, bytes, count, n))
  {
    var news := NewBlocks(chunk, bytes, count, n);
    var all := blocks + news;
    hide Apart, NewBlocks, Nodes, Node;
    forall b | b in all ensures Roomed(b, all[b]) {
      if b in news { NewRoomed(chunk, bytes, count, n, b); } else { Room(blocks, b); }
    }
    forall b, d | b in all && d in all && b != d ensures Before(b, all[b], d) || Before(d, all[d], b) {
      if b in news && d in news {
        NewBlocksApart(chunk, bytes, count, n, b, d);
      } else if b in news {
        NewAndOld(blocks, chunk, bytes, count, n, b, d);
      } else if d in news {
        NewAndOld(blocks, chunk, bytes, count, n, d, b);
      } else {
        TwoApart(blocks, b, d);
      }
    }
    JoinApart(all);
  }

  lemma JoinApart(all: map<Addr, Block>)
    requires forall b | b in all :: Roomed(b, all[b])
    requires forall b, d | b in all && d in all && b != d :: Before(b, all[b], d) || Before(d, all[d], b)
    ensures Apart(all)
  {
  }

  lemma TwoApart(blocks: map<Addr, Block>, b: Addr, d: Addr)
    requires Apart(blocks) && b in blocks && d in blocks && b != d
    ensures Before(b, blocks[b], d) || Before(d, blocks[d], b)
  {
  }

  lemma NewRoomed(chunk: Addr, bytes: nat, count: nat, n: nat, b: Addr)
    requires chunk > 0 && chunk % 8 == 0 && b in NewBlocks(chunk, bytes, count, n)
    requires bytes >= 16 && bytes % 8 == 0 && bytes <= MAX_BYTES && n >= 1 && OBJECT_OFFSET + n <= bytes
    ensures NewBlocks(chunk, bytes, count, n)[b].size == bytes && Roomed(b, NewBlocks(chunk, bytes, count, n)[b])
  {
    var j := NewBlock(chunk, bytes, count, n, b);
    NodeAligned(chunk, bytes, j);
  }

  lemma {:induction false} NodeAligned(chunk: Addr, bytes: nat, j: nat)
    requires chunk % 8 == 0 && bytes % 8 == 0
    ensures Node(chunk, bytes, j) % 8 == 0
  {
    hide Node;
    if j == 0 {
      NodeZero(chunk, bytes);
    } else {
      NodeNext(chunk, bytes, j - 1);
      NodeAligned(chunk, bytes, j - 1);
    }
  }

  lemma NodeZero(chunk: Addr, bytes: nat)
    ensures Node(chunk, bytes, 0) == chunk
  {
  }

  lemma NewBlocksApart(chunk: Addr, bytes: nat, count: nat, n: nat, b: Addr, d: Addr)
    requires b in NewBlocks(chunk, bytes, count, n) && d in NewBlocks(chunk, bytes, count, n) && b != d
    ensures b + bytes <= d || d + bytes <= b
    ensures NewBlocks(chunk, bytes, count, n)[b].size == bytes == NewBlocks(chunk, bytes, count, n)[d].size
  {
    var i := NewBlock(chunk, bytes, count, n, b);
    var j := NewBlock(chunk, bytes, count, n, d);
    if i < j { NodesApart(chunk, bytes, i, j); } else if j < i { NodesApart(chunk, bytes, j, i); }
  }

  lemma NewAndOld(blocks: map<Addr, Block>, chunk: Addr, bytes: nat, count: nat, n: nat, b: Addr, d: Addr)
    requires Gives(chunk, count * bytes, blocks) && b in NewBlocks(chunk, bytes, count, n) && d in blocks
    ensures b + bytes <= d || d + blocks[d].size <= b
    ensures NewBlocks(chunk, bytes, count, n)[b].size == bytes
  {
    var j := NewBlock(chunk, bytes, count, n, b);
  }

  /** A filled chunk's objects from the second on form a chain in address order. */
  lemma FilledChain(mem: Memory, chunk: Addr, bytes: nat, count: nat)
    requires count >= 2 && Filled(mem, chunk, bytes, count - 1)
    requires LinkedAt(mem, Node(chunk, bytes, count - 1), 0)
    ensures Chain(mem, Node(chunk, bytes, 1), Nodes(chunk, bytes, 1, count))
  {
    var list := Nodes(chunk, bytes, 1, count);
    hide Node, Nodes;
    forall j | 0 <= j < |list| ensures LinkedAt(mem, list[j], NextOf(list, j)) {
      assert list[j] == Node(chunk, bytes, 1 + j);
      if j + 1 < |list| {
        assert list[j + 1] == Node(chunk, bytes, 1 + (j + 1));
        assert Made(mem, chunk, bytes, 1 + j);
      }
    }
    hide Filled;
  }

  /** The class that was empty holds exactly the chunk's objects but the first. */
  lemma NewHeld(blocks: map<Addr, Block>, chunk: Addr, bytes: nat, count: nat, n: nat, k: nat)
    requires Apart(blocks) && Gives(chunk, count * bytes, blocks) && bytes == ALIGNMENT * (k + 1) >= 16 && count >= 2
    requires Holds([], k, blocks)
    ensures Holds(Nodes(chunk, bytes, 1, count), k, blocks + NewBlocks(chunk, bytes, count, n))
  {
    var list, news := Nodes(chunk, bytes, 1, count), NewBlocks(chunk, bytes, count, n);
    var all := blocks + news;
    hide Apart, Node;
    NodeZero(chunk, bytes);
    forall i, j | 0 <= i < j < |list| ensures list[i] != list[j] { NodesApart(chunk, bytes, 1 + i, 1 + j); }
    forall b ensures b in list <==> b in all && all[b] == Block(bytes, Unused) {
      if b in list {
        var i :| 0 <= i < |list| && list[i] == b;
        NodesApart(chunk, bytes, 0, 1 + i);
        assert Nodes(chunk, bytes, 0, count)[1 + i] == b;
      }
      if b in news {
        var j := NewBlock(chunk, bytes, count, n, b);
        if j > 0 { assert list[j - 1] == b; }
      }
      assert var none: seq<Addr> := []; b !in none;
    }
  }

  /** Other classes do not notice. */
  lemma NewElse(blocks: map<Addr, Block>, chunk: Addr, bytes: nat, count: nat, n: nat, list: seq<Addr>, k: nat)
    requires Apart(blocks) && Gives(chunk, count * bytes, blocks) && bytes >= 16
    requires Holds(list, k, blocks) && bytes != ALIGNMENT * (k + 1)
    ensures Holds(list, k, blocks + NewBlocks(chunk, bytes, count, n))
  {
    var news := NewBlocks(chunk, bytes, count, n);
    forall b | b in list && b in news ensures false {
      Room(blocks, b);
      NewAndOld(blocks, chunk, bytes, count, n, b, b);
    }
    hide Apart, Nodes;
  }

  /** The refilled class, with everything else as it was. */
  lemma RefillKeeps(mem: Memory, mem': Memory, heads: seq<Addr>, lists: seq<seq<Addr>>, blocks: map<Addr, Block>,
    chunk: Addr, bytes: nat, count: nat, k: nat, n: nat)
    requires Good(mem, heads, lists, blocks) && k < NUM_LIST && lists[k] == []
    requires bytes == ALIGNMENT * (k + 1) >= 16 && n >= 1 && OBJECT_OFFSET + n <= bytes && count >= 2
    requires Gives(chunk, count * bytes, blocks) && OnlyIn(mem, mem', chunk, count * bytes)
    requires Filled(mem', chunk, bytes, count - 1)
    requires SizedAt(mem', Node(chunk, bytes, count - 1), bytes) && LinkedAt(mem', Node(chunk, bytes, count - 1), 0)
    ensures Good(mem', heads[k := Node(chunk, bytes, 1)], lists[k := Nodes(chunk, bytes, 1, count)],
                 blocks + NewBlocks(chunk, bytes, count, n))
  {
    var all := blocks + NewBlocks(chunk, bytes, count, n);
    assert Holds(lists[k], k, blocks);
    OutsideKept(mem, mem', chunk, count * bytes, blocks);
    NewApart(blocks, chunk, bytes, count, n);
    FilledChain(mem', chunk, bytes, count);
    NewHeld(blocks, chunk, bytes, count, n, k);
    NewHeaded(mem', blocks, chunk, bytes, count, n);
    forall j: nat | j < NUM_LIST && j != k ensures Chain(mem', heads[j], lists[j]) && Holds(lists[j], j, all) {
      NewElse(blocks, chunk, bytes, count, n, lists[j], j);
    }
    hide Apart, Headed, Chain, Holds, Node, Nodes, NewBlocks, Gives, OnlyIn, Filled;
  }

  lemma NewHeaded(mem: Memory, blocks: map<Addr, Block>, chunk: Addr, bytes: nat, count: nat, n: nat)
    requires Headed(mem, blocks) && count >= 1
    requires Filled(mem, chunk, bytes, count - 1) && SizedAt(mem, Node(chunk, bytes, count - 1), bytes)
    ensures Headed(mem, blocks + NewBlocks(chunk, bytes, count, n))
  {
    var news := NewBlocks(chunk, bytes, count, n);
    forall b | b in news ensures SizedAt(mem, b, bytes) && news[b].size == bytes {
      var j := NewBlock(chunk, bytes, count, n, b);
      if j < count - 1 { assert Made(mem, chunk, bytes, j); }
    }
    hide Filled, Node, Nodes;
  }

  // ---------------------------------------------------------------- what a state says

  /** The bytes of a block that its user may use. */
  predicate InUser(blocks: map<Addr, Block>, b: Addr, a: Addr)
    requires b in blocks
  {
    blocks[b].use.Live? && b + OBJECT_OFFSET <= a < b + OBJECT_OFFSET + blocks[b].use.request
  }

  /**
   * Every block is in use, and then on no list, or unused and on exactly one list, once; what users may use
   * lies inside its own block, behind the header, and no byte is two users' or a part of another block.
   */
  lemma Partition(mem: Memory, heads: seq<Addr>, lists: seq<seq<Addr>>, blocks: map<Addr, Block>, b: Addr)
    requires Good(mem, heads, lists, blocks) && b in blocks
    ensures forall k: nat | k < NUM_LIST ::
      multiset(lists[k])[b] == (if blocks[b] == Block(ALIGNMENT * (k + 1), Unused) then 1 else 0)
    ensures blocks[b].use.Unused? ==> ALIGNMENT <= blocks[b].size <= MAX_BYTES && blocks[b].size % ALIGNMENT == 0
    ensures forall a: Addr, d: Addr | InUser(blocks, b, a) && d in blocks && d != b :: a < d || d + blocks[d].size <= a
    ensures forall a: Addr | InUser(blocks, b, a) :: b + OBJECT_OFFSET <= a < b + blocks[b].size
  {
    Room(blocks, b);
    forall k: nat | k < NUM_LIST
      ensures multiset(lists[k])[b] == (if blocks[b] == Block(ALIGNMENT * (k + 1), Unused) then 1 else 0)
    {
      assert Holds(lists[k], k, blocks);
      OnceEach(lists[k], b);
    }
    forall a: Addr, d: Addr | InUser(blocks, b, a) && d in blocks && d != b ensures a < d || d + blocks[d].size <= a {
      TwoApart(blocks, b, d);
    }
    hide Good;
  }

  lemma {:induction false} OnceEach(list: seq<Addr>, b: Addr)
    requires Distinct(list)
    ensures multiset(list)[b] == (if b in list then 1 else 0)
    decreases |list|
  {
    if list != [] {
      var rest := list[1..];
      forall i, j | 0 <= i < j < |rest| ensures rest[i] != rest[j] { assert list[i + 1] != list[j + 1]; }
      OnceEach(rest, b);
      assert list == [list[0]] + rest;
      if list[0] in rest {
        var i :| 0 <= i < |rest| && rest[i] == list[0];
        assert list[i + 1] == list[0];
      }
    }
  }

  /** The bytes in use are as they were, for every block in use in both. */
  ghost predicate UserKept(mem: Memory, mem': Memory, blocks: map<Addr, Block>, blocks': map<Addr, Block>) {
    forall b: Addr, a: Addr | b in blocks && b in blocks' && InUser(blocks, b, a) && InUser(blocks', b, a) ::
      ByteAt(mem', a) == ByteAt(mem, a)
  }

  /** The word that holds a user's byte lies in the user's block, behind the header. */
  lemma WordInside(blocks: map<Addr, Block>, b: Addr, a: Addr)
    requires Apart(blocks) && b in blocks && InUser(blocks, b, a)
    ensures b + 8 <= WordOf(a) < b + blocks[b].size
  {
    Room(blocks, b);
    hide Apart;
  }

  /** Where no word of a user is written, the user's bytes stay. */
  lemma WordsKept(mem: Memory, mem': Memory, blocks: map<Addr, Block>, blocks': map<Addr, Block>)
    requires forall b: Addr, a: Addr | b in blocks && b in blocks' && InUser(blocks, b, a) && InUser(blocks', b, a) ::
      WordAt(mem', WordOf(a)) == WordAt(mem, WordOf(a))
    ensures UserKept(mem, mem', blocks, blocks')
  {
    hide WordAt, WordOf, ByteOf;
  }

  /** What a request for n bytes asks of malloc, given the heads of the lists and the totals of the classes. */
  function AskedFor(heads: seq<Addr>, totals: seq<uint32>, n: uint32): (size: nat)
    requires |heads| == NUM_LIST == |totals| && 1 <= n < UINT32 - OBJECT_OFFSET
  {
    var bytes := n + OBJECT_OFFSET;
    if bytes > MAX_BYTES then bytes
    else
      ClassOf(bytes);
      if heads[Index(bytes)] != 0 then 0 else ChunkBytes(ClassSize(bytes), totals[Index(bytes)])
  }

  lemma AskedSmall(heads: seq<Addr>, totals: seq<uint32>, n: uint32)
    requires |heads| == NUM_LIST == |totals| && 1 <= n && n + OBJECT_OFFSET <= MAX_BYTES
    ensures var bytes := n + OBJECT_OFFSET;
      && 0 <= Index(bytes) < NUM_LIST && ClassSize(bytes) >= 1
      && (heads[Index(bytes)] == 0 ==>
            AskedFor(heads, totals, n) == ChunkBytes(ClassSize(bytes), totals[Index(bytes)]))
  {
    ClassOf(n + OBJECT_OFFSET);
    hide ClassSize, Index, ChunkBytes;
  }

  lemma AskedLarge(heads: seq<Addr>, totals: seq<uint32>, n: uint32)
    requires |heads| == NUM_LIST == |totals| && MAX_BYTES < n + OBJECT_OFFSET < UINT32
    ensures AskedFor(heads, totals, n) == n + OBJECT_OFFSET
  {
  }

  // ---------------------------------------------------------------- the allocator

  class FTAllocator {
    var mem: Memory
    const freeList: array<Addr>
    const totalSize: array<uint32>
    ghost var lists: seq<seq<Addr>>       // the blocks on each list
    ghost var blocks: map<Addr, Block>    // every block cut from memory

    ghost predicate Valid()
      reads this, freeList, totalSize
    {
      && (freeList as object) != totalSize as object && freeList.Length == NUM_LIST == totalSize.Length
      && Good(mem, freeList[..], lists, blocks)
    }

    constructor (memory: Memory)
      ensures Valid() && fresh(freeList) && fresh(totalSize)
      ensures mem == memory && blocks == map[]
    {
      mem := memory;
      freeList := new Addr[NUM_LIST](_ => 0);
      totalSize := new uint32[NUM_LIST](_ => 0);
      lists := seq(NUM_LIST, _ => []);
      blocks := map[];
    }

    /** What a request would ask of malloc. */
    function Needed(n: uint32): (size: nat)
      requires freeList.Length == NUM_LIST == totalSize.Length && 1 <= n < UINT32 - OBJECT_OFFSET
      reads freeList, totalSize
    {
      AskedFor(freeList[..], totalSize[..], n)
    }

    /** A user writes a byte of a block in use: that byte has its value, and no other byte changes. */
    method Store(b: Addr, a: Addr, v: byte)
      requires Valid() && b in blocks && InUser(blocks, b, a)
      modifies this`mem
      ensures Valid() && forall c: Addr :: ByteAt(mem, c) == if c == a then v else ByteAt(old(mem), c)
    {
      hide Good, WordOf, Replaced, WordAt, ByteAt, InUser;
      GoodApart(mem, freeList[..], lists, blocks);
      WordInside(blocks, b, a);
      InUse(blocks, b, a);
      StoreKeeps(mem, freeList[..], lists, blocks, b, WordOf(a), Replaced(WordAt(mem, WordOf(a)), a % 8, v));
      forall c: Addr ensures ByteAt(Poke(mem, a, v), c) == if c == a then v else ByteAt(mem, c) {
        Poked(mem, a, v, c);
      }
      mem := Poke(mem, a, v);
    }

    /** DefaultAllocator::allocate */
    method AllocateLarge(bytes: uint32, chunk: Addr) returns (p: Addr)
      requires Valid() && bytes > MAX_BYTES && Gives(chunk, bytes, blocks)
      modifies this`mem, this`blocks
      ensures Valid() && p == chunk + OBJECT_OFFSET
      ensures chunk !in old(blocks) && blocks == old(blocks)[chunk := Block(bytes, Live(bytes - OBJECT_OFFSET))]
      ensures mem == old(mem)[chunk := bytes]
    {
      hide Good, Gives;
      LargeKeeps(mem, freeList[..], lists, blocks, chunk, bytes, bytes - OBJECT_OFFSET);
      mem := mem[chunk := bytes];
      blocks := blocks[chunk := Block(bytes, Live(bytes - OBJECT_OFFSET))];
      p := chunk + OBJECT_OFFSET;
    }

    /** _chunk_alloc: the sums are taken in 32 bits. */
    method ChunkAlloc(bytes: nat) returns (nobject: nat)
      requires totalSize.Length == NUM_LIST && 1 <= bytes <= MAX_BYTES
      modifies totalSize
      ensures nobject == Objects(bytes, old(totalSize[..])[Index(bytes)]) >= 40
      ensures var k := Index(bytes);
        totalSize[..] == old(totalSize[..])[k := (old(totalSize[..])[k] + ChunkBytes(bytes,
          old(totalSize[..])[k])) % UINT32]
    {
      var index := Index(bytes);
      ClassOf(bytes);
      ChunkHolds(bytes, totalSize[index]);
      var totalBytes := bytes * OBJECTS;
      var newBytes := totalBytes * 2 + RoundUp(totalSize[index] / 16, bytes);
      totalSize[index] := (totalSize[index] + newBytes) % UINT32;
      nobject := newBytes / bytes;
    }

    /** The loop of _refill: headers for all objects of the chunk, and links from the second on. */
    method Carve(k: nat, bytes: nat, chunk: Addr, nobject: nat)
      requires k < freeList.Length && bytes >= 16 && nobject >= 2
      modifies this`mem, freeList
      ensures freeList[..] == old(freeList[..])[k := Node(chunk, bytes, 1)]
      ensures Filled(mem, chunk, bytes, nobject - 1) && SizedAt(mem, Node(chunk, bytes, nobject - 1), bytes)
      ensures LinkedAt(mem, Node(chunk, bytes, nobject - 1), 0)
      ensures OnlyIn(old(mem), mem, chunk, nobject * bytes)
    {
      hide Node, Filled, OnlyIn;
      ghost var size := nobject * bytes;
      NodeZero(chunk, bytes);
      NodeNext(chunk, bytes, 0);
      NodeInside(chunk, bytes, 0, nobject);
      OneWrite(mem, mem, chunk, size, chunk, bytes);
      mem := mem[chunk := bytes];
      FilledFirst(mem, chunk, bytes);
      var nextObj := chunk + bytes;
      freeList[k] := nextObj;
      var i := 0;
      while i < nobject - 2
        invariant 0 <= i <= nobject - 2 && nextObj == Node(chunk, bytes, i + 1)
        invariant Filled(mem, chunk, bytes, i + 1)
        invariant OnlyIn(old(mem), mem, chunk, size)
        invariant freeList[..] == old(freeList[..])[k := Node(chunk, bytes, 1)]
      {
        NodeInside(chunk, bytes, i + 1, nobject);
        NodeNext(chunk, bytes, i + 1);
        FillMore(mem, chunk, bytes, i + 1);
        OneWrite(old(mem), mem, chunk, size, nextObj, bytes);
        mem := mem[nextObj := bytes];
        var currObj := nextObj;
        nextObj := nextObj + bytes;
        OneWrite(old(mem), mem, chunk, size, currObj + 8, nextObj);
        mem := mem[currObj + 8 := nextObj];
        i := i + 1;
      }
      NodeInside(chunk, bytes, nobject - 1, nobject);
      FillOne(mem, chunk, bytes, nobject - 1, 0);
      OneWrite(old(mem), mem, chunk, size, nextObj, bytes);
      mem := mem[nextObj := bytes];
      OneWrite(old(mem), mem, chunk, size, nextObj + 8, 0);
      mem := mem[nextObj + 8 := 0];
    }

    /**
     * _refill: a class whose list is empty gets a chunk, cut into objects in address order; the first goes to the
     * caller, the others onto the list. A chunk never holds just one object.
     */
    method Refill(bytes: nat, chunk: Addr, ghost n: nat) returns (p: Addr)
      requires Valid() && 16 <= bytes <= MAX_BYTES && bytes % ALIGNMENT == 0 && n >= 1 && OBJECT_OFFSET + n <= bytes
      requires freeList[Index(bytes)] == 0 && Gives(chunk, ChunkBytes(bytes, totalSize[Index(bytes)]), blocks)
      modifies this`mem, this`lists, this`blocks, freeList, totalSize
      ensures Valid() && p == chunk + OBJECT_OFFSET
      ensures var k, total := Index(bytes), old(totalSize[..])[Index(bytes)];
        var count := Objects(bytes, total);
        && count >= 40
        && old(lists)[k] == [] && lists == old(lists)[k := Nodes(chunk, bytes, 1, count)]
        && blocks == old(blocks) + NewBlocks(chunk, bytes, count, n)
        && totalSize[..] == old(totalSize[..])[k := (total + ChunkBytes(bytes, total)) % UINT32]
        && OnlyIn(old(mem), mem, chunk, count * bytes)
    {
      hide Good, Gives, Node, Nodes, NewBlocks, Filled, OnlyIn, Objects, ChunkBytes;
      var k := Index(bytes);
      ghost var heads := freeList[..];
      EmptyList(mem, heads, lists, blocks, k);
      ChunkHolds(bytes, totalSize[k]);
      ghost var size := ChunkBytes(bytes, totalSize[k]);
      var nobject := ChunkAlloc(bytes);
      GivesPart(chunk, size, nobject * bytes, blocks);
      Carve(k, bytes, chunk, nobject);
      RefillKeeps(old(mem), mem, heads, lists, blocks, chunk, bytes, nobject, k, n);
      lists := lists[k := Nodes(chunk, bytes, 1, nobject)];
      blocks := blocks + NewBlocks(chunk, bytes, nobject, n);
      p := chunk + OBJECT_OFFSET;
    }

    /** The head of a list goes to the caller. */
    method Unchain(k: nat, ghost n: nat) returns (p: Addr)
      requires Valid() && k < NUM_LIST && lists[k] != [] && n >= 1 && OBJECT_OFFSET + n <= ALIGNMENT * (k + 1)
      modifies this`lists, this`blocks, freeList
      ensures Valid() && p == old(freeList[k]) + OBJECT_OFFSET && lists == old(lists)[k := old(lists)[k][1..]]
      ensures var b := old(freeList[k]);
        && b in old(blocks) && old(blocks)[b] == Block(ALIGNMENT * (k + 1), Unused)
        && blocks == old(blocks)[b := old(blocks)[b].(use := Live(n))]
    {
      var pObject := freeList[k];
      hide Good;
      GoodLists(mem, freeList[..], lists, blocks);
      PopKeeps(mem, freeList[..], lists, blocks, k, n);
      freeList[k] := mem[pObject + 8];
      lists := lists[k := lists[k][1..]];
      blocks := blocks[pObject := blocks[pObject].(use := Live(n))];
      p := pObject + OBJECT_OFFSET;
    }

    /** allocate, for a request that a class can serve. */
    method AllocateSmall(n: uint32, chunk: Addr) returns (p: Addr)
      requires Valid() && 1 <= n && n + OBJECT_OFFSET <= MAX_BYTES && Gives(chunk, Needed(n), blocks)
      modifies this`mem, this`lists, this`blocks, freeList, totalSize
      ensures Valid()
      ensures Granted(old(blocks), blocks, p, n, chunk, old(Needed(n)))
      ensures UserKept(old(mem), mem, old(blocks), blocks)
    {
      hide Good, Apart, Gives, Nodes, NewBlocks, OnlyIn, Objects, ChunkBytes, ClassSize, BlockSize, Granted, UserKept;
      hide AskedFor, Index;
      GoodApart(mem, freeList[..], lists, blocks);
      AskedSmall(freeList[..], totalSize[..], n);
      SmallSize(n);
      var bytes := n + OBJECT_OFFSET;
      var k := Index(bytes);
      EmptyList(mem, freeList[..], lists, blocks, k);
      var pObject := freeList[k];
      if pObject == 0 {
        ghost var total := totalSize[k];
        p := Refill(ClassSize(bytes), chunk, n);
        ByChunk(old(mem), mem, old(blocks), chunk, total, n);
        return;
      }
      p := Unchain(k, n);
      ByPop(old(blocks), pObject, n, chunk, old(Needed(n)));
      NothingWritten(mem, old(blocks), blocks);
    }

    /**
     * allocate, for a request of at least one byte whose sum with the header fits 32 bits: the block behind p is
     * the user's alone, has the size of its class (or is a large block of its own), and nothing in use changes.
     */
    method Allocate(n: uint32, chunk: Addr) returns (p: Addr)
      requires Valid() && 1 <= n < UINT32 - OBJECT_OFFSET && Gives(chunk, Needed(n), blocks)
      modifies this`mem, this`lists, this`blocks, freeList, totalSize
      ensures Valid()
      ensures Granted(old(blocks), blocks, p, n, chunk, old(Needed(n)))
      ensures UserKept(old(mem), mem, old(blocks), blocks)
    {
      hide Good, Apart, Gives, Nodes, NewBlocks, OnlyIn, Objects, ChunkBytes, ClassSize, BlockSize, Granted, UserKept;
      hide AskedFor, Index;
      GoodApart(mem, freeList[..], lists, blocks);
      var bytes := n + OBJECT_OFFSET;
      if bytes > MAX_BYTES {
        AskedLarge(freeList[..], totalSize[..], n);
        p := AllocateLarge(bytes, chunk);
        ByLarge(old(mem), old(blocks), chunk, n);
        return;
      }
      p := AllocateSmall(n, chunk);
    }

    /** deallocate: the block goes to the front of its class's list, or back to malloc's heap. */
    method Deallocate(p: Addr)
      requires Valid() && p >= OBJECT_OFFSET && p - OBJECT_OFFSET in blocks && blocks[p - OBJECT_OFFSET].use.Live?
      modifies this`mem, this`lists, this`blocks, freeList
      ensures Valid()
      ensures var b := p - OBJECT_OFFSET;
        var block := old(blocks)[b];
        if Small(block) then
          && blocks == old(blocks)[b := block.(use := Unused)]
          && var k := Index(block.size);
            0 <= k < NUM_LIST && lists == old(lists)[k := [b] + old(lists)[k]]
        else blocks == old(blocks) - {b} && lists == old(lists)
      ensures UserKept(old(mem), mem, old(blocks), blocks)
    {
      hide Good;
      var pObject := p - OBJECT_OFFSET;
      HeaderOf(mem, freeList[..], lists, blocks, pObject);
      if mem[pObject] > MAX_BYTES {
        FreeLargeKeeps(mem, freeList[..], lists, blocks, pObject);
        blocks := blocks - {pObject};
        return;
      }
      var k := Index(mem[pObject]);
      PushKeeps(mem, freeList[..], lists, blocks, pObject, k);
      KeptByPush(mem, blocks, pObject, freeList[k]);
      mem := mem[pObject + 8 := freeList[k]];
      freeList[k] := pObject;
      lists := lists[k := [pObject] + lists[k]];
      blocks := blocks[pObject := blocks[pObject].(use := Unused)];
    }
  }

  /** The block behind p is now in use for n bytes; other blocks stay, and new ones lie where malloc gave room. */
  ghost predicate Granted(blocks: map<Addr, Block>, blocks': map<Addr, Block>, p: Addr, n: uint32, chunk: Addr,
          size: nat) {
    p >= OBJECT_OFFSET && Gained(blocks, blocks', p - OBJECT_OFFSET, BlockSize(n), n, chunk, size)
  }

  /** Block b, of the given size. */
  ghost predicate Gained(blocks: map<Addr, Block>, blocks': map<Addr, Block>, b: Addr, bytes: nat, n: nat,
          chunk: Addr, size: nat) {
    && b in blocks' && blocks'[b] == Block(bytes, Live(n))
    && (b in blocks ==> blocks[b] == Block(bytes, Unused))
    && (forall d | d in blocks && d != b :: d in blocks' && blocks'[d] == blocks[d])
    && (forall d | d in blocks' && d !in blocks ::
          Within(d, blocks'[d], chunk, size) && (d == b || blocks'[d] == Block(bytes, Unused)))
  }

  predicate Within(d: Addr, block: Block, chunk: Addr, size: nat) {
    chunk <= d && d + block.size <= chunk + size
  }

  lemma InUse(blocks: map<Addr, Block>, b: Addr, a: Addr)
    requires b in blocks && InUser(blocks, b, a)
    ensures blocks[b].use.Live?
  {
  }

  lemma LargeGained(blocks: map<Addr, Block>, chunk: Addr, bytes: nat, n: nat)
    requires chunk !in blocks
    ensures Gained(blocks, blocks[chunk := Block(bytes, Live(n))], chunk, bytes, n, chunk, bytes)
  {
    var block := Block(bytes, Live(n));
    assert Within(chunk, block, chunk, bytes);
    hide Within;
  }

  lemma LargeGranted(blocks: map<Addr, Block>, chunk: Addr, n: uint32)
    requires MAX_BYTES < n + OBJECT_OFFSET < UINT32 && chunk !in blocks
    ensures Granted(blocks, blocks[chunk := Block(n + OBJECT_OFFSET, Live(n))], chunk + OBJECT_OFFSET, n, chunk,
        n + OBJECT_OFFSET)
  {
    LargeSize(n);
    LargeGained(blocks, chunk, n + OBJECT_OFFSET, n);
    hide BlockSize, Gained;
  }

  lemma LargeUsers(mem: Memory, blocks: map<Addr, Block>, chunk: Addr, n: uint32)
    requires Apart(blocks) && Gives(chunk, n + OBJECT_OFFSET, blocks)
    ensures UserKept(mem, mem[chunk := n + OBJECT_OFFSET], blocks, blocks[chunk := Block(n + OBJECT_OFFSET, Live(n))])
  {
    var mem' := mem[chunk := n + OBJECT_OFFSET];
    hide WordOf, InUser;
    forall b: Addr, a: Addr | b in blocks && InUser(blocks, b, a)
      ensures WordAt(mem', WordOf(a)) == WordAt(mem, WordOf(a))
    {
      WordInside(blocks, b, a);
    }
    hide Apart, Gives, WordAt;
    WordsKept(mem, mem', blocks, blocks[chunk := Block(n + OBJECT_OFFSET, Live(n))]);
  }

  lemma ByLarge(mem: Memory, blocks: map<Addr, Block>, chunk: Addr, n: uint32)
    requires Apart(blocks) && MAX_BYTES < n + OBJECT_OFFSET < UINT32
    requires Gives(chunk, n + OBJECT_OFFSET, blocks) && chunk !in blocks
    ensures var blocks' := blocks[chunk := Block(n + OBJECT_OFFSET, Live(n))];
      && Granted(blocks, blocks', chunk + OBJECT_OFFSET, n, chunk, n + OBJECT_OFFSET)
      && UserKept(mem, mem[chunk := n + OBJECT_OFFSET], blocks, blocks')
  {
    LargeGranted(blocks, chunk, n);
    hide Granted, Apart, Gives;
    LargeUsers(mem, blocks, chunk, n);
  }

  /** No user's byte lies in memory that malloc gives. */
  lemma OutsideSame(mem: Memory, mem': Memory, blocks: map<Addr, Block>, chunk: Addr, size: nat, blocks': map<Addr,
          Block>)
    requires Apart(blocks) && Gives(chunk, size, blocks) && OnlyIn(mem, mem', chunk, size)
    ensures UserKept(mem, mem', blocks, blocks')
  {
    hide WordOf, InUser;
    forall b: Addr, a: Addr | b in blocks && InUser(blocks, b, a)
      ensures WordAt(mem', WordOf(a)) == WordAt(mem, WordOf(a))
    {
      WordInside(blocks, b, a);
    }
    hide Apart, Gives, OnlyIn;
    WordsKept(mem, mem', blocks, blocks');
  }

  lemma NewsAre(chunk: Addr, bytes: nat, count: nat, n: nat, size: nat)
    requires count >= 1 && count * bytes <= size
    ensures var news := NewBlocks(chunk, bytes, count, n);
      && chunk in news
      && forall d | d in news ::
          Within(d, news[d], chunk, size) && news[d] == Block(bytes, if d == chunk then Live(n) else Unused)
  {
    NodeZero(chunk, bytes);
    assert Nodes(chunk, bytes, 0, count)[0] == chunk;
    hide Node;
    forall d | d in NewBlocks(chunk, bytes, count, n) ensures chunk <= d && d + bytes <= chunk + count * bytes {
      var _ := NewBlock(chunk, bytes, count, n, d);
    }
    hide Nodes;
  }

  lemma NewsElsewhere(blocks: map<Addr, Block>, chunk: Addr, bytes: nat, count: nat, n: nat)
    requires Apart(blocks) && Gives(chunk, count * bytes, blocks) && bytes >= 1
    ensures forall d | d in blocks :: d !in NewBlocks(chunk, bytes, count, n)
  {
    hide Apart, Gives, NewBlocks;
    forall d | d in blocks ensures d !in NewBlocks(chunk, bytes, count, n) {
      RoomSize(blocks, d);
      if d in NewBlocks(chunk, bytes, count, n) { NewAndOld(blocks, chunk, bytes, count, n, d, d); }
    }
  }

  lemma RoomSize(blocks: map<Addr, Block>, x: Addr)
    requires Apart(blocks) && x in blocks
    ensures blocks[x].size >= 16
  {
    Room(blocks, x);
  }

  lemma NewsGained(blocks: map<Addr, Block>, news: map<Addr, Block>, chunk: Addr, bytes: nat, n: nat, size: nat)
    requires chunk in news && forall d | d in blocks :: d !in news
    requires forall d | d in news ::
      Within(d, news[d], chunk, size) && news[d] == Block(bytes, if d == chunk then Live(n) else Unused)
    ensures Gained(blocks, blocks + news, chunk, bytes, n, chunk, size)
  {
    hide Within;
  }

  lemma RefillGranted(blocks: map<Addr, Block>, news: map<Addr, Block>, chunk: Addr, n: uint32, size: nat)
    requires Gained(blocks, blocks + news, chunk, BlockSize(n), n, chunk, size)
    ensures Granted(blocks, blocks + news, chunk + OBJECT_OFFSET, n, chunk, size)
  {
    hide Gained, BlockSize;
  }

  lemma ByRefill(mem: Memory, mem': Memory, blocks: map<Addr, Block>, chunk: Addr, count: nat, n: uint32, size: nat)
    requires Apart(blocks) && 1 <= n && n + OBJECT_OFFSET <= MAX_BYTES && count >= 1
    requires Gives(chunk, size, blocks) && count * BlockSize(n) <= size
        && OnlyIn(mem, mem', chunk, count * BlockSize(n))
    ensures var blocks' := blocks + NewBlocks(chunk, BlockSize(n), count, n);
      && Granted(blocks, blocks', chunk + OBJECT_OFFSET, n, chunk, size)
      && UserKept(mem, mem', blocks, blocks')
  {
    SmallSize(n);
    hide BlockSize, ClassSize, Index, Granted, Gained, Within, UserKept, Apart, Gives, OnlyIn, NewBlocks;
    var bytes := BlockSize(n);
    GivesPart(chunk, size, count * bytes, blocks);
    NewsAre(chunk, bytes, count, n, size);
    NewsElsewhere(blocks, chunk, bytes, count, n);
    NewsGained(blocks, NewBlocks(chunk, bytes, count, n), chunk, bytes, n, size);
    RefillGranted(blocks, NewBlocks(chunk, bytes, count, n), chunk, n, size);
    OutsideSame(mem, mem', blocks, chunk, count * bytes, blocks + NewBlocks(chunk, bytes, count, n));
  }

  lemma ByChunk(mem: Memory, mem': Memory, blocks: map<Addr, Block>, chunk: Addr, total: uint32, n: uint32)
    requires Apart(blocks) && 1 <= n && n + OBJECT_OFFSET <= MAX_BYTES && 1 <= ClassSize(n + OBJECT_OFFSET) <= MAX_BYTES
    requires var bytes := ClassSize(n + OBJECT_OFFSET);
      && Gives(chunk, ChunkBytes(bytes, total), blocks)
      && OnlyIn(mem, mem', chunk, Objects(bytes, total) * bytes)
    ensures var bytes := ClassSize(n + OBJECT_OFFSET);
      var blocks' := blocks + NewBlocks(chunk, bytes, Objects(bytes, total), n);
      && Granted(blocks, blocks', chunk + OBJECT_OFFSET, n, chunk, ChunkBytes(bytes, total))
      && UserKept(mem, mem', blocks, blocks')
  {
    hide Apart, Gives, NewBlocks, OnlyIn, Objects, ChunkBytes, ClassSize, BlockSize, Granted, UserKept;
    SmallSize(n);
    var bytes := ClassSize(n + OBJECT_OFFSET);
    ChunkHolds(bytes, total);
    ByRefill(mem, mem', blocks, chunk, Objects(bytes, total), n, ChunkBytes(bytes, total));
  }

  lemma ByPop(blocks: map<Addr, Block>, b: Addr, n: uint32, chunk: Addr, size: nat)
    requires 1 <= n && n + OBJECT_OFFSET <= MAX_BYTES
    requires b in blocks && blocks[b] == Block(ALIGNMENT * (Index(n + OBJECT_OFFSET) + 1), Unused)
    ensures Granted(blocks, blocks[b := blocks[b].(use := Live(n))], b + OBJECT_OFFSET, n, chunk, size)
  {
    SmallSize(n);
    hide BlockSize, ClassSize, Index;
  }

  lemma NothingWritten(mem: Memory, blocks: map<Addr, Block>, blocks': map<Addr, Block>)
    ensures UserKept(mem, mem, blocks, blocks')
  {
  }

  lemma GoodLists(mem: Memory, heads: seq<Addr>, lists: seq<seq<Addr>>, blocks: map<Addr, Block>)
    requires Good(mem, heads, lists, blocks)
    ensures |heads| == |lists| == NUM_LIST
  {
  }

  lemma GoodApart(mem: Memory, heads: seq<Addr>, lists: seq<seq<Addr>>, blocks: map<Addr, Block>)
    requires Good(mem, heads, lists, blocks)
    ensures Apart(blocks)
  {
  }

  lemma HeaderOf(mem: Memory, heads: seq<Addr>, lists: seq<seq<Addr>>, blocks: map<Addr, Block>, b: Addr)
    requires Good(mem, heads, lists, blocks) && b in blocks
    ensures b in mem && mem[b] == blocks[b].size && Apart(blocks) && |lists| == NUM_LIST
    ensures Small(blocks[b]) ==>
      var k := Index(blocks[b].size);
      0 <= k < NUM_LIST && blocks[b].size == ALIGNMENT * (k + 1)
  {
    Room(blocks, b);
  }

  lemma KeptByPush(mem: Memory, blocks: map<Addr, Block>, b: Addr, w: nat)
    requires Apart(blocks) && b in blocks && blocks[b].use.Live?
    ensures UserKept(mem, mem[b + 8 := w], blocks, blocks[b := blocks[b].(use := Unused)])
  {
    var mem', blocks' := mem[b + 8 := w], blocks[b := blocks[b].(use := Unused)];
    Room(blocks, b);
    hide WordOf, Apart;
    forall d: Addr, a: Addr | d in blocks && InUser(blocks, d, a) && InUser(blocks', d, a)
      ensures WordAt(mem', WordOf(a)) == WordAt(mem, WordOf(a))
    {
      WordInside(blocks, d, a);
      TwoApart(blocks, b, d);
    }
    WordsKept(mem, mem', blocks, blocks');
  }

  lemma EmptyList(mem: Memory, heads: seq<Addr>, lists: seq<seq<Addr>>, blocks: map<Addr, Block>, k: nat)
    requires Good(mem, heads, lists, blocks) && k < NUM_LIST
    ensures |lists| == NUM_LIST && (heads[k] == 0 <==> lists[k] == [])
  {
    assert Chain(mem, heads[k], lists[k]) && Holds(lists[k], k, blocks);
    if lists[k] != [] {
      assert lists[k][0] in lists[k];
      Room(blocks, lists[k][0]);
    }
    hide Good;
  }

  lemma GivesPart(chunk: Addr, size: nat, part: nat, blocks: map<Addr, Block>)
    requires Gives(chunk, size, blocks) && part <= size
    ensures Gives(chunk, part, blocks)
  {
  }

  lemma FilledFirst(mem: Memory, chunk: Addr, bytes: nat)
    requires SizedAt(mem, chunk, bytes)
    ensures Filled(mem, chunk, bytes, 1)
  {
    NodeZero(chunk, bytes);
  }

  lemma FillMore(mem: Memory, chunk: Addr, bytes: nat, i: nat)
    requires Filled(mem, chunk, bytes, i) && bytes >= 16
    ensures var x := Node(chunk, bytes, i);
      Filled(mem[x := bytes][x + 8 := Node(chunk, bytes, i + 1)], chunk, bytes, i + 1)
  {
    FillOne(mem, chunk, bytes, i, Node(chunk, bytes, i + 1));
    hide Node;
  }

  lemma NodeInside(chunk: Addr, bytes: nat, i: nat, count: nat)
    requires i < count
    ensures chunk <= Node(chunk, bytes, i) && Node(chunk, bytes, i) + bytes <= chunk + count * bytes
  {
    NodesApart(chunk, bytes, i, count);
  }

  lemma OneWrite(mem: Memory, mem': Memory, chunk: Addr, size: nat, a: Addr, w: nat)
    requires (mem == mem' || OnlyIn(mem, mem', chunk, size)) && chunk <= a < chunk + size
    ensures OnlyIn(mem, mem'[a := w], chunk, size)
  {
  }
}
