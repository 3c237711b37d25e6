/** The wire format of values: OutputStream and InputStream, whose lengths and indices are 16-bit. */
module Stream {
  import opened Bytes
  import opened Framing

  // ---------------------------------------------------------------- values and their bytes

  function Pow256(size: nat): (n: nat)
    ensures n >= 1
  {
    if size == 0 then 1 else 256 * Pow256(size - 1)
  }

  function LittleEndian(size: nat, value: nat): (s: seq<byte>)
    requires value < Pow256(size)
    ensures |s| == size
  {
    if size == 0 then [] else [value % 256] + LittleEndian(size - 1, value / 256)
  }

  function Number(s: seq<byte>): (n: nat)
    ensures n < Pow256(|s|)
  {
    if s == [] then 0 else s[0] + 256 * Number(s[1..])
  }

  lemma {:induction false} NumberBack(size: nat, value: nat)
    requires value < Pow256(size)
    ensures Number(LittleEndian(size, value)) == value
  {
    if size > 0 {
      NumberBack(size - 1, value / 256);
      assert LittleEndian(size, value)[1..] == LittleEndian(size - 1, value / 256);
    }
  }

  /** The byte at k is the digit of 256 to the k: the smallest digit comes first. */
  lemma {:induction false} DigitAt(size: nat, value: nat, k: nat)
    requires value < Pow256(size) && k < size
    ensures LittleEndian(size, value)[k] == value / Pow256(k) % 256
  {
    if k > 0 {
      DigitAt(size - 1, value / 256, k - 1);
      DivideTwice(value, Pow256(k - 1));
    }
  }

  lemma DivideTwice(value: nat, d: nat)
    requires d > 0
    ensures value / 256 / d == value / (256 * d)
  {
    var q, r := value / 256 / d, value / 256 % d;
    assert value == 256 * (q * d + r) + value % 256;
    assert 256 * (q * d + r) + value % 256 == (256 * d) * q + (256 * r + value % 256);
    assert 0 <= 256 * r + value % 256 < 256 * d;
    QuotientIs(value, 256 * d, q, 256 * r + value % 256);
  }

  lemma Grows(d: nat, a: nat, b: nat)
    requires a <= b
    ensures d * a <= d * b
  {
  }

  lemma QuotientIs(n: nat, d: nat, q: nat, r: nat)
    requires n == d * q + r && r < d
    ensures n / d == q
  {
    var p := n / d;
    assert n == d * p + n % d;
    if p < q {
      Grows(d, p + 1, q);
      assert false;
    } else if q < p {
      Grows(d, q + 1, p);
      assert false;
    }
  }

  lemma {:induction false} BytesBack(s: seq<byte>)
    ensures LittleEndian(|s|, Number(s)) == s
  {
    hide Pow256;
    if s != [] {
      BytesBack(s[1..]);
      FirstByte(s[0], Number(s[1..]));
      assert [s[0]] + s[1..] == s;
    }
  }

  lemma FirstByte(low: byte, rest: nat)
    ensures (low + 256 * rest) % 256 == low && (low + 256 * rest) / 256 == rest
  {
  }

  /** A value of a type of `size` bytes, or an array of such values. */
  datatype Field = Scalar(size: nat, value: nat) | Array(size: nat, items: seq<nat>)
  datatype Shape = ScalarOf(size: nat) | ArrayOf(size: nat, count: uint16)

  predicate InRange(size: nat, items: seq<nat>) {
    forall i | 0 <= i < |items| :: items[i] < Pow256(size)
  }

  /** What a C++ caller can pass: values of the type's range, and a 16-bit count. */
  predicate Passable(f: Field) {
    match f
    case Scalar(size, value) => value < Pow256(size)
    case Array(size, items) => |items| < UINT16 && InRange(size, items)
  }

  function ShapeOf(f: Field): (shape: Shape)
    requires Passable(f)
  {
    match f
    case Scalar(size, _) => ScalarOf(size)
    case Array(size, items) => ArrayOf(size, |items|)
  }

  /** The bytes a field of the shape takes in memory. */
  function SizeOf(shape: Shape): nat {
    match shape
    case ScalarOf(size) => size
    case ArrayOf(size, count) => count * size
  }

  /** The bytes moved by one Serialize: for an array a 16-bit product. */
  function Moved(shape: Shape): (n: nat)
    ensures n <= SizeOf(shape)
  {
    match shape
    case ScalarOf(size) => size
    case ArrayOf(size, count) => (count * size) % UINT16
  }

  lemma OneMore(size: nat, count: nat)
    requires count > 0
    ensures size <= count * size && (count - 1) * size == count * size - size
  {
  }

  function ItemsImage(size: nat, items: seq<nat>): (s: seq<byte>)
    requires InRange(size, items)
    ensures |s| == |items| * size
  {
    if items == [] then [] else
      OneMore(size, |items|);
      LittleEndian(size, items[0]) + ItemsImage(size, items[1..])
  }

  function Numbers(size: nat, count: nat, s: seq<byte>): (items: seq<nat>)
    requires |s| == count * size
    ensures |items| == count
    decreases count
  {
    if count == 0 then [] else
      OneMore(size, count);
      [Number(s[..size])] + Numbers(size, count - 1, s[size..])
  }

  /** A field in memory. */
  function Image(f: Field): (s: seq<byte>)
    requires Passable(f)
    ensures |s| == SizeOf(ShapeOf(f))
  {
    match f
    case Scalar(size, value) => LittleEndian(size, value)
    case Array(size, items) => ItemsImage(size, items)
  }

  /** The field that memory holds. */
  function ValueOf(shape: Shape, s: seq<byte>): (f: Field)
    requires |s| == SizeOf(shape)
  {
    match shape
    case ScalarOf(size) => Scalar(size, Number(s))
    case ArrayOf(size, count) => Array(size, Numbers(size, count, s))
  }

  lemma {:induction false} ItemsBack(size: nat, items: seq<nat>)
    requires InRange(size, items)
    ensures Numbers(size, |items|, ItemsImage(size, items)) == items
  {
    hide Number, LittleEndian, Pow256;
    if items != [] {
      OneMore(size, |items|);
      var s := ItemsImage(size, items);
      assert s[..size] == LittleEndian(size, items[0]);
      assert s[size..] == ItemsImage(size, items[1..]);
      NumberBack(size, items[0]);
      ItemsBack(size, items[1..]);
    }
  }

  lemma ValueBack(f: Field)
    requires Passable(f)
    ensures ValueOf(ShapeOf(f), Image(f)) == f
  {
    match f
    case Scalar(size, value) => NumberBack(size, value);
    case Array(size, items) => ItemsBack(size, items);
  }

  /** Memory is determined by the values it holds. */
  lemma {:induction false} NumbersDiffer(size: nat, count: nat, s: seq<byte>, t: seq<byte>)
    requires |s| == |t| == count * size && Numbers(size, count, s) == Numbers(size, count, t)
    ensures s == t
    decreases count
  {
    hide Number, LittleEndian, Pow256;
    if count > 0 {
      OneMore(size, count);
      assert Number(s[..size]) == Numbers(size, count, s)[0] && Number(t[..size]) == Numbers(size, count, t)[0];
      BytesBack(s[..size]);
      BytesBack(t[..size]);
      assert Numbers(size, count - 1, s[size..]) == Numbers(size, count, s)[1..];
      assert Numbers(size, count - 1, t[size..]) == Numbers(size, count, t)[1..];
      NumbersDiffer(size, count - 1, s[size..], t[size..]);
      assert s == s[..size] + s[size..] && t == t[..size] + t[size..];
    } else {
      assert s == [] && t == [];
    }
  }

  // ---------------------------------------------------------------- what one Serialize does

  /** The bytes a write appends. */
  function Put(f: Field): (s: seq<byte>)
    requires Passable(f)
    ensures |s| == Moved(ShapeOf(f))
  {
    Image(f)[..Moved(ShapeOf(f))]
  }

  predicate Accepts(s: seq<byte>, f: Field)
    requires Passable(f)
  {
    |s| + |Put(f)| <= MAX_OUTPUT_BUFFER
  }

  function Write(s: seq<byte>, f: Field): (t: seq<byte>)
    requires Passable(f)
  {
    if Accepts(s, f) then s + Put(f) else s
  }

  /** What a destination holds after a read: only the bytes moved change. */
  function Read(s: seq<byte>, shape: Shape, dest: seq<byte>): (f: Field)
    requires Moved(shape) <= |s| && |dest| == SizeOf(shape)
  {
    ValueOf(shape, s[..Moved(shape)] + dest[Moved(shape)..])
  }

  /**
   * A written array is what a reader gets, whatever its destination held, exactly when the array takes less
   * than 65536 bytes: the 16-bit product of count and size drops the rest.
   */
  lemma ArrayRoundTripIff(size: nat, items: seq<nat>)
    requires Passable(Array(size, items))
    ensures var f := Array(size, items);
      (forall dest: seq<byte> | |dest| == SizeOf(ShapeOf(f)) :: Read(Put(f), ShapeOf(f), dest) == f)
      <==> |items| * size < UINT16
  {
    var f := Array(size, items);
    var image, n := Image(f), Moved(ShapeOf(f));
    ValueBack(f);
    if |items| * size < UINT16 {
      forall dest: seq<byte> | |dest| == SizeOf(ShapeOf(f))
        ensures Read(Put(f), ShapeOf(f), dest) == f
      {
        assert Put(f)[..n] + dest[n..] == image;
      }
    } else {
      var last: byte := if image[|image| - 1] == 0 then 1 else 0;
      var dest := image[|image| - 1 := last];
      var got := Put(f)[..n] + dest[n..];
      assert got[|image| - 1] == last;
      if Read(Put(f), ShapeOf(f), dest) == f {
        NumbersDiffer(size, |items|, got, image);
        assert false;
      }
    }
  }

  // ---------------------------------------------------------------- runs of writes and reads

  predicate AllPassable(fs: seq<Field>) {
    forall i | 0 <= i < |fs| :: Passable(fs[i])
  }

  predicate AllSmall(fs: seq<Field>) {
    AllPassable(fs) && forall i | 0 <= i < |fs| :: SizeOf(ShapeOf(fs[i])) < UINT16
  }

  /** The stream after trying to write every field; a refused field changes nothing. */
  function WriteAll(s: seq<byte>, fs: seq<Field>): (t: seq<byte>)
    requires AllPassable(fs)
    decreases |fs|
  {
    if fs == [] then s else WriteAll(Write(s, fs[0]), fs[1..])
  }

  /** The fields whose writes succeeded. */
  function Accepted(s: seq<byte>, fs: seq<Field>): (ok: seq<Field>)
    requires AllPassable(fs)
    ensures AllPassable(ok) && (AllSmall(fs) ==> AllSmall(ok))
    decreases |fs|
  {
    if fs == [] then []
    else (if Accepts(s, fs[0]) then [fs[0]] else []) + Accepted(Write(s, fs[0]), fs[1..])
  }

  function Shapes(fs: seq<Field>): (shapes: seq<Shape>)
    requires AllPassable(fs)
    ensures |shapes| == |fs| && forall i | 0 <= i < |fs| :: shapes[i] == ShapeOf(fs[i])
  {
    seq(|fs|, i requires 0 <= i < |fs| => ShapeOf(fs[i]))
  }

  /** The fields read one after the other from a stream, and what is left; None when a read fails. */
  function ReadAll(s: seq<byte>, shapes: seq<Shape>): (r: Option<(seq<Field>, seq<byte>)>)
    requires forall i | 0 <= i < |shapes| :: SizeOf(shapes[i]) < UINT16
    decreases |shapes|
  {
    if shapes == [] then Some(([], s))
    else
      var n := SizeOf(shapes[0]);
      if |s| < n then None
      else
        match ReadAll(s[n..], shapes[1..])
        case None => None
        case Some(r) => Some(([ValueOf(shapes[0], s[..n])] + r.0, r.1))
  }

  function Puts(fs: seq<Field>): seq<byte>
    requires AllPassable(fs)
  {
    if fs == [] then [] else Put(fs[0]) + Puts(fs[1..])
  }

  /** The stream holds the accepted fields one after the other and never exceeds its buffer. */
  lemma {:induction false} WrittenIsAccepted(s: seq<byte>, fs: seq<Field>)
    requires |s| <= MAX_OUTPUT_BUFFER && AllPassable(fs)
    ensures WriteAll(s, fs) == s + Puts(Accepted(s, fs)) && |WriteAll(s, fs)| <= MAX_OUTPUT_BUFFER
    decreases |fs|
  {
    hide Put;
    if fs != [] {
      WrittenIsAccepted(Write(s, fs[0]), fs[1..]);
      var later := Accepted(Write(s, fs[0]), fs[1..]);
      if Accepts(s, fs[0]) {
        var ok := [fs[0]] + later;
        assert ok[1..] == later && ok[0] == fs[0];
        assert (s + Put(fs[0])) + Puts(later) == s + (Put(fs[0]) + Puts(later));
      } else {
        assert [] + later == later;
      }
    }
  }

  /** A small field is written in full and read back. */
  lemma PutWhole(f: Field)
    requires Passable(f) && SizeOf(ShapeOf(f)) < UINT16
    ensures |Put(f)| == SizeOf(ShapeOf(f)) && ValueOf(ShapeOf(f), Put(f)) == f
  {
    assert Put(f) == Image(f);
    ValueBack(f);
  }

  lemma {:induction false} ReadPuts(fs: seq<Field>, tail: seq<byte>)
    requires AllSmall(fs)
    ensures ReadAll(Puts(fs) + tail, Shapes(fs)) == Some((fs, tail))
    decreases |fs|
  {
    hide Pow256, Image, ValueOf, Put;
    if fs == [] {
      assert Puts(fs) + tail == tail;
    } else {
      var f, s := fs[0], Puts(fs) + tail;
      var n := SizeOf(ShapeOf(f));
      PutWhole(f);
      hide SizeOf, ShapeOf, Moved;
      assert s[..n] == Put(f) && s[n..] == Puts(fs[1..]) + tail;
      assert Shapes(fs)[1..] == Shapes(fs[1..]);
      ReadPuts(fs[1..], tail);
      assert [f] + fs[1..] == fs;
    }
  }

  /**
   * For any list of fields below 65536 bytes each: reading the fields whose writes succeeded, in order, gives
   * those fields and ends exactly at the written length.
   */
  lemma StreamRoundTrip(fs: seq<Field>)
    requires AllSmall(fs)
    ensures var ok := Accepted([], fs); ReadAll(WriteAll([], fs), Shapes(ok)) == Some((ok, []))
  {
    hide Puts, ReadAll, WriteAll, Accepted, Put, Shapes;
    var ok := Accepted([], fs);
    WrittenIsAccepted([], fs);
    assert [] + Puts(ok) == Puts(ok) + [];
    ReadPuts(ok, []);
  }

  // ---------------------------------------------------------------- the streams

  class OutputStream {
    var length: uint16
    const buffer: array<byte>

    predicate Valid()
      reads this
    {
      buffer.Length == MAX_OUTPUT_BUFFER && length <= MAX_OUTPUT_BUFFER
    }

    function Written(): (s: seq<byte>)
      requires Valid()
      reads this, buffer
    {
      buffer[..length]
    }

    constructor ()
      ensures Valid() && fresh(buffer) && Written() == []
    {
      buffer := new byte[MAX_OUTPUT_BUFFER](_ => 0);
      length := 0;
    }

    method CopyIn(image: seq<byte>, n: nat)
      requires Valid() && n <= |image| && length + n <= MAX_OUTPUT_BUFFER
      modifies this, buffer
      ensures Valid() && Written() == old(Written()) + image[..n]
    {
      var at := length;
      forall i | 0 <= i < n {
        buffer[at + i] := image[i];
      }
      length := length + n;
    }

    method SerializeScalar(size: nat, value: nat) returns (ok: bool)
      requires Valid() && Passable(Scalar(size, value))
      modifies this, buffer
      ensures Valid() && ok == Accepts(old(Written()), Scalar(size, value))
      ensures Written() == Write(old(Written()), Scalar(size, value))
      ensures !ok ==> length == old(length) && buffer[..] == old(buffer[..])
    {
      if length + size <= MAX_OUTPUT_BUFFER {
        CopyIn(LittleEndian(size, value), size);
        return true;
      }
      return false;
    }

    method SerializeArray(size: nat, items: seq<nat>) returns (ok: bool)
      requires Valid() && Passable(Array(size, items))
      modifies this, buffer
      ensures Valid() && ok == Accepts(old(Written()), Array(size, items))
      ensures Written() == Write(old(Written()), Array(size, items))
      ensures !ok ==> length == old(length) && buffer[..] == old(buffer[..])
    {
      var count: uint16 := (|items| * size) % UINT16;
      assert count == Moved(ArrayOf(size, |items|));
      if length + count <= MAX_OUTPUT_BUFFER {
        CopyIn(ItemsImage(size, items), count);
        return true;
      }
      return false;
    }
  }

  class InputStream {
    const length: uint16
    var index: uint16
    const buffer: seq<byte>

    predicate Valid()
      reads this
    {
      index <= length <= |buffer|
    }

    /** What has not been read yet. */
    function Unread(): (s: seq<byte>)
      requires Valid()
      reads this
    {
      buffer[index..length]
    }

    constructor (len: nat, buf: seq<byte>)
      requires len <= |buf|
      ensures Valid() && Unread() == buf[..len % UINT16]
    {
      length := len % UINT16;
      index := 0;
      buffer := buf;
    }

    method SerializeScalar(size: nat) returns (ok: bool, value: nat)
      requires Valid()
      modifies this
      ensures Valid() && ok == (|old(Unread())| >= size)
      ensures ok ==> Unread() == old(Unread())[size..]
      ensures ok ==> Scalar(size, value) == Read(old(Unread()), ScalarOf(size), old(Unread())[..size])
      ensures !ok ==> index == old(index)
    {
      if length - index >= size {
        value := Number(buffer[index..index + size]);
        assert Unread()[..size] + Unread()[..size][size..] == buffer[index..index + size];
        index := index + size;
        return true, value;
      }
      return false, 0;
    }

    /** Only the bytes moved reach the destination. */
    method SerializeArray(size: nat, count: uint16, dest: array<byte>) returns (ok: bool)
      requires Valid() && dest.Length == count * size
      modifies this, dest
      ensures Valid() && ok == (|old(Unread())| >= Moved(ArrayOf(size, count)))
      ensures ok ==> Unread() == old(Unread())[Moved(ArrayOf(size, count))..]
      ensures ok ==> ValueOf(ArrayOf(size, count), dest[..])
                     == Read(old(Unread()), ArrayOf(size, count), old(dest[..]))
      ensures !ok ==> index == old(index) && dest[..] == old(dest[..])
    {
      var n: uint16 := (count * size) % UINT16;
      assert n == Moved(ArrayOf(size, count)) && n <= dest.Length;
      if length - index >= n {
        forall i | 0 <= i < n {
          dest[i] := buffer[index + i];
        }
        assert dest[..] == Unread()[..n] + old(dest[..])[n..];
        index := index + n;
        return true;
      }
      return false;
    }
  }
}
