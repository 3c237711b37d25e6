/**
 * DyArray for scalar elements: an inline array of N slots until it is full, then one on the heap. Some slots may
 * never have been written; what a reader would find there is unknown.
 */
module DyArray {

  datatype Slot<T> = Unset | Stored(value: T)

  // ---------------------------------------------------------------- slots as a sequence

  /** The first count slots have been written. */
  predicate Known<T>(slots: seq<Slot<T>>, count: nat) {
    count <= |slots| && forall i | 0 <= i < count :: slots[i].Stored?
  }

  function Values<T>(slots: seq<Slot<T>>, count: nat): (s: seq<T>)
    requires Known(slots, count)
    ensures |s| == count && forall i | 0 <= i < count :: s[i] == slots[i].value
  {
    seq(count, i requires 0 <= i < count => slots[i].value)
  }

  function Copies<T>(n: nat, value: T): (s: seq<T>)
    ensures |s| == n && forall i | 0 <= i < n :: s[i] == value
  {
    seq(n, _ => value)
  }

  function Max(a: nat, b: nat): (m: nat) { if a < b then b else a }

  /** The slot at i after push_back(n, value) on a storage of the given slots, count of them in use. */
  function PushedAt<T>(slots: seq<Slot<T>>, count: nat, value: T, i: nat): (slot: Slot<T>) {
    if i < |slots| then (if i < count then slots[i] else Stored(value))
    else if i == count then Stored(value) else Unset
  }

  /** What push_back(n, value) makes of the storage. */
  function Pushed<T>(slots: seq<Slot<T>>, count: nat, n: nat, value: T): (r: seq<Slot<T>>)
    ensures |r| == Max(|slots|, count + n)
  {
    seq(Max(|slots|, count + n), i requires 0 <= i => PushedAt(slots, count, value, i))
  }

  /**
   * push_back(n, value) appends n copies exactly when it does not grow the array, or grows a full one by one
   * slot: any other growth leaves slots behind that nobody wrote.
   */
  lemma PushBackIff<T>(slots: seq<Slot<T>>, count: nat, n: nat, value: T)
    requires Known(slots, count)
    ensures var r := Pushed(slots, count, n, value);
      Known(r, count + n) && Values(r, count + n) == Values(slots, count) + Copies(n, value)
      <==> count + n <= |slots| || (count == |slots| && n == 1)
  {
    var r := Pushed(slots, count, n, value);
    if count + n <= |slots| || (count == |slots| && n == 1) {
      assert Known(r, count + n);
      assert Values(r, count + n) == Values(slots, count) + Copies(n, value);
    } else {
      assert r[count + n - 1] == Unset;
    }
  }

  // ---------------------------------------------------------------- the operations

  class DyArray<T> {
    const elements: array<Slot<T>>           // m_Elements, the inline storage
    var dynamicElements: array?<Slot<T>>     // m_pDynamicElements
    var head: array<Slot<T>>                 // m_pHead
    var maxSize: nat
    var count: nat
    const zero: T                            // T() and what memset leaves of a T
    const size: nat                          // sizeof(T)

    /** The head is the storage in use, and its size is maxSize. */
    ghost predicate Shape()
      reads this
    {
      && size > 0
      && head == (if dynamicElements == null then elements else dynamicElements)
      && head.Length == maxSize
      && (dynamicElements != null ==> dynamicElements != elements)
    }

    ghost predicate Valid()
      reads this, head
    {
      Shape() && Known(head[..], count)
    }

    ghost function Contents(): (s: seq<T>)
      requires Valid()
      reads this, head
      ensures |s| == count
    {
      Values(head[..], count)
    }

    constructor (n: nat, size: nat, zero: T)
      requires size > 0
      ensures Valid() && fresh(head) && Contents() == [] && maxSize == n && this.zero == zero
    {
      var inline := new Slot<T>[n](_ => Stored(zero));
      elements, head, dynamicElements := inline, inline, null;
      maxSize, count := n, 0;
      this.zero, this.size := zero, size;
    }

    /** _insert_n */
    method InsertN(n: nat, value: T)
      requires Shape() && count + n <= maxSize
      modifies head
      ensures head[..] == old(head[..count]) + Fill(n, value) + old(head[count + n..])
    {
      var i := 0;
      while i < n
        invariant 0 <= i <= n
        invariant head[..] == old(head[..count]) + Fill(i, value) + old(head[count + i..])
      {
        head[count + i] := Stored(value);
        i := i + 1;
      }
    }

    /** _grow_n: more room, of which only the slot at count is written. */
    method GrowN(n: nat, value: T)
      requires Shape() && count <= maxSize && n > 0
      modifies this
      ensures Shape() && fresh(head) && count == old(count) && maxSize == old(maxSize) + n
      ensures forall i | 0 <= i < maxSize ::
        head[i] == if i == count then Stored(value) else if i < old(maxSize) then old(head[i]) else Unset
    {
      var oldSize := maxSize;
      maxSize := maxSize + n;
      var data := new Slot<T>[maxSize](_ => Unset);
      forall i | 0 <= i < oldSize {
        data[i] := head[i];
      }
      dynamicElements := data;
      head := data;
      data[count] := Stored(value);
    }

    /** push_back(n, value): fills whatever room there is, then makes the room that is missing. */
    method PushBackN(n: nat, value: T)
      requires Shape() && count <= maxSize
      modifies this, head
      ensures Shape() && (head == old(head) || fresh(head)) && count == old(count) + n
      ensures head[..] == Pushed(old(head[..]), old(count), n, value)
    {
      var extra := 0;
      if count + n > maxSize {
        extra := count + n - maxSize;
      }
      if maxSize > count {
        InsertN(maxSize - count, value);
      }
      if extra != 0 {
        GrowN(extra, value);
      }
      count := count + n;
    }

    method PushBack(value: T)
      requires Valid()
      modifies this, head
      ensures Valid() && (head == old(head) || fresh(head))
      ensures Contents() == old(Contents()) + [value]
    {
      PushBackIff(head[..], count, 1, value);
      PushBackN(1, value);
      assert Copies(1, value) == [value];
    }

    /** erase of one element */
    method Erase(i: nat)
      requires Valid() && i < count
      modifies this`count, head
      ensures Valid() && head == old(head) && Contents() == old(Contents())[..i] + old(Contents())[i + 1..]
    {
      ghost var was := head[..];
      forall j | i <= j < count - 1 {
        head[j] := head[j + 1];
      }
      count := count - 1;
      Closed(was, head[..], count + 1, i, i + 1);
    }

    /** erase of a range; a range that is none, or ends behind the elements, changes nothing */
    method EraseRange(first: nat, last: nat)
      requires Valid()
      modifies this`count, head
      ensures Valid() && head == old(head)
      ensures Contents() == Erased(old(Contents()), first, last)
    {
      ghost var was, n := head[..], count;
      if first > last || count < last {
        return;
      }
      var off := last - first;
      forall j | first <= j < first + (count - last) {
        head[j] := head[j + off];
      }
      count := count - off;
      Closed(was, head[..], n, first, last);
    }

    method Clear()
      requires Valid()
      modifies this`count, head
      ensures Valid() && head == old(head) && Contents() == []
    {
      EraseRange(0, count);
    }

    /** resize: grows by default values as push_back does, or drops the tail. */
    method Resize(newSize: nat)
      requires Shape() && count <= maxSize
      modifies this, head
      ensures Shape() && (head == old(head) || fresh(head)) && count == newSize
      ensures head[..] == if newSize <= old(count) then old(head[..])
                          else Pushed(old(head[..]), old(count), newSize - old(count), zero)
    {
      if newSize <= count {
        count := newSize;
      } else {
        PushBackN(newSize - count, zero);
      }
    }

    /** memcpy of elements to the front of the storage at pos */
    method CopyIn(data: seq<T>, pos: nat)
      requires Shape() && pos + |data| <= maxSize
      modifies head
      ensures head[..] == old(head[..pos]) + StoredAll(data) + old(head[pos + |data|..])
    {
      forall i | 0 <= i < |data| {
        head[pos + i] := Stored(data[i]);
      }
    }

    /** memset of bytes from the front: whole elements become zero, one may be cleared in part. */
    method ClearBytes(bytes: nat)
      requires Shape() && bytes <= maxSize
      modifies head
      ensures forall i | bytes <= i < maxSize :: head[i] == old(head[i])
    {
      WholeElements(bytes, size);
      forall i | 0 <= i < bytes / size {
        head[i] := Stored(zero);
      }
      if bytes % size != 0 {
        head[bytes / size] := Unset;
      }
    }

    /** assign: the memset clears maxSize bytes, whatever the size of an element. */
    method Assign(data: seq<T>)
      requires Valid()
      modifies this, head
      ensures Valid() && (head == old(head) || fresh(head)) && Contents() == data
    {
      if |data| >= maxSize {
        Resize(|data|);
      }
      ClearBytes(maxSize);
      CopyIn(data, 0);
      count := |data|;
      assert Contents() == data;
    }

    /** copy: overwrites from the front and never shortens. */
    method Copy(data: seq<T>)
      requires Valid()
      modifies this, head
      ensures Valid() && (head == old(head) || fresh(head))
      ensures Contents() == Overlaid(old(Contents()), data)
    {
      ghost var was, n := head[..], count;
      if |data| >= maxSize {
        Resize(|data|);
      }
      CopyIn(data, 0);
      count := if count > |data| then count else |data|;
      CopiedOver(was, head[..], n, data);
    }

    /** append: a growing append counts its elements twice. */
    method Append(data: seq<T>, pos: nat)
      requires Shape() && count <= maxSize && pos + |data| <= Max(maxSize, count + |data|)
      modifies this, head
      ensures Shape() && (head == old(head) || fresh(head))
      ensures (head[..], count) == Appended(old(head[..]), old(count), data, pos, zero)
    {
      if |data| + count >= maxSize {
        Resize(|data| + count);
      }
      CopyIn(data, pos);
      count := count + |data|;
    }

    method Do(op: Operation<T>)
      requires Valid()
      modifies this, head
      ensures Valid() && (head == old(head) || fresh(head)) && Contents() == Perform(old(Contents()), op)
    {
      match op {
        case Push(value) => PushBack(value);
        case EraseAt(k) => if k < count { Erase(k); }
        case EraseIn(first, last) => EraseRange(first, last);
        case ClearAll => Clear();
        case AssignTo(data) => Assign(data);
        case CopyOver(data) => Copy(data);
      }
    }

    /** Any interleaving of operations does to the contents what they do to a sequence. */
    method Run(ops: seq<Operation<T>>)
      requires Valid()
      modifies this, head
      ensures Valid() && (head == old(head) || fresh(head)) && Contents() == PerformAll(old(Contents()), ops)
    {
      hide Perform, Known, Values;
      ghost var was := Contents();
      var i := 0;
      assert ops[0..] == ops;
      while i < |ops|
        invariant i <= |ops| && Valid() && (head == old(head) || fresh(head))
        invariant PerformAll(Contents(), ops[i..]) == PerformAll(was, ops)
      {
        assert ops[i..][1..] == ops[i + 1..];
        Do(ops[i]);
        i := i + 1;
      }
    }
  }

  lemma WholeElements(bytes: nat, size: nat)
    requires size > 0
    ensures bytes / size <= bytes && (bytes % size != 0 ==> bytes / size < bytes)
  {
    var q, r := bytes / size, bytes % size;
    assert bytes == size * q + r;
    AtLeast(size, q);
  }

  lemma {:induction false} AtLeast(a: nat, b: nat)
    requires a >= 1
    ensures a * b >= b
  {
    if a > 1 {
      AtLeast(a - 1, b);
      assert a * b == (a - 1) * b + b;
    }
  }

  /** The elements behind a range have moved up to its start. */
  lemma Closed<T>(slots: seq<Slot<T>>, slots': seq<Slot<T>>, count: nat, first: nat, last: nat)
    requires Known(slots, count) && first <= last <= count && |slots'| == |slots|
    requires forall j | 0 <= j < first :: slots'[j] == slots[j]
    requires forall j | first <= j < first + (count - last) :: slots'[j] == slots[j + (last - first)]
    ensures Known(slots', count - (last - first))
    ensures Values(slots', count - (last - first)) == Values(slots, count)[..first] + Values(slots, count)[last..]
  {
  }

  /** The data lies over the front of what was there. */
  lemma CopiedOver<T>(slots: seq<Slot<T>>, slots': seq<Slot<T>>, count: nat, data: seq<T>)
    requires Known(slots, count) && |data| <= |slots'| && count <= |slots'|
    requires slots'[..|data|] == StoredAll(data)
    requires forall j | |data| <= j < count :: slots'[j] == slots[j]
    ensures var n := if count > |data| then count else |data|;
      Known(slots', n) && Values(slots', n) == Overlaid(Values(slots, count), data)
  {
    forall j | 0 <= j < |data| ensures slots'[j] == Stored(data[j]) { assert slots'[..|data|][j] == slots'[j]; }
  }

  datatype Operation<T> =
    | Push(value: T)
    | EraseAt(k: nat)                   // of an element there is
    | EraseIn(first: nat, last: nat)
    | ClearAll
    | AssignTo(data: seq<T>)
    | CopyOver(data: seq<T>)

  function Perform<T>(s: seq<T>, op: Operation<T>): (r: seq<T>) {
    match op
    case Push(value) => s + [value]
    case EraseAt(k) => if k < |s| then s[..k] + s[k + 1..] else s
    case EraseIn(first, last) => Erased(s, first, last)
    case ClearAll => []
    case AssignTo(data) => data
    case CopyOver(data) => Overlaid(s, data)
  }

  function PerformAll<T>(s: seq<T>, ops: seq<Operation<T>>): (r: seq<T>)
    decreases |ops|
  {
    if ops == [] then s else PerformAll(Perform(s, ops[0]), ops[1..])
  }

  /** What append makes of storage and count. */
  function Appended<T>(slots: seq<Slot<T>>, count: nat, data: seq<T>, pos: nat, zero: T): (r: (seq<Slot<T>>, nat))
    requires count <= |slots| && pos + |data| <= Max(|slots|, count + |data|)
  {
    var grows := |data| + count >= |slots|;
    var room := if grows && |data| > 0 then Pushed(slots, count, |data|, zero) else slots;
    (room[..pos] + StoredAll(data) + room[pos + |data|..], (if grows then count + |data| else count) + |data|)
  }

  /** append at the end appends exactly when it does not fill or grow the array, or has nothing to append. */
  lemma AppendIff<T>(slots: seq<Slot<T>>, count: nat, data: seq<T>, zero: T)
    requires Known(slots, count)
    ensures var (r, n) := Appended(slots, count, data, count, zero);
      Known(r, n) && Values(r, n) == Values(slots, count) + data
      <==> count + |data| < |slots| || |data| == 0
  {
    var (r, n) := Appended(slots, count, data, count, zero);
    if count + |data| < |slots| || |data| == 0 {
      assert Known(r, n);
      assert Values(r, n) == Values(slots, count) + data;
    }
  }

  function Fill<T>(n: nat, value: T): (s: seq<Slot<T>>)
    ensures |s| == n && forall i | 0 <= i < n :: s[i] == Stored(value)
  {
    seq(n, _ => Stored(value))
  }

  function StoredAll<T>(data: seq<T>): (s: seq<Slot<T>>)
    ensures |s| == |data| && forall i | 0 <= i < |data| :: s[i] == Stored(data[i])
  {
    seq(|data|, i requires 0 <= i < |data| => Stored(data[i]))
  }

  function Erased<T>(s: seq<T>, first: nat, last: nat): (r: seq<T>) {
    if first > last || |s| < last then s else s[..first] + s[last..]
  }

  function Overlaid<T>(s: seq<T>, data: seq<T>): (r: seq<T>) {
    data + if |data| < |s| then s[|data|..] else []
  }
}
