/** Bytes and byte streams shared by the network and wire-format modules. */
module Bytes {

  type byte = b: int | 0 <= b < 256

  const MAX_INPUT_BUFFER := 1024
  const MAX_OUTPUT_BUFFER := 65500

  /** One receive payload. */
  type Chunk = seq<byte>

  datatype Option<+T> = None | Some(value: T)

  /** The stream obtained by putting the chunks one after the other. */
  function Flatten(chunks: seq<Chunk>): seq<byte> {
    if chunks == [] then [] else chunks[0] + Flatten(chunks[1..])
  }

  lemma FlattenFront(chunk: Chunk, chunks: seq<Chunk>)
    ensures Flatten([chunk] + chunks) == chunk + Flatten(chunks)
  {
    assert ([chunk] + chunks)[1..] == chunks;
  }

  lemma {:induction false} FlattenAppend(a: seq<Chunk>, b: seq<Chunk>)
    ensures Flatten(a + b) == Flatten(a) + Flatten(b)
  {
    if a == [] {
      assert a + b == b;
    } else {
      hide Flatten;
      assert a == [a[0]] + a[1..] && a + b == [a[0]] + (a[1..] + b);
      FlattenFront(a[0], a[1..]);
      FlattenFront(a[0], a[1..] + b);
      FlattenAppend(a[1..], b);
    }
  }
}
