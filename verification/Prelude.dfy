/** Types shared by every model: optional values, bytes, and chunked buffers. */
module Prelude {

  datatype Option<+T> = None | Some(value: T)

  type byte = x: int | 0 <= x < 256
  type Bytes = seq<byte>

  /** The number of values of a `usize` word. */
  const WORD: nat := 0x1_0000_0000_0000_0000

  function Min(a: nat, b: nat): nat {
    if a <= b then a else b
  }

  /** The bytes a queue of chunks stands for, in order. */
  function Flat(queue: seq<Bytes>): Bytes {
    if queue == [] then [] else queue[0] + Flat(queue[1..])
  }

  predicate NoEmptyChunk(queue: seq<Bytes>) {
    forall i :: 0 <= i < |queue| ==> queue[i] != []
  }

  lemma {:induction false} FlatAppend(queue: seq<Bytes>, chunk: Bytes)
    ensures Flat(queue + [chunk]) == Flat(queue) + chunk
  {
    if queue == [] {
      assert [] + [chunk] == [chunk];
      assert Flat([chunk]) == chunk + Flat([]);
    } else {
      FlatAppend(queue[1..], chunk);
      assert (queue + [chunk])[1..] == queue[1..] + [chunk];
    }
  }

  /** A queue without empty chunks is empty exactly when it stands for no bytes. */
  lemma FlatEmpty(queue: seq<Bytes>)
    requires NoEmptyChunk(queue)
    ensures queue == [] <==> Flat(queue) == []
  {
  }

  lemma {:induction false} FlatConcat(a: seq<Bytes>, b: seq<Bytes>)
    ensures Flat(a + b) == Flat(a) + Flat(b)
  {
    if a == [] {
      assert a + b == b;
    } else {
      FlatConcat(a[1..], b);
      var whole := a + b;
      assert whole[0] == a[0] && whole[1..] == a[1..] + b;
      assert a[0] + (Flat(a[1..]) + Flat(b)) == a[0] + Flat(a[1..]) + Flat(b);
    }
  }
}
