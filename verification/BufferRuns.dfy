/** Whole runs of buffer operations: first in first out, and how large the array can get. */
module BufferRuns {
  import opened Buffers

  datatype Op =
    | Append(bytes: seq<byte>)
    | ReadFd(bytes: seq<byte>)
    | Retrieve(len: nat)

  function Step(q: Queue, op: Op): (r: Queue)
    requires q.Valid()
    ensures r.Valid()
  {
    match op
    case Append(more) => q.Appended(more)
    case ReadFd(more) => q.Received(more)
    case Retrieve(len) => q.Retrieved(len)
  }

  /** The bytes an operation puts in, and the bytes it takes out. */
  function Put(op: Op): seq<byte> {
    if op.Retrieve? then [] else op.bytes
  }

  function Taken(q: Queue, op: Op): seq<byte> {
    if !op.Retrieve? then []
    else if op.len < |q.bytes| then q.bytes[..op.len]
    else q.bytes
  }

  function Run(q: Queue, ops: seq<Op>): (r: Queue)
    requires q.Valid()
    ensures r.Valid()
    decreases |ops|
  {
    if ops == [] then q else Run(Step(q, ops[0]), ops[1..])
  }

  function AllPut(ops: seq<Op>): seq<byte> {
    if ops == [] then [] else Put(ops[0]) + AllPut(ops[1..])
  }

  function AllTaken(q: Queue, ops: seq<Op>): seq<byte>
    requires q.Valid()
    decreases |ops|
  {
    if ops == [] then [] else Taken(q, ops[0]) + AllTaken(Step(q, ops[0]), ops[1..])
  }

  function Max(a: nat, b: nat): nat {
    if a < b then b else a
  }

  /** The largest number of readable bytes at any point of a run, its start included. */
  function Peak(q: Queue, ops: seq<Op>): nat
    requires q.Valid()
    decreases |ops|
  {
    Max(|q.bytes|, if ops == [] then 0 else Peak(Step(q, ops[0]), ops[1..]))
  }

  lemma StepConserves(q: Queue, op: Op)
    requires q.Valid()
    ensures Taken(q, op) + Step(q, op).bytes == q.bytes + Put(op)
  {
    if op.ReadFd? {
      var room := q.size - q.Writer();
      if |op.bytes| > room {
        assert op.bytes == op.bytes[..room] + op.bytes[room..];
      }
    }
  }

  /** The array grows exactly when the readable bytes and the new ones would not fit behind the
      reserved prefix, even after moving to the front. */
  lemma GrowsOnlyWhenFull(q: Queue, op: Op)
    requires q.Valid()
    ensures Step(q, op).size > q.size <==> q.size < 8 + |q.bytes| + |Put(op)|
    ensures Step(q, op).size >= q.size
  {
  }

  lemma StepSize(q: Queue, op: Op)
    requires q.Valid()
    ensures Step(q, op).size <= Max(q.size, 2 * |Step(q, op).bytes| + CHEAP_PREPEND - 1)
  {
  }

  lemma Splice<T>(old_: seq<T>, put: seq<T>, rest: seq<T>, taken: seq<T>, mid: seq<T>, later: seq<T>, end: seq<T>)
    requires taken + mid == old_ + put && later + end == mid + rest
    ensures (taken + later) + end == old_ + (put + rest)
  {
    assert (taken + later) + end == taken + (later + end);
    assert taken + (mid + rest) == (taken + mid) + rest;
  }

  /** Bytes taken out, followed by the bytes still readable, are the bytes put in: nothing lost,
      repeated or reordered, over any run. */
  lemma {:induction false} RunConserves(q: Queue, ops: seq<Op>)
    requires q.Valid()
    ensures AllTaken(q, ops) + Run(q, ops).bytes == q.bytes + AllPut(ops)
    decreases |ops|
  {
    if ops != [] {
      var q1 := Step(q, ops[0]);
      StepConserves(q, ops[0]);
      RunConserves(q1, ops[1..]);
      Splice(q.bytes, Put(ops[0]), AllPut(ops[1..]), Taken(q, ops[0]), q1.bytes,
             AllTaken(q1, ops[1..]), Run(q1, ops[1..]).bytes);
    }
  }

  /** The array never exceeds its starting size or twice the peak load plus seven. */
  lemma {:induction false} RunSize(q: Queue, ops: seq<Op>)
    requires q.Valid()
    ensures q.size <= Run(q, ops).size <= Max(q.size, 2 * Peak(q, ops) + 7)
    decreases |ops|
  {
    if ops != [] {
      var q1 := Step(q, ops[0]);
      StepSize(q, ops[0]);
      GrowsOnlyWhenFull(q, ops[0]);
      RunSize(q1, ops[1..]);
      assert |q1.bytes| <= Peak(q1, ops[1..]);
    }
  }

  /** The same for a buffer as constructed. */
  lemma FreshBufferRun(initialSize: nat, ops: seq<Op>)
    ensures var q := Queue([], CHEAP_PREPEND, CHEAP_PREPEND + initialSize);
            && AllTaken(q, ops) + Run(q, ops).bytes == AllPut(ops)
            && Run(q, ops).size <= Max(8 + initialSize, 2 * Peak(q, ops) + 7)
  {
    var q := Queue([], CHEAP_PREPEND, CHEAP_PREPEND + initialSize);
    RunConserves(q, ops);
    RunSize(q, ops);
  }
}
