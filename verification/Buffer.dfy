/** Buffer.cpp: a growable byte array with a read index and a write index, and the simple state
    machine it refines: a queue of bytes plus three numbers. */
module Buffers {

  newtype byte = x: int | 0 <= x < 256

  const CHEAP_PREPEND: nat := 8
  const INITIAL_SIZE: nat := 1024
  const EXTRA_SIZE: nat := 65536

  /** What readv reports: an error, or the bytes it delivered (none means end of file). */
  datatype ReadResult = ReadError(errno: int) | Arrived(bytes: seq<byte>)

  /** How many bytes readFd offers the kernel room for, given its writable space. */
  function Offered(writable: nat): nat {
    if writable < EXTRA_SIZE then writable + EXTRA_SIZE else writable
  }

  /** The abstract buffer: the readable bytes, where they start, and the size of the array. */
  datatype Queue = Queue(bytes: seq<byte>, reader: nat, size: nat) {
    predicate Valid() {
      CHEAP_PREPEND <= reader && reader + |bytes| <= size
    }

    function Writer(): nat {
      reader + |bytes|
    }

    /** Room for len more bytes: nothing to do, or move to the front, or grow. */
    function Ensured(len: nat): Queue
      requires Valid()
    {
      if size - Writer() >= len then this
      else if size - Writer() + reader < len + CHEAP_PREPEND then this.(size := Writer() + len)
      else this.(reader := CHEAP_PREPEND)
    }

    function Appended(more: seq<byte>): Queue
      requires Valid()
    {
      var q := Ensured(|more|);
      q.(bytes := q.bytes + more)
    }

    function Retrieved(len: nat): Queue {
      if len < |bytes| then Queue(bytes[len..], reader + len, size)
      else Queue([], CHEAP_PREPEND, size)
    }

    /** readFd: fill the writable space first, append what came after it. */
    function Received(more: seq<byte>): Queue
      requires Valid()
    {
      var room := size - Writer();
      if |more| <= room then this.(bytes := bytes + more)
      else this.(bytes := bytes + more[..room]).Appended(more[room..])
    }
  }

  /** readFd offers its writable space, and 64 KB more unless that space is as large by itself. */
  lemma OfferedLaw(writable: nat)
    ensures writable < 65536 ==> Offered(writable) == writable + 65536
    ensures writable >= 65536 ==> Offered(writable) == writable
  {
  }

  /** Making room keeps the bytes: nothing moves while there is room; else they move to the front if
      that gives room enough, and only else the array grows, to the last byte needed. */
  lemma EnsuredLaw(q: Queue, len: nat)
    requires q.Valid()
    ensures var r := q.Ensured(len);
            && r.bytes == q.bytes && r.size >= r.reader + |r.bytes| + len
            && (q.reader + |q.bytes| + len <= q.size ==> r == q)
            && (q.reader + |q.bytes| + len > q.size && 8 + |q.bytes| + len <= q.size ==> r == Queue(q.bytes, 8, q.size))
            && (8 + |q.bytes| + len > q.size ==> r == Queue(q.bytes, q.reader, q.reader + |q.bytes| + len))
  {
  }

  lemma ReceivedBytes(q: Queue, more: seq<byte>)
    requires q.Valid()
    ensures q.Received(more).bytes == q.bytes + more
  {
    var room := q.size - q.Writer();
    if |more| > room {
      assert more == more[..room] + more[room..];
    }
  }

  class Buffer {
    var data: array<byte>
    var reader: nat
    var writer: nat

    ghost predicate Valid()
      reads this
    {
      CHEAP_PREPEND <= reader <= writer <= data.Length
    }

    /** The readable bytes. */
    ghost function Contents(): seq<byte>
      requires Valid()
      reads this, data
    {
      data[reader..writer]
    }

    ghost function Abs(): (q: Queue)
      requires Valid()
      reads this, data
      ensures q.Valid() && q.Writer() == writer && q.bytes == Contents()
    {
      Queue(Contents(), reader, data.Length)
    }

    constructor (initialSize: nat)
      ensures Valid() && fresh(data)
      ensures Abs() == Queue([], CHEAP_PREPEND, CHEAP_PREPEND + initialSize)
    {
      data := new byte[CHEAP_PREPEND + initialSize](_ => 0);
      reader, writer := CHEAP_PREPEND, CHEAP_PREPEND;
    }

    method ReadableBytes() returns (n: nat)
      requires Valid()
      ensures n == |Contents()|
    {
      n := writer - reader;
    }

    method WritableBytes() returns (n: nat)
      requires Valid()
      ensures n == Abs().size - Abs().Writer()
    {
      n := data.Length - writer;
    }

    method RetrieveAll()
      requires Valid()
      modifies this`reader, this`writer
      ensures Valid() && data == old(data)
      ensures Contents() == [] && reader == CHEAP_PREPEND
    {
      reader := CHEAP_PREPEND;
      writer := CHEAP_PREPEND;
    }

    method Retrieve(len: nat)
      requires Valid()
      modifies this`reader, this`writer
      ensures Valid() && data == old(data)
      ensures Abs() == old(Abs()).Retrieved(len)
      ensures len >= |old(Contents())| ==> reader == 8 && writer == 8
      ensures len < |old(Contents())| ==> reader == old(reader) + len && writer == old(writer)
    {
      if len < writer - reader {
        reader := reader + len;
      } else {
        RetrieveAll();
      }
    }

    /** The result is len bytes from the read index on, wherever the readable bytes end. */
    method RetrieveAsString(len: nat) returns (r: seq<byte>)
      requires Valid() && reader + len <= data.Length
      modifies this`reader, this`writer
      ensures Valid() && data == old(data)
      ensures r == old(data[reader..reader + len])
      ensures len <= old(|Contents()|) ==> r == old(Contents())[..len]
      ensures Abs() == old(Abs()).Retrieved(len)
    {
      r := data[reader..reader + len];
      Retrieve(len);
    }

    method RetrieveAllAsString() returns (r: seq<byte>)
      requires Valid()
      modifies this`reader, this`writer
      ensures Valid() && data == old(data)
      ensures r == old(Contents()) && Contents() == []
      ensures Abs() == old(Abs()).Retrieved(|old(Contents())|)
    {
      r := RetrieveAsString(writer - reader);
    }

    /** vector::resize to a larger size: a new array, the old bytes first. */
    method Resize(size: nat)
      requires Valid() && size >= data.Length
      modifies this`data
      ensures Valid() && fresh(data) && data.Length == size
      ensures data[..old(data.Length)] == old(data[..])
      ensures Contents() == old(Contents())
    {
      var from, to := data, new byte[size](_ => 0);
      for i := 0 to from.Length
        invariant data == from && to[..i] == from[..i]
      {
        to[i] := from[i];
      }
      assert to[reader..writer] == to[..from.Length][reader..writer];
      data := to;
    }

    /** std::copy of the readable bytes to the front, byte by byte, within the one array. The
        destination lies to the left, so no byte is overwritten before it has been copied. */
    method CopyToFront()
      requires Valid() && CHEAP_PREPEND < reader
      modifies data
      ensures data[CHEAP_PREPEND..CHEAP_PREPEND + (writer - reader)] == old(Contents())
    {
      var n := writer - reader;
      for i := 0 to n
        invariant data[CHEAP_PREPEND..CHEAP_PREPEND + i] == old(data[reader..reader + i])
        invariant data[reader + i..writer] == old(data[reader + i..writer])
      {
        assert data[reader + i] == data[reader + i..writer][0];
        data[CHEAP_PREPEND + i] := data[reader + i];
        assert data[reader + i + 1..writer] == old(data[reader + i..writer])[1..];
      }
    }

    method MakeSpace(len: nat)
      requires Valid() && data.Length - writer < len
      modifies this, data
      ensures Valid() && (data == old(data) || fresh(data))
      ensures Abs() == old(Abs()).Ensured(len)
      ensures data.Length - writer >= len
    {
      if data.Length - writer + reader < len + CHEAP_PREPEND {
        Resize(writer + len);
      } else {
        assert CHEAP_PREPEND < reader;
        var readable := writer - reader;
        CopyToFront();
        reader := CHEAP_PREPEND;
        writer := reader + readable;
      }
    }

    method EnsureWritableBytes(len: nat)
      requires Valid()
      modifies this, data
      ensures Valid() && (data == old(data) || fresh(data))
      ensures Abs() == old(Abs()).Ensured(len)
      ensures data.Length - writer >= len && Contents() == old(Contents())
    {
      if data.Length - writer < len {
        MakeSpace(len);
      }
    }

    /** Copy bytes into the writable space and count them in. */
    method Store(more: seq<byte>)
      requires Valid() && |more| <= data.Length - writer
      modifies this`writer, data
      ensures Valid() && data == old(data)
      ensures Abs() == old(Abs()).(bytes := old(Contents()) + more)
    {
      var start := writer;
      for i := 0 to |more|
        invariant writer == start
        invariant data[reader..start] == old(Contents())
        invariant data[start..start + i] == more[..i]
      {
        data[start + i] := more[i];
      }
      writer := start + |more|;
      assert data[reader..writer] == data[reader..start] + data[start..writer];
    }

    method Append(more: seq<byte>)
      requires Valid()
      modifies this, data
      ensures Valid() && (data == old(data) || fresh(data))
      ensures Abs() == old(Abs()).Appended(more)
    {
      EnsureWritableBytes(|more|);
      Store(more);
    }

    /** Read from a descriptor: the kernel fills the writable space first, then the spare array. */
    method ReadFd(arrival: ReadResult) returns (n: int)
      requires Valid()
      requires arrival.Arrived? ==> |arrival.bytes| <= Offered(data.Length - writer)
      modifies this, data
      ensures Valid() && (data == old(data) || fresh(data))
      ensures arrival.ReadError? ==> n == -1 && Abs() == old(Abs())
      ensures arrival.Arrived? ==> n == |arrival.bytes| && Abs() == old(Abs()).Received(arrival.bytes)
    {
      var writable := data.Length - writer;
      if arrival.ReadError? {
        n := -1;
      } else {
        n := |arrival.bytes|;
        if n <= writable {
          Store(arrival.bytes);
        } else {
          Store(arrival.bytes[..writable]);
          Append(arrival.bytes[writable..]);
        }
      }
    }
  }
}
