/** Buffer: a byte queue in one resizable array, with in-place compaction and a two-region read. */
module Buffer {
  import opened Streams
  import S = BufferSpec

  class Buffer {
    var buffer: array<Byte>
    var readIndex: nat
    var writeIndex: nat

    ghost function Shape(): S.Shape
      reads this
    {
      S.Shape(buffer.Length, readIndex, writeIndex)
    }

    ghost predicate Valid()
      reads this
    {
      S.Valid(Shape())
    }

    /** The readable bytes, oldest first. */
    ghost function Contents(): Bytes
      reads this, buffer
      requires Valid()
    {
      buffer[readIndex..writeIndex]
    }

    constructor (initialSize: nat := S.INITIAL_SIZE)
      ensures Valid() && fresh(buffer) && Contents() == [] && Shape() == S.New(initialSize)
    {
      buffer := new Byte[S.CHEAP_PREPEND + initialSize](_ => 0);
      readIndex, writeIndex := S.CHEAP_PREPEND, S.CHEAP_PREPEND;
    }

    method ReadableBytes() returns (n: nat)
      requires Valid()
      ensures n == |Contents()|
    {
      n := writeIndex - readIndex;
    }

    method Retrive(len: nat)
      requires Valid()
      modifies this`readIndex, this`writeIndex
      ensures Valid() && Shape() == S.Retrive(old(Shape()), len)
      ensures Contents() == if len < |old(Contents())| then old(Contents())[len..] else []
    {
      if len < writeIndex - readIndex {
        readIndex := readIndex + len;
      } else {
        readIndex, writeIndex := S.CHEAP_PREPEND, S.CHEAP_PREPEND;
      }
    }

    method RetriveAsString(len: nat) returns (s: Bytes)
      requires Valid() && len <= |Contents()|
      modifies this`readIndex, this`writeIndex
      ensures Valid() && s + Contents() == old(Contents()) && |s| == len
      ensures Shape() == S.Retrive(old(Shape()), len)
    {
      ghost var was := Contents();
      s := buffer[readIndex..readIndex + len];
      assert s == was[..len] && (len == |was| ==> was[..len] == was);
      Retrive(len);
      assert was[..len] + was[len..] == was;
    }

    /** std::copy over overlapping ranges of one array, front to back. */
    static method CopyForward(a: array<Byte>, from: nat, to: nat, dest: nat)
      requires dest <= from <= to <= a.Length
      modifies a
      ensures a[dest..dest + (to - from)] == old(a[from..to])
    {
      for k := 0 to to - from
        invariant forall j | dest <= j < dest + k :: a[j] == old(a[..])[j + (from - dest)]
        invariant forall j | from + k <= j < to :: a[j] == old(a[..])[j]
      {
        a[dest + k] := a[from + k];
      }
    }

    /** vector::resize to a larger size. */
    method Resize(size: nat)
      requires Valid() && size >= buffer.Length
      modifies this`buffer
      ensures Valid() && fresh(buffer) && buffer.Length == size
      ensures forall i | 0 <= i < old(buffer.Length) :: buffer[i] == old(buffer[i])
    {
      var was := buffer;
      var now := new Byte[size](i requires 0 <= i < size reads was => if i < was.Length then was[i] else 0);
      buffer := now;
    }

    method MakeSpace(len: nat)
      requires Valid() && S.Writeable(Shape()) < len
      modifies this, buffer
      ensures Valid() && (buffer == old(buffer) || fresh(buffer))
      ensures Contents() == old(Contents()) && Shape() == S.MakeSpace(old(Shape()), len)
    {
      if buffer.Length - writeIndex + readIndex < len + S.CHEAP_PREPEND {
        ghost var was := buffer[..];
        Resize(writeIndex + len);
        assert buffer[readIndex..writeIndex] == was[readIndex..writeIndex];
      } else {
        assert readIndex > S.CHEAP_PREPEND;
        var readable := writeIndex - readIndex;
        CopyForward(buffer, readIndex, writeIndex, S.CHEAP_PREPEND);
        readIndex := S.CHEAP_PREPEND;
        writeIndex := readIndex + readable;
      }
    }

    method EnsureWriteableBytes(len: nat)
      requires Valid()
      modifies this, buffer
      ensures Valid() && (buffer == old(buffer) || fresh(buffer))
      ensures Contents() == old(Contents()) && Shape() == S.EnsureWriteable(old(Shape()), len)
      ensures buffer.Length - writeIndex >= len
    {
      if buffer.Length - writeIndex < len {
        MakeSpace(len);
      }
    }

    method Append(data: Bytes)
      requires Valid()
      modifies this, buffer
      ensures Valid() && (buffer == old(buffer) || fresh(buffer))
      ensures Contents() == old(Contents()) + data
      ensures Shape() == S.Append(old(Shape()), |data|)
    {
      EnsureWriteableBytes(|data|);
      Fill(data);
    }

    /** Copy to BeginWrite() and advance. */
    method Fill(data: Bytes)
      requires Valid() && |data| <= buffer.Length - writeIndex
      modifies this`writeIndex, buffer
      ensures Valid() && Contents() == old(Contents()) + data
      ensures Shape() == old(Shape()).(write := old(writeIndex) + |data|)
    {
      forall i | 0 <= i < |data| {
        buffer[writeIndex + i] := data[i];
      }
      writeIndex := writeIndex + |data|;
    }

    /** The storage is full and the rest is in the region on the stack, from where it is appended. */
    method FillBoth(data: Bytes)
      requires Valid() && buffer.Length - writeIndex < |data| <= S.ReadLimit(Shape())
      modifies this, buffer
      ensures Valid() && (buffer == old(buffer) || fresh(buffer))
      ensures Contents() == old(Contents()) + data
      ensures Shape() == S.ReadFd(old(Shape()), |data|)
    {
      var extra := new Byte[S.EXTRA_SIZE](_ => 0);
      var writeable := buffer.Length - writeIndex;
      forall i | 0 <= i < |data| - writeable {
        extra[i] := data[writeable + i];
      }
      var spill := extra[..|data| - writeable];
      ghost var was := Contents();
      assert data == data[..writeable] + spill;
      assert was + data == was + data[..writeable] + spill;
      Fill(data[..writeable]);
      ghost var filled := Shape();
      assert filled.write == buffer.Length;
      Append(spill);
      assert Shape() == S.Append(filled, |data| - writeable);
    }

    /**
     * One readv: `received` is what the kernel delivered, None an error. It
     * fills the storage first and then the region on the stack.
     */
    method ReadFd(received: Option<Bytes>) returns (n: int)
      requires Valid() && (received.Some? ==> |received.value| <= S.ReadLimit(Shape()))
      modifies this, buffer
      ensures Valid() && (buffer == old(buffer) || fresh(buffer))
      ensures n == if received.None? then -1 else |received.value|
      ensures received.None? ==> Shape() == old(Shape()) && Contents() == old(Contents())
      ensures received.Some? ==>
        && Contents() == old(Contents()) + received.value
        && Shape() == S.ReadFd(old(Shape()), |received.value|)
    {
      if received.None? {
        return -1;
      }
      n := |received.value|;
      if n <= buffer.Length - writeIndex {
        Fill(received.value);
      } else {
        FillBoth(received.value);
      }
    }

    /** One write of the readable bytes, of which the kernel takes `taken`; an error takes none. */
    method WriteFd(taken: nat) returns (sent: Bytes)
      requires Valid() && taken <= |Contents()|
      ensures |sent| == taken && sent <= Contents()
    {
      sent := buffer[readIndex..readIndex + taken];
    }
  }
}
