/**
 The gap buffer of a connection.  Callers see one sequence of octets, `Contents()`: growing,
 compacting and spilling a read are invisible in it.
 */
module Buffers {
  import opened Basics
  import opened Endian

  const CHEAP_PREPEND: nat := 8
  const INITIAL_SIZE: nat := 1024 * 4 - CHEAP_PREPEND
  const EXTRA_SIZE: nat := 65536  // the side array of `readFd`

  const NEWLINE: Byte := 10

  /** What one call of readv reports. */
  datatype ReadResult = ReadError(errno: int) | Bytes(data: seq<Byte>)

  /** `k` is where the first newline of `bs` is. */
  ghost predicate FirstNewline(bs: seq<Byte>, k: nat) {
    k < |bs| && bs[k] == NEWLINE && NEWLINE !in bs[..k]
  }

  class Buffer {
    var buffer: array<Byte>
    var readerIndex: nat
    var writerIndex: nat

    ghost predicate Valid()
      reads this
    {
      readerIndex <= writerIndex <= buffer.Length && CHEAP_PREPEND <= buffer.Length
    }

    ghost function Contents(): (s: seq<Byte>)
      requires Valid()
      reads this, buffer
    {
      buffer[readerIndex..writerIndex]
    }

    constructor (initialSize: nat)
      ensures Valid() && fresh(buffer) && Contents() == []
      ensures WritableBytes() == initialSize && PrependableBytes() == CHEAP_PREPEND
    {
      buffer := new Byte[CHEAP_PREPEND + initialSize](_ => 0);
      readerIndex, writerIndex := CHEAP_PREPEND, CHEAP_PREPEND;
    }

    function ReadableBytes(): (n: nat)
      requires Valid()
      reads this, buffer
      ensures n == |Contents()|
    {
      writerIndex - readerIndex
    }

    /** The readable octets, where the source returns a pointer to them. */
    function Peek(): (s: seq<Byte>)
      requires Valid()
      reads this, buffer
      ensures s == Contents()
    {
      buffer[readerIndex..writerIndex]
    }

    function WritableBytes(): nat
      requires Valid()
      reads this
    {
      buffer.Length - writerIndex
    }

    function PrependableBytes(): nat
      reads this
    {
      readerIndex
    }

    /** What the vectors of one `ReadFd` can hold. */
    function ReadRoom(): nat
      requires Valid()
      reads this
    {
      if WritableBytes() < EXTRA_SIZE then WritableBytes() + EXTRA_SIZE else WritableBytes()
    }

    // ---------- room ----------

    /** Moves the readable octets down to the cheap-prepend mark, lowest first. */
    method Compact()
      requires Valid() && CHEAP_PREPEND < readerIndex
      modifies this`readerIndex, this`writerIndex, buffer
      ensures Valid() && Contents() == old(Contents())
      ensures readerIndex == CHEAP_PREPEND && WritableBytes() == old(WritableBytes()) + old(readerIndex) - CHEAP_PREPEND
    {
      var readable, from := ReadableBytes(), readerIndex;
      ghost var was := buffer[..];
      var i := 0;
      while i < readable
        invariant 0 <= i <= readable && unchanged(`readerIndex) && unchanged(`writerIndex)
        invariant forall k :: CHEAP_PREPEND <= k < CHEAP_PREPEND + i ==> buffer[k] == was[k - CHEAP_PREPEND + from]
        invariant forall k :: from + i <= k < writerIndex ==> buffer[k] == was[k]
      {
        buffer[CHEAP_PREPEND + i] := buffer[from + i];
        i := i + 1;
      }
      assert buffer[CHEAP_PREPEND..CHEAP_PREPEND + readable] == was[from..from + readable];
      readerIndex := CHEAP_PREPEND;
      writerIndex := readerIndex + readable;
    }

    /** `resize`: a longer array that begins with the old one. */
    method Grow(size: nat)
      requires Valid() && buffer.Length <= size
      modifies this`buffer
      ensures Valid() && fresh(buffer) && buffer.Length == size && Contents() == old(Contents())
    {
      var resized := new Byte[size](_ => 0);
      forall i | 0 <= i < buffer.Length {
        resized[i] := buffer[i];
      }
      buffer := resized;
    }

    /** The array grows exactly when what is free in front and behind would not do. */
    method MakeSpace(len: nat)
      requires Valid() && WritableBytes() < len
      modifies this, buffer
      ensures Valid() && Contents() == old(Contents()) && len <= WritableBytes()
      ensures
        if old(WritableBytes() + PrependableBytes()) < len + CHEAP_PREPEND
        then fresh(buffer) && readerIndex == old(readerIndex) && WritableBytes() == len
        else buffer == old(buffer) && readerIndex == CHEAP_PREPEND
    {
      if WritableBytes() + PrependableBytes() < len + CHEAP_PREPEND {
        Grow(writerIndex + len);
      } else {
        assert CHEAP_PREPEND < readerIndex;
        Compact();
      }
    }

    method EnsureWritableBytes(len: nat)
      requires Valid()
      modifies this, buffer
      ensures Valid() && Contents() == old(Contents()) && len <= WritableBytes()
      ensures buffer == old(buffer) || fresh(buffer)
      ensures old(WritableBytes()) >= len ==> unchanged(this)
    {
      if WritableBytes() < len { MakeSpace(len); }
    }

    // ---------- adding at the ends ----------

    method Append(data: seq<Byte>)
      requires Valid()
      modifies this, buffer
      ensures Valid() && Contents() == old(Contents()) + data
      ensures buffer == old(buffer) || fresh(buffer)
    {
      EnsureWritableBytes(|data|);
      Fill(data);
    }

    /** Copies octets to just behind the readable ones. */
    method Fill(data: seq<Byte>)
      requires Valid() && |data| <= WritableBytes()
      modifies this`writerIndex, buffer
      ensures Valid() && Contents() == old(Contents()) + data && writerIndex == old(writerIndex) + |data|
    {
      forall i | 0 <= i < |data| {
        buffer[writerIndex + i] := data[i];
      }
      assert buffer[readerIndex..writerIndex] == old(Contents());
      assert buffer[writerIndex..writerIndex + |data|] == data;
      HasWritten(|data|);
    }

    /** The octets just behind the readable ones become readable. */
    method HasWritten(len: nat)
      requires Valid() && len <= WritableBytes()
      modifies this`writerIndex
      ensures Valid() && writerIndex == old(writerIndex) + len
      ensures Contents() == old(Contents()) + old(buffer[writerIndex..writerIndex + len])
    {
      writerIndex := writerIndex + len;
    }

    method Unwrite(len: nat)
      requires Valid() && len <= ReadableBytes()
      modifies this`writerIndex
      ensures Valid() && Contents() == old(Contents())[..old(ReadableBytes()) - len]
    {
      writerIndex := writerIndex - len;
    }

    method Prepend(data: seq<Byte>)
      requires Valid() && |data| <= PrependableBytes()
      modifies this`readerIndex, buffer
      ensures Valid() && Contents() == data + old(Contents())
    {
      readerIndex := readerIndex - |data|;
      forall i | 0 <= i < |data| {
        buffer[readerIndex + i] := data[i];
      }
      assert buffer[readerIndex..readerIndex + |data|] == data;
      assert buffer[readerIndex + |data|..writerIndex] == old(Contents());
    }

    /**
     Scattered read into the free tail and, when that is shorter than the side array, the side
     array too.  The kernel reports no more octets than the vectors can hold.
     */
    method ReadFd(result: ReadResult) returns (n: int, savedErrno: int)
      requires Valid()
      requires result.Bytes? ==> |result.data| <= ReadRoom()
      modifies this, buffer
      ensures Valid() && (buffer == old(buffer) || fresh(buffer))
      ensures result.Bytes? ==> n == |result.data| && Contents() == old(Contents()) + result.data
      ensures result.ReadError? ==> n < 0 && savedErrno == result.errno && unchanged(this) && unchanged(buffer)
    {
      n, savedErrno := -1, 0;
      var writable := WritableBytes();
      match result {
        case ReadError(errno) => savedErrno := errno;
        case Bytes(data) =>
          n := |data|;
          if n <= writable {
            Fill(data);
          } else {
            Fill(data[..writable]);
            assert writerIndex == buffer.Length;
            Append(data[writable..]);
            assert data == data[..writable] + data[writable..];
          }
      }
    }

    // ---------- taking from the front ----------

    method RetrieveAll()
      requires Valid()
      modifies this`readerIndex, this`writerIndex
      ensures Valid() && Contents() == []
    {
      readerIndex, writerIndex := CHEAP_PREPEND, CHEAP_PREPEND;
    }

    method Retrieve(len: nat)
      requires Valid() && len <= ReadableBytes()
      modifies this`readerIndex, this`writerIndex
      ensures Valid() && Contents() == old(Contents())[len..]
    {
      if len < ReadableBytes() {
        readerIndex := readerIndex + len;
      } else {
        RetrieveAll();
      }
    }

    method RetrieveUntil(end: nat)
      requires Valid() && readerIndex <= end <= writerIndex
      modifies this`readerIndex, this`writerIndex
      ensures Valid() && Contents() == old(Contents())[end - old(readerIndex)..]
    {
      Retrieve(end - readerIndex);
    }

    method RetrieveAsString(len: nat) returns (s: seq<Byte>)
      requires Valid() && len <= ReadableBytes()
      modifies this`readerIndex, this`writerIndex
      ensures Valid() && s == old(Contents())[..len] && Contents() == old(Contents())[len..]
    {
      s := buffer[readerIndex..readerIndex + len];
      Retrieve(len);
    }

    method RetrieveAllAsString() returns (s: seq<Byte>)
      requires Valid()
      modifies this`readerIndex, this`writerIndex
      ensures Valid() && s == old(Contents()) && Contents() == []
    {
      s := RetrieveAsString(ReadableBytes());
    }

    /** The position of the first newline among the readable octets. */
    method FindEOL() returns (eol: Option<nat>)
      requires Valid()
      ensures eol.Some? <==> NEWLINE in Contents()
      ensures eol.Some? ==> readerIndex <= eol.value < writerIndex && FirstNewline(Contents(), eol.value - readerIndex)
    {
      var p := readerIndex;
      while p < writerIndex
        invariant readerIndex <= p <= writerIndex
        invariant NEWLINE !in buffer[readerIndex..p]
      {
        if buffer[p] == NEWLINE {
          assert Contents()[p - readerIndex] == NEWLINE;
          assert Contents()[..p - readerIndex] == buffer[readerIndex..p];
          return Some(p);
        }
        p := p + 1;
      }
      return None;
    }

    // ---------- integers in network byte order ----------

    method AppendInt(host: Host, x: int, w: nat)
      requires Valid() && InWidth(x, w)
      modifies this, buffer
      ensures Valid() && Contents() == old(Contents()) + Wire(x, w)
      ensures buffer == old(buffer) || fresh(buffer)
    {
      NetworkOrder(host, Unsigned(x, w), w);
      Append(Memory(host, HostToNetwork(host, Unsigned(x, w), w), w));
    }

    method PrependInt(host: Host, x: int, w: nat)
      requires Valid() && InWidth(x, w) && w <= PrependableBytes()
      modifies this`readerIndex, buffer
      ensures Valid() && Contents() == Wire(x, w) + old(Contents())
    {
      NetworkOrder(host, Unsigned(x, w), w);
      Prepend(Memory(host, HostToNetwork(host, Unsigned(x, w), w), w));
    }

    method PeekInt(host: Host, w: nat) returns (x: int)
      requires Valid() && 0 < w <= ReadableBytes()
      ensures x == Parse(Contents()[..w])
    {
      var bytes := buffer[readerIndex..readerIndex + w];
      assert bytes == Contents()[..w];
      ParseRoundTrip(bytes);
      HostOrder(host, Unsigned(Parse(bytes), w), w);
      x := Signed(NetworkToHost(host, Load(host, bytes), w), w);
    }

    method ReadInt(host: Host, w: nat) returns (x: int)
      requires Valid() && 0 < w <= ReadableBytes()
      modifies this`readerIndex, this`writerIndex
      ensures Valid() && x == Parse(old(Contents())[..w]) && Contents() == old(Contents())[w..]
    {
      x := PeekInt(host, w);
      Retrieve(w);
    }

    // ---------- exchanging storage ----------

    method Swap(rhs: Buffer)
      requires Valid() && rhs.Valid()
      modifies this, rhs
      ensures Valid() && rhs.Valid()
      ensures buffer == old(rhs.buffer) && rhs.buffer == old(buffer)
      ensures writerIndex == old(rhs.writerIndex) && rhs.writerIndex == old(writerIndex)
      ensures Contents() == old(rhs.Contents()) && rhs.Contents() == old(Contents())
    {
      buffer, rhs.buffer := rhs.buffer, buffer;
      readerIndex, rhs.readerIndex := rhs.readerIndex, readerIndex;
      writerIndex, rhs.writerIndex := rhs.writerIndex, writerIndex;
    }

    /** Fresh storage with the asked room takes over; what was in the buffer is not copied to it. */
    method Shrink(reserve: nat)
      requires Valid()
      modifies this
      ensures Valid() && fresh(buffer) && old(ReadableBytes()) + reserve <= WritableBytes()
      ensures Contents() == []
    {
      var other := new Buffer(INITIAL_SIZE);
      other.EnsureWritableBytes(ReadableBytes() + reserve);
      Swap(other);
    }
  }

  /** Two hosts of any endianness that share a stream agree on an integer in it, and on what came before. */
  method Exchange(buf: Buffer, sender: Host, receiver: Host, x: int, w: nat) returns (before: seq<Byte>, y: int)
    requires buf.Valid() && InWidth(x, w)
    modifies buf, buf.buffer
    ensures buf.Valid() && before == old(buf.Contents()) && y == x && buf.Contents() == []
  {
    var n := buf.ReadableBytes();
    buf.AppendInt(sender, x, w);
    before := buf.RetrieveAsString(n);
    assert buf.Contents()[..w] == Wire(x, w);
    WireRoundTrip(x, w);
    y := buf.ReadInt(receiver, w);
  }
}
