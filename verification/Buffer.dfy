/** The growing and compacting byte buffer of net/Buffer.h, proved to behave as the plain byte
    sequence between its two indices. */
module NetBuffer {
  import opened Bytes

  const CHEAP_PREPEND := 8
  const INITIAL_SIZE := 1024

  class Buffer {
    var store: seq<byte>
    var readerIndex: nat
    var writerIndex: nat

    ghost predicate Valid()
      reads this
    {
      readerIndex <= writerIndex <= |store| && CHEAP_PREPEND <= |store|
    }

    /** The readable bytes. */
    function Contents(): (s: seq<byte>)
      requires Valid()
      reads this
    {
      store[readerIndex..writerIndex]
    }

    function ReadableBytes(): (n: nat)
      requires Valid()
      reads this
      ensures n == |Contents()|
    {
      writerIndex - readerIndex
    }

    function WritableBytes(): nat
      requires Valid()
      reads this
    {
      |store| - writerIndex
    }

    function PrependableBytes(): nat
      reads this
    {
      readerIndex
    }

    constructor (initialSize: nat := INITIAL_SIZE)
      ensures Valid() && Contents() == []
      ensures WritableBytes() == initialSize && PrependableBytes() == CHEAP_PREPEND
    {
      store := seq(CHEAP_PREPEND + initialSize, _ => 0);
      readerIndex, writerIndex := CHEAP_PREPEND, CHEAP_PREPEND;
    }

    method RetrieveAll()
      requires Valid()
      modifies this
      ensures Valid() && Contents() == []
      ensures store == old(store) && PrependableBytes() == CHEAP_PREPEND
    {
      readerIndex, writerIndex := CHEAP_PREPEND, CHEAP_PREPEND;
    }

    method Retrieve(len: nat)
      requires Valid() && len <= ReadableBytes()
      modifies this
      ensures Valid() && Contents() == old(Contents())[len..] && store == old(store)
      ensures Contents() == [] ==> PrependableBytes() == CHEAP_PREPEND
    {
      if len < ReadableBytes() {
        readerIndex := readerIndex + len;
      } else {
        RetrieveAll();
      }
    }

    method RetrieveAsString(len: nat) returns (s: seq<byte>)
      requires Valid() && len <= ReadableBytes()
      modifies this
      ensures Valid() && s + Contents() == old(Contents()) && |s| == len
    {
      s := Contents()[..len];
      Retrieve(len);
    }

    /** Called only when the free space at the end is too small: grows the store, or moves the
        readable bytes to the front.  The assertion is the source's own. */
    method MakeSpace(len: nat)
      requires Valid() && WritableBytes() < len
      modifies this
      ensures Valid() && Contents() == old(Contents()) && WritableBytes() >= len
      ensures |store| > |old(store)| <==> old(WritableBytes() + PrependableBytes()) < len + CHEAP_PREPEND
      ensures |store| > |old(store)| ==> |store| == old(writerIndex) + len && readerIndex == old(readerIndex)
      ensures |store| <= |old(store)| ==> |store| == |old(store)| && readerIndex == CHEAP_PREPEND
    {
      if WritableBytes() + PrependableBytes() < len + CHEAP_PREPEND {
        store := store + seq(writerIndex + len - |store|, _ => 0);
      } else {
        assert CHEAP_PREPEND < readerIndex;
        var readable := ReadableBytes();
        store := store[..CHEAP_PREPEND] + store[readerIndex..writerIndex] + store[CHEAP_PREPEND + readable..];
        readerIndex := CHEAP_PREPEND;
        writerIndex := readerIndex + readable;
      }
    }

    method EnsureWritableBytes(len: nat)
      requires Valid()
      modifies this
      ensures Valid() && Contents() == old(Contents()) && WritableBytes() >= len
      ensures old(WritableBytes()) >= len ==> store == old(store) && readerIndex == old(readerIndex)
      ensures old(WritableBytes()) < len && old(PrependableBytes()) <= CHEAP_PREPEND ==>
                |store| == old(writerIndex) + len && readerIndex == old(readerIndex)
    {
      if WritableBytes() < len {
        MakeSpace(len);
      }
    }

    method Append(data: seq<byte>)
      requires Valid()
      modifies this
      ensures Valid() && Contents() == old(Contents()) + data
      ensures old(WritableBytes()) >= |data| ==> |store| == |old(store)| && readerIndex == old(readerIndex)
    {
      EnsureWritableBytes(|data|);
      store := store[..writerIndex] + data + store[writerIndex + |data|..];
      HasWritten(|data|);
    }

    method HasWritten(len: nat)
      requires Valid() && len <= WritableBytes()
      modifies this`writerIndex
      ensures Valid() && Contents() == old(Contents()) + old(store[writerIndex..writerIndex + len])
    {
      writerIndex := writerIndex + len;
    }

    method Unwrite(len: nat)
      requires Valid() && len <= ReadableBytes()
      modifies this`writerIndex
      ensures Valid() && Contents() == old(Contents())[..old(ReadableBytes()) - len]
    {
      writerIndex := writerIndex - len;
    }

    method Prepend(data: seq<byte>)
      requires Valid() && |data| <= PrependableBytes()
      modifies this
      ensures Valid() && Contents() == data + old(Contents())
      ensures PrependableBytes() == old(PrependableBytes()) - |data|
    {
      readerIndex := readerIndex - |data|;
      store := store[..readerIndex] + data + store[readerIndex + |data|..];
    }

    /** Copies the readable bytes into a fresh buffer that has room for `reserve` more, and takes
        that buffer over. */
    method Shrink(reserve: nat)
      requires Valid()
      modifies this
      ensures Valid() && Contents() == old(Contents()) && WritableBytes() >= reserve
      ensures PrependableBytes() == CHEAP_PREPEND
      ensures |store| <= CHEAP_PREPEND + INITIAL_SIZE || WritableBytes() == reserve
    {
      var other := new Buffer(INITIAL_SIZE);
      other.EnsureWritableBytes(ReadableBytes() + reserve);
      other.Append(Contents());
      store, readerIndex, writerIndex := other.store, other.readerIndex, other.writerIndex;
    }

    // ----- integers in network byte order, of 1, 2, 4 or 8 bytes -----

    method AppendInt(x: int, width: nat)
      requires Valid() && FitsSigned(x, width)
      modifies this
      ensures Valid() && Contents() == old(Contents()) + EncodeInt(x, width)
    {
      Append(EncodeInt(x, width));
    }

    function PeekInt(width: nat): (x: int)
      requires Valid() && 1 <= width <= ReadableBytes()
      reads this
      ensures FitsSigned(x, width) && EncodeInt(x, width) == Contents()[..width]
    {
      OctetsRoundTrip(Contents()[..width]);
      DecodeInt(Contents()[..width])
    }

    method ReadInt(width: nat) returns (x: int)
      requires Valid() && 1 <= width <= ReadableBytes()
      modifies this
      ensures Valid() && FitsSigned(x, width)
      ensures old(Contents()) == EncodeInt(x, width) + Contents()
    {
      x := PeekInt(width);
      Retrieve(width);
    }

    method PrependInt(x: int, width: nat)
      requires Valid() && FitsSigned(x, width) && width <= PrependableBytes()
      modifies this
      ensures Valid() && Contents() == EncodeInt(x, width) + old(Contents())
    {
      Prepend(EncodeInt(x, width));
    }
  }
}
