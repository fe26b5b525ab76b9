/** Reading a TZif file (RFC 8536, section 3): the cursor, the data block and the two versions of base/TimeZone.cc. */
module TzFile {
  import opened Bytes
  import opened CivilTime

  // ----- integers as the host holds them -----

  /** The byte order of the host that reads the file. */
  datatype Host = LittleFirst | BigFirst

  function Reverse(bs: seq<byte>): (r: seq<byte>)
    ensures |r| == |bs|
    ensures forall i :: 0 <= i < |bs| ==> r[i] == bs[|bs| - 1 - i]
  {
    seq(|bs|, i requires 0 <= i < |bs| => bs[|bs| - 1 - i])
  }

  /** The unsigned integer that these bytes are in the host's memory. */
  function InMemory(host: Host, bs: seq<byte>): (u: int)
    ensures 0 <= u < Pow256(|bs|)
  {
    FromBigEndian(if host.LittleFirst? then Reverse(bs) else bs)
  }

  /** be32toh and be64toh, for n = 4 and n = 8. */
  function ToHost(host: Host, u: int, n: nat): (r: int)
    requires 0 <= u < Pow256(n)
    ensures 0 <= r < Pow256(n)
  {
    if host.LittleFirst? then FromBigEndian(Reverse(BigEndian(u, n))) else u
  }

  /** The conversion to a signed type of n bytes. */
  function Signed(u: int, n: nat): int { if 2 * u < Pow256(n) then u else u - Pow256(n) }

  /** A whole integer read into memory and converted is the big-endian integer of the file, on both hosts. */
  lemma WholeIntegers(host: Host, bs: seq<byte>)
    requires bs != []
    ensures Signed(ToHost(host, InMemory(host, bs), |bs|), |bs|) == DecodeInt(bs)
  {
    FromBigEndianRoundTrip(Reverse(bs));
    assert Reverse(Reverse(bs)) == bs;
  }

  lemma ByteInMemory(host: Host, b: byte)
    ensures InMemory(host, [b]) == b && b < Pow256(7) && b < Pow256(8)
  {
    assert Reverse([b]) == [b];
    assert Pow256(1) <= Pow256(7) by { assert Pow256(7) == 256 * Pow256(6); }
    assert FromBigEndian([b]) == 256 * FromBigEndian([]) + b by { assert [b][..0] == []; }
  }

  /** readUint8: one byte passed through be64toh and cut back to a byte. */
  function Octet(host: Host, b: byte): byte {
    ByteInMemory(host, b);
    ToHost(host, InMemory(host, [b]), 8) % 256
  }

  lemma {:induction false} FirstOctetZero(u: int, n: nat)
    requires 0 <= u < Pow256(n)
    ensures u < Pow256(n + 1) && BigEndian(u, n + 1)[0] == 0
  {
    if n > 0 {
      assert u / 256 < Pow256(n - 1);
      FirstOctetZero(u / 256, n - 1);
    }
  }

  /** On a big-endian host a byte reads as itself; on a little-endian host every byte reads as zero. */
  lemma OctetIs(host: Host, b: byte)
    ensures Octet(host, b) == if host.LittleFirst? then 0 else b
  {
    ByteInMemory(host, b);
    FirstOctetZero(b, 7);
  }

  // ----- a data block, given by the bytes from its start on -----

  /** The six counts, in the order of the file. */
  datatype Counts = Counts(ut: int, std: int, leap: int, time: int, typ: int, chars: int)
  {
    /** What the block reader refuses outright or runs into as a negative size. */
    predicate Acceptable() {
      && leap == 0 && (ut != 0 ==> ut == typ) && (std != 0 ==> std == typ)
      && 0 <= time && 0 <= typ && 0 <= chars
    }
  }

  function IntAt(bs: seq<byte>, at: nat, width: nat): int
    requires width > 0 && at + width <= |bs|
  {
    DecodeInt(bs[at..at + width])
  }

  function CountsOf(bs: seq<byte>): Counts
    requires |bs| >= 24
  {
    Counts(IntAt(bs, 0, 4), IntAt(bs, 4, 4), IntAt(bs, 8, 4), IntAt(bs, 12, 4), IntAt(bs, 16, 4), IntAt(bs, 20, 4))
  }

  function TimeSize(v1: bool): nat { if v1 then 4 else 8 }

  /** The size of n transition times. */
  function TimesSize(v1: bool, n: int): int { if v1 then 4 * n else 8 * n }

  function TimesOf(bs: seq<byte>, n: nat, v1: bool): (r: seq<int>)
    requires TimesSize(v1, n) <= |bs|
    ensures |r| == n
  {
    seq(n, i requires 0 <= i < n => IntAt(bs, TimesSize(v1, i), TimeSize(v1)))
  }

  function OctetsOf(host: Host, bs: seq<byte>): (r: seq<byte>)
    ensures |r| == |bs|
  {
    seq(|bs|, i requires 0 <= i < |bs| => Octet(host, bs[i]))
  }

  function TypeAt(host: Host, bs: seq<byte>, p: nat): LocalTime
    requires p + 6 <= |bs|
  {
    LocalTime(IntAt(bs, p, 4), Octet(host, bs[p + 4]) != 0, Octet(host, bs[p + 5]))
  }

  function TypesOf(host: Host, bs: seq<byte>, n: nat): (r: seq<LocalTime>)
    requires 6 * n <= |bs|
    ensures |r| == n
  {
    seq(n, i requires 0 <= i < n => TypeAt(host, bs, 6 * i))
  }

  predicate AllBelow(indices: seq<byte>, n: int) { forall i :: 0 <= i < |indices| ==> indices[i] < n }

  function Transitions(times: seq<int>, indices: seq<byte>, types: seq<LocalTime>): (r: seq<Transition>)
    requires |indices| == |times| && AllBelow(indices, |types|)
    ensures |r| == |times|
  {
    seq(|times|, i requires 0 <= i < |times| =>
      Transition(times[i], times[i] + types[indices[i]].utcOffset, indices[i]))
  }

  /** The bytes up to the end of the abbreviations are there. */
  predicate Complete(bs: seq<byte>, v1: bool) {
    |bs| >= 24 && CountsOf(bs).Acceptable() && CharsEnd(CountsOf(bs), v1) <= |bs|
  }

  function IndicesAt(c: Counts, v1: bool): int { 24 + TimesSize(v1, c.time) }
  function TypesAt(c: Counts, v1: bool): int { IndicesAt(c, v1) + c.time }
  function CharsAt(c: Counts, v1: bool): int { TypesAt(c, v1) + 6 * c.typ }
  function CharsEnd(c: Counts, v1: bool): int { CharsAt(c, v1) + c.chars }

  function BlockTimes(bs: seq<byte>, v1: bool): (r: seq<int>)
    requires Complete(bs, v1)
    ensures |r| == CountsOf(bs).time
  {
    TimesOf(bs[24..], CountsOf(bs).time, v1)
  }

  function BlockIndices(host: Host, bs: seq<byte>, v1: bool): (r: seq<byte>)
    requires Complete(bs, v1)
    ensures |r| == CountsOf(bs).time
  {
    OctetsOf(host, bs[IndicesAt(CountsOf(bs), v1)..TypesAt(CountsOf(bs), v1)])
  }

  function BlockTypes(host: Host, bs: seq<byte>, v1: bool): (r: seq<LocalTime>)
    requires Complete(bs, v1)
    ensures |r| == CountsOf(bs).typ
  {
    TypesOf(host, bs[TypesAt(CountsOf(bs), v1)..], CountsOf(bs).typ)
  }

  /** The block can be read: it is complete and every transition names one of its types. */
  predicate BlockReads(host: Host, bs: seq<byte>, v1: bool) {
    Complete(bs, v1) && AllBelow(BlockIndices(host, bs, v1), CountsOf(bs).typ)
  }

  /** What follows p, if p is not already past the end. */
  function From(bs: seq<byte>, p: nat): seq<byte> { if p <= |bs| then bs[p..] else [] }

  datatype ZoneData = ZoneData(zone: Zone, abbreviation: seq<byte>, tzstring: seq<byte>)

  /** What a data block says. */
  function BlockData(host: Host, bs: seq<byte>, v1: bool): ZoneData
    requires BlockReads(host, bs, v1)
  {
    var c := CountsOf(bs);
    var types := BlockTypes(host, bs, v1);
    ZoneData(Zone(Transitions(BlockTimes(bs, v1), BlockIndices(host, bs, v1), types), types),
             bs[CharsAt(c, v1)..CharsEnd(c, v1)],
             if v1 then [] else From(bs, CharsEnd(c, v1) + c.std + c.ut))
  }

  // ----- the file -----

  const HEAD: seq<byte> := [0x54, 0x5A, 0x69, 0x66]
  const VERSION2: byte := 0x32

  /** fseek from the current position: before the start of the file it fails and moves nothing. */
  function Seek(p: nat, n: int): nat { if p + n < 0 then p else p + n }

  /** The size of the version-1 block by the counts in the first header. */
  function FirstBlockSize(c: Counts): int {
    4 * c.time + c.time + 6 * c.typ + c.chars + 8 * c.leap + c.std + c.ut
  }

  predicate HeadAt(bs: seq<byte>) { 4 <= |bs| && bs[..4] == HEAD }

  /** A second header stands first, and the block after it can be read. */
  predicate SecondReads(host: Host, bs: seq<byte>) { HeadAt(bs) && BlockReads(host, From(bs, 20), false) }

  /** The file from the second header on. */
  function SecondPart(bs: seq<byte>): seq<byte>
    requires |bs| >= 44
  {
    From(bs, Seek(44, FirstBlockSize(CountsOf(bs[20..]))))
  }

  predicate FileReads(host: Host, bs: seq<byte>) {
    && |bs| >= 44 && HeadAt(bs)
    && if bs[4] == VERSION2 then SecondReads(host, SecondPart(bs)) else BlockReads(host, bs[20..], true)
  }

  function FileData(host: Host, bs: seq<byte>): ZoneData
    requires FileReads(host, bs)
  {
    if bs[4] == VERSION2 then BlockData(host, From(SecondPart(bs), 20), false) else BlockData(host, bs[20..], true)
  }

  // ----- what a decoded zone is -----

  /** Every transition names a type of the zone and has that type's offset in its local time. */
  predicate Consistent(z: Zone) {
    forall i :: 0 <= i < |z.transitions| ==>
      var t := z.transitions[i];
      0 <= t.localtimeIdx < |z.localtimes| && t.localtime == t.utctime + z.localtimes[t.localtimeIdx].utcOffset
  }

  lemma BlockConsistent(host: Host, bs: seq<byte>, v1: bool)
    requires BlockReads(host, bs, v1)
    ensures var z := BlockData(host, bs, v1).zone;
      && Consistent(z) && |z.localtimes| == CountsOf(bs).typ && |z.transitions| == CountsOf(bs).time
      && (z.localtimes == [] ==> z.transitions == [])
  {
    var z := BlockData(host, bs, v1).zone;
    if |z.transitions| > 0 {
      assert BlockIndices(host, bs, v1)[0] < CountsOf(bs).typ;
    }
  }

  predicate WellMade(z: Zone) {
    Consistent(z) && (z.Usable() <==> z.localtimes != []) && (z.localtimes == [] ==> z.transitions == [])
  }

  lemma BlockWellMade(host: Host, bs: seq<byte>, v1: bool)
    requires BlockReads(host, bs, v1)
    ensures WellMade(BlockData(host, bs, v1).zone)
  {
    BlockConsistent(host, bs, v1);
    var z := BlockData(host, bs, v1).zone;
    assert forall i :: 0 <= i < |z.transitions| ==> 0 <= z.transitions[i].localtimeIdx < |z.localtimes|;
  }

  /** A decoded zone is consistent, and unless it is entirely empty it can be looked up in. */
  lemma DecodedZone(host: Host, bs: seq<byte>)
    requires FileReads(host, bs)
    ensures var z := FileData(host, bs).zone;
      Consistent(z) && (z.Usable() <==> z.localtimes != []) && (z.localtimes == [] ==> z.transitions == [])
  {
    if bs[4] == VERSION2 {
      BlockWellMade(host, From(SecondPart(bs), 20), false);
    } else {
      BlockWellMade(host, bs[20..], true);
    }
  }

  // ----- one-byte fields and the byte order -----

  predicate AllZero(bs: seq<byte>) { forall i :: 0 <= i < |bs| ==> bs[i] == 0 }

  /** The is-dst byte and the designation index of every type are zero. */
  predicate PlainTypes(bs: seq<byte>, n: nat)
    requires 6 * n <= |bs|
  {
    forall i :: 0 <= i < n ==> PlainType(bs, 6 * i)
  }

  predicate PlainType(bs: seq<byte>, p: nat)
    requires p + 6 <= |bs|
  {
    bs[p + 4] == 0 && bs[p + 5] == 0
  }

  lemma OctetsAgree(bs: seq<byte>)
    ensures OctetsOf(BigFirst, bs) == bs
    ensures OctetsOf(LittleFirst, bs) == bs <==> AllZero(bs)
    ensures AllZero(OctetsOf(LittleFirst, bs))
  {
    forall i | 0 <= i < |bs| ensures Octet(BigFirst, bs[i]) == bs[i] && Octet(LittleFirst, bs[i]) == 0 {
      OctetIs(BigFirst, bs[i]);
      OctetIs(LittleFirst, bs[i]);
    }
    assert OctetsOf(LittleFirst, bs) == bs ==> forall i :: 0 <= i < |bs| ==> OctetsOf(LittleFirst, bs)[i] == bs[i];
  }

  lemma TypeAgrees(bs: seq<byte>, p: nat)
    requires p + 6 <= |bs|
    ensures TypeAt(LittleFirst, bs, p) == TypeAt(BigFirst, bs, p) <==> PlainType(bs, p)
  {
    OctetIs(BigFirst, bs[p + 4]);
    OctetIs(LittleFirst, bs[p + 4]);
    OctetIs(BigFirst, bs[p + 5]);
    OctetIs(LittleFirst, bs[p + 5]);
  }

  lemma TypesAgree(bs: seq<byte>, n: nat)
    requires 6 * n <= |bs|
    ensures TypesOf(LittleFirst, bs, n) == TypesOf(BigFirst, bs, n) <==> PlainTypes(bs, n)
  {
    var little, big := TypesOf(LittleFirst, bs, n), TypesOf(BigFirst, bs, n);
    forall i | 0 <= i < n ensures little[i] == big[i] <==> PlainType(bs, 6 * i) {
      TypeAgrees(bs, 6 * i);
    }
    assert little == big <==> forall i :: 0 <= i < n ==> little[i] == big[i];
  }

  lemma TransitionsAgree(times: seq<int>, i1: seq<byte>, i2: seq<byte>, types: seq<LocalTime>)
    requires |i1| == |i2| == |times| && AllBelow(i1, |types|) && AllBelow(i2, |types|)
    ensures Transitions(times, i1, types) == Transitions(times, i2, types) <==> i1 == i2
  {
    var a, b := Transitions(times, i1, types), Transitions(times, i2, types);
    if a == b {
      forall i | 0 <= i < |i1| ensures i1[i] == i2[i] {
        assert a[i].localtimeIdx == b[i].localtimeIdx;
      }
    }
  }

  /** All one-byte fields of a block are zero. */
  predicate PlainBlock(bs: seq<byte>, v1: bool)
    requires Complete(bs, v1)
  {
    var c := CountsOf(bs);
    AllZero(bs[IndicesAt(c, v1)..TypesAt(c, v1)]) && PlainTypes(bs[TypesAt(c, v1)..], c.typ)
  }

  /** A block that a big-endian host reads is read on a little-endian host as well, and to the same data
      exactly when all its one-byte fields are zero. */
  lemma HostsAgree(bs: seq<byte>, v1: bool)
    requires BlockReads(BigFirst, bs, v1)
    ensures BlockReads(LittleFirst, bs, v1)
    ensures BlockData(LittleFirst, bs, v1) == BlockData(BigFirst, bs, v1) <==> PlainBlock(bs, v1)
  {
    var c := CountsOf(bs);
    OctetsAgree(bs[IndicesAt(c, v1)..TypesAt(c, v1)]);
    TypesAgree(bs[TypesAt(c, v1)..], c.typ);
    var little, big := BlockIndices(LittleFirst, bs, v1), BlockIndices(BigFirst, bs, v1);
    assert |little| > 0 ==> 0 <= big[0] < c.typ;
    TransitionsAgree(BlockTimes(bs, v1), little, big, BlockTypes(BigFirst, bs, v1));
  }

  lemma LittleBlock(bs: seq<byte>, v1: bool)
    requires BlockReads(LittleFirst, bs, v1)
    ensures var z := BlockData(LittleFirst, bs, v1).zone;
      forall i :: 0 <= i < |z.transitions| ==> z.transitions[i].localtimeIdx == 0
  {
    OctetsAgree(bs[IndicesAt(CountsOf(bs), v1)..TypesAt(CountsOf(bs), v1)]);
  }

  /** On a little-endian host every zone read from a file has one offset at all times, that of its first type. */
  lemma LittleEndianOneOffset(bs: seq<byte>, t: int)
    requires FileReads(LittleFirst, bs) && FileData(LittleFirst, bs).zone.localtimes != []
    ensures var z := FileData(LittleFirst, bs).zone;
      z.Usable() && OffsetAt(z, t) == z.localtimes[0].utcOffset
  {
    DecodedZone(LittleFirst, bs);
    if bs[4] == VERSION2 {
      LittleBlock(From(SecondPart(bs), 20), false);
    } else {
      LittleBlock(bs[20..], true);
    }
  }

  // ----- the version-1 block of a version-2 file -----

  lemma FirstCounts(header: seq<byte>, rest: seq<byte>)
    requires |header| == 44
    ensures CountsOf((header + rest)[20..]) == CountsOf(header[20..])
  {
    assert (header + rest)[20..] == header[20..] + rest;
    CountsPrefix(header[20..], rest);
  }

  lemma CountsPrefix(counts: seq<byte>, rest: seq<byte>)
    requires |counts| == 24
    ensures CountsOf(counts + rest) == CountsOf(counts)
  {
    var bs := counts + rest;
    assert bs[0..4] == counts[0..4] && bs[4..8] == counts[4..8] && bs[8..12] == counts[8..12];
    assert bs[12..16] == counts[12..16] && bs[16..20] == counts[16..20] && bs[20..24] == counts[20..24];
  }

  lemma SkipToSecond(header: seq<byte>, block: seq<byte>, rest: seq<byte>, bs: seq<byte>)
    requires |header| == 44 && HeadAt(header) && bs == header + block + rest
    requires |block| == FirstBlockSize(CountsOf(header[20..]))
    ensures HeadAt(bs) && bs[4] == header[4] && SecondPart(bs) == rest
  {
    assert bs == header + (block + rest);
    assert bs[..4] == header[..4];
    FirstCounts(header, block + rest);
  }

  /** For a version-2 file the skip is exactly the version-1 block: the result is that of what follows the block,
      whatever the block holds. */
  lemma FirstBlockSkipped(host: Host, header: seq<byte>, block: seq<byte>, rest: seq<byte>)
    requires |header| == 44 && HeadAt(header) && header[4] == VERSION2
    requires |block| == FirstBlockSize(CountsOf(header[20..]))
    ensures FileReads(host, header + block + rest) <==> SecondReads(host, rest)
    ensures SecondReads(host, rest) ==>
      FileData(host, header + block + rest) == BlockData(host, From(rest, 20), false)
  {
    SkipToSecond(header, block, rest, header + block + rest);
  }
}
