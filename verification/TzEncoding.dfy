/** Writing the files that TzFile reads (RFC 8536, section 3), and what reading them back gives. */
module TzEncoding {
  import opened Bytes
  import opened CivilTime
  import opened TzFile

  datatype TypeRecord = TypeRecord(offset: int, dst: byte, desig: byte)

  datatype Block = Block(times: seq<int>, indices: seq<byte>, types: seq<TypeRecord>, chars: seq<byte>,
                         std: seq<byte>, ut: seq<byte>)

  function CountsFor(b: Block): Counts { Counts(|b.ut|, |b.std|, 0, |b.times|, |b.types|, |b.chars|) }

  predicate TimesFit(times: seq<int>, v1: bool) {
    forall i :: 0 <= i < |times| ==> FitsSigned(times[i], TimeSize(v1))
  }

  predicate TypesFit(types: seq<TypeRecord>) { forall i :: 0 <= i < |types| ==> FitsSigned(types[i].offset, 4) }

  predicate CountsFit(c: Counts) {
    && FitsSigned(c.ut, 4) && FitsSigned(c.std, 4) && FitsSigned(c.leap, 4)
    && FitsSigned(c.time, 4) && FitsSigned(c.typ, 4) && FitsSigned(c.chars, 4)
  }

  /** What the format asks of a block without leap seconds. */
  predicate WellFormed(b: Block, v1: bool) {
    && CountsFit(CountsFor(b)) && CountsFor(b).Acceptable()
    && TimesFit(b.times, v1) && TypesFit(b.types)
    && |b.indices| == |b.times| && AllBelow(b.indices, |b.types|)
  }

  function EncodeCounts(c: Counts): (r: seq<byte>)
    requires CountsFit(c)
    ensures |r| == 24
  {
    EncodeInt(c.ut, 4) + (EncodeInt(c.std, 4) + (EncodeInt(c.leap, 4)
      + (EncodeInt(c.time, 4) + (EncodeInt(c.typ, 4) + EncodeInt(c.chars, 4)))))
  }

  function EncodeTimes(times: seq<int>, v1: bool): (r: seq<byte>)
    requires TimesFit(times, v1)
    ensures |r| == TimesSize(v1, |times|)
  {
    if times == [] then [] else EncodeInt(times[0], TimeSize(v1)) + EncodeTimes(times[1..], v1)
  }

  function EncodeType(t: TypeRecord): (r: seq<byte>)
    requires FitsSigned(t.offset, 4)
    ensures |r| == 6
  {
    EncodeInt(t.offset, 4) + [t.dst, t.desig]
  }

  function EncodeTypes(types: seq<TypeRecord>): (r: seq<byte>)
    requires TypesFit(types)
    ensures |r| == 6 * |types|
  {
    if types == [] then [] else EncodeType(types[0]) + EncodeTypes(types[1..])
  }

  /** The block followed by rest. */
  function EncodeBlock(b: Block, v1: bool, rest: seq<byte>): seq<byte>
    requires WellFormed(b, v1)
  {
    EncodeCounts(CountsFor(b)) + AfterCounts(b, v1, rest)
  }

  function AfterCounts(b: Block, v1: bool, rest: seq<byte>): seq<byte>
    requires WellFormed(b, v1)
  {
    EncodeTimes(b.times, v1) + (b.indices + AfterIndices(b, v1, rest))
  }

  function AfterIndices(b: Block, v1: bool, rest: seq<byte>): seq<byte>
    requires WellFormed(b, v1)
  {
    EncodeTypes(b.types) + AfterTypes(b, rest)
  }

  function AfterTypes(b: Block, rest: seq<byte>): seq<byte> { b.chars + (b.std + (b.ut + rest)) }

  function EncodeHeader(version: byte, reserved: seq<byte>, c: Counts): (r: seq<byte>)
    requires |reserved| == 15 && CountsFit(c)
    ensures |r| == 44
  {
    HEAD + [version] + reserved + EncodeCounts(c)
  }

  // ----- what is read back -----

  function ReadType(host: Host, t: TypeRecord): LocalTime {
    LocalTime(t.offset, Octet(host, t.dst) != 0, Octet(host, t.desig))
  }

  function ReadTypes(host: Host, types: seq<TypeRecord>): (r: seq<LocalTime>)
    ensures |r| == |types|
  {
    seq(|types|, i requires 0 <= i < |types| => ReadType(host, types[i]))
  }

  /** The zone that a block describes. */
  function ZoneOf(host: Host, b: Block): Zone
    requires |b.indices| == |b.times| && AllBelow(OctetsOf(host, b.indices), |b.types|)
  {
    var types := ReadTypes(host, b.types);
    Zone(Transitions(b.times, OctetsOf(host, b.indices), types), types)
  }

  // ----- part by part -----

  lemma Int32Part(x: int, rest: seq<byte>)
    requires FitsSigned(x, 4)
    ensures DecodeInt((EncodeInt(x, 4) + rest)[..4]) == x && (EncodeInt(x, 4) + rest)[4..] == rest
  {
    assert (EncodeInt(x, 4) + rest)[..4] == EncodeInt(x, 4);
    IntRoundTrip(x, 4);
  }

  lemma SliceOfSuffix(bs: seq<byte>, at: nat, n: nat)
    requires at + n <= |bs|
    ensures bs[at..][..n] == bs[at..at + n]
  {
  }

  lemma CountsPart(c: Counts, rest: seq<byte>)
    requires CountsFit(c)
    ensures CountsOf(EncodeCounts(c) + rest) == c && (EncodeCounts(c) + rest)[24..] == rest
  {
    CountsPrefix(EncodeCounts(c), rest);
    var b5 := EncodeInt(c.chars, 4);
    var b4 := EncodeInt(c.typ, 4) + b5;
    var b3 := EncodeInt(c.time, 4) + b4;
    var b2 := EncodeInt(c.leap, 4) + b3;
    var b1 := EncodeInt(c.std, 4) + b2;
    var b0 := EncodeCounts(c);
    assert b0[4..] == b1 && b0[8..] == b2 && b0[12..] == b3 && b0[16..] == b4 && b0[20..] == b5;
    Int32Part(c.ut, b1);
    Int32Part(c.std, b2);
    Int32Part(c.leap, b3);
    Int32Part(c.time, b4);
    Int32Part(c.typ, b5);
    IntRoundTrip(c.chars, 4);
    SliceOfSuffix(b0, 4, 4);
    SliceOfSuffix(b0, 8, 4);
    SliceOfSuffix(b0, 12, 4);
    SliceOfSuffix(b0, 16, 4);
    SliceOfSuffix(b0, 20, 4);
  }

  lemma LaterTime(first: seq<byte>, rest: seq<byte>, p: nat, w: nat)
    requires w > 0 && |first| == w && p + w <= |rest|
    ensures IntAt(first + rest, p + w, w) == IntAt(rest, p, w)
  {
    assert (first + rest)[p + w..p + w + w] == rest[p..p + w];
  }

  lemma {:induction false} TimeRead(times: seq<int>, v1: bool, rest: seq<byte>, i: nat)
    requires TimesFit(times, v1) && i < |times|
    ensures IntAt(EncodeTimes(times, v1) + rest, TimesSize(v1, i), TimeSize(v1)) == times[i]
  {
    var first, others := EncodeInt(times[0], TimeSize(v1)), EncodeTimes(times[1..], v1) + rest;
    assert EncodeTimes(times, v1) + rest == first + others;
    if i == 0 {
      assert (first + others)[0..TimeSize(v1)] == first;
      IntRoundTrip(times[0], TimeSize(v1));
    } else {
      TimeRead(times[1..], v1, rest, i - 1);
      LaterTime(first, others, TimesSize(v1, i - 1), TimeSize(v1));
    }
  }

  lemma TimesPart(times: seq<int>, v1: bool, rest: seq<byte>)
    requires TimesFit(times, v1)
    ensures TimesOf(EncodeTimes(times, v1) + rest, |times|, v1) == times
  {
    forall i | 0 <= i < |times|
      ensures TimesOf(EncodeTimes(times, v1) + rest, |times|, v1)[i] == times[i]
    {
      TimeRead(times, v1, rest, i);
    }
  }

  lemma TypeOfSlice(host: Host, bs: seq<byte>, p: nat, t: TypeRecord)
    requires FitsSigned(t.offset, 4) && p + 6 <= |bs| && bs[p..p + 6] == EncodeType(t)
    ensures TypeAt(host, bs, p) == ReadType(host, t)
  {
    assert bs[p..p + 4] == bs[p..p + 6][..4] == EncodeInt(t.offset, 4);
    assert bs[p + 4] == bs[p..p + 6][4] && bs[p + 5] == bs[p..p + 6][5];
    IntRoundTrip(t.offset, 4);
  }

  lemma {:induction false} TypeSlice(types: seq<TypeRecord>, rest: seq<byte>, i: nat)
    requires TypesFit(types) && i < |types|
    ensures (EncodeTypes(types) + rest)[6 * i..6 * i + 6] == EncodeType(types[i])
  {
    var first, others := EncodeType(types[0]), EncodeTypes(types[1..]) + rest;
    assert EncodeTypes(types) + rest == first + others;
    if i > 0 {
      TypeSlice(types[1..], rest, i - 1);
      assert (first + others)[6 * i..6 * i + 6] == others[6 * i - 6..6 * i];
    }
  }

  lemma TypeRead(host: Host, types: seq<TypeRecord>, rest: seq<byte>, bs: seq<byte>, i: nat)
    requires TypesFit(types) && i < |types| && bs == EncodeTypes(types) + rest
    ensures TypeAt(host, bs, 6 * i) == ReadType(host, types[i])
  {
    TypeSlice(types, rest, i);
    TypeOfSlice(host, bs, 6 * i, types[i]);
  }

  lemma TypesPart(host: Host, types: seq<TypeRecord>, rest: seq<byte>)
    requires TypesFit(types)
    ensures TypesOf(host, EncodeTypes(types) + rest, |types|) == ReadTypes(host, types)
  {
    var bs := EncodeTypes(types) + rest;
    var read := TypesOf(host, bs, |types|);
    forall i | 0 <= i < |types| ensures read[i] == ReadType(host, types[i]) {
      TypeRead(host, types, rest, bs, i);
    }
  }

  // ----- whole blocks -----

  lemma Parts(bs: seq<byte>, p: nat, part: seq<byte>, rest: seq<byte>)
    requires p <= |bs| && bs[p..] == part + rest
    ensures p + |part| <= |bs| && bs[p..p + |part|] == part && bs[p + |part|..] == rest
  {
    var suffix := bs[p..];
    assert bs[p..p + |part|] == suffix[..|part|];
    assert bs[p + |part|..] == suffix[|part|..];
  }

  /** Where the parts of an encoded block stand. */
  lemma UpToTypes(b: Block, v1: bool, rest: seq<byte>, bs: seq<byte>)
    requires WellFormed(b, v1) && bs == EncodeBlock(b, v1, rest)
    ensures var c := CountsFor(b);
      && |bs| >= 24 && CountsOf(bs) == c && bs[24..] == AfterCounts(b, v1, rest) && TypesAt(c, v1) <= |bs|
      && bs[IndicesAt(c, v1)..TypesAt(c, v1)] == b.indices
      && bs[TypesAt(c, v1)..] == AfterIndices(b, v1, rest)
  {
    CountsPart(CountsFor(b), AfterCounts(b, v1, rest));
    FirstParts(bs, EncodeCounts(CountsFor(b)), EncodeTimes(b.times, v1), b.indices, AfterIndices(b, v1, rest));
  }

  lemma AfterTheTypes(b: Block, v1: bool, rest: seq<byte>, bs: seq<byte>, p: nat)
    requires WellFormed(b, v1) && p <= |bs| && bs[p..] == AfterIndices(b, v1, rest)
    ensures var chars, end := p + 6 * |b.types|, p + 6 * |b.types| + |b.chars|;
      && end + |b.std| + |b.ut| <= |bs| && bs[chars..end] == b.chars && bs[end + |b.std| + |b.ut|..] == rest
  {
    LastParts(bs, p, EncodeTypes(b.types), b.chars, b.std, b.ut, rest);
  }

  lemma FirstParts(bs: seq<byte>, p0: seq<byte>, p1: seq<byte>, p2: seq<byte>, rest: seq<byte>)
    requires bs == p0 + (p1 + (p2 + rest))
    ensures var at := |p0| + |p1|; at + |p2| <= |bs| && bs[at..at + |p2|] == p2 && bs[at + |p2|..] == rest
  {
    Parts(bs, 0, p0, p1 + (p2 + rest));
    Parts(bs, |p0|, p1, p2 + rest);
    Parts(bs, |p0| + |p1|, p2, rest);
  }

  lemma LastParts(bs: seq<byte>, p: nat, p0: seq<byte>, p1: seq<byte>, p2: seq<byte>, p3: seq<byte>, rest: seq<byte>)
    requires p <= |bs| && bs[p..] == p0 + (p1 + (p2 + (p3 + rest)))
    ensures var at := p + |p0|;
      && at + |p1| + |p2| + |p3| <= |bs| && bs[at..at + |p1|] == p1 && bs[at + |p1| + |p2| + |p3|..] == rest
  {
    Parts(bs, p, p0, p1 + (p2 + (p3 + rest)));
    Parts(bs, p + |p0|, p1, p2 + (p3 + rest));
    Parts(bs, p + |p0| + |p1|, p2, p3 + rest);
    Parts(bs, p + |p0| + |p1| + |p2|, p3, rest);
  }

  lemma BlockParts(b: Block, v1: bool, rest: seq<byte>, bs: seq<byte>)
    requires WellFormed(b, v1) && bs == EncodeBlock(b, v1, rest)
    ensures var c := CountsFor(b);
      && Complete(bs, v1) && CountsOf(bs) == c && bs[24..] == AfterCounts(b, v1, rest)
      && bs[IndicesAt(c, v1)..TypesAt(c, v1)] == b.indices
      && bs[TypesAt(c, v1)..] == AfterIndices(b, v1, rest)
      && bs[CharsAt(c, v1)..CharsEnd(c, v1)] == b.chars
      && From(bs, CharsEnd(c, v1) + c.std + c.ut) == rest
  {
    var c := CountsFor(b);
    UpToTypes(b, v1, rest, bs);
    var p := TypesAt(c, v1);
    AfterTheTypes(b, v1, rest, bs, p);
    assert CharsAt(c, v1) == p + 6 * |b.types| && CharsEnd(c, v1) == p + 6 * |b.types| + |b.chars|;
  }

  lemma BlockFields(host: Host, b: Block, v1: bool, rest: seq<byte>, bs: seq<byte>)
    requires WellFormed(b, v1) && bs == EncodeBlock(b, v1, rest)
    ensures Complete(bs, v1) && CountsOf(bs) == CountsFor(b)
    ensures BlockTimes(bs, v1) == b.times && BlockIndices(host, bs, v1) == OctetsOf(host, b.indices)
    ensures BlockTypes(host, bs, v1) == ReadTypes(host, b.types)
  {
    BlockParts(b, v1, rest, bs);
    TimesPart(b.times, v1, b.indices + AfterIndices(b, v1, rest));
    TypesPart(host, b.types, AfterTypes(b, rest));
  }

  /** Reading an encoded block gives the zone it describes, the abbreviations and, in version 2, what follows. */
  lemma BlockRoundTrip(host: Host, b: Block, v1: bool, rest: seq<byte>, bs: seq<byte>)
    requires WellFormed(b, v1) && AllBelow(OctetsOf(host, b.indices), |b.types|)
    requires bs == EncodeBlock(b, v1, rest)
    ensures BlockReads(host, bs, v1)
    ensures BlockData(host, bs, v1) == ZoneData(ZoneOf(host, b), b.chars, if v1 then [] else rest)
  {
    BlockParts(b, v1, rest, bs);
    BlockFields(host, b, v1, rest, bs);
  }

  lemma IndicesBelow(host: Host, b: Block)
    requires |b.indices| == |b.times| && AllBelow(b.indices, |b.types|)
    ensures AllBelow(OctetsOf(host, b.indices), |b.types|)
  {
    forall i | 0 <= i < |b.indices| ensures OctetsOf(host, b.indices)[i] < |b.types| {
      OctetIs(host, b.indices[i]);
      assert b.indices[i] < |b.types|;
    }
  }

  /** A version-2 file, with any version-1 block of the announced size and any reserved bytes, reads back as
      its second block. */
  lemma FileRoundTrip(host: Host, reserved: seq<byte>, c: Counts, block: seq<byte>, second: seq<byte>, b: Block,
                      tz: seq<byte>)
    requires |reserved| == 15 && |block| == FirstBlockSize(c) && CountsFit(c)
    requires |second| == 20 && second[..4] == HEAD && WellFormed(b, false)
    ensures AllBelow(OctetsOf(host, b.indices), |b.types|)
    ensures var bs := EncodeHeader(VERSION2, reserved, c) + block + (second + EncodeBlock(b, false, tz));
      FileReads(host, bs) && FileData(host, bs) == ZoneData(ZoneOf(host, b), b.chars, tz)
  {
    IndicesBelow(host, b);
    var header := EncodeHeader(VERSION2, reserved, c);
    var rest := second + EncodeBlock(b, false, tz);
    HeaderParts(VERSION2, reserved, c);
    FirstBlockSkipped(host, header, block, rest);
    assert rest[..4] == HEAD;
    assert From(rest, 20) == EncodeBlock(b, false, tz);
    BlockRoundTrip(host, b, false, tz, EncodeBlock(b, false, tz));
  }

  lemma HeaderParts(version: byte, reserved: seq<byte>, c: Counts)
    requires |reserved| == 15 && CountsFit(c)
    ensures var header := EncodeHeader(version, reserved, c);
      header[..4] == HEAD && header[4] == version && CountsOf(header[20..]) == c
  {
    var header := EncodeHeader(version, reserved, c);
    assert header[20..] == EncodeCounts(c) + [];
    CountsPart(c, []);
  }

  /** A file of any other version reads back as its first block, whatever follows it. */
  lemma FirstVersionRoundTrip(host: Host, version: byte, reserved: seq<byte>, b: Block, rest: seq<byte>)
    requires |reserved| == 15 && version != VERSION2 && WellFormed(b, true)
    ensures AllBelow(OctetsOf(host, b.indices), |b.types|)
    ensures var bs := HEAD + [version] + reserved + EncodeBlock(b, true, rest);
      FileReads(host, bs) && FileData(host, bs) == ZoneData(ZoneOf(host, b), b.chars, [])
  {
    IndicesBelow(host, b);
    var bs := HEAD + [version] + reserved + EncodeBlock(b, true, rest);
    assert bs[20..] == EncodeBlock(b, true, rest);
    assert bs[..4] == HEAD;
    BlockRoundTrip(host, b, true, rest, bs[20..]);
  }

  /** The zone as the format means it, with the one-byte fields taken as they are. */
  function Meant(b: Block): Zone
    requires |b.indices| == |b.times| && AllBelow(b.indices, |b.types|)
  {
    Zone(Transitions(b.times, b.indices, MeantTypes(b.types)), MeantTypes(b.types))
  }

  function MeantTypes(types: seq<TypeRecord>): (r: seq<LocalTime>)
    ensures |r| == |types|
  {
    seq(|types|, i requires 0 <= i < |types| => LocalTime(types[i].offset, types[i].dst != 0, types[i].desig))
  }

  predicate AllPlain(types: seq<TypeRecord>) {
    forall i :: 0 <= i < |types| ==> types[i].dst == 0 && types[i].desig == 0
  }

  lemma TypesMeant(host: Host, types: seq<TypeRecord>)
    ensures ReadTypes(host, types) == MeantTypes(types) <==> host.BigFirst? || AllPlain(types)
  {
    forall i | 0 <= i < |types|
      ensures ReadTypes(host, types)[i] == MeantTypes(types)[i]
        <==> host.BigFirst? || (types[i].dst == 0 && types[i].desig == 0)
    {
      OctetIs(host, types[i].dst);
      OctetIs(host, types[i].desig);
    }
    var read, meant := ReadTypes(host, types), MeantTypes(types);
    assert read == meant <==> forall i :: 0 <= i < |types| ==> read[i] == meant[i];
  }

  /** The zone read is the zone meant exactly on a big-endian host, or when every one-byte field is zero. */
  lemma MeantIsRead(host: Host, b: Block)
    requires |b.indices| == |b.times| && AllBelow(b.indices, |b.types|)
    ensures AllBelow(OctetsOf(host, b.indices), |b.types|)
    ensures ZoneOf(host, b) == Meant(b) <==> host.BigFirst? || (AllZero(b.indices) && AllPlain(b.types))
  {
    IndicesBelow(host, b);
    OctetsAgree(b.indices);
    TypesMeant(host, b.types);
    TransitionsAgree(b.times, OctetsOf(host, b.indices), b.indices, MeantTypes(b.types));
  }

  /** The zone for which the local lookup fails is the zone of a file, read on a big-endian host. */
  function SummerBlock(): Block {
    Block([-200, -100], [0, 1], [TypeRecord(0, 0, 0), TypeRecord(3600, 1, 4)], [0x57, 0x45, 0x54, 0, 0x53, 0], [], [])
  }

  lemma SummerFits()
    ensures WellFormed(SummerBlock(), false)
  {
    SmallNumbersFit();
  }

  lemma SummerMeant()
    ensures Meant(SummerBlock()) == SummerZone()
  {
    var m := Meant(SummerBlock());
    assert m.transitions == SummerZone().transitions && m.localtimes == SummerZone().localtimes;
  }

  lemma SummerRead(host: Host)
    ensures AllBelow(OctetsOf(host, SummerBlock().indices), |SummerBlock().types|)
    ensures ZoneOf(host, SummerBlock()) == SummerZone() <==> host.BigFirst?
  {
    var b := SummerBlock();
    assert AllBelow(b.indices, |b.types|);
    MeantIsRead(host, b);
    SummerMeant();
    assert b.indices[1] == 1;
  }

  lemma SummerZoneFromFile(host: Host, reserved: seq<byte>, c: Counts, block: seq<byte>, second: seq<byte>,
                           tz: seq<byte>)
    requires |reserved| == 15 && |block| == FirstBlockSize(c) && CountsFit(c) && |second| == 20 && second[..4] == HEAD
    ensures WellFormed(SummerBlock(), false)
    ensures var bs := EncodeHeader(VERSION2, reserved, c) + block + (second + EncodeBlock(SummerBlock(), false, tz));
      FileReads(host, bs) && (FileData(host, bs).zone == SummerZone() <==> host.BigFirst?)
  {
    SummerFits();
    SummerRead(host);
    ZoneFromFile(host, reserved, c, block, second, SummerBlock(), tz);
  }

  lemma ZoneFromFile(host: Host, reserved: seq<byte>, c: Counts, block: seq<byte>, second: seq<byte>, b: Block,
                     tz: seq<byte>)
    requires |reserved| == 15 && |block| == FirstBlockSize(c) && CountsFit(c)
    requires |second| == 20 && second[..4] == HEAD && WellFormed(b, false)
    requires AllBelow(OctetsOf(host, b.indices), |b.types|)
    ensures var bs := EncodeHeader(VERSION2, reserved, c) + block + (second + EncodeBlock(b, false, tz));
      FileReads(host, bs) && FileData(host, bs).zone == ZoneOf(host, b)
  {
    FileRoundTrip(host, reserved, c, block, second, b, tz);
  }

  lemma SmallNumbersFit()
    ensures forall x :: -200 <= x <= 3600 ==> FitsSigned(x, 4) && FitsSigned(x, 8)
  {
    assert Pow256(4) == 256 * 256 * 256 * 256 by { assert Pow256(2) == 65536; }
    assert Pow256(8) == Pow256(4) * 256 * 256 * 256 * 256 by { assert Pow256(6) == Pow256(4) * 256 * 256; }
  }
}
