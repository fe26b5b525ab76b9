/** The reader of base/TimeZone.cc in its own form: a cursor over the file and a record filled step by step. */
module TzReader {
  import opened Bytes
  import opened CivilTime
  import opened TzFile

  lemma FromFrom(bs: seq<byte>, p: nat, n: nat)
    ensures From(From(bs, p), n) == From(bs, p + n)
  {
  }

  /** A file open for reading; the position may stand past the end. None is the logic_error of a short read. */
  class File {
    const host: Host
    const bytes: seq<byte>
    var pos: nat

    constructor (host: Host, bytes: seq<byte>)
      ensures this.host == host && this.bytes == bytes && pos == 0
    {
      this.host, this.bytes, pos := host, bytes, 0;
    }

    function Rest(): seq<byte>
      reads this
    {
      From(bytes, pos)
    }

    /** A negative n is an array of negative size in the source; here it is a failed read. */
    method ReadBytes(n: int) returns (r: Option<seq<byte>>)
      modifies this
      ensures r == if 0 <= n <= |old(Rest())| then Some(old(Rest())[..n]) else None
      ensures r.Some? ==> Rest() == old(Rest())[n..] && pos == old(pos) + n
    {
      if 0 <= n <= |Rest()| {
        r := Some(Rest()[..n]);
        pos := pos + n;
      } else {
        r := None;
        pos := pos + |Rest()|;
      }
    }

    method ReadToEnd() returns (r: seq<byte>)
      modifies this
      ensures r == old(Rest()) && Rest() == []
    {
      r := [];
      var n := if |Rest()| < 4096 then |Rest()| else 4096;
      while n > 0
        invariant n == if |Rest()| < 4096 then |Rest()| else 4096
        invariant old(Rest()) == r + Rest()
        decreases |Rest()|
      {
        var more := ReadBytes(n);
        r := r + more.value;
        n := if |Rest()| < 4096 then |Rest()| else 4096;
      }
    }

    method ReadInt(width: nat) returns (r: Option<int>)
      requires width > 0
      modifies this
      ensures r == if width <= |old(Rest())| then Some(IntAt(old(Rest()), 0, width)) else None
      ensures r.Some? ==> Rest() == old(Rest())[width..] && pos == old(pos) + width
    {
      var raw := ReadBytes(width);
      if raw.None? { return None; }
      WholeIntegers(host, raw.value);
      r := Some(Signed(ToHost(host, InMemory(host, raw.value), width), width));
    }

    method ReadInt64() returns (r: Option<int>)
      modifies this
      ensures r == if 8 <= |old(Rest())| then Some(IntAt(old(Rest()), 0, 8)) else None
      ensures r.Some? ==> Rest() == old(Rest())[8..] && pos == old(pos) + 8
    {
      r := ReadInt(8);
    }

    method ReadInt32() returns (r: Option<int>)
      modifies this
      ensures r == if 4 <= |old(Rest())| then Some(IntAt(old(Rest()), 0, 4)) else None
      ensures r.Some? ==> Rest() == old(Rest())[4..] && pos == old(pos) + 4
    {
      r := ReadInt(4);
    }

    method ReadUint8() returns (r: Option<byte>)
      modifies this
      ensures r == if 1 <= |old(Rest())| then Some(Octet(host, old(Rest())[0])) else None
      ensures r.Some? ==> Rest() == old(Rest())[1..] && pos == old(pos) + 1
    {
      var raw := ReadBytes(1);
      if raw.None? { return None; }
      r := Some(Octet(host, raw.value[0]));
    }

    method Skip(n: int)
      modifies this
      ensures pos == Seek(old(pos), n)
      ensures n >= 0 ==> Rest() == From(old(Rest()), n)
    {
      if pos + n >= 0 { pos := pos + n; }
    }

    /** Six counts one after the other. */
    method ReadCounts() returns (r: Option<Counts>)
      modifies this
      ensures r == if 24 <= |old(Rest())| then Some(CountsOf(old(Rest()))) else None
      ensures r.Some? ==> Rest() == old(Rest())[24..] && pos == old(pos) + 24
    {
      ghost var all := Rest();
      var ut := ReadInt32();
      if ut.None? { return None; }
      var std := ReadInt32();
      if std.None? { return None; }
      var leap := ReadInt32();
      if leap.None? { return None; }
      var time := ReadInt32();
      if time.None? { return None; }
      var typ := ReadInt32();
      if typ.None? { return None; }
      var chars := ReadInt32();
      if chars.None? { return None; }
      SixInts(all);
      r := Some(Counts(ut.value, std.value, leap.value, time.value, typ.value, chars.value));
    }
  }

  lemma SixInts(bs: seq<byte>)
    requires |bs| >= 24
    ensures CountsOf(bs) == Counts(IntAt(bs, 0, 4), IntAt(bs[4..], 0, 4), IntAt(bs[4..][4..], 0, 4),
      IntAt(bs[4..][4..][4..], 0, 4), IntAt(bs[4..][4..][4..][4..], 0, 4), IntAt(bs[4..][4..][4..][4..][4..], 0, 4))
    ensures bs[4..][4..][4..][4..][4..][4..] == bs[24..]
  {
    assert bs[4..][4..] == bs[8..] && bs[8..][4..] == bs[12..] && bs[12..][4..] == bs[16..];
    assert bs[16..][4..] == bs[20..] && bs[20..][4..] == bs[24..];
    assert bs[4..][0..4] == bs[4..8] && bs[8..][0..4] == bs[8..12] && bs[12..][0..4] == bs[12..16];
    assert bs[16..][0..4] == bs[16..20] && bs[20..][0..4] == bs[20..24];
  }

  /** The record that reading fills. */
  class Data {
    var transitions: seq<Transition>
    var localtimes: seq<LocalTime>
    var abbreviation: seq<byte>
    var tzstring: seq<byte>

    constructor ()
      ensures Value() == ZoneData(Zone([], []), [], [])
    {
      transitions, localtimes, abbreviation, tzstring := [], [], [], [];
    }

    function Value(): ZoneData
      reads this
    {
      ZoneData(Zone(transitions, localtimes), abbreviation, tzstring)
    }

    method AddLocalTime(utcOffset: int, isDst: bool, desigIdx: int)
      modifies this`localtimes
      ensures localtimes == old(localtimes) + [LocalTime(utcOffset, isDst, desigIdx)]
    {
      localtimes := localtimes + [LocalTime(utcOffset, isDst, desigIdx)];
    }

    /** False where the checked access throws out_of_range. */
    method AddTransition(utcTime: int, localtimeIdx: int) returns (ok: bool)
      modifies this`transitions
      ensures ok <==> 0 <= localtimeIdx < |localtimes|
      ensures transitions == old(transitions) + if !ok then [] else
        [Transition(utcTime, utcTime + localtimes[localtimeIdx].utcOffset, localtimeIdx)]
    {
      ok := 0 <= localtimeIdx < |localtimes|;
      if ok {
        var lt := localtimes[localtimeIdx];
        transitions := transitions + [Transition(utcTime, utcTime + lt.utcOffset, localtimeIdx)];
      }
    }
  }

  // ----- the loops of the block reader -----

  method ReadTimes(f: File, n: nat, v1: bool) returns (r: Option<seq<int>>)
    modifies f
    ensures r == if TimesSize(v1, n) <= |old(f.Rest())| then Some(TimesOf(old(f.Rest()), n, v1)) else None
    ensures r.Some? ==> f.Rest() == old(f.Rest())[TimesSize(v1, n)..]
  {
    ghost var all := f.Rest();
    var trans := [];
    var i := 0;
    while i < n
      invariant 0 <= i <= n && TimesSize(v1, i) <= |all|
      invariant f.Rest() == all[TimesSize(v1, i)..] && trans == TimesOf(all, i, v1)
    {
      var x;
      if v1 { x := f.ReadInt32(); } else { x := f.ReadInt64(); }
      if x.None? { return None; }
      NextTime(all, i, v1);
      trans := trans + [x.value];
      i := i + 1;
    }
    r := Some(trans);
  }

  lemma NextTime(bs: seq<byte>, i: nat, v1: bool)
    requires TimesSize(v1, i + 1) <= |bs|
    ensures TimesOf(bs, i + 1, v1) == TimesOf(bs, i, v1) + [IntAt(bs[TimesSize(v1, i)..], 0, TimeSize(v1))]
    ensures bs[TimesSize(v1, i)..][TimeSize(v1)..] == bs[TimesSize(v1, i + 1)..]
  {
    var p, w := TimesSize(v1, i), TimeSize(v1);
    assert bs[p..][0..w] == bs[p..p + w];
  }

  method ReadIndices(f: File, n: nat) returns (r: Option<seq<byte>>)
    modifies f
    ensures r == if n <= |old(f.Rest())| then Some(OctetsOf(f.host, old(f.Rest())[..n])) else None
    ensures r.Some? ==> f.Rest() == old(f.Rest())[n..]
  {
    ghost var all := f.Rest();
    var localtimes: seq<byte> := [];
    var i := 0;
    while i < n
      invariant 0 <= i <= n && i <= |all|
      invariant f.Rest() == all[i..] && localtimes == OctetsOf(f.host, all[..i])
    {
      var local := f.ReadUint8();
      if local.None? { return None; }
      localtimes := localtimes + [local.value];
      assert all[..i + 1] == all[..i] + [all[i]];
      i := i + 1;
    }
    r := Some(localtimes);
  }

  method ReadType(f: File) returns (r: Option<LocalTime>)
    modifies f
    ensures r == if 6 <= |old(f.Rest())| then Some(TypeAt(f.host, old(f.Rest()), 0)) else None
    ensures r.Some? ==> f.Rest() == old(f.Rest())[6..]
  {
    ghost var all := f.Rest();
    var gmtoff := f.ReadInt32();
    if gmtoff.None? { return None; }
    var isdst := f.ReadUint8();
    if isdst.None? { return None; }
    var abbrind := f.ReadUint8();
    if abbrind.None? { return None; }
    assert all[4..][1..] == all[5..] && all[5..][1..] == all[6..];
    r := Some(LocalTime(gmtoff.value, isdst.value != 0, abbrind.value));
  }

  method ReadTypes(f: File, data: Data, n: nat) returns (ok: bool)
    requires data.localtimes == []
    modifies f, data`localtimes
    ensures ok <==> 6 * n <= |old(f.Rest())|
    ensures ok ==> data.localtimes == TypesOf(f.host, old(f.Rest()), n) && f.Rest() == old(f.Rest())[6 * n..]
  {
    ghost var all := f.Rest();
    var i := 0;
    while i < n
      invariant 0 <= i <= n && 6 * i <= |all|
      invariant f.Rest() == all[6 * i..] && data.localtimes == TypesOf(f.host, all, i)
    {
      var t := ReadType(f);
      if t.None? { return false; }
      NextType(f.host, all, i);
      data.AddLocalTime(t.value.utcOffset, t.value.isDst, t.value.desigIdx);
      i := i + 1;
    }
    ok := true;
  }

  lemma TypeAtSuffix(host: Host, bs: seq<byte>, p: nat)
    requires p + 6 <= |bs|
    ensures TypeAt(host, bs[p..], 0) == TypeAt(host, bs, p)
  {
    assert bs[p..][0..4] == bs[p..p + 4];
  }

  lemma NextType(host: Host, bs: seq<byte>, i: nat)
    requires 6 * i + 6 <= |bs|
    ensures TypesOf(host, bs, i + 1) == TypesOf(host, bs, i) + [TypeAt(host, bs[6 * i..], 0)]
    ensures bs[6 * i..][6..] == bs[6 * (i + 1)..]
  {
    TypeAtSuffix(host, bs, 6 * i);
    var last := TypeAt(host, bs, 6 * i);
    assert TypesOf(host, bs, i + 1) == TypesOf(host, bs, i) + [last];
  }

  method AddTransitions(data: Data, trans: seq<int>, localtimes: seq<byte>) returns (ok: bool)
    requires |localtimes| == |trans| && data.transitions == []
    modifies data`transitions
    ensures ok <==> AllBelow(localtimes, |data.localtimes|)
    ensures ok ==> data.transitions == Transitions(trans, localtimes, data.localtimes)
  {
    var i := 0;
    while i < |trans|
      invariant 0 <= i <= |trans| && AllBelow(localtimes[..i], |data.localtimes|)
      invariant data.transitions == Transitions(trans[..i], localtimes[..i], data.localtimes)
    {
      var added := data.AddTransition(trans[i], localtimes[i]);
      if !added { return false; }
      assert localtimes[..i + 1] == localtimes[..i] + [localtimes[i]];
      i := i + 1;
    }
    assert trans[..i] == trans && localtimes[..i] == localtimes;
    ok := true;
  }

  // ----- the block and the file -----

  /** The body of a block after its counts, as the cursor passes it: times, indices, types. */
  predicate BodyReads(host: Host, bs: seq<byte>, v1: bool, c: Counts)
    requires c.Acceptable()
  {
    && BodySize(v1, c) <= |bs|
    && AllBelow(OctetsOf(host, bs[TimesSize(v1, c.time)..][..c.time]), c.typ)
  }

  function BodySize(v1: bool, c: Counts): int { TimesSize(v1, c.time) + c.time + 6 * c.typ }

  function BodyZone(host: Host, bs: seq<byte>, v1: bool, c: Counts): Zone
    requires c.Acceptable() && BodyReads(host, bs, v1, c)
  {
    var afterTimes := bs[TimesSize(v1, c.time)..];
    var types := TypesOf(host, afterTimes[c.time..], c.typ);
    Zone(Transitions(TimesOf(bs, c.time, v1), OctetsOf(host, afterTimes[..c.time]), types), types)
  }

  lemma BodyParts(bs: seq<byte>, v1: bool, c: Counts)
    requires |bs| >= 24 && c.Acceptable() && 24 + BodySize(v1, c) <= |bs|
    ensures var body := bs[24..];
      && body[TimesSize(v1, c.time)..][..c.time] == bs[IndicesAt(c, v1)..TypesAt(c, v1)]
      && body[TimesSize(v1, c.time)..][c.time..] == bs[TypesAt(c, v1)..]
      && body[BodySize(v1, c)..] == bs[CharsAt(c, v1)..]
  {
  }

  /** A block can be read exactly when its body and then its abbreviations can. */
  lemma BlockIsBody(host: Host, bs: seq<byte>, v1: bool, c: Counts)
    requires |bs| >= 24 && c == CountsOf(bs) && c.Acceptable()
    ensures BlockReads(host, bs, v1) <==> BodyReads(host, bs[24..], v1, c) && BodySize(v1, c) + c.chars <= |bs| - 24
    ensures BlockReads(host, bs, v1) ==> BlockData(host, bs, v1).zone == BodyZone(host, bs[24..], v1, c)
  {
    if 24 + BodySize(v1, c) <= |bs| { BodyParts(bs, v1, c); }
  }

  lemma BlockIsTail(host: Host, bs: seq<byte>, v1: bool, c: Counts, tail: seq<byte>)
    requires BlockReads(host, bs, v1) && c == CountsOf(bs) && tail == bs[CharsAt(c, v1)..]
    ensures c.chars <= |tail| && BlockData(host, bs, v1).abbreviation == tail[..c.chars]
    ensures BlockData(host, bs, v1).tzstring == if v1 then [] else From(tail[c.chars..], c.std + c.ut)
  {
    TailParts(bs, CharsAt(c, v1), c.chars, c.std + c.ut);
  }

  lemma TailParts(bs: seq<byte>, p: nat, n: nat, k: nat)
    requires p + n <= |bs|
    ensures bs[p..][..n] == bs[p..p + n] && From(bs[p..][n..], k) == From(bs, p + n + k)
  {
  }

  method ReadBody(f: File, data: Data, v1: bool, c: Counts) returns (ok: bool)
    requires data.transitions == [] && data.localtimes == [] && c.Acceptable()
    modifies f, data`transitions, data`localtimes
    ensures ok <==> BodyReads(f.host, old(f.Rest()), v1, c)
    ensures ok ==> Zone(data.transitions, data.localtimes) == BodyZone(f.host, old(f.Rest()), v1, c)
    ensures ok ==> f.Rest() == old(f.Rest())[BodySize(v1, c)..]
  {
    ghost var bs := f.Rest();
    var trans := ReadTimes(f, c.time, v1);
    if trans.None? { return false; }
    var localtimes := ReadIndices(f, c.time);
    if localtimes.None? { return false; }
    ok := ReadTypes(f, data, c.typ);
    if !ok { return; }
    assert bs[TimesSize(v1, c.time)..][c.time..][6 * c.typ..] == bs[BodySize(v1, c)..];
    ok := AddTransitions(data, trans.value, localtimes.value);
  }

  /** The abbreviations, the skips and, in version 2, the rest of the file. */
  method ReadTail(f: File, data: Data, v1: bool, c: Counts) returns (ok: bool)
    requires c.Acceptable()
    modifies f, data`abbreviation, data`tzstring
    ensures ok <==> c.chars <= |old(f.Rest())|
    ensures ok ==> data.abbreviation == old(f.Rest())[..c.chars]
    ensures ok ==> data.tzstring == if v1 then old(data.tzstring) else From(old(f.Rest())[c.chars..], c.std + c.ut)
  {
    ghost var bs := f.Rest();
    var chars := f.ReadBytes(c.chars);
    if chars.None? { return false; }
    data.abbreviation := chars.value;
    f.Skip(c.leap * (TimeSize(v1) + 4));
    f.Skip(c.std);
    f.Skip(c.ut);
    FromFrom(bs[c.chars..], c.std, c.ut);
    if !v1 {
      data.tzstring := f.ReadToEnd();
    }
    ok := true;
  }

  /** The checks on the counts and the negative sizes that reserving refuses, then the block. */
  method ReadDataBlock(f: File, data: Data, v1: bool) returns (ok: bool)
    requires data.Value() == ZoneData(Zone([], []), [], [])
    modifies f, data
    ensures ok <==> BlockReads(f.host, old(f.Rest()), v1)
    ensures ok ==> data.Value() == BlockData(f.host, old(f.Rest()), v1)
  {
    ghost var bs := f.Rest();
    var counts := f.ReadCounts();
    if counts.None? { return false; }
    var c := counts.value;
    if c.leap != 0 { return false; }
    if c.ut != 0 && c.ut != c.typ { return false; }
    if c.std != 0 && c.std != c.typ { return false; }
    if c.time < 0 || c.typ < 0 || c.chars < 0 { return false; }
    BlockIsBody(f.host, bs, v1, c);
    ok := ReadBody(f, data, v1, c);
    if !ok { return; }
    BodyParts(bs, v1, c);
    ghost var tail := f.Rest();
    ok := ReadTail(f, data, v1, c);
    if !ok { return; }
    BlockIsTail(f.host, bs, v1, c, tail);
  }

  /** The first header: its version byte and its counts. */
  method ReadHeader(f: File) returns (r: Option<(byte, Counts)>)
    requires f.pos == 0
    modifies f
    ensures r == if |f.bytes| >= 44 && HeadAt(f.bytes) then Some((f.bytes[4], CountsOf(f.bytes[20..]))) else None
    ensures r.Some? ==> f.pos == 44
  {
    var head := f.ReadBytes(4);
    if head.None? || head.value != HEAD { return None; }
    var version := f.ReadBytes(1);
    if version.None? { return None; }
    var reserved := f.ReadBytes(15);
    if reserved.None? { return None; }
    assert f.Rest() == f.bytes[20..];
    var counts := f.ReadCounts();
    if counts.None? { return None; }
    r := Some((version.value[0], counts.value));
  }

  /** The whole file: the header, then for version 2 the second block, else the first. */
  method ReadTimeZoneFile(f: File, data: Data) returns (ok: bool)
    requires data.Value() == ZoneData(Zone([], []), [], []) && f.pos == 0
    modifies f, data
    ensures ok <==> FileReads(f.host, f.bytes)
    ensures ok ==> data.Value() == FileData(f.host, f.bytes)
  {
    var header := ReadHeader(f);
    if header.None? { return false; }
    var (version, counts) := header.value;
    if version == VERSION2 {
      f.Skip(FirstBlockSize(counts));
      assert f.Rest() == SecondPart(f.bytes);
      ok := ReadSecondPart(f, data);
    } else {
      f.Skip(-4 * 6);
      assert f.Rest() == f.bytes[20..];
      ok := ReadDataBlock(f, data, true);
    }
  }

  method ReadSecondPart(f: File, data: Data) returns (ok: bool)
    requires data.Value() == ZoneData(Zone([], []), [], [])
    modifies f, data
    ensures ok <==> SecondReads(f.host, old(f.Rest()))
    ensures ok ==> data.Value() == BlockData(f.host, From(old(f.Rest()), 20), false)
  {
    ghost var bs := f.Rest();
    var head := f.ReadBytes(4);
    if head.None? || head.value != HEAD { return false; }
    f.Skip(16);
    FromFrom(bs, 4, 16);
    ok := ReadDataBlock(f, data, false);
  }

  /** loadZoneFile: no data when the file cannot be opened or read. */
  method LoadZoneFile(host: Host, contents: Option<seq<byte>>) returns (r: Option<ZoneData>)
    ensures r == if contents.Some? && FileReads(host, contents.value)
                 then Some(FileData(host, contents.value)) else None
  {
    if contents.None? { return None; }
    var data := new Data();
    var f := new File(host, contents.value);
    var ok := ReadTimeZoneFile(f, data);
    r := if ok then Some(data.Value()) else None;
  }
}
