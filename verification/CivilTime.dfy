/** Seconds since 1970 and broken-down times, and the search for the offset in force: base/TimeZone.cc. */
module CivilTime {
  import opened Bytes
  import opened Date

  datatype DateTime = DateTime(year: int, month: int, day: int, hour: int, minute: int, second: int)

  const SECONDS_PER_DAY := 86400
  const JULIAN_DAY_OF_1970 := 2440588

  lemma JulianDayOf1970()
    ensures GetJulianDayNumber(1970, 1, 1) == JULIAN_DAY_OF_1970
  {
  }

  /** C's remainder, which takes the sign of the dividend. */
  function Rem(a: int, b: int): int
    requires b > 0
  {
    a - b * Div(a, b)
  }

  /** The day and the second in the day, after the correction for negative remainders. */
  function DaysAndSeconds(t: int): (int, int) {
    var seconds, days := Rem(t, SECONDS_PER_DAY), Div(t, SECONDS_PER_DAY);
    if seconds < 0 then (days - 1, seconds + SECONDS_PER_DAY) else (days, seconds)
  }

  function AtDay(d: YearMonthDay, seconds: int): DateTime {
    DateTime(d.year, d.month, d.day, seconds / 60 / 60, seconds / 60 % 60, seconds % 60)
  }

  function BreakTime(t: int): DateTime {
    var (days, seconds) := DaysAndSeconds(t);
    AtDay(GetYearMonthDay(days + JULIAN_DAY_OF_1970), seconds)
  }

  function FromUtcTime(dt: DateTime): int {
    var secondsInDay := dt.hour * 3600 + dt.minute * 60 + dt.second;
    var days := GetJulianDayNumber(dt.year, dt.month, dt.day) - JULIAN_DAY_OF_1970;
    days * SECONDS_PER_DAY + secondsInDay
  }

  function DateOfTime(dt: DateTime): YearMonthDay { YearMonthDay(dt.year, dt.month, dt.day) }

  predicate ValidTime(dt: DateTime) {
    ValidDate(DateOfTime(dt)) && 0 <= dt.hour < 24 && 0 <= dt.minute < 60 && 0 <= dt.second < 60
  }

  /** The first second of MIN_DAY and the second after MAX_DAY. */
  const MIN_TIME := (MIN_DAY - JULIAN_DAY_OF_1970) * SECONDS_PER_DAY
  const END_TIME := (MAX_DAY - JULIAN_DAY_OF_1970 + 1) * SECONDS_PER_DAY

  /** The correction turns C's truncating division into the rounding-down one. */
  lemma DayOfTime(t: int)
    ensures var (days, seconds) := DaysAndSeconds(t);
      && t == days * SECONDS_PER_DAY + seconds && 0 <= seconds < SECONDS_PER_DAY
      && (t >= MIN_TIME <==> days + JULIAN_DAY_OF_1970 >= MIN_DAY)
      && (t < END_TIME <==> days + JULIAN_DAY_OF_1970 <= MAX_DAY)
  {
  }

  lemma TimeIsUnique(days: int, seconds: int)
    requires 0 <= seconds < SECONDS_PER_DAY
    ensures DaysAndSeconds(days * SECONDS_PER_DAY + seconds) == (days, seconds)
  {
    DayOfTime(days * SECONDS_PER_DAY + seconds);
  }

  lemma SecondsInDay(d: YearMonthDay, seconds: int)
    requires 0 <= seconds < SECONDS_PER_DAY
    ensures var dt := AtDay(d, seconds);
      && 0 <= dt.hour < 24 && 0 <= dt.minute < 60 && 0 <= dt.second < 60
      && dt.hour * 3600 + dt.minute * 60 + dt.second == seconds
  {
  }

  lemma SecondsOfTime(dt: DateTime, seconds: int)
    requires 0 <= dt.hour < 24 && 0 <= dt.minute < 60 && 0 <= dt.second < 60
    requires seconds == dt.hour * 3600 + dt.minute * 60 + dt.second
    ensures 0 <= seconds < SECONDS_PER_DAY && AtDay(DateOfTime(dt), seconds) == dt
  {
    assert seconds / 60 == dt.hour * 60 + dt.minute;
  }

  lemma TimeOfDay(d: YearMonthDay, days: int, seconds: int)
    requires DayOf(d) == days + JULIAN_DAY_OF_1970 && 0 <= seconds < SECONDS_PER_DAY
    ensures FromUtcTime(AtDay(d, seconds)) == days * SECONDS_PER_DAY + seconds
  {
    SecondsInDay(d, seconds);
  }

  /** fromUtcTime inverts BreakTime, before and after 1970. */
  lemma BreakTimeInverse(t: int)
    requires t >= MIN_TIME
    ensures ValidTime(BreakTime(t)) && InRange(DateOfTime(BreakTime(t))) && FromUtcTime(BreakTime(t)) == t
  {
    DayOfTime(t);
    var (days, seconds) := DaysAndSeconds(t);
    DayIsDate(days + JULIAN_DAY_OF_1970);
    SecondsInDay(GetYearMonthDay(days + JULIAN_DAY_OF_1970), seconds);
    TimeOfDay(GetYearMonthDay(days + JULIAN_DAY_OF_1970), days, seconds);
  }

  /** BreakTime yields a valid time exactly from MIN_TIME on. */
  lemma TimesAreFrom(t: int)
    ensures ValidTime(BreakTime(t)) <==> t >= MIN_TIME
  {
    DayOfTime(t);
    var (days, seconds) := DaysAndSeconds(t);
    DatesAreFrom(days + JULIAN_DAY_OF_1970);
    SecondsInDay(GetYearMonthDay(days + JULIAN_DAY_OF_1970), seconds);
  }

  lemma BreakTimeOf(days: int, seconds: int, t: int)
    requires 0 <= seconds < SECONDS_PER_DAY && t == days * SECONDS_PER_DAY + seconds
    ensures BreakTime(t) == AtDay(GetYearMonthDay(days + JULIAN_DAY_OF_1970), seconds)
  {
    TimeIsUnique(days, seconds);
  }

  lemma BreakTimeOfDate(dt: DateTime, j: int, t: int)
    requires ValidTime(dt) && t == FromUtcTime(dt) && j == DayOf(DateOfTime(dt))
    ensures BreakTime(t) == dt <==> GetYearMonthDay(j) == DateOfTime(dt)
  {
    var seconds := dt.hour * 3600 + dt.minute * 60 + dt.second;
    SecondsOfTime(dt, seconds);
    BreakTimeOf(j - JULIAN_DAY_OF_1970, seconds, t);
  }

  /** BreakTime inverts fromUtcTime on exactly the valid times whose date the calendar can express. */
  lemma FromUtcTimeInverse(dt: DateTime)
    requires ValidTime(dt)
    ensures BreakTime(FromUtcTime(dt)) == dt <==> InRange(DateOfTime(dt))
  {
    var d := DateOfTime(dt);
    BreakTimeOfDate(dt, DayOf(d), FromUtcTime(dt));
    DateRoundTrip(d);
  }

  /** The casts to int and the calendar arithmetic of BreakTime stay within 32 bits. */
  predicate TimeFits(t: int) {
    var (days, seconds) := DaysAndSeconds(t);
    && Fits(Rem(t, SECONDS_PER_DAY)) && Fits(Div(t, SECONDS_PER_DAY)) && Fits(days) && Fits(seconds)
    && Fits(days + JULIAN_DAY_OF_1970) && DayFits(days + JULIAN_DAY_OF_1970)
  }

  lemma TimeFitsExactly(t: int)
    requires t >= MIN_TIME
    ensures TimeFits(t) <==> t < END_TIME
  {
    DayOfTime(t);
    DayFitsExactly(DaysAndSeconds(t).0 + JULIAN_DAY_OF_1970);
  }

  // ----- zones -----

  datatype LocalTime = LocalTime(utcOffset: int, isDst: bool, desigIdx: int)

  datatype Transition = Transition(utctime: int, localtime: int, localtimeIdx: int)

  datatype Zone = Zone(transitions: seq<Transition>, localtimes: seq<LocalTime>)
  {
    /** Something to look up, and every transition names one of the types. */
    predicate Usable() {
      && |localtimes| > 0
      && forall i :: 0 <= i < |transitions| ==> 0 <= transitions[i].localtimeIdx < |localtimes|
    }

    function TypeOf(i: nat): LocalTime
      requires Usable() && i < |transitions|
    {
      localtimes[transitions[i].localtimeIdx]
    }

    function Keys(c: Compare): (keys: seq<int>)
      ensures |keys| == |transitions|
    {
      seq(|transitions|, i requires 0 <= i < |transitions| => c.Key(transitions[i]))
    }
  }

  /** The two orders on transitions. */
  datatype Compare = CompareUtcTime | CompareLocalTime
  {
    function Key(t: Transition): int { if CompareUtcTime? then t.utctime else t.localtime }
  }

  /** std::upper_bound on keys[first..first+len]: the first key greater than x, by bisection. */
  function Bisect(keys: seq<int>, x: int, first: nat, len: nat): (r: nat)
    requires first + len <= |keys|
    ensures first <= r <= first + len
    decreases len
  {
    if len == 0 then first
    else
      var half := len / 2;
      if x < keys[first + half] then Bisect(keys, x, first, half)
      else Bisect(keys, x, first + half + 1, len - half - 1)
  }

  function UpperBound(keys: seq<int>, x: int): (r: nat)
    ensures r <= |keys|
  {
    Bisect(keys, x, 0, |keys|)
  }

  /** The lookup by UTC; None where the assertion on the iterator fails. */
  function FindLocalTime(z: Zone, utcTime: int): Option<LocalTime>
    requires z.Usable()
  {
    if |z.transitions| == 0 || utcTime < z.transitions[0].utctime then Some(z.localtimes[0])
    else
      var trans := UpperBound(z.Keys(CompareUtcTime), CompareUtcTime.Key(Transition(utcTime, 0, 0)));
      if trans == 0 then None
      else if trans < |z.transitions| then Some(z.TypeOf(trans - 1))
      else Some(z.TypeOf(|z.transitions| - 1))
  }

  /** The lookup by local time, with the comparator as a parameter; the code passes CompareUtcTime. */
  function FindByLocal(z: Zone, c: Compare, localtime: int, postTransition: bool): Option<LocalTime>
    requires z.Usable()
  {
    if |z.transitions| == 0 || localtime < z.transitions[0].localtime then Some(z.localtimes[0])
    else
      var trans := UpperBound(z.Keys(c), c.Key(Transition(0, localtime, 0)));
      if trans == 0 then None
      else if trans == |z.transitions| then Some(z.TypeOf(|z.transitions| - 1))
      else
        var priorSecond := z.transitions[trans].utctime - 1 + z.TypeOf(trans - 1).utcOffset;
        if priorSecond < localtime then Some(z.TypeOf(if postTransition then trans else trans - 1))
        else
          var prior := if trans - 1 != 0 then trans - 2 else trans - 1;
          var second := if trans - 1 != 0
                        then z.transitions[trans - 1].utctime - 1 + z.TypeOf(trans - 2).utcOffset else priorSecond;
          if localtime <= second && !postTransition then Some(z.TypeOf(prior)) else Some(z.TypeOf(trans - 1))
  }

  function ToLocalTime(z: Zone, seconds: int): Option<(DateTime, int)>
    requires z.Usable()
  {
    match FindLocalTime(z, seconds)
    case None => None
    case Some(local) => Some((BreakTime(seconds + local.utcOffset), local.utcOffset))
  }

  function FromLocalTime(z: Zone, c: Compare, dt: DateTime, postTransition: bool): Option<int>
    requires z.Usable()
  {
    FromLocalSeconds(z, c, FromUtcTime(dt), postTransition)
  }

  function FromLocalSeconds(z: Zone, c: Compare, localSeconds: int, postTransition: bool): Option<int>
    requires z.Usable()
  {
    match FindByLocal(z, c, localSeconds, postTransition)
    case None => None
    case Some(local) => Some(localSeconds - local.utcOffset)
  }

  // ----- bisection is a linear scan -----

  predicate Ascending(keys: seq<int>) { forall i, j :: 0 <= i < j < |keys| ==> keys[i] <= keys[j] }

  /** One past the last key that is not greater than x, going back from the end; 0 if there is none. */
  function LastNotAfter(keys: seq<int>, x: int): (r: nat)
    ensures r <= |keys|
  {
    if keys == [] then 0
    else if keys[|keys| - 1] <= x then |keys|
    else LastNotAfter(keys[..|keys| - 1], x)
  }

  predicate Splits(keys: seq<int>, x: int, r: nat) {
    && r <= |keys|
    && (forall k :: 0 <= k < r ==> keys[k] <= x)
    && (forall k :: r <= k < |keys| ==> x < keys[k])
  }

  predicate NotAfter(keys: seq<int>, x: int, k: int) { 0 <= k < |keys| && keys[k] <= x }

  lemma {:induction false} BisectSplits(keys: seq<int>, x: int, first: nat, len: nat)
    requires Ascending(keys) && first + len <= |keys|
    requires forall k :: 0 <= k < first ==> keys[k] <= x
    requires forall k :: first + len <= k < |keys| ==> x < keys[k]
    ensures Splits(keys, x, Bisect(keys, x, first, len))
    decreases len
  {
    if len > 0 {
      var half := len / 2;
      if x < keys[first + half] {
        BisectSplits(keys, x, first, half);
      } else {
        BisectSplits(keys, x, first + half + 1, len - half - 1);
      }
    }
  }

  lemma {:induction false} ScanSplits(keys: seq<int>, x: int)
    requires Ascending(keys)
    ensures Splits(keys, x, LastNotAfter(keys, x))
  {
    if keys != [] && keys[|keys| - 1] > x {
      ScanSplits(keys[..|keys| - 1], x);
    }
  }

  lemma SplitsOnce(keys: seq<int>, x: int, a: nat, b: nat)
    requires Splits(keys, x, a) && Splits(keys, x, b)
    ensures a == b
  {
    assert a < b ==> NotAfter(keys, x, a);
    assert b < a ==> NotAfter(keys, x, b);
  }

  /** On ascending keys the bisection finds what the scan finds. */
  lemma UpperBoundIsScan(keys: seq<int>, x: int)
    requires Ascending(keys)
    ensures UpperBound(keys, x) == LastNotAfter(keys, x) && Splits(keys, x, UpperBound(keys, x))
  {
    BisectSplits(keys, x, 0, |keys|);
    ScanSplits(keys, x);
    SplitsOnce(keys, x, UpperBound(keys, x), LastNotAfter(keys, x));
  }

  // ----- the UTC lookup -----

  /** The transitions are in order of their UTC times. */
  predicate Ordered(z: Zone) { Ascending(z.Keys(CompareUtcTime)) }

  /** The last transition not after t, plus one. */
  function Era(z: Zone, t: int): (r: nat)
    ensures r <= |z.transitions|
  {
    LastNotAfter(z.Keys(CompareUtcTime), t)
  }

  function TypeInEra(z: Zone, era: nat): LocalTime
    requires z.Usable() && era <= |z.transitions|
  {
    if era == 0 then z.localtimes[0] else z.TypeOf(era - 1)
  }

  /** The lookup by UTC gives the type of the last transition not after t, or the first type; its assertion holds. */
  lemma UtcLookupIsScan(z: Zone, t: int)
    requires z.Usable() && Ordered(z)
    ensures FindLocalTime(z, t) == Some(TypeInEra(z, Era(z, t)))
  {
    var keys := z.Keys(CompareUtcTime);
    UpperBoundIsScan(keys, t);
    assert |keys| > 0 ==> keys[0] == z.transitions[0].utctime;
    assert |keys| > 0 ==> (Era(z, t) > 0 <==> keys[0] <= t);
  }

  function OffsetAt(z: Zone, t: int): int
    requires z.Usable()
  {
    TypeInEra(z, Era(z, t)).utcOffset
  }

  lemma InverseAt(local: int, dt: DateTime)
    requires local >= MIN_TIME && dt == BreakTime(local)
    ensures ValidTime(dt) && FromUtcTime(dt) == local
  {
    BreakTimeInverse(local);
  }

  /** Broken-down local time, read as UTC and moved back by the offset, is the time itself. */
  lemma CivilRoundTrip(z: Zone, t: int)
    requires z.Usable() && Ordered(z)
    ensures ToLocalTime(z, t).Some?
    ensures var (dt, off) := ToLocalTime(z, t).value;
      && off == OffsetAt(z, t)
      && (t + off >= MIN_TIME ==> ValidTime(dt) && FromUtcTime(dt) - off == t)
  {
    UtcLookupIsScan(z, t);
    var (dt, off) := ToLocalTime(z, t).value;
    if t + off >= MIN_TIME { InverseAt(t + off, dt); }
  }

  // ----- the lookup by local time -----

  /** The first second after era k, as local time of that era. */
  function End(z: Zone, k: nat): int
    requires z.Usable() && k < |z.transitions|
  {
    z.transitions[k].utctime + TypeInEra(z, k).utcOffset
  }

  /** The era the lookup settles on once it has found position k: inside a gap the next one, if the later
      reading is asked for; inside an overlap the previous one, if the earlier is.  The overlaps at the first and
      the last transition are not looked at. */
  function Settle(z: Zone, k: nat, localtime: int, postTransition: bool): (r: nat)
    requires z.Usable() && k <= |z.transitions|
    ensures r <= |z.transitions|
  {
    if k == 0 || k == |z.transitions| then k
    else if End(z, k) <= localtime then (if postTransition then k + 1 else k)
    else if !postTransition && k > 1 && localtime < End(z, k - 1) then k - 1
    else k
  }

  function Found(z: Zone, c: Compare, localtime: int): (k: nat)
    ensures k <= |z.transitions|
  {
    UpperBound(z.Keys(c), c.Key(Transition(0, localtime, 0)))
  }

  /** Before the first transition's local time. */
  predicate Early(z: Zone, localtime: int) { |z.transitions| == 0 || localtime < z.transitions[0].localtime }

  lemma LookupSettles(z: Zone, c: Compare, localtime: int, postTransition: bool)
    requires z.Usable()
    ensures FindByLocal(z, c, localtime, postTransition) ==
      if Early(z, localtime) then Some(TypeInEra(z, 0))
      else if Found(z, c, localtime) == 0 then None
      else Some(TypeInEra(z, Settle(z, Found(z, c, localtime), localtime, postTransition)))
  {
  }

  /** The code's comparator only ever finds the era of second 0, whatever local time is asked for. */
  lemma FoundIsEpoch(z: Zone, localtime: int)
    requires z.Usable() && Ordered(z)
    ensures Found(z, CompareUtcTime, localtime) == Era(z, 0)
  {
    UpperBoundIsScan(z.Keys(CompareUtcTime), 0);
  }

  /** The assertion on the iterator fails exactly for later local times of a zone whose history starts after 1970. */
  lemma LocalLookupAborts(z: Zone, localtime: int, postTransition: bool)
    requires z.Usable() && Ordered(z)
    ensures FindByLocal(z, CompareUtcTime, localtime, postTransition).None?
      <==> !Early(z, localtime) && z.transitions[0].utctime > 0
  {
    LookupSettles(z, CompareUtcTime, localtime, postTransition);
    FoundIsEpoch(z, localtime);
    var keys := z.Keys(CompareUtcTime);
    UpperBoundIsScan(keys, 0);
    assert |keys| > 0 ==> keys[0] == z.transitions[0].utctime;
  }

  /** fromLocalTime on what toLocalTime shows works on the local seconds. */
  lemma ReadBack(z: Zone, c: Compare, t: int, dt: DateTime, off: int, postTransition: bool)
    requires z.Usable() && Ordered(z) && ToLocalTime(z, t) == Some((dt, off)) && t + off >= MIN_TIME
    ensures FromLocalTime(z, c, dt, postTransition) == FromLocalSeconds(z, c, t + OffsetAt(z, t), postTransition)
  {
    CivilRoundTrip(z, t);
    assert FromUtcTime(dt) == t + off;
  }

  /** What a lookup that has found position k answers, in the types of the transitions around k: past the end of
      the era before transition k the later or the earlier type, as asked; in an overlap at transition k - 1 the type
      before it, if the earlier reading is asked for; and else the type of transition k - 1. */
  lemma LookupByTypes(z: Zone, c: Compare, k: nat, local: int, postTransition: bool)
    requires z.Usable() && !Early(z, local) && 0 < k == Found(z, c, local)
    ensures var off := i requires 0 <= i < |z.transitions| => z.TypeOf(i).utcOffset;
      FromLocalSeconds(z, c, local, postTransition) ==
        if k < |z.transitions| && z.transitions[k].utctime + off(k - 1) <= local
        then Some(local - off(if postTransition then k else k - 1))
        else if 1 < k < |z.transitions| && !postTransition && local < z.transitions[k - 1].utctime + off(k - 2)
        then Some(local - off(k - 2))
        else Some(local - off(k - 1))
  {
    LookupSettles(z, c, local, postTransition);
  }

  /** The code's lookup of a local time past the end of the era of second 0, the only one it finds. */
  lemma CodeGap(z: Zone, k: nat, local: int)
    requires z.Usable() && Ordered(z) && k == Era(z, 0) && 0 < k < |z.transitions| && !Early(z, local)
    requires z.transitions[k].utctime + z.TypeOf(k - 1).utcOffset <= local
    ensures FromLocalSeconds(z, CompareUtcTime, local, true) == Some(local - z.TypeOf(k).utcOffset)
    ensures FromLocalSeconds(z, CompareUtcTime, local, false) == Some(local - z.TypeOf(k - 1).utcOffset)
  {
    FoundIsEpoch(z, local);
    LookupByTypes(z, CompareUtcTime, k, local, true);
    LookupByTypes(z, CompareUtcTime, k, local, false);
  }

  /** With the code's comparator the local seconds of t come back as t exactly when the offset at t is that of
      one fixed type: the first before the first transition's local time; else, if some transition is not after
      second 0 and k is the number of these, that of transition k, k - 1 or k - 2, by where the local time lies;
      under both settings of postTransition. */
  lemma CodeRoundTrip(z: Zone, t: int, local: int, postTransition: bool)
    requires z.Usable() && Ordered(z) && local == t + OffsetAt(z, t)
    ensures FromLocalSeconds(z, CompareUtcTime, local, postTransition) == Some(t)
      <==> (if Early(z, local) then OffsetAt(z, t) == z.localtimes[0].utcOffset
            else var k, n := Era(z, 0), |z.transitions|;
              0 < k && OffsetAt(z, t) ==
                if k < n && z.transitions[k].utctime + z.TypeOf(k - 1).utcOffset <= local
                then (if postTransition then z.TypeOf(k).utcOffset else z.TypeOf(k - 1).utcOffset)
                else if 1 < k < n && !postTransition
                        && local < z.transitions[k - 1].utctime + z.TypeOf(k - 2).utcOffset
                then z.TypeOf(k - 2).utcOffset
                else z.TypeOf(k - 1).utcOffset)
  {
    FoundIsEpoch(z, local);
    if Early(z, local) || Era(z, 0) == 0 {
      LookupSettles(z, CompareUtcTime, local, postTransition);
    } else {
      LookupByTypes(z, CompareUtcTime, Era(z, 0), local, postTransition);
    }
  }

  // ----- the lookup by local time, with the comparator for local times -----

  /** Local times are computed from the UTC times, and both the starts and the ends of the eras are in order. */
  predicate Spaced(z: Zone)
    requires z.Usable()
  {
    && Ordered(z)
    && Ascending(z.Keys(CompareLocalTime))
    && (forall i :: 0 <= i < |z.transitions| ==>
          z.transitions[i].localtime == z.transitions[i].utctime + z.TypeOf(i).utcOffset)
    && (forall i, j :: 0 <= i < j < |z.transitions| ==> End(z, i) <= End(z, j))
  }

  /** What the era of a time says about its neighbours. */
  lemma EraBounds(z: Zone, t: int)
    requires z.Usable() && Spaced(z)
    ensures var e := Era(z, t); var local := t + OffsetAt(z, t);
      && (e > 0 ==> z.transitions[e - 1].utctime <= t && z.transitions[e - 1].localtime <= local)
      && (e < |z.transitions| ==> t < z.transitions[e].utctime && local < End(z, e))
  {
    var keys := z.Keys(CompareUtcTime);
    UpperBoundIsScan(keys, t);
    var e := Era(z, t);
    assert e > 0 ==> keys[e - 1] <= t;
    assert e < |keys| ==> t < keys[e];
  }

  lemma EraIs(z: Zone, t: int, e: nat)
    requires z.Usable() && Ordered(z) && e <= |z.transitions|
    requires e > 0 ==> z.transitions[e - 1].utctime <= t
    requires e < |z.transitions| ==> t < z.transitions[e].utctime
    ensures Era(z, t) == e
  {
    var keys := z.Keys(CompareUtcTime);
    UpperBoundIsScan(keys, t);
    assert e > 0 ==> keys[e - 1] <= t;
    assert e < |keys| ==> t < keys[e];
    SplitsOnce(keys, t, e, Era(z, t));
  }

  lemma LocalBounds(z: Zone, local: int)
    requires z.Usable() && Spaced(z)
    ensures var k := Found(z, CompareLocalTime, local);
      && (k > 0 ==> z.transitions[k - 1].localtime <= local)
      && (k < |z.transitions| ==> local < z.transitions[k].localtime)
      && (k == 0 <==> Early(z, local))
  {
    var keys := z.Keys(CompareLocalTime);
    UpperBoundIsScan(keys, local);
    var k := Found(z, CompareLocalTime, local);
    assert k > 0 ==> keys[k - 1] <= local && keys[0] <= local;
    assert k < |keys| ==> local < keys[k];
    assert |keys| > 0 ==> keys[0] == z.transitions[0].localtime;
  }

  lemma LocalResult(z: Zone, local: int, postTransition: bool)
    requires z.Usable() && Spaced(z)
    ensures var k := Found(z, CompareLocalTime, local);
      FromLocalSeconds(z, CompareLocalTime, local, postTransition)
        == Some(local - TypeInEra(z, Settle(z, k, local, postTransition)).utcOffset)
  {
    LocalBounds(z, local);
    LookupSettles(z, CompareLocalTime, local, postTransition);
  }

  /** The other comparator on a local time that no clock shows, between the end of one era and the start of the
      next: the later type if postTransition, else the earlier. */
  lemma LocalGap(z: Zone, k: nat, local: int)
    requires z.Usable() && Spaced(z) && 0 < k < |z.transitions|
    requires z.transitions[k].utctime + z.TypeOf(k - 1).utcOffset <= local < z.transitions[k].localtime
    requires z.transitions[k - 1].localtime <= local
    ensures FromLocalSeconds(z, CompareLocalTime, local, true) == Some(local - z.TypeOf(k).utcOffset)
    ensures FromLocalSeconds(z, CompareLocalTime, local, false) == Some(local - z.TypeOf(k - 1).utcOffset)
  {
    LocalOrder(z, k, Found(z, CompareLocalTime, local), local);
    LocalBounds(z, local);
    LookupByTypes(z, CompareLocalTime, k, local, true);
    LookupByTypes(z, CompareLocalTime, k, local, false);
  }

  /** With that comparator a time's local seconds come back as the time exactly when they come before the next
      transition's local time: a repeated local time is read as the later of the two. */
  lemma LocalRoundTrip(z: Zone, t: int, local: int)
    requires z.Usable() && Spaced(z) && local == t + OffsetAt(z, t)
    ensures FromLocalSeconds(z, CompareLocalTime, local, true) == Some(t)
      <==> (Era(z, t) < |z.transitions| ==> local < z.transitions[Era(z, t)].localtime)
  {
    var e, k := Era(z, t), Found(z, CompareLocalTime, local);
    EraBounds(z, t);
    LocalBounds(z, local);
    LocalResult(z, local, true);
    LocalOrder(z, e, k, local);
    if e < |z.transitions| && z.transitions[e].localtime <= local {
      EndsOrder(z, e, k);
      StartsOrder(z, e, k);
    }
  }

  /** With the ends in order, an overlap with the previous era rules out a gap. */
  lemma EarlierResult(z: Zone, local: int)
    requires z.Usable() && Spaced(z)
    ensures var k := Found(z, CompareLocalTime, local);
      FromLocalSeconds(z, CompareLocalTime, local, false)
        == Some(local - TypeInEra(z, SettleEarlier(z, k, local)).utcOffset)
  {
    LocalResult(z, local, false);
    var k := Found(z, CompareLocalTime, local);
    if 1 < k { EndsOrder(z, k - 1, k); }
  }

  function SettleEarlier(z: Zone, k: nat, localtime: int): (r: nat)
    requires z.Usable() && k <= |z.transitions|
    ensures r <= |z.transitions|
  {
    if 1 < k < |z.transitions| && localtime < End(z, k - 1) then k - 1 else k
  }

  /** Asking for the earlier reading, a time comes back exactly when its local time is not also that of an earlier
      time, or it is in an overlap that the code looks at; the first and the last transition are excepted. */
  lemma EarlierRoundTrip(z: Zone, t: int, local: int)
    requires z.Usable() && Spaced(z) && local == t + OffsetAt(z, t)
    ensures var e, n := Era(z, t), |z.transitions|;
      FromLocalSeconds(z, CompareLocalTime, local, false) == Some(t)
      <==> (if e < n && z.transitions[e].localtime <= local
            then 0 < e && e + 1 < n && local < z.transitions[e + 1].localtime
            else 1 < e < n ==> End(z, e - 1) <= local)
  {
    var e, k := Era(z, t), Found(z, CompareLocalTime, local);
    EraBounds(z, t);
    EarlierResult(z, local);
    LocalOrder(z, e, k, local);
    if e < |z.transitions| && z.transitions[e].localtime <= local {
      EarlierInOverlap(z, e, k, t, local);
    } else {
      StartOfEarlier(z, e, t, local);
    }
  }

  lemma EarlierInOverlap(z: Zone, e: nat, k: nat, t: int, local: int)
    requires z.Usable() && Spaced(z) && e < |z.transitions| && t < z.transitions[e].utctime
    requires local == t + TypeInEra(z, e).utcOffset && z.transitions[e].localtime <= local
    requires k == Found(z, CompareLocalTime, local)
    ensures local - TypeInEra(z, SettleEarlier(z, k, local)).utcOffset == t
      <==> 0 < e && e + 1 < |z.transitions| && local < z.transitions[e + 1].localtime
  {
    LocalOrder(z, e + 1, k, local);
    assert local < End(z, e);
    var r := SettleEarlier(z, k, local);
    if e < r { LaterIsLater(z, e, k, r, t, local); }
  }

  /** Every later era up to the one found starts after the time. */
  lemma LaterIsLater(z: Zone, e: nat, k: nat, r: nat, t: int, local: int)
    requires z.Usable() && Spaced(z) && e < r <= k <= |z.transitions| && t < z.transitions[e].utctime
    requires k == Found(z, CompareLocalTime, local)
    ensures local - TypeInEra(z, r).utcOffset > t
  {
    LocalBounds(z, local);
    StartsOrder(z, e, r);
    assert z.Keys(CompareLocalTime)[r - 1] <= z.Keys(CompareLocalTime)[k - 1];
  }

  lemma StartOfEarlier(z: Zone, e: nat, t: int, local: int)
    requires z.Usable() && Spaced(z) && e <= |z.transitions| && (e > 0 ==> z.transitions[e - 1].utctime <= t)
    ensures e > 0 && local < End(z, e - 1) ==> local - TypeInEra(z, e - 1).utcOffset < t
  {
  }

  lemma StartsOrder(z: Zone, e: nat, k: nat)
    requires z.Usable() && Spaced(z) && e < k <= |z.transitions|
    ensures z.transitions[e].utctime <= z.transitions[k - 1].utctime
  {
    assert z.Keys(CompareUtcTime)[e] <= z.Keys(CompareUtcTime)[k - 1];
  }

  lemma EndsOrder(z: Zone, e: nat, k: nat)
    requires z.Usable() && Spaced(z) && e <= k <= |z.transitions|
    ensures k < |z.transitions| ==> End(z, e) <= End(z, k)
  {
  }

  /** The position found is the era itself unless the local time reaches past the era's own transition. */
  lemma LocalOrder(z: Zone, e: nat, k: nat, local: int)
    requires z.Usable() && Spaced(z) && e <= |z.transitions| && k == Found(z, CompareLocalTime, local)
    requires e > 0 ==> z.transitions[e - 1].localtime <= local
    ensures e <= k && (k == e <==> (e < |z.transitions| ==> local < z.transitions[e].localtime))
  {
    var keys := z.Keys(CompareLocalTime);
    UpperBoundIsScan(keys, local);
    assert e > 0 ==> NotAfter(keys, local, e - 1);
    assert e < |keys| ==> (NotAfter(keys, local, e) <==> z.transitions[e].localtime <= local);
  }

  /** A local time that no clock in the zone ever shows: past the end of the era found, before the next start. */
  predicate Skipped(z: Zone, local: int)
    requires z.Usable()
  {
    var k := Found(z, CompareLocalTime, local);
    k < |z.transitions| && End(z, k) <= local
  }

  /** Reading a local time and showing the result gives the local time back exactly when some clock shows it,
      whichever reading is asked for. */
  lemma LocalTimeShown(z: Zone, local: int, t: int, postTransition: bool)
    requires z.Usable() && Spaced(z) && FromLocalSeconds(z, CompareLocalTime, local, postTransition) == Some(t)
    ensures t + OffsetAt(z, t) == local <==> !Skipped(z, local)
  {
    if !Skipped(z, local) {
      if postTransition { LaterShown(z, local, t); } else { EarlierShown(z, local, t); }
    } else if t + OffsetAt(z, t) == local {
      SkippedNotShown(z, t, local);
    }
  }

  lemma LaterShown(z: Zone, local: int, t: int)
    requires z.Usable() && Spaced(z) && !Skipped(z, local)
    requires FromLocalSeconds(z, CompareLocalTime, local, true) == Some(t)
    ensures t + OffsetAt(z, t) == local
  {
    LocalBounds(z, local);
    LocalResult(z, local, true);
    EraIs(z, t, Found(z, CompareLocalTime, local));
  }

  lemma EarlierShown(z: Zone, local: int, t: int)
    requires z.Usable() && Spaced(z) && !Skipped(z, local)
    requires FromLocalSeconds(z, CompareLocalTime, local, false) == Some(t)
    ensures t + OffsetAt(z, t) == local
  {
    var k := Found(z, CompareLocalTime, local);
    LocalBounds(z, local);
    EarlierResult(z, local);
    if 1 < k < |z.transitions| && local < End(z, k - 1) {
      assert z.Keys(CompareLocalTime)[k - 2] <= z.Keys(CompareLocalTime)[k - 1];
      EraIs(z, t, k - 1);
    } else {
      EraIs(z, t, k);
    }
  }

  lemma SkippedNotShown(z: Zone, t: int, local: int)
    requires z.Usable() && Spaced(z) && local == t + OffsetAt(z, t)
    ensures !Skipped(z, local)
  {
    var e, k := Era(z, t), Found(z, CompareLocalTime, local);
    EraBounds(z, t);
    LocalOrder(z, e, k, local);
    if e < |z.transitions| { EndsOrder(z, e, k); }
  }

  /** A zone without transitions needs no comparator: every time comes back. */
  lemma FixedOffsetRoundTrip(z: Zone, c: Compare, t: int, local: int, postTransition: bool)
    requires z.Usable() && |z.transitions| == 0 && local == t + OffsetAt(z, t)
    ensures FromLocalSeconds(z, c, local, postTransition) == Some(t)
  {
  }

  /** One hour of summer time from second -100 on. */
  function SummerZone(): Zone {
    Zone([Transition(-200, -200, 0), Transition(-100, 3500, 1)], [LocalTime(0, false, 0), LocalTime(3600, true, 4)])
  }

  lemma SummerZoneSpaced()
    ensures SummerZone().Usable() && Spaced(SummerZone())
  {
  }

  /** A time before the summer is read back with the offset of the summer, under both settings of postTransition;
      not with the other comparator. */
  lemma CodeRoundTripFails(postTransition: bool)
    ensures SummerZone().Usable() && OffsetAt(SummerZone(), -150) == 0
    ensures FromLocalSeconds(SummerZone(), CompareUtcTime, -150, postTransition) == Some(-3750)
    ensures FromLocalSeconds(SummerZone(), CompareLocalTime, -150, postTransition) == Some(-150)
  {
    var z := SummerZone();
    SummerZoneSpaced();
    EraIs(z, -150, 1);
    EraIs(z, 0, 2);
    LookupSettles(z, CompareUtcTime, -150, postTransition);
    FoundIsEpoch(z, -150);
    LocalRoundTrip(z, -150, -150);
    EarlierRoundTrip(z, -150, -150);
  }
}
