/**
  The double-buffered log of base/AsyncLogging.cc.  A buffer is the sequence of whole lines put
  into it; a unique_ptr that has been moved from is None.  Front-end appends (under the mutex)
  interleave with the atomic pieces of the back-end's loop.
 */
module AsyncLogging {
  import opened Bytes

  const BUFFER_SIZE := 4_000_000    // kLargeBuffer
  const MAX_BATCH := 25

  type Line = seq<byte>
  type Buf = seq<Line>

  function Size(b: Buf): nat { if b == [] then 0 else Size(b[..|b| - 1]) + |b[|b| - 1]| }

  function Avail(b: Buf): int { BUFFER_SIZE - Size(b) }

  /** FixedBuffer::append: a line that does not leave a free byte is dropped. */
  function Put(b: Buf, line: Line): Buf { if Avail(b) > |line| then b + [line] else b }

  /** The bytes of a buffer. */
  function Text(b: Buf): seq<byte> { if b == [] then [] else Text(b[..|b| - 1]) + b[|b| - 1] }

  lemma {:induction false} TextSize(b: Buf)
    ensures |Text(b)| == Size(b)
  {
    if b != [] { TextSize(b[..|b| - 1]); }
  }

  /** Put over lines is append over bytes. */
  lemma PutText(b: Buf, line: Line)
    ensures Text(Put(b, line)) == Text(b) + if BUFFER_SIZE - |Text(b)| > |line| then line else []
  {
    TextSize(b);
    assert (b + [line])[..|b|] == b;
    assert Text(b) + [] == Text(b);
  }

  predicate Fits(line: Line) { |line| < BUFFER_SIZE }

  datatype Piece = Notice(dropped: nat) | Data(buffer: Buf)

  datatype Phase = Waiting | Collected | Writing(done: nat) | Written

  datatype State = State(
    // under the mutex
    current: Buf, next: Option<Buf>, buffers: seq<Buf>,
    // the back-end's locals
    phase: Phase, new1: Option<Buf>, new2: Option<Buf>, toWrite: seq<Buf>,
    // the file, and the history: lines accepted, batches taken
    output: seq<Piece>, accepted: seq<Line>, batches: seq<seq<Buf>>, fault: bool)

  datatype Event = Append(line: Line) | Collect | Trim | WriteOne | Refill

  // ----- the front end -----

  function DoAppend(s: State, line: Line): State {
    var accepted := if Fits(line) then s.accepted + [line] else s.accepted;
    if Avail(s.current) > |line| then s.(current := Put(s.current, line), accepted := accepted)
    else
      s.(buffers := s.buffers + [s.current],
         current := Put(if s.next.Some? then s.next.value else [], line),
         next := None, accepted := accepted)
  }

  // ----- the back end -----

  /** The critical section: what the front end has filled is taken, and it gets empty buffers. */
  function DoCollect(s: State): State {
    if s.new1 != Some([]) || s.new2 != Some([]) || s.toWrite != [] then s.(fault := true)
    else
      var taken := s.buffers + [s.current];
      s.(buffers := [], current := [], new1 := None, toWrite := taken, phase := Collected,
         next := if s.next.Some? then s.next else s.new2,
         new2 := if s.next.Some? then s.new2 else None,
         batches := s.batches + [taken])
  }

  /** More than MAX_BATCH buffers at once: only the first two are kept, and a note is written. */
  function Cut(batch: seq<Buf>): seq<Buf> { if |batch| > MAX_BATCH then batch[..2] else batch }

  function Note(batch: seq<Buf>): seq<Piece> { if |batch| > MAX_BATCH then [Notice(|batch| - 2)] else [] }

  function DoTrim(s: State): State {
    if s.toWrite == [] then s.(fault := true)
    else s.(output := s.output + Note(s.toWrite), toWrite := Cut(s.toWrite), phase := Writing(0))
  }

  function DoWriteOne(s: State): State
    requires s.phase.Writing? && s.phase.done <= |s.toWrite|
  {
    if s.phase.done == |s.toWrite| then s.(phase := Written)
    else s.(output := s.output + [Data(s.toWrite[s.phase.done])], phase := Writing(s.phase.done + 1))
  }

  /** The two refills; each asserts that a written buffer is left to take. */
  function DoRefill(s: State): State {
    var kept := if |s.toWrite| > 2 then s.toWrite[..2] else s.toWrite;
    if s.new1.None? && kept == [] then s.(fault := true)
    else
      var left := if s.new1.None? then kept[..|kept| - 1] else kept;
      if s.new2.None? && left == [] then s.(fault := true)
      else s.(new1 := Some(if s.new1.None? then [] else s.new1.value),
              new2 := Some(if s.new2.None? then [] else s.new2.value), toWrite := [], phase := Waiting)
  }

  function Step(s: State, e: Event): State {
    if s.fault then s
    else match e
      case Append(line) => DoAppend(s, line)
      case Collect => if s.phase.Waiting? then DoCollect(s) else s
      case Trim => if s.phase.Collected? then DoTrim(s) else s
      case WriteOne => if s.phase.Writing? && s.phase.done <= |s.toWrite| then DoWriteOne(s) else s
      case Refill => if s.phase.Written? then DoRefill(s) else s
  }

  const INIT := State([], Some([]), [], Waiting, Some([]), Some([]), [], [], [], [], false)

  function Run(es: seq<Event>): State {
    if es == [] then INIT else Step(Run(es[..|es| - 1]), es[|es| - 1])
  }

  // ----- the reference: what the file should hold -----

  /** All lines of a sequence of buffers, in order. */
  function Flat(bs: seq<Buf>): seq<Line> { if bs == [] then [] else Flat(bs[..|bs| - 1]) + bs[|bs| - 1] }

  function FlatAll(batches: seq<seq<Buf>>): seq<Line> {
    if batches == [] then [] else FlatAll(batches[..|batches| - 1]) + Flat(batches[|batches| - 1])
  }

  function Datas(bs: seq<Buf>): seq<Piece> { seq(|bs|, i requires 0 <= i < |bs| => Data(bs[i])) }

  /** The file after the given batches: of each all its buffers, or, if there are more than 25, a note of
      how many are lost and the first two. */
  function Rendered(batches: seq<seq<Buf>>): seq<Piece> {
    if batches == [] then []
    else
      var last := batches[|batches| - 1];
      Rendered(batches[..|batches| - 1]) +
        if |last| > 25 then [Notice(|last| - 2), Data(last[0]), Data(last[1])] else Datas(last)
  }

  /** What is noted and kept of a batch is what the reference wants of it. */
  lemma CutKeeps(batch: seq<Buf>)
    ensures Note(batch) + Datas(Cut(batch)) ==
            if |batch| > 25 then [Notice(|batch| - 2), Data(batch[0]), Data(batch[1])] else Datas(batch)
  {
    assert [] + Datas(batch) == Datas(batch);
  }

  lemma RenderedLast(batches: seq<seq<Buf>>)
    requires batches != []
    ensures var last := batches[|batches| - 1];
      Rendered(batches) == Rendered(batches[..|batches| - 1]) + Note(last) + Datas(Cut(last))
  {
    var last := batches[|batches| - 1];
    CutKeeps(last);
    Associate(Rendered(batches[..|batches| - 1]), Note(last), Datas(Cut(last)));
  }

  lemma Associate<T>(a: seq<T>, b: seq<T>, c: seq<T>)
    ensures a + b + c == a + (b + c) && a + [] == a
  {
  }

  // ----- what every step keeps -----

  /** Buffers handed over are empty; a missing nextBuffer_ means something is queued, so a batch
      that takes both spare buffers has two to give back. */
  predicate Stocked(s: State) {
    && (s.next.Some? ==> s.next == Some([]))
    && (s.next.None? ==> s.buffers != [])
    && (s.new1.Some? ==> s.new1 == Some([])) && (s.new2.Some? ==> s.new2 == Some([]))
    && (s.phase.Waiting? ==> s.new1.Some? && s.new2.Some? && s.toWrite == [])
    && (!s.phase.Waiting? ==> s.new1.None? && |s.toWrite| >= if s.new2.None? then 2 else 1)
    && (s.phase.Writing? ==> s.phase.done <= |s.toWrite|)
    && !s.fault
  }

  predicate Conserved(s: State) { FlatAll(s.batches) + Flat(s.buffers) + s.current == s.accepted }

  predicate Faithful(s: State) {
    if s.phase.Waiting? then s.output == Rendered(s.batches)
    else
      && s.batches != []
      && var before, last := s.batches[..|s.batches| - 1], s.batches[|s.batches| - 1];
      match s.phase
      case Collected => s.toWrite == last && s.output == Rendered(before)
      case Writing(done) => s.toWrite == Cut(last) && done <= |s.toWrite|
                            && s.output == Rendered(before) + Note(last) + Datas(s.toWrite[..done])
      case Written => s.toWrite == Cut(last) && s.output == Rendered(s.batches)
  }

  lemma StepStocked(s: State, e: Event)
    requires Stocked(s)
    ensures Stocked(Step(s, e))
  {
  }

  lemma FlatAppend(bs: seq<Buf>, b: Buf)
    ensures Flat(bs + [b]) == Flat(bs) + b
  {
    assert (bs + [b])[..|bs|] == bs;
  }

  lemma FlatAllAppend(batches: seq<seq<Buf>>, b: seq<Buf>)
    ensures FlatAll(batches + [b]) == FlatAll(batches) + Flat(b)
  {
    assert (batches + [b])[..|batches|] == batches;
  }

  lemma PutConserved(s: State, line: Line)
    requires Conserved(s) && Avail(s.current) > |line|
    ensures Conserved(DoAppend(s, line))
  {
    Associate(FlatAll(s.batches) + Flat(s.buffers), s.current, [line]);
  }

  lemma SwapConserved(s: State, line: Line)
    requires Stocked(s) && Conserved(s) && Avail(s.current) <= |line|
    ensures Conserved(DoAppend(s, line))
  {
    FlatAppend(s.buffers, s.current);
    Associate(FlatAll(s.batches), Flat(s.buffers), s.current);
    Associate(s.accepted, [], []);
    assert Size([]) == 0;
    assert DoAppend(s, line).current == if Fits(line) then [line] else [];
  }

  lemma AppendConserved(s: State, line: Line)
    requires Stocked(s) && Conserved(s)
    ensures Conserved(DoAppend(s, line))
  {
    if Avail(s.current) > |line| { PutConserved(s, line); } else { SwapConserved(s, line); }
  }

  lemma CollectConserved(s: State)
    requires Stocked(s) && Conserved(s) && s.phase.Waiting?
    ensures Conserved(DoCollect(s))
  {
    FlatAppend(s.buffers, s.current);
    FlatAllAppend(s.batches, s.buffers + [s.current]);
    assert FlatAll(s.batches) + (Flat(s.buffers) + s.current) == FlatAll(s.batches) + Flat(s.buffers) + s.current;
    assert s.accepted + Flat([]) + [] == s.accepted;
  }

  lemma StepConserved(s: State, e: Event)
    requires Stocked(s) && Conserved(s)
    ensures Conserved(Step(s, e))
  {
    match e
    case Append(line) => AppendConserved(s, line);
    case Collect => if s.phase.Waiting? { CollectConserved(s); }
    case _ =>
  }

  lemma WriteFaithful(s: State)
    requires Faithful(s) && s.phase.Writing?
    ensures Faithful(DoWriteOne(s))
  {
    var k := s.phase.done;
    var head := Rendered(s.batches[..|s.batches| - 1]) + Note(s.batches[|s.batches| - 1]);
    if k == |s.toWrite| {
      assert s.toWrite[..k] == s.toWrite;
      RenderedLast(s.batches);
    } else {
      assert Datas(s.toWrite[..k + 1]) == Datas(s.toWrite[..k]) + [Data(s.toWrite[k])];
      assert head + (Datas(s.toWrite[..k]) + [Data(s.toWrite[k])])
          == head + Datas(s.toWrite[..k]) + [Data(s.toWrite[k])];
    }
  }

  lemma CollectFaithful(s: State)
    requires Stocked(s) && Faithful(s) && s.phase.Waiting?
    ensures Faithful(DoCollect(s))
  {
    assert (s.batches + [s.buffers + [s.current]])[..|s.batches|] == s.batches;
  }

  lemma TrimFaithful(s: State)
    requires Stocked(s) && Faithful(s) && s.phase.Collected?
    ensures Faithful(DoTrim(s))
  {
    var head := Rendered(s.batches[..|s.batches| - 1]) + Note(s.toWrite);
    assert Datas(Cut(s.toWrite)[..0]) == [] && head + [] == head;
  }

  lemma AppendFaithful(s: State, line: Line)
    requires Faithful(s)
    ensures Faithful(DoAppend(s, line))
  {
  }

  lemma RefillFaithful(s: State)
    requires Stocked(s) && Faithful(s) && s.phase.Written?
    ensures Faithful(DoRefill(s))
  {
  }

  lemma StepFaithful(s: State, e: Event)
    requires Stocked(s) && Faithful(s)
    ensures Faithful(Step(s, e))
  {
    match e
    case Append(line) => AppendFaithful(s, line);
    case Collect => if s.phase.Waiting? { CollectFaithful(s); }
    case Trim => if s.phase.Collected? { TrimFaithful(s); }
    case WriteOne => if s.phase.Writing? { WriteFaithful(s); }
    case Refill => if s.phase.Written? { RefillFaithful(s); }
  }

  lemma {:induction false} RunKeeps(es: seq<Event>)
    ensures Stocked(Run(es)) && Conserved(Run(es)) && Faithful(Run(es))
  {
    if es != [] {
      var s, e := Run(es[..|es| - 1]), es[|es| - 1];
      RunKeeps(es[..|es| - 1]);
      StepStocked(s, e);
      StepConserved(s, e);
      StepFaithful(s, e);
    }
  }

  // ----- the theorems, for every interleaving -----

  /** Neither refill assertion, nor any of the back-end's other assertions, can fail. */
  lemma RefillsNeverFail(es: seq<Event>)
    ensures !Run(es).fault
    ensures Run(es).next.None? ==> Run(es).buffers != []
  {
    RunKeeps(es);
  }

  /** The lines that the front end was given and that are shorter than a buffer, in order. */
  function Fitting(es: seq<Event>): seq<Line> {
    if es == [] then []
    else
      var last := es[|es| - 1];
      Fitting(es[..|es| - 1]) + if last.Append? && Fits(last.line) then [last.line] else []
  }

  lemma StepAccepted(s: State, e: Event)
    requires !s.fault
    ensures Step(s, e).accepted == s.accepted + if e.Append? && Fits(e.line) then [e.line] else []
  {
    assert s.accepted + [] == s.accepted;
  }

  lemma {:induction false} AcceptedLines(es: seq<Event>)
    ensures Run(es).accepted == Fitting(es)
  {
    if es != [] {
      AcceptedLines(es[..|es| - 1]);
      RefillsNeverFail(es[..|es| - 1]);
      StepAccepted(Run(es[..|es| - 1]), es[|es| - 1]);
    }
  }

  /** What is still to be written of the batch in flight. */
  function InFlight(s: State): seq<Piece> {
    match s.phase
    case Collected => Note(s.toWrite) + Datas(Cut(s.toWrite))
    case Writing(done) => if done <= |s.toWrite| then Datas(s.toWrite[done..]) else []
    case _ => []
  }

  lemma DatasSplit(bs: seq<Buf>, k: nat)
    requires k <= |bs|
    ensures Datas(bs) == Datas(bs[..k]) + Datas(bs[k..])
  {
  }

  lemma FlightFaithful(s: State)
    requires Faithful(s)
    ensures s.output + InFlight(s) == Rendered(s.batches)
  {
    if s.batches != [] { RenderedLast(s.batches); }
    match s.phase
    case Collected => Associate(s.output, Note(s.toWrite), Datas(Cut(s.toWrite)));
    case Writing(k) =>
      var head := Rendered(s.batches[..|s.batches| - 1]) + Note(s.batches[|s.batches| - 1]);
      DatasSplit(s.toWrite, k);
      Associate(head, Datas(s.toWrite[..k]), Datas(s.toWrite[k..]));
    case _ => Associate(s.output, [], []);
  }

  /** At every moment of every interleaving: the lines appended that fit a buffer are, in order and
      whole, in the batches taken by the back end, in the queued buffers and in the current one; and
      what has been written followed by what is in flight is the batches in order, but that of a
      batch of more than 25 buffers all after the second are missing and a note with their number
      stands before the two (Rendered). */
  lemma LogConserved(es: seq<Event>)
    ensures var s := Run(es);
      && FlatAll(s.batches) + Flat(s.buffers) + s.current == Fitting(es)
      && s.output + InFlight(s) == Rendered(s.batches)
  {
    RunKeeps(es);
    AcceptedLines(es);
    FlightFaithful(Run(es));
  }

  /** A line goes to the current buffer exactly if it leaves a byte of its 4000000 free; else the current
      buffer is queued as it is, and the line opens the next one, if it fits that. */
  lemma AppendSwitches(es: seq<Event>, line: Line)
    ensures var s, r := Run(es), Run(es + [Append(line)]);
      if |Text(s.current)| + |line| < 4_000_000 then r.current == s.current + [line] && r.buffers == s.buffers
      else r.buffers == s.buffers + [s.current] && r.current == if |line| < 4_000_000 then [line] else []
  {
    RunKeeps(es);
    TextSize(Run(es).current);
    assert Size([]) == 0;
    assert (es + [Append(line)])[..|es|] == es;
  }

  function AtHand(b: Option<Buf>): nat { if b.Some? then 1 else 0 }

  /** The empty buffers at hand: nextBuffer_, newBuffer1 and newBuffer2. */
  function Spares(s: State): nat { AtHand(s.next) + AtHand(s.new1) + AtHand(s.new2) }

  /** No buffer is in two places: a switch uses up nextBuffer_ if it is there, a collection hands one spare
      buffer to the front end as the current one, and a refill takes back as many as are missing from the two
      of the back end. */
  lemma SparesMove(es: seq<Event>, e: Event)
    ensures var s, r := Run(es), Run(es + [e]);
      match e
      case Append(line) =>
        Spares(r) == Spares(s) - if |Text(s.current)| + |line| < 4_000_000 then 0 else AtHand(s.next)
      case Collect => if s.phase.Waiting? then Spares(r) == Spares(s) - 1 else r == s
      case Refill => if s.phase.Written? then Spares(r) == AtHand(s.next) + 2 else r == s
      case _ => Spares(r) == Spares(s)
  {
    RunKeeps(es);
    TextSize(Run(es).current);
    assert (es + [e])[..|es|] == es;
  }

  // ----- progress: one pass of the back end -----

  function GoOn(s: State, es: seq<Event>): State
    decreases |es|
  {
    if es == [] then s else GoOn(Step(s, es[0]), es[1..])
  }

  lemma {:induction false} RunGoesOn(es: seq<Event>, more: seq<Event>)
    ensures Run(es + more) == GoOn(Run(es), more)
    decreases |more|
  {
    if more == [] {
      assert es + more == es;
    } else {
      RunGoesOn(es + [more[0]], more[1..]);
      assert (es + [more[0]])[..|es|] == es;
      assert es + [more[0]] + more[1..] == es + more;
    }
  }

  function WriteOut(n: nat): seq<Event> { if n == 0 then [WriteOne, Refill] else [WriteOne] + WriteOut(n - 1) }

  lemma OneWrite(s: State)
    requires !s.fault && s.phase.Writing? && s.phase.done < |s.toWrite|
    ensures Step(s, WriteOne) == s.(phase := Writing(s.phase.done + 1), output := Step(s, WriteOne).output)
  {
  }

  /** The buffers left are written, and the batch is given back. */
  lemma {:induction false} WriteOutEmpties(s: State, n: nat)
    requires Stocked(s) && s.phase.Writing? && s.phase.done + n == |s.toWrite|
    ensures var r := GoOn(s, WriteOut(n)); r.phase.Waiting? && r.buffers == s.buffers && r.current == s.current
    decreases n
  {
    StepStocked(s, WriteOne);
    if n == 0 {
      LastTwo(s);
    } else {
      OneWrite(s);
      WriteOutEmpties(Step(s, WriteOne), n - 1);
      assert WriteOut(n)[1..] == WriteOut(n - 1);
    }
  }

  lemma LastTwo(s: State)
    requires Stocked(s) && s.phase.Writing? && s.phase.done == |s.toWrite|
    ensures GoOn(s, [WriteOne, Refill]) == Step(s.(phase := Written), Refill)
    ensures var r := GoOn(s, [WriteOne, Refill]); r.phase.Waiting? && r.buffers == s.buffers && r.current == s.current
  {
    assert [WriteOne, Refill][1..] == [Refill] && [Refill][1..] == [];
    assert Step(s, WriteOne) == s.(phase := Written);
    assert GoOn(s.(phase := Written), [Refill]) == GoOn(Step(s.(phase := Written), Refill), []);
    StepStocked(s.(phase := Written), Refill);
  }

  /** The steps of one pass over n buffers. */
  function Pass(n: nat): seq<Event> { [Collect, Trim] + WriteOut(n) }

  lemma PassEmpties(s: State, n: nat)
    requires Stocked(s) && s.phase.Waiting? && n == |Cut(s.buffers + [s.current])|
    ensures var r := GoOn(s, Pass(n)); r.phase.Waiting? && r.buffers == [] && r.current == []
  {
    var s1 := Step(s, Collect);
    var s2 := Step(s1, Trim);
    StepStocked(s, Collect);
    StepStocked(s1, Trim);
    assert s2.phase == Writing(0) && |s2.toWrite| == n && s2.buffers == [] && s2.current == [];
    WriteOutEmpties(s2, n);
    assert Pass(n)[1..] == [Trim] + WriteOut(n) && Pass(n)[1..][1..] == WriteOut(n);
  }

  /** Whenever the back end waits, one pass of it alone brings everything appended so far into a batch and
      the batch into the file; n is the number of buffers it finds, or 2 of more than 25. */
  lemma OnePassWritesAll(es: seq<Event>, n: nat)
    requires Run(es).phase.Waiting?
    requires n == (if |Run(es).buffers| + 1 > 25 then 2 else |Run(es).buffers| + 1)
    ensures var r := Run(es + Pass(n));
      r.phase.Waiting? && r.output == Rendered(r.batches) && FlatAll(r.batches) == Fitting(es)
  {
    RunKeeps(es);
    PassEmpties(Run(es), n);
    RunGoesOn(es, Pass(n));
    LogConserved(es + Pass(n));
    NoneAppended(es, Pass(n));
    PassAppendsNothing(n);
    var r := Run(es + Pass(n));
    assert r.output + [] == r.output;
    assert FlatAll(r.batches) + Flat([]) + [] == FlatAll(r.batches);
  }

  lemma {:induction false} NoneAppended(es: seq<Event>, more: seq<Event>)
    ensures (forall i :: 0 <= i < |more| ==> !more[i].Append?) ==> Fitting(es + more) == Fitting(es)
  {
    if more == [] {
      assert es + more == es;
    } else {
      NoneAppended(es, more[..|more| - 1]);
      assert (es + more)[..|es + more| - 1] == es + more[..|more| - 1];
    }
  }

  lemma PassAppendsNothing(n: nat)
    ensures forall i :: 0 <= i < |Pass(n)| ==> !Pass(n)[i].Append?
  {
    WriteOutAppendsNothing(n);
  }

  lemma {:induction false} WriteOutAppendsNothing(n: nat)
    ensures forall i :: 0 <= i < |WriteOut(n)| ==> !WriteOut(n)[i].Append?
  {
    if n > 0 { WriteOutAppendsNothing(n - 1); }
  }

  // ----- the objects -----

  /** detail::FixedBuffer: a fixed array and the end of its used part. */
  class FixedBuffer {
    const data: array<byte>
    var cur: nat

    ghost predicate Valid() reads this { cur <= data.Length }

    ghost function Contents(): seq<byte>
      requires Valid()
      reads this, data
    {
      data[..cur]
    }

    /** This is the buffer that the lines of b went into. */
    ghost predicate Holds(b: Buf)
      reads this, data
    {
      Valid() && data.Length == BUFFER_SIZE && Contents() == Text(b) && cur == Size(b)
    }

    constructor (size: nat)
      ensures Valid() && fresh(data) && data.Length == size && Contents() == []
    {
      data := new byte[size](_ => 0);
      cur := 0;
    }

    function Avail(): nat
      requires Valid()
      reads this
    {
      data.Length - cur
    }

    /** The bytes go in whole if that leaves at least one byte free, and not at all otherwise; over
        lines this is Put. */
    method Append(buf: seq<byte>)
      requires Valid()
      modifies this`cur, data
      ensures Valid()
      ensures Contents() == old(Contents()) + if old(Avail()) > |buf| then buf else []
      ensures forall b: Buf :: old(Holds(b)) ==> Holds(Put(b, buf))
    {
      if Avail() > |buf| {
        var i := 0;
        while i < |buf|
          invariant 0 <= i <= |buf| && cur == old(cur)
          invariant data[..cur + i] == old(data[..cur]) + buf[..i]
        {
          data[cur + i] := buf[i];
          i := i + 1;
        }
        cur := cur + |buf|;
        assert buf[..i] == buf;
      }
      forall b: Buf | old(Holds(b)) ensures Holds(Put(b, buf)) {
        PutText(b, buf);
        TextSize(Put(b, buf));
      }
    }

    method Reset()
      modifies this`cur
      ensures Valid() && Contents() == [] && Avail() == data.Length
      ensures data.Length == BUFFER_SIZE ==> Holds([])
    {
      cur := 0;
    }
  }

  /** The front end and the pieces of threadFunc, proved to take the steps above; threadFunc's
      assertions are proved where they stand. */
  class Logger {
    var currentBuffer: Buf
    var nextBuffer: Option<Buf>
    var buffers: seq<Buf>
    var newBuffer1: Option<Buf>
    var newBuffer2: Option<Buf>
    var buffersToWrite: seq<Buf>
    var output: seq<Piece>
    ghost var phase: Phase
    ghost var accepted: seq<Line>
    ghost var batches: seq<seq<Buf>>

    ghost function Model(): State
      reads this
    {
      State(currentBuffer, nextBuffer, buffers, phase, newBuffer1, newBuffer2, buffersToWrite,
            output, accepted, batches, false)
    }

    constructor ()
      ensures Model() == INIT
    {
      currentBuffer, nextBuffer, buffers := [], Some([]), [];
      newBuffer1, newBuffer2, buffersToWrite, output := Some([]), Some([]), [], [];
      phase, accepted, batches := Waiting, [], [];
    }

    method Append(line: Line)
      modifies this`currentBuffer, this`nextBuffer, this`buffers, this`accepted
      ensures Model() == DoAppend(old(Model()), line)
    {
      if Avail(currentBuffer) > |line| {
        currentBuffer := Put(currentBuffer, line);
      } else {
        buffers := buffers + [currentBuffer];
        if nextBuffer.Some? {
          currentBuffer, nextBuffer := nextBuffer.value, None;
        } else {
          currentBuffer := [];
        }
        currentBuffer := Put(currentBuffer, line);
      }
      accepted := if Fits(line) then accepted + [line] else accepted;
    }

    /** The top of threadFunc's loop and its critical section. */
    method CollectBuffers()
      requires Stocked(Model()) && phase.Waiting?
      modifies this
      ensures Model() == DoCollect(old(Model())) && Stocked(Model())
    {
      assert newBuffer1.Some? && newBuffer1.value == [];
      assert newBuffer2.Some? && newBuffer2.value == [];
      assert buffersToWrite == [];
      buffers := buffers + [currentBuffer];
      currentBuffer, newBuffer1 := newBuffer1.value, None;
      buffersToWrite, buffers := buffers, buffersToWrite;
      if nextBuffer.None? {
        nextBuffer, newBuffer2 := newBuffer2, None;
      }
      assert buffersToWrite != [];
      phase, batches := Collected, batches + [buffersToWrite];
    }

    /** The loop that writes the buffers kept. */
    method WriteKept()
      modifies this`output
      ensures output == old(output) + Datas(buffersToWrite)
    {
      for i := 0 to |buffersToWrite|
        invariant output == old(output) + Datas(buffersToWrite[..i])
      {
        output := output + [Data(buffersToWrite[i])];
        assert Datas(buffersToWrite[..i + 1]) == Datas(buffersToWrite[..i]) + [Data(buffersToWrite[i])];
      }
      assert buffersToWrite[..|buffersToWrite|] == buffersToWrite;
    }

    /** The note on an oversized batch, and the cut. */
    method CutBatch()
      modifies this`output, this`buffersToWrite
      ensures output == old(output) + Note(old(buffersToWrite)) && buffersToWrite == Cut(old(buffersToWrite))
    {
      if |buffersToWrite| > MAX_BATCH {
        output := output + [Notice(|buffersToWrite| - 2)];
        buffersToWrite := buffersToWrite[..2];
      }
    }

    /** Outside the mutex: cut an oversized batch, then write what is kept. */
    method WriteBuffers()
      requires Stocked(Model()) && phase.Collected?
      modifies this`output, this`buffersToWrite, this`phase
      ensures var batch := old(buffersToWrite);
        output == old(output) +
          if |batch| > 25 then [Notice(|batch| - 2), Data(batch[0]), Data(batch[1])] else Datas(batch)
      ensures buffersToWrite == Cut(old(buffersToWrite)) && phase == Written && Stocked(Model())
    {
      CutKeeps(buffersToWrite);
      Associate(output, Note(buffersToWrite), Datas(Cut(buffersToWrite)));
      CutBatch();
      WriteKept();
      phase := Written;
    }

    /** Take back two empty buffers from the written ones. */
    method RefillBuffers()
      requires Stocked(Model()) && phase.Written?
      modifies this`newBuffer1, this`newBuffer2, this`buffersToWrite, this`phase
      ensures Model() == DoRefill(old(Model())) && Stocked(Model())
    {
      if |buffersToWrite| > 2 {
        buffersToWrite := buffersToWrite[..2];
      }
      if newBuffer1.None? {
        assert buffersToWrite != [];
        newBuffer1 := Some([]);
        buffersToWrite := buffersToWrite[..|buffersToWrite| - 1];
      }
      if newBuffer2.None? {
        assert buffersToWrite != [];
        newBuffer2 := Some([]);
        buffersToWrite := buffersToWrite[..|buffersToWrite| - 1];
      }
      buffersToWrite := [];
      phase := Waiting;
    }
  }
}
