/** The levels the scanner drives on the shift register's latch (NPL) and
    clock lines, as a trace of pin operations per `update` call. */
module ControlLines {
  import opened Bits
  import opened ShiftRead
  import opened Scanner

  /** The two output lines: the parallel-load latch (NPL) and the clock. */
  datatype Line = Latch | Clock

  /** One pin operation: a level written to an output line, or a read of the
      data line. */
  datatype PinOp = Write(line: Line, level: Bit) | Sample

  /** The writes `setState` makes on entering each phase, in order. */
  function EntryWrites(p: Phase): (w: seq<PinOp>)
    ensures forall j :: 0 <= j < |w| ==> w[j].Write?
    ensures IsNormal(p) ==>
      |w| == 2 && Write(Clock, LOW) in w && Write(Latch, if p == LoadStart then LOW else HIGH) in w
    ensures !IsNormal(p) ==> w == []
  {
    match p
    case Init => [Write(Latch, HIGH), Write(Clock, LOW)]
    case LoadStart => [Write(Latch, LOW), Write(Clock, LOW)]
    case ReadEachBits => [Write(Clock, LOW), Write(Latch, HIGH)]
    case WaitNext => [Write(Latch, HIGH), Write(Clock, LOW)]
    case Unknown => []
  }

  /** `count` clock pulses of the read loop: clock LOW, sample, clock HIGH. */
  function Pulses(count: nat): (ops: seq<PinOp>)
    ensures |ops| == 3 * count
  {
    if count == 0 then [] else Pulses(count - 1) + [Write(Clock, LOW), Sample, Write(Clock, HIGH)]
  }

  /** The pin operations of one `update` call: the read loop when the call
      performs a read phase, then the entry writes of the new phase when the
      phase changes; nothing when the scanner stays where it is. */
  function UpdateOps(cfg: Config, s: Scanner, t: Tick): (ops: seq<PinOp>)
    requires Valid(cfg, s)
    requires s.phase == ReadEachBits ==> Feeds(cfg, t)
    ensures Update(cfg, s, t).next.phase == s.phase ==> ops == []
    ensures s.phase != ReadEachBits ==> forall j :: 0 <= j < |ops| ==> ops[j].Write?
    ensures |ops| == (if s.phase == ReadEachBits then 3 * ReadCount(cfg.numSwitches) else 0) +
                     (if Update(cfg, s, t).next.phase == s.phase then 0 else 2)
  {
    var next := Update(cfg, s, t).next;
    var shifted := if s.phase == ReadEachBits then Pulses(ReadCount(cfg.numSwitches)) else [];
    if next.phase == s.phase then shifted else shifted + EntryWrites(next.phase)
  }

  /** The level of `line` after `ops`, when it was `start` before them. */
  function LevelAfter(ops: seq<PinOp>, line: Line, start: Bit): Bit
    decreases |ops|
  {
    if |ops| == 0 then start
    else
      match ops[|ops| - 1]
      case Write(l, v) => if l == line then v else LevelAfter(ops[..|ops| - 1], line, start)
      case Sample => LevelAfter(ops[..|ops| - 1], line, start)
  }

  /** Number of samples of the data line in `ops`. */
  function Samples(ops: seq<PinOp>): nat
    decreases |ops|
  {
    if |ops| == 0 then 0 else Samples(ops[..|ops| - 1]) + (if ops[|ops| - 1] == Sample then 1 else 0)
  }

  /** The line levels that belong to a phase once `setState` has entered it:
      the clock is LOW, and the latch is LOW (parallel load) only in
      `LoadStart`. */
  predicate Settled(p: Phase, latch: Bit, clock: Bit)
  {
    IsNormal(p) && clock == LOW && latch == (if p == LoadStart then LOW else HIGH)
  }

  /** Entering a phase sets the lines to that phase's levels, whatever they were. */
  lemma EntryWritesSettle(p: Phase, latch: Bit, clock: Bit)
    requires IsNormal(p)
    ensures Settled(p, LevelAfter(EntryWrites(p), Latch, latch), LevelAfter(EntryWrites(p), Clock, clock))
  {
    var ops := EntryWrites(p);
    assert ops[..1][..0] == [] && ops[..|ops| - 1] == ops[..1];
  }

  /** Levels written after `ops` are what count: appending writes to a trace. */
  lemma {:induction false} LevelAfterAppend(ops: seq<PinOp>, more: seq<PinOp>, line: Line, start: Bit)
    ensures LevelAfter(ops + more, line, start) == LevelAfter(more, line, LevelAfter(ops, line, start))
    decreases |more|
  {
    if |more| > 0 {
      assert (ops + more)[..|ops + more| - 1] == ops + more[..|more| - 1];
      assert (ops + more)[|ops + more| - 1] == more[|more| - 1];
      LevelAfterAppend(ops, more[..|more| - 1], line, start);
    } else {
      assert ops + more == ops;
    }
  }

  /** Samples of a concatenated trace add up. */
  lemma {:induction false} SamplesAppend(ops: seq<PinOp>, more: seq<PinOp>)
    ensures Samples(ops + more) == Samples(ops) + Samples(more)
    decreases |more|
  {
    if |more| > 0 {
      assert (ops + more)[..|ops + more| - 1] == ops + more[..|more| - 1];
      assert (ops + more)[|ops + more| - 1] == more[|more| - 1];
      SamplesAppend(ops, more[..|more| - 1]);
    } else {
      assert ops + more == ops;
    }
  }

  /** The read loop samples once per pulse, leaves the latch where it was
      and, after at least one pulse, the clock HIGH. */
  lemma {:induction false} PulsesCount(count: nat, latch: Bit, clock: Bit)
    ensures LevelAfter(Pulses(count), Latch, latch) == latch
    ensures LevelAfter(Pulses(count), Clock, clock) == (if count == 0 then clock else HIGH)
    ensures Samples(Pulses(count)) == count
  {
    if count > 0 {
      var prev := Pulses(count - 1);
      var pulse := [Write(Clock, LOW), Sample, Write(Clock, HIGH)];
      PulsesCount(count - 1, latch, clock);
      PulsesShape(count);
      LevelAfterAppend(prev, pulse, Clock, clock);
      LatchUntouched(Pulses(count), latch);
      SamplesAppend(prev, pulse);
      assert pulse[..2][..1][..0] == [] && pulse[..2][..1] == pulse[..1] && pulse[..3 - 1] == pulse[..2];
      assert Samples(pulse) == Samples(pulse[..2]);
      assert Samples(pulse[..2]) == Samples(pulse[..1]) + 1;
      assert Samples(pulse[..1]) == Samples(pulse[..1][..0]);
    }
  }

  /** The read loop never writes the latch, and every sample is taken with
      the clock just driven LOW and is followed by a rising edge. */
  lemma {:induction false} PulsesShape(count: nat)
    ensures forall j :: 0 <= j < |Pulses(count)| && Pulses(count)[j] == Sample ==>
      0 < j < |Pulses(count)| - 1 &&
      Pulses(count)[j - 1] == Write(Clock, LOW) && Pulses(count)[j + 1] == Write(Clock, HIGH)
    ensures forall j :: 0 <= j < |Pulses(count)| ==> Pulses(count)[j] != Write(Latch, LOW) && Pulses(count)[j] != Write(Latch, HIGH)
  {
    if count > 0 {
      var prev := Pulses(count - 1);
      var pulse := [Write(Clock, LOW), Sample, Write(Clock, HIGH)];
      PulsesShape(count - 1);
      assert Pulses(count) == prev + pulse;
    }
  }

  /** The line levels always match the phase: the constructor's
      `setState(kInit)` establishes it from any levels, and every `update`
      keeps it; a call that does not change the phase writes nothing. */
  lemma UpdateKeepsLinesSettled(cfg: Config, s: Scanner, t: Tick, latch: Bit, clock: Bit)
    requires Valid(cfg, s)
    requires s.phase == ReadEachBits ==> Feeds(cfg, t)
    requires Settled(s.phase, latch, clock)
    ensures var ops := UpdateOps(cfg, s, t);
      Settled(Update(cfg, s, t).next.phase, LevelAfter(ops, Latch, latch), LevelAfter(ops, Clock, clock))
    ensures Update(cfg, s, t).next.phase == s.phase ==> UpdateOps(cfg, s, t) == []
  {
    var next := Update(cfg, s, t).next;
    var ops := UpdateOps(cfg, s, t);
    if next.phase != s.phase {
      var shifted := if s.phase == ReadEachBits then Pulses(ReadCount(cfg.numSwitches)) else [];
      assert ops == shifted + EntryWrites(next.phase);
      LevelAfterAppend(shifted, EntryWrites(next.phase), Latch, latch);
      LevelAfterAppend(shifted, EntryWrites(next.phase), Clock, clock);
      EntryWritesSettle(next.phase, LevelAfter(shifted, Latch, latch), LevelAfter(shifted, Clock, clock));
    }
  }

  /** The constructor's entry into `Init` settles the lines from any levels. */
  lemma ConstructorSettlesLines(latch: Bit, clock: Bit)
    ensures Settled(Init, LevelAfter(EntryWrites(Init), Latch, latch), LevelAfter(EntryWrites(Init), Clock, clock))
  {
    EntryWritesSettle(Init, latch, clock);
  }

  /** A read phase samples the data line exactly once per switch position it
      fills, that is once per entry of the tick's line, always with the latch
      HIGH (shift mode) and the clock just driven LOW, each sample followed
      by a rising clock edge; the latch is driven LOW only on entering
      `LoadStart`, which is when the register loads the switches in parallel. */
  lemma ReadPhaseShiftsOutEveryBit(cfg: Config, s: Scanner, t: Tick)
    requires Valid(cfg, s) && s.phase == ReadEachBits && Feeds(cfg, t)
    ensures var ops := UpdateOps(cfg, s, t);
      && Samples(ops) == |t.line|
      && (forall j :: 0 <= j < |ops| && ops[j] == Sample ==>
            0 < j < |ops| - 1 && ops[j - 1] == Write(Clock, LOW) && ops[j + 1] == Write(Clock, HIGH) &&
            LevelAfter(ops[..j], Latch, HIGH) == HIGH)
  {
    var n := ReadCount(cfg.numSwitches);
    var shifted := Pulses(n);
    var ops := UpdateOps(cfg, s, t);
    var entry := EntryWrites(WaitNext);
    PulsesCount(n, HIGH, LOW);
    PulsesShape(n);
    assert ops == shifted + entry;
    SamplesAppend(shifted, entry);
    assert Samples(entry) == 0 by {
      assert entry[..|entry| - 1][..0] == [];
    }
    forall j | 0 <= j < |ops| && ops[j] == Sample
      ensures 0 < j < |ops| - 1 && ops[j - 1] == Write(Clock, LOW) && ops[j + 1] == Write(Clock, HIGH)
      ensures LevelAfter(ops[..j], Latch, HIGH) == HIGH
    {
      assert j < |shifted|;
      assert shifted[j] == Sample;
      assert ops[..j] == shifted[..j];
      LatchUntouched(shifted[..j], HIGH);
    }
  }

  /** A trace without latch writes leaves the latch where it was. */
  lemma {:induction false} LatchUntouched(ops: seq<PinOp>, start: Bit)
    requires forall j :: 0 <= j < |ops| ==> ops[j] != Write(Latch, LOW) && ops[j] != Write(Latch, HIGH)
    ensures LevelAfter(ops, Latch, start) == start
    decreases |ops|
  {
    if |ops| > 0 {
      LatchUntouched(ops[..|ops| - 1], start);
    }
  }
}
