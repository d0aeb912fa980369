/** Properties of the scanner that relate several calls: the initial state,
    the period gating of the wait phase, the agreement between handler calls
    and the query, and the guarantee of the forced double scan. */
module ScannerProperties {
  import opened Bits
  import opened ShiftRead
  import opened Debounce
  import opened Scanner

  /** A freshly constructed scanner is in `Init`, holds HIGH everywhere,
      has no handler, and reports every switch off. */
  lemma InitiallyAllOff(cfg: Config)
    ensures New(cfg).phase == Init && !New(cfg).hasHandler
    ensures forall k :: 0 <= k < cfg.numSwitches ==>
      New(cfg).scan[k] == HIGH && New(cfg).former[k] == HIGH && New(cfg).status[k] == HIGH
    ensures forall index: u32 :: !SwitchIsOn(cfg, New(cfg), index)
  {
  }

  /** While the previous samples equal the committed levels, a read phase
      commits nothing and calls no handler: a new level needs a second
      agreeing sample before it is reported. */
  lemma {:induction false} NoCommitWhileFormerIsStatus(cfg: Config, s: Scanner, t: Tick)
    requires Valid(cfg, s) && Feeds(cfg, t)
    requires s.former == s.status
    ensures Update(cfg, s, t).next.status == s.status
    ensures Update(cfg, s, t).fired == []
  {
    if s.phase == ReadEachBits {
      PassFromSilentWhileFormerIsStatus(ShiftIn(s.scan, t.line), s.former, s.status, s.hasHandler, 0);
    }
  }

  /** The first read phase after construction reports nothing, whatever the
      switches show and whether or not a handler is registered. */
  lemma FirstScanIsSilent(cfg: Config, handler: bool, ticks: seq<Tick>)
    requires |ticks| == 3
    requires forall j :: 0 <= j < |ticks| ==> Feeds(cfg, ticks[j])
    ensures Run(cfg, OnChange(New(cfg), handler), ticks).fired == []
    ensures Run(cfg, OnChange(New(cfg), handler), ticks).next.status == New(cfg).status
  {
    var s0 := OnChange(New(cfg), handler);
    var r1 := Update(cfg, s0, ticks[0]);
    var r2 := Update(cfg, r1.next, ticks[1]);
    var r3 := Update(cfg, r2.next, ticks[2]);
    NoCommitWhileFormerIsStatus(cfg, r2.next, ticks[2]);
    assert ticks[1..][1..] == [ticks[2]] && [ticks[2]][1..] == [];
    assert Run(cfg, r2.next, [ticks[2]]) == Step(r3.next, r3.fired + []);
    assert Run(cfg, r1.next, ticks[1..]) == Step(r3.next, r2.fired + r3.fired);
  }

  /** Period gating: ticks that all fall within the scan period after the
      wait began leave the scanner exactly as it was and call no handler. */
  lemma {:induction false} IdleTicksChangeNothing(cfg: Config, s: Scanner, ticks: seq<Tick>)
    requires Valid(cfg, s) && s.phase == WaitNext
    requires forall j :: 0 <= j < |ticks| ==> Feeds(cfg, ticks[j])
    requires forall j :: 0 <= j < |ticks| ==> Elapsed(ticks[j].now, s.waitStart) < cfg.scanPeriod
    ensures Run(cfg, s, ticks) == Step(s, [])
    decreases |ticks|
  {
    if |ticks| > 0 {
      assert Waiting(cfg, s, ticks[0].now);
      IdleTicksChangeNothing(cfg, s, ticks[1..]);
    }
  }

  /** A handler call made during a tick agrees with the query after it: the
      level passed is HIGH exactly when the switch is now reported on. */
  lemma NotificationMatchesQuery(cfg: Config, s: Scanner, t: Tick)
    requires Valid(cfg, s)
    requires s.phase == ReadEachBits ==> Feeds(cfg, t)
    ensures var r := Update(cfg, s, t);
      forall j :: 0 <= j < |r.fired| ==>
        r.fired[j].index < cfg.numSwitches &&
        (SwitchIsOn(cfg, r.next, r.fired[j].index) <==> r.fired[j].level == HIGH)
  {
  }

  /** Number of read phases among the next `k` ticks from phase `p` when
      every wait is already over at the following tick. */
  function ReadsAhead(p: Phase, k: nat): nat
    decreases k
  {
    if k == 0 then 0
    else (if p == ReadEachBits then 1 else 0) + ReadsAhead(Successor(p), k - 1)
  }

  /** Consecutive ticks at least one scan period apart, as the busy wait
      after every `update` call of `forceScan` ensures. */
  predicate Spaced(cfg: Config, ticks: seq<Tick>)
  {
    forall j :: 0 < j < |ticks| ==> Elapsed(ticks[j].now, ticks[j - 1].now) >= cfg.scanPeriod
  }

  /** A scanner already in `WaitNext` sees its scan period over at the first tick. */
  predicate FirstWaitOver(cfg: Config, s: Scanner, ticks: seq<Tick>)
  {
    |ticks| > 0 && s.phase == WaitNext ==> Elapsed(ticks[0].now, s.waitStart) >= cfg.scanPeriod
  }

  /** Every tick presents the same levels on the data line. */
  predicate Steady(ticks: seq<Tick>, line: seq<Bit>)
  {
    forall j :: 0 <= j < |ticks| ==> ticks[j].line == line
  }

  /** How far the scanner has come towards committing `target`: 0 when the
      samples are not yet `target`, 1 when two agreeing samples are in the
      buffers, 2 when `target` is also the committed status. */
  function Progress(s: Scanner, target: seq<Bit>): nat
  {
    if s.scan == target && s.former == target then (if s.status == target then 2 else 1) else 0
  }

  /** Adds `a` and `b`, saturating at 2. */
  function AddUpToTwo(a: nat, b: nat): nat
  {
    if a + b >= 2 then 2 else a + b
  }

  /** One tick under a steady line, with any wait already over, follows the
      cycle and moves one level closer to committing the line when it is a
      read phase. */
  lemma StepProgress(cfg: Config, s: Scanner, t: Tick, line: seq<Bit>, target: seq<Bit>)
    requires Valid(cfg, s) && IsNormal(s.phase) && Feeds(cfg, t) && t.line == line
    requires ShiftIn(s.scan, line) == target
    requires !Waiting(cfg, s, t.now)
    ensures Update(cfg, s, t).next.phase == Successor(s.phase)
    ensures ShiftIn(Update(cfg, s, t).next.scan, line) == target
    ensures Progress(Update(cfg, s, t).next, target) >=
      AddUpToTwo(Progress(s, target), if s.phase == ReadEachBits then 1 else 0)
  {
    var r := Update(cfg, s, t);
    if s.phase == ReadEachBits {
      ShiftInAbsorbs(s.scan, s.scan, line);
      assert r.next.scan == target && r.next.former == target;
      if Progress(s, target) >= 1 {
        assert s.former == target;
        forall k | 0 <= k < |target|
          ensures r.next.status[k] == target[k]
        {
        }
      }
    }
  }

  /** Under a steady line, with ticks spaced a scan period apart, a run of
      ticks makes one level of progress per read phase it passes, up to 2. */
  lemma {:induction false} RunProgress(cfg: Config, s: Scanner, ticks: seq<Tick>, line: seq<Bit>, target: seq<Bit>)
    requires Valid(cfg, s) && IsNormal(s.phase)
    requires forall j :: 0 <= j < |ticks| ==> Feeds(cfg, ticks[j])
    requires Steady(ticks, line) && Spaced(cfg, ticks) && FirstWaitOver(cfg, s, ticks)
    requires |line| == ReadCount(cfg.numSwitches) && ShiftIn(s.scan, line) == target
    ensures ShiftIn(Run(cfg, s, ticks).next.scan, line) == target
    ensures Progress(Run(cfg, s, ticks).next, target) >=
      AddUpToTwo(Progress(s, target), ReadsAhead(s.phase, |ticks|))
    decreases |ticks|
  {
    if |ticks| > 0 {
      var first := Update(cfg, s, ticks[0]);
      StepProgress(cfg, s, ticks[0], line, target);
      var rest := ticks[1..];
      assert FirstWaitOver(cfg, first.next, rest) by {
        if |rest| > 0 && first.next.phase == WaitNext {
          assert s.phase == ReadEachBits;
          assert first.next.waitStart == ticks[0].now;
          assert rest[0] == ticks[1];
        }
      }
      assert Spaced(cfg, rest) by {
        forall j | 0 < j < |rest|
          ensures Elapsed(rest[j].now, rest[j - 1].now) >= cfg.scanPeriod
        {
          assert rest[j] == ticks[j + 1] && rest[j - 1] == ticks[j];
        }
      }
      RunProgress(cfg, first.next, rest, line, target);
    }
  }

  /** Past `Init` the cycle has period three and holds one read phase per
      turn, so three more ticks pass exactly one more read phase. */
  lemma ThreeTicksReadOnce(p: Phase, k: nat)
    requires IsNormal(p) && p != Init
    ensures ReadsAhead(p, k + 3) == 1 + ReadsAhead(p, k)
  {
    var p1 := Successor(p);
    var p2 := Successor(p1);
    assert Successor(p2) == p;
    assert ReadsAhead(p, k + 3) == (if p == ReadEachBits then 1 else 0) + ReadsAhead(p1, k + 2);
    assert ReadsAhead(p1, k + 2) == (if p1 == ReadEachBits then 1 else 0) + ReadsAhead(p2, k + 1);
    assert ReadsAhead(p2, k + 1) == (if p2 == ReadEachBits then 1 else 0) + ReadsAhead(p, k);
  }

  /** Eight ticks from any phase of the cycle pass at least two read phases. */
  lemma EightTicksReadTwice(p: Phase)
    requires IsNormal(p)
    ensures ReadsAhead(p, 2 * NUM_NORMAL_STATES) >= 2
  {
    if p == Init {
      ThreeTicksReadOnce(LoadStart, 4);
      ThreeTicksReadOnce(LoadStart, 1);
      assert ReadsAhead(Init, 8) == ReadsAhead(LoadStart, 7);
    } else {
      ThreeTicksReadOnce(p, 5);
      ThreeTicksReadOnce(p, 2);
    }
  }

  /** Seven ticks from `WaitNext` pass at least two read phases: the case
      of a forced scan whose first tick still finds the wait running. */
  lemma SevenTicksFromWaitReadTwice()
    ensures ReadsAhead(WaitNext, 2 * NUM_NORMAL_STATES - 1) >= 2
  {
    ThreeTicksReadOnce(WaitNext, 4);
    ThreeTicksReadOnce(WaitNext, 1);
  }

  /** A scanner in `WaitNext` has its scan period over by the first or by
      the second tick. The busy wait after the first `update` of a forced
      scan guarantees the second. */
  predicate WaitOverByTheSecondTick(cfg: Config, s: Scanner, ticks: seq<Tick>)
    requires |ticks| >= 2
  {
    s.phase == WaitNext ==>
      Elapsed(ticks[0].now, s.waitStart) >= cfg.scanPeriod ||
      Elapsed(ticks[1].now, s.waitStart) >= cfg.scanPeriod
  }

  /** Forced scan guarantee: when the switches hold steady, the calls are
      spaced by the busy wait, and a scan period that was running when the
      forced scan began is over by its second call, `forceScan` from any
      phase of the cycle leaves the read of the switches committed: the
      committed table equals the sampled buffer, each switch below
      `ReadCount` is reported on exactly when its bit was read LOW, and the
      previous samples agree. */
  lemma ForceScanCommitsSteadyInput(cfg: Config, s: Scanner, ticks: seq<Tick>, line: seq<Bit>)
    requires Valid(cfg, s) && IsNormal(s.phase)
    requires |ticks| == 2 * NUM_NORMAL_STATES
    requires |line| == ReadCount(cfg.numSwitches)
    requires forall j :: 0 <= j < |ticks| ==> ticks[j].line == line
    requires Spaced(cfg, ticks) && WaitOverByTheSecondTick(cfg, s, ticks)
    ensures var r := ForceScan(cfg, s, ticks);
      && r.next.status == ShiftIn(s.scan, line)
      && r.next.scan == r.next.status
      && r.next.former == r.next.status
    ensures var r := ForceScan(cfg, s, ticks);
      forall ic: nat, i: nat :: ic < IcCount(cfg.numSwitches) && i < BITS_PER_IC ==>
        BufferIndex(ic, i) < cfg.numSwitches &&
        (SwitchIsOn(cfg, r.next, BufferIndex(ic, i)) <==> line[ic * BITS_PER_IC + i] == LOW)
  {
    var target := ShiftIn(s.scan, line);
    assert forall j :: 0 <= j < |ticks| ==> Feeds(cfg, ticks[j]);
    if Waiting(cfg, s, ticks[0].now) {
      var rest := ticks[1..];
      assert Run(cfg, s, ticks).next == Run(cfg, s, rest).next;
      assert Spaced(cfg, rest) by {
        forall j | 0 < j < |rest|
          ensures Elapsed(rest[j].now, rest[j - 1].now) >= cfg.scanPeriod
        {
          assert rest[j] == ticks[j + 1] && rest[j - 1] == ticks[j];
        }
      }
      RunProgress(cfg, s, rest, line, target);
      SevenTicksFromWaitReadTwice();
    } else {
      RunProgress(cfg, s, ticks, line, target);
      EightTicksReadTwice(s.phase);
    }
  }
}
