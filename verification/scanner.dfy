/** The scanner object: its state record, the tick operation that advances
    the scan cycle by one phase, the forced double scan, the handler
    registration and the switch query. */
module Scanner {
  import opened Bits
  import opened ShiftRead
  import opened Debounce

  /** The phases of the scan cycle (`InternalState`). `Unknown` is
      `kUnknownState`, the value the phase field holds before the
      constructor enters `Init`. */
  datatype Phase = Init | LoadStart | ReadEachBits | WaitNext | Unknown

  /** `kNumNormalStates`: the number of phases of the cycle proper. */
  const NUM_NORMAL_STATES: nat := 4

  /** The value of a phase as stored in the scanner's `uint8_t` phase field. */
  function Code(p: Phase): u8
  {
    match p
    case Init => 0
    case LoadStart => 1
    case ReadEachBits => 2
    case WaitNext => 3
    case Unknown => 0xff
  }

  /** A phase of the cycle proper, as opposed to `kUnknownState`. */
  predicate IsNormal(p: Phase)
  {
    Code(p) < NUM_NORMAL_STATES
  }

  /** The template parameters that matter to the logic: the switch count
      and the minimum time between scans, in milliseconds. The pin numbers
      only select hardware lines and are not modelled. */
  datatype Config = Config(numSwitches: u8, scanPeriod: u8)

  /** The scanner's fields: the current samples (`scan_buffers_`), the
      previous samples (`former_scan_buffers_`), the committed levels
      (`switch_status_`), the phase, the time the wait began, and whether a
      change handler is registered. */
  datatype Scanner = Scanner(
    scan: seq<Bit>,
    former: seq<Bit>,
    status: seq<Bit>,
    phase: Phase,
    waitStart: u32,
    hasHandler: bool)

  /** What the outside world shows during one call of `update`: the value of
      `millis()`, and the levels the data line presents at successive clock
      pulses if the call performs a read phase. */
  datatype Tick = Tick(now: u32, line: seq<Bit>)

  /** The state after a call and the handler calls it made, in order. */
  datatype Step = Step(next: Scanner, fired: seq<Notification>)

  /** The three buffers each hold one level per switch. */
  predicate Valid(cfg: Config, s: Scanner)
  {
    |s.scan| == cfg.numSwitches && SameLength(s.scan, s.former, s.status)
  }

  /** The tick supplies one level for every clock pulse of a read phase. */
  predicate Feeds(cfg: Config, t: Tick)
  {
    |t.line| == ReadCount(cfg.numSwitches)
  }

  /** The constructor: every buffer starts at HIGH (released, with the
      pull-up wiring), no handler, and the phase is set to `Init`. */
  function New(cfg: Config): (s: Scanner)
    ensures Valid(cfg, s)
    ensures IsNormal(s.phase)
  {
    var released := seq(cfg.numSwitches, _ => HIGH);
    Enter(Scanner(released, released, released, Unknown, 0, false), Init, 0)
  }

  /** `onChange`: registers a handler, or none, replacing any earlier one;
      nothing else changes. */
  function OnChange(s: Scanner, handler: bool): (r: Scanner)
    ensures r.hasHandler == handler
    ensures r.(hasHandler := s.hasHandler) == s
  {
    s.(hasHandler := handler)
  }

  /** `switchIsOn`: an index past the last switch is reported off; otherwise
      a switch is on exactly when its committed level is LOW (pressed). */
  function SwitchIsOn(cfg: Config, s: Scanner, index: u32): (on: bool)
    requires Valid(cfg, s)
    ensures on ==> index < cfg.numSwitches
    ensures index < cfg.numSwitches ==> (on <==> s.status[index] == LOW)
  {
    if index >= cfg.numSwitches then false else s.status[index] == LOW
  }

  /** `setState`: moves to phase `p`; entering `WaitNext` records the time. */
  function Enter(s: Scanner, p: Phase, now: u32): (r: Scanner)
    ensures r.phase == p
    ensures p == WaitNext ==> r.waitStart == now
    ensures r.(phase := s.phase, waitStart := s.waitStart) == s
    ensures p != WaitNext ==> r.waitStart == s.waitStart
  {
    s.(phase := p, waitStart := if p == WaitNext then now else s.waitStart)
  }

  /** The phase the cycle moves to once the current phase is done:
      Init, LoadStart, ReadEachBits, WaitNext, then LoadStart again. In
      terms of the stored codes, the next normal phase is the next code,
      except that the last one wraps round to `kLoadStart`, never to `kInit`. */
  function Successor(p: Phase): (r: Phase)
    ensures IsNormal(r) <==> IsNormal(p)
    ensures IsNormal(p) ==> Code(r) == (if Code(p) == NUM_NORMAL_STATES - 1 then 1 else Code(p) + 1)
  {
    match p
    case Init => LoadStart
    case LoadStart => ReadEachBits
    case ReadEachBits => WaitNext
    case WaitNext => LoadStart
    case Unknown => Unknown
  }

  /** Whether a tick in `WaitNext` finds the scan period not yet over,
      measuring time with wrap-around 32-bit subtraction. */
  predicate Waiting(cfg: Config, s: Scanner, now: u32)
  {
    s.phase == WaitNext && Elapsed(now, s.waitStart) < cfg.scanPeriod
  }

  /** `update`: one step of the scan cycle. `Init` and `LoadStart` advance
      unconditionally; `ReadEachBits` shifts in all bits, runs the debounce
      pass and enters `WaitNext`, recording the time; `WaitNext` returns to
      `LoadStart` once the scan period has elapsed and otherwise changes
      nothing. Only the read phase touches the buffers or calls the handler. */
  function Update(cfg: Config, s: Scanner, t: Tick): (r: Step)
    requires Valid(cfg, s)
    requires s.phase == ReadEachBits ==> Feeds(cfg, t)
    ensures Valid(cfg, r.next)
    ensures r.next.hasHandler == s.hasHandler
    ensures IsNormal(s.phase) ==> IsNormal(r.next.phase)
    ensures Waiting(cfg, s, t.now) || !IsNormal(s.phase) ==> r == Step(s, [])
    ensures !Waiting(cfg, s, t.now) ==> r.next.phase == Successor(s.phase)
    ensures r.next.waitStart != s.waitStart ==> r.next.phase == WaitNext && r.next.waitStart == t.now
    ensures r.next.phase == WaitNext && s.phase != WaitNext ==> r.next.waitStart == t.now
    ensures s.phase != ReadEachBits ==>
      r.fired == [] && r.next.scan == s.scan && r.next.former == s.former && r.next.status == s.status
    ensures s.phase == ReadEachBits ==>
      var pass := UpdateSwitchStatus(ShiftIn(s.scan, t.line), s.former, s.status, s.hasHandler);
      && r.next.scan == ShiftIn(s.scan, t.line)
      && r.next.former == pass.former
      && r.next.status == pass.status
      && r.fired == pass.fired
  {
    match s.phase
    case Init => Step(Enter(s, LoadStart, t.now), [])
    case LoadStart => Step(Enter(s, ReadEachBits, t.now), [])
    case ReadEachBits =>
      var scan := ShiftIn(s.scan, t.line);
      var pass := UpdateSwitchStatus(scan, s.former, s.status, s.hasHandler);
      var s' := s.(scan := scan, former := pass.former, status := pass.status);
      Step(Enter(s', WaitNext, t.now), pass.fired)
    case WaitNext =>
      if Elapsed(t.now, s.waitStart) >= cfg.scanPeriod then Step(Enter(s, LoadStart, t.now), [])
      else Step(s, [])
    case Unknown => Step(s, [])
  }

  /** A sequence of `update` calls, one per tick, with all handler calls in
      the order they were made. */
  function Run(cfg: Config, s: Scanner, ticks: seq<Tick>): (r: Step)
    requires Valid(cfg, s)
    requires forall j :: 0 <= j < |ticks| ==> Feeds(cfg, ticks[j])
    ensures Valid(cfg, r.next)
    ensures r.next.hasHandler == s.hasHandler
    ensures IsNormal(s.phase) ==> IsNormal(r.next.phase)
    ensures !s.hasHandler ==> r.fired == []
    decreases |ticks|
  {
    if |ticks| == 0 then Step(s, [])
    else
      var first := Update(cfg, s, ticks[0]);
      var rest := Run(cfg, first.next, ticks[1..]);
      Step(rest.next, first.fired + rest.fired)
  }

  /** `forceScan`: `update` called `2 * kNumNormalStates` times, each call
      followed by a busy wait of one scan period. The wait is not modelled;
      its effect is in the times the ticks carry. */
  function ForceScan(cfg: Config, s: Scanner, ticks: seq<Tick>): (r: Step)
    requires Valid(cfg, s)
    requires |ticks| == 2 * NUM_NORMAL_STATES
    requires forall j :: 0 <= j < |ticks| ==> Feeds(cfg, ticks[j])
    ensures Valid(cfg, r.next)
    ensures IsNormal(s.phase) ==> IsNormal(r.next.phase)
    ensures !s.hasHandler ==> r.fired == []
  {
    Run(cfg, s, ticks)
  }
}
