# Shift-register switch scanner — Dafny model

This project models `ShiftregisterSwitchScanner`, a header-only Arduino library. The library scans a bank of switches wired through cascaded 74HC165-style parallel-in/serial-out shift registers. It drives three lines: the latch (NPL), the clock and the serial data input. Each call of `update` advances a four-phase scan cycle: Init, LoadStart, ReadEachBits, WaitNext, then LoadStart again. The read phase shifts every bit into a sample buffer and then runs a two-sample debounce pass. That pass commits a switch's level only when two consecutive samples agree. For every committed change it calls the optional change handler with the inverted level, since with pull-up wiring LOW means pressed. `switchIsOn` queries the committed table, and `forceScan` calls `update` eight times.

The model is functional. A scanner is an immutable `Scanner.Scanner` record. It holds the three per-switch buffers as sequences of `Bit`, the phase, the time the wait began and a flag for whether a handler is registered. `Scanner.Update` takes the state and a `Tick`, and returns the next state plus the list of handler calls (`Notification(index, level)`) made during the call. A `Tick` carries the value of `millis()` and the levels the data line shows at successive clock pulses.

Modules:
- `Bits`: widths (`u8` for the template parameters, `u32` for times), levels, and 32-bit wrap-around elapsed time.
- `ShiftRead`: the read loop, its reversed bit order within each IC, and its declarative reference `ShiftIn`.
- `Debounce`: `updateSwitchStatus` as a loop-shaped recursive function, plus its properties over one pass and over a history of passes.
- `Scanner`: the state record, constructor, `onChange`, `switchIsOn`, `setState`, `update` and `forceScan`.
- `ScannerProperties`: properties that span several calls, such as period gating, the initial state and the forced-scan guarantee.
- `ControlLines`: the latch and clock writes as an abstract trace of pin operations.

Two details of the code matter for the model:
- The switch count is not required to be a multiple of 8. The loop walks `num_switches / 8` ICs, truncating, so the last `num_switches % 8` positions are never written by a read (`ShiftRead.ReadCount`).
- The read loop does not run when the read phase is entered. It runs on the next `update` call, the one made while the phase is already `ReadEachBits`.

## Model

| member | source | states |
|---|---|---|
| Bits.Invert | shiftregister_switchscanner.hpp:149 | the handler's level is the opposite of the committed level |
| Bits.Elapsed | shiftregister_switchscanner.hpp:80-82 | the elapsed time is the 32-bit distance that, added to the wait start modulo 2^32, gives the current time |
| Bits.ElapsedIsUnique | shiftregister_switchscanner.hpp:80-82 | that distance is unique; it is the plain difference when the counter has not wrapped and the difference plus 2^32 when it has |
| ShiftRead.ReadCount | shiftregister_switchscanner.hpp:67-68 | one read phase pulses the clock a multiple of 8 times, at most the switch count and fewer than 8 short of it |
| ShiftRead.SampleOfBufferIndex | shiftregister_switchscanner.hpp:72 | the i-th bit read from IC k lands inside IC k's own group of eight positions and is sample number k*8+i |
| ShiftRead.BufferIndexIsBijection | shiftregister_switchscanner.hpp:67-75 | (ic, i) to ic*8+8-i-1 maps the reads of one phase one-to-one onto the positions 0 .. 8*(N/8)-1 |
| ShiftRead.ShiftIn | shiftregister_switchscanner.hpp:67-75 | the buffer after a read, as the scanner uses it: each position the read reaches holds exactly the i-th bit read from its IC, and positions at or above 8*(N/8) keep their old value |
| ShiftRead.ShiftInAbsorbs | shiftregister_switchscanner.hpp:67-75 | a read overwrites every position it reaches, so reading a steady line again changes nothing |
| ShiftRead.ReadEachBits | shiftregister_switchscanner.hpp:66-75 | the nested read loop as written stores the i-th bit of IC k at k*8+7-i, leaves the rest untouched, and equals the reference definition |
| Debounce.PassFrom | shiftregister_switchscanner.hpp:142-156 | every previous sample from the start index up is replaced by the current one; without a handler no call is made |
| Debounce.PassFromStatusAt | shiftregister_switchscanner.hpp:142-147 | a pass leaves a switch below its start index alone; from there on, a switch takes the current sample when it agrees with the previous one and keeps its old status otherwise |
| Debounce.PassFromDebounces | shiftregister_switchscanner.hpp:142-147 | a status takes the current sample when the two samples agree and is untouched when they differ |
| Debounce.PassFromAscending | shiftregister_switchscanner.hpp:142-152 | handler calls come in strictly ascending index order |
| Debounce.PassFromNotifiesChanges | shiftregister_switchscanner.hpp:146-152 | each handler call names a switch whose status changed and passes the inverted new status |
| Debounce.PassFromNotifiesEveryChange | shiftregister_switchscanner.hpp:146-152 | with a handler set, every switch whose status changed is notified |
| Debounce.PassFromSilentWhileFormerIsStatus | shiftregister_switchscanner.hpp:143-146 | while the previous samples equal the committed levels, no status changes and no handler call is made |
| Debounce.UpdateSwitchStatus | shiftregister_switchscanner.hpp:140-157 | a whole pass: status changes only where the samples agree, and then to the sample; the previous buffer ends equal to the current one; one call per changed switch, ascending, inverted level; none without a handler |
| Debounce.PassAll | shiftregister_switchscanner.hpp:155 | after a history of passes, the previous-sample buffer holds the last sample taken |
| Debounce.AlternatingSamplesNeverCommit | shiftregister_switchscanner.hpp:142-155 | a switch whose every sample differs from the one before it never changes status and is never notified (glitches such as 0,1,0 are filtered) |
| Debounce.TwoAgreeingSamplesCommit | shiftregister_switchscanner.hpp:142-155 | once the last two samples of a switch agree, its committed status is that sample |
| Debounce.SettledPassIsSilent | shiftregister_switchscanner.hpp:142-153 | when both samples equal the committed status, a pass changes nothing and calls no handler |
| Scanner.New | shiftregister_switchscanner.hpp:34-47 | the constructor yields buffers of one level per switch and a phase of the normal cycle |
| Scanner.OnChange | shiftregister_switchscanner.hpp:51-54 | registering a handler replaces the previous one and changes nothing else |
| Scanner.SwitchIsOn | shiftregister_switchscanner.hpp:102-109 | an index at or past the switch count is off; otherwise a switch is on exactly when its committed level is LOW |
| Scanner.Enter | shiftregister_switchscanner.hpp:114-138 | setting a phase records the time only when entering WaitNext, and leaves every other field alone |
| Scanner.Successor | shiftregister_switchscanner.hpp:60-84 | the transition table of the cycle: a normal phase moves to the next phase code, and WaitNext wraps round to LoadStart, never to Init; the unknown phase stays unknown |
| Scanner.Update | shiftregister_switchscanner.hpp:57-89 | one step of the cycle, following the cycle order unless still waiting; a waiting tick, or a tick in the unknown phase, changes nothing; only the read phase touches the buffers or calls the handler; entering WaitNext records the time; the phase stays within the four normal ones |
| Scanner.Run | shiftregister_switchscanner.hpp:57-89 | repeated updates keep the buffers well formed, the phase normal and the handler registration; without a handler nothing is ever notified |
| Scanner.ForceScan | shiftregister_switchscanner.hpp:91-100 | eight updates keep the phase normal and notify nothing without a handler |
| ScannerProperties.InitiallyAllOff | shiftregister_switchscanner.hpp:34-47 | after construction every buffer is HIGH, the phase is Init, no handler is set, and every index reports off |
| ScannerProperties.NoCommitWhileFormerIsStatus | shiftregister_switchscanner.hpp:142-147 | a tick from a state whose previous samples equal its committed levels commits and notifies nothing |
| ScannerProperties.FirstScanIsSilent | shiftregister_switchscanner.hpp:36-41 | the first read phase after construction never changes a status or calls the handler, whatever the switches show |
| ScannerProperties.IdleTicksChangeNothing | shiftregister_switchscanner.hpp:79-85 | ticks that come less than one scan period after the wait began leave the scanner exactly as it was |
| ScannerProperties.NotificationMatchesQuery | shiftregister_switchscanner.hpp:146-152 | a handler call's level is HIGH exactly when the switch is reported on after the tick |
| ScannerProperties.StepProgress | shiftregister_switchscanner.hpp:57-89 | under a steady line, a tick whose wait is over follows the cycle and each read phase moves one step towards committing the line |
| ScannerProperties.RunProgress | shiftregister_switchscanner.hpp:57-89 | ticks spaced a scan period apart under a steady line make one step of progress per read phase passed, up to committed |
| ScannerProperties.ThreeTicksReadOnce | shiftregister_switchscanner.hpp:63-84 | past Init the cycle repeats every three ticks and passes exactly one read phase per turn |
| ScannerProperties.SevenTicksFromWaitReadTwice | shiftregister_switchscanner.hpp:94-96 | the seven calls left after a first call that still finds the wait running pass at least two read phases |
| ScannerProperties.EightTicksReadTwice | shiftregister_switchscanner.hpp:94-96 | eight ticks from any normal phase pass at least two read phases |
| ScannerProperties.ForceScanCommitsSteadyInput | shiftregister_switchscanner.hpp:91-100 | from any normal phase, including a wait still running when forceScan starts, with steady switches and calls spaced one scan period apart, forceScan commits the read: the committed table equals the sampled one, and each switch is on exactly when its bit was read LOW |
| ControlLines.Pulses | shiftregister_switchscanner.hpp:69-74 | the read loop makes three pin operations per clock pulse |
| ControlLines.PulsesCount | shiftregister_switchscanner.hpp:69-74 | the read loop samples once per pulse, leaves the latch where it was and ends with the clock HIGH |
| ControlLines.PulsesShape | shiftregister_switchscanner.hpp:69-74 | the read loop never writes the latch, takes each sample just after driving the clock LOW and follows it with a rising edge |
| ControlLines.EntryWrites | shiftregister_switchscanner.hpp:117-137 | entering a normal phase makes two writes, the clock LOW and the latch LOW for LoadStart or HIGH otherwise; the unknown phase writes nothing |
| ControlLines.UpdateOps | shiftregister_switchscanner.hpp:57-89 | an update that keeps its phase touches no pin; only a read phase samples the data line; a read makes three operations per clock pulse, and each phase change adds the two entry writes |
| ControlLines.EntryWritesSettle | shiftregister_switchscanner.hpp:117-137 | entering any phase leaves the clock LOW, and the latch LOW only in LoadStart |
| ControlLines.ConstructorSettlesLines | shiftregister_switchscanner.hpp:46 | the constructor's entry into Init brings the lines to Init's levels from any levels |
| ControlLines.UpdateKeepsLinesSettled | shiftregister_switchscanner.hpp:57-89 | every update keeps the line levels matching the phase; an update that keeps the phase writes nothing |
| ControlLines.ReadPhaseShiftsOutEveryBit | shiftregister_switchscanner.hpp:66-78 | a read phase samples once per level of the tick's line, always with the latch HIGH and the clock just LOW, each sample followed by a rising edge |

## Left out

- Pin configuration (`pinMode` at lines 42-44) is a hardware side effect with no state in the model.
- `digitalRead` is the `line` of a `Tick`: the levels of the data line at the successive clock pulses of one call. The levels are assumed to be 0 or 1 (LOW or HIGH).
- `digitalWrite` appears only as the abstract trace of `ControlLines`, not as electrical behaviour.
- `millis()` is the `now` of a `Tick`, taken as 32 bits wide (Arduino's `unsigned long`). The call at line 131 happens after the read loop, within the same `update` call; the model gives it the same `now`.
- `delay` (line 97) and real busy-waiting are not modelled. Their effect is the hypothesis of `ScannerProperties.ForceScanCommitsSteadyInput`: successive tick times are at least one scan period apart, and a wait that was already running when `forceScan` began is over by its second call (the first `delay` ensures this when the clock does not wrap a full 2^32 in between).
- The change handler is assumed not to re-enter the scanner. The source calls it in the middle of the debounce pass (line 151), after committing switch i and before updating the later switches, and tests `handler_` again for each switch (line 150). A handler that calls `onChange`, `update` or `forceScan`, or that queries later switches during the pass, is outside the model: `Debounce.PassFrom` fixes the handler for the whole pass and returns its calls as a list.
- `std::function` storage (lines 32, 159) is replaced by a flag for whether a handler is registered. Its calls are returned as a list of notifications.
- The virtual destructor and the private copy constructor (lines 49, 167) are C++ object-model concerns with no logic.
- The pin numbers among the template parameters only select hardware lines.
- Scanner.Run: each tick must supply a full line of `8 * (num_switches / 8)` levels, even on ticks that do not read. This is an interface choice of the model, not a demand of the source.
- Scanner.ForceScan: its own contract states only well-formedness. The guarantee that a steady input ends up committed is in `ScannerProperties.ForceScanCommitsSteadyInput`, under the timing hypothesis described above.
