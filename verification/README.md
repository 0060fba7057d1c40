# Circuit simulator, modelled in Dafny

A model of `circuit.py`, a simulator of a time-varying resistor divider
(source 10 V, `r_1` growing and `r_2` shrinking at 10 Ω/s, fixed load
`r_l = 30 Ω`) sampled by a voltmeter, an ammeter, an ohmmeter and a
rolling-average ohmmeter. In the source, every part is an `asyncio` coroutine
looping until simulated time reaches `t_max - t_error`. The model takes the
scheduling away. Each loop iteration becomes a pure step function over an
immutable state record, and each loop becomes repeated application of that
step.

All quantities are Dafny `real`s, so arithmetic is exact. The source uses
IEEE doubles. The claims "the clock stops after exactly 100 ticks at
`t = 10`" and "`r_1 + r_2 = 100` throughout" hold in this exact model. With
floats they hold only up to rounding.

Modules, one file each:

- `Params` (`params.dfy`): the module-level and class-level constants
  (`t_max`, `t_error`, `voltage`, `r_dot`, `dt`, `r_l`, `t_interval`). It also
  holds the loop guard `t < t_max - t_error`, which every loop shares, and
  Python's `max`.
- `Arith` (`arith.dfy`): one fact about real products the solver needs help
  with; it models nothing in the program.
- `Wrappers` (`wrappers.dfy`): `Option`. `None` stands for a
  `ZeroDivisionError`.
- `Circuit` (`circuit.py` class `Circuit`): the state `(t, r_1, r_2, halt)`;
  `reset`, `pause`, the constructor, one tick of `counter_t`, and the whole
  clock loop (`RunClock`, `Start`, `Restart`); `read_voltage` and
  `read_current`.
- `Bootstrap`: the choice of coroutines made in `bootstrap`.
- `Meters`: one iteration each of `Voltmeter.counter_v`, `Ammeter.counter_c`
  and `Ohmmeter.counter_r`.
- `Window`: `RAOhmmeter.readings_buffer`, the purge, and the average taken in
  `rolling_average`.
- `RaOhmmeter`: one iteration of `RAOhmmeter.counter_r`.

`readings_buffer` is a Python `dict`. Its keys are unique and it iterates in
insertion order. Assigning to an existing key keeps that key's place. The
model therefore represents it as a sequence of `(stamp, resistance)` entries
with distinct stamps, in insertion order, to mirror the dict. `Window.Sum`
adds the values from the right, while Python's `sum` adds them from the left
starting at 0. With exact reals the result does not depend on the order or
the bracketing.

Two consequences of the code's ordering matter for the model:

- On a zero ammeter current the ohmmeter's time stamp still moves, because
  `self.t = max(...)` (circuit.py:154) comes before the `try`; only the
  resistance is kept. At the clock's final state `r_2 = 0`, so the current is
  0. Because the time stamp still moves, both ohmmeter loops end there
  (`OhmmeterStopsAtEnd`, `RaStopsAtEnd`).
- The retention condition on the window's keys holds right after each
  averaging step (circuit.py:199). A skipped step (circuit.py:196-197) moves
  `t` without purging, so stale entries can remain until the next successful
  step (`SkipLeavesStaleReadings`).

## Model

| member | source | states |
|---|---|---|
| `Params.Max` | circuit.py:154 | Python's `max` of two time stamps: at least both arguments and equal to one of them |
| `Circuit.Reset` | circuit.py:81-85 | after `reset`, `t = 0`, `r_1 = 0`, `r_2 = 100`; the pause flag is untouched |
| `Circuit.ResetIdempotent` | circuit.py:81-85 | resetting twice gives the same state as resetting once |
| `Circuit.ResetForgetsState` | circuit.py:81-85 | the result of `reset` does not depend on the previous time or resistances |
| `Circuit.Initial` | circuit.py:17-25 | a newly constructed circuit is in its reset state and not paused |
| `Circuit.Pause` | circuit.py:77-79 | `pause` sets `halt` and changes nothing else |
| `Circuit.Unpause` | circuit.py:71-73 | `start` first clears `halt` and changes nothing else |
| `Circuit.Tick` | circuit.py:35-40 | a paused tick changes nothing; an unpaused tick adds `dt` to `t` and `r_dot*dt` to `r_1`; in both cases `r_1 + r_2` is kept |
| `Circuit.TicksConserve` | circuit.py:37-40 | any number of ticks keeps `r_1 + r_2` and the pause flag |
| `Circuit.PausedTicksIdle` | circuit.py:35-36 | while paused, any number of ticks leaves `t`, `r_1`, `r_2` unchanged |
| `Circuit.TicksAdvance` | circuit.py:37-40 | after `n` unpaused ticks, `t`, `r_1` and `r_2` have moved by exactly `n` times their per-tick change |
| `Circuit.HundredTicksFromInitial` | circuit.py:32-40 | from the reset, unpaused state, the loop guard holds for the first 100 ticks and fails at the 100th; the state is then `t = 10`, `r_1 = 100`, `r_2 = 0` |
| `Circuit.RunClock` | circuit.py:32-40 | the clock loop ticks exactly while the guard holds; when it completes, the guard is false and `r_1 + r_2` is conserved; a paused circuit inside the window never completes; from the initial state it completes after exactly 100 ticks at `t = 10` |
| `Circuit.Start` | circuit.py:71-75 | `start` always completes, unpaused, past the end of the window, with `r_1 + r_2` conserved |
| `Circuit.Restart` | circuit.py:87-90 | `restart` from any state takes exactly 100 ticks and ends at `t = 10`, `r_1 = 100`, `r_2 = 0` |
| `Circuit.TicksFromInitialInRange` | circuit.py:37-40 | in the first 100 ticks after a reset, `r_1 + r_2 = 100` and `0 <= r_1 <= 100`; `r_2` reaches 0 only at the 100th tick |
| `Circuit.ParallelResistance` | circuit.py:94 | `r_par` is the resistance of `r_l` in parallel with `r_2`: `r_par * (r_l + r_2) = r_l * r_2` |
| `Circuit.ReadVoltage` | circuit.py:92-95 | `read_voltage` raises exactly when `r_l + r_2 = 0` or `r_par + r_1 = 0`; otherwise it returns the divider voltage `v` with `v * (r_par + r_1) = r_par * voltage` |
| `Circuit.ReadCurrent` | circuit.py:97-99 | `read_current` is defined exactly when `read_voltage` is, and the current times `r_l` is the voltage |
| `Circuit.ReadVoltageShortedR1` | circuit.py:92-99 | with `r_1 = 0` and `r_par != 0`, the voltage is the source `voltage` and the current is `voltage / r_l` |
| `Circuit.ReadingsInRange` | circuit.py:92-99 | on every state the clock passes through, both read-outs are defined; the voltage lies in `[0, voltage]`; voltage and current are zero exactly when `r_2 = 0` |
| `Bootstrap.Tasks` | circuit.py:42-66 | the clock task is always scheduled, and first; each meter's task is scheduled exactly when that meter is present; each ohmmeter task is scheduled exactly when that ohmmeter and both the voltmeter and the ammeter are present |
| `Bootstrap.AppendIf` | circuit.py:47-66 | a guarded `tasks.append` keeps the existing list as a prefix and adds exactly the new task, only when the guard holds |
| `Bootstrap.TasksOrdered` | circuit.py:42-66 | the tasks appear in append order: clock, voltmeter, ammeter, ohmmeter, rolling-average ohmmeter; so none appears twice |
| `Bootstrap.TasksAtMostFive` | circuit.py:42-66 | `bootstrap` never schedules more than five coroutines |
| `Bootstrap.TasksCharacterized` | circuit.py:42-66 | any duplicate-free list, in append order, that holds exactly the tasks the slots enable is the list `bootstrap` builds |
| `Meters.SampleVoltage` | circuit.py:111-115 | a voltmeter iteration copies the divider voltage and the circuit's `t`; it fails exactly when `read_voltage` raises |
| `Meters.SampleCurrent` | circuit.py:131-135 | an ammeter iteration copies the current (voltage over `r_l`) and the circuit's `t`; it fails exactly when `read_current` raises |
| `Meters.SamplingSucceeds` | circuit.py:111-135 | on every state the clock passes through, both meters sample successfully; the voltage lies in `[0, voltage]`; the current is zero exactly when `r_2 = 0` |
| `Meters.OhmmeterStep` | circuit.py:151-158 | the ohmmeter's `t` becomes the later of the two meters' times, even on a zero current; on a zero current the resistance is kept; otherwise resistance times current equals voltage |
| `Meters.OhmmeterStepIdempotent` | circuit.py:152-158 | repeating an ohmmeter iteration on unchanged readings changes nothing |
| `Meters.OhmmeterReadsLoad` | circuit.py:154-156 | if both meters sampled the same circuit state and the current is non-zero, the ohmmeter reads exactly `r_l` |
| `Meters.OhmmeterStopsAtEnd` | circuit.py:152-158 | at the clock's final state the current is zero; the ohmmeter keeps its resistance, but its `t` reaches `t_max`, so its loop ends |
| `Meters.FreshInstruments` | circuit.py:107-158 | a new voltmeter, ammeter and ohmmeter start at time 0, so each loop guard holds; an ohmmeter iteration against an ammeter that has not sampled yet keeps the resistance and takes the later time stamp |
| `RaOhmmeter.FreshRaOhmmeterReady` | circuit.py:170-173 | a new rolling-average ohmmeter has an empty buffer with unique keys and a holding loop guard; an iteration against an ammeter that has not sampled yet is skipped, leaving the buffer empty and the resistance 0 |
| `Window.Put` | circuit.py:195 | storing a reading under key `k` leaves exactly one entry for `k`, holding the new value; every entry under another key is kept; nothing else is added; the length grows only when `k` is new |
| `Window.Purge` | circuit.py:178-185 | after the purge, every entry meets the retention condition; exactly the entries that met it before are still there |
| `Window.PurgeIdempotent` | circuit.py:178-185 | purging twice at the same time is the same as purging once |
| `Window.PurgeLater` | circuit.py:178-185 | a purge followed by a purge at a later time equals the later purge alone |
| `Window.PurgeKeepsRetained` | circuit.py:178-185 | a buffer that already meets the retention condition loses nothing in a purge |
| `Window.PurgeKeepsCurrent` | circuit.py:180 | an entry stamped with the purge time survives the purge, so the purged buffer is not empty |
| `Window.SumBounds` | circuit.py:188 | if every value lies in `[lo, hi]`, the sum lies between `lo` and `hi` times the number of entries |
| `Window.Mean` | circuit.py:188 | on a non-empty buffer, the average times the number of entries is the sum of the values |
| `Window.MeanBounds` | circuit.py:188 | the average of values that all lie in `[lo, hi]` also lies in `[lo, hi]` |
| `Window.RollingAverage` | circuit.py:175-188 | `rolling_average` keeps the purged buffer; it raises exactly when nothing is left; it always returns a value when an entry for the current `t` exists; the value is the sum over the count |
| `Window.FourSampleWindow` | circuit.py:175-188 | with readings at 0, 1, 2 and 3 s and a 2 s window, at 3 s the 0 s reading is purged and the average is taken over the other three |
| `RaOhmmeter.RaStep` | circuit.py:190-199 | `t` becomes the later meter time; on a zero current, buffer and resistance are unchanged; otherwise the buffer holds the new reading under `t`, every entry meets the retention condition at `t`, every retained earlier entry survives, nothing else is added, and the resistance is the average of the buffer |
| `Window.PutPresent` | circuit.py:195 | storing an entry that is already in the buffer leaves the buffer unchanged |
| `RaOhmmeter.RaStepIdempotent` | circuit.py:190-199 | repeating a rolling-average iteration on unchanged readings changes nothing |
| `RaOhmmeter.RaReadsLoad` | circuit.py:190-199 | if every stored reading is `r_l` and both meters sampled the same circuit state with a non-zero current, the rolling average is `r_l` |
| `RaOhmmeter.SkipLeavesStaleReadings` | circuit.py:193-197 | a skipped iteration moves `t` without purging, so the retention condition can fail until the next averaging step |
| `RaOhmmeter.RaStopsAtEnd` | circuit.py:190-197 | at the clock's final state the current is zero; the buffer and the resistance are kept, and the loop ends because `t` reaches `t_max` |

## Left out

- The `asyncio` scheduling (`sleep`, `gather`, `run`) and any interleaving between the clock and the instruments. Each loop iteration is a step function. Who runs when is not modelled.
- Pausing during a run: only another coroutine could call `pause` then. `RunClock` therefore treats the flag as fixed for the whole run. A run started paused inside the window is reported as `Blocked`, where the source waits forever.
- The sampling periods `Voltmeter.dt`, `Ammeter.dt` and `Ohmmeter.dt` (0.1, 0.3 and 1.0 s). They only pace sleeps.
- The instrument loops as loops: an end-to-end sample count, such as "100 voltmeter samples", depends on the scheduler. Only single iterations and their loop guards are modelled.
- `print`, `__str__` and `round(...)`: output only.
- The `__main__` block: wiring only.
- IEEE double rounding: quantities are exact reals, as stated above.
- `Meters.SampleVoltage`: a `ZeroDivisionError` inside `read_voltage` is not caught by the source and would end the program. The model reports it as `None` and does not model the crash itself. `Meters.SamplingSucceeds` shows it cannot happen on the states the clock passes through.
