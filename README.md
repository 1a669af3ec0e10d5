# NESPi 4 safe-shutdown daemon — control logic in Dafny

This project models the decision logic of `SafeShutdown.py`. The daemon runs on a
Raspberry Pi inside a NESPi 4 case. It drives the case LED from system load and CPU
temperature, and it turns the case's power and reset buttons into a graceful
shutdown or an immediate reboot.

Three modules, one per component of the daemon:

- `Health` (`health.dfy`): the threshold constants and the pattern cascade
  (`idle`, `low`, `medium`, `high`). The cascade is `Select`. It is proved equal to
  the more severe of two independent per-metric classifications, `TempTier` and
  `LoadTier`, and proved monotone in both metrics.
- `Led` (`led.dfy`): one tick of the LED worker in a fixed mode. The mode is either
  the shutdown strobe or one health pattern. `Level` gives the level written and
  `NextPhase` the phase advance. `Period` and `OnTicks` are the reference timings
  from the worker's documentation. Lemmas show that `n` ticks from a phase inside
  the period emit the expected levels: one period from phase 0 gives
  `OnTicks` ON ticks, then OFF ticks, and the phase returns to 0. Idle is always
  ON, and the strobe alternates from any phase.
- `SafeShutdown` (`safe_shutdown.dfy`): the state of the whole daemon. It holds the
  worker's `phase`, the global `shutting_down` flag, and counters that stand in
  for the two external commands (`docker stop`, `shutdown -r now`). The three
  events (LED tick, power callback, reset callback) are specified as pure
  functions (`AfterTick`, `AfterPower`, `AfterReset`). Lemmas over arbitrary event
  sequences (`Run`) prove the following:
  - the invariant holds throughout;
  - the flag is monotonic;
  - the workload stop happens exactly once, and only if a confirmed power press
    occurs;
  - every reboot request is accounted for.

  Class `Daemon` performs the same events in place, on fields, as the daemon
  does. Its methods `LedTick`, `PowerPress` and `ResetPress` are proved against
  those functions.

A GPIO level of `true` means HIGH. For the LED, HIGH is ON. For the pulled-up
buttons, HIGH means released, so a debounce re-read of `false` confirms a press.

Three points where a natural reading of the daemon differs from what its code does; the model follows the code:

- Phase on pattern change: one might expect the blink phase to restart whenever
  the pattern changes. The code resets it only in the idle branch
  (`SafeShutdown.py:134`). When the pattern switches between `low`, `medium`,
  `high` and the strobe, the phase carries over, so the first period after a
  switch can start part-way. For example, phase 10 under `high` emits OFF and
  then moves to phase 3. `Level` states the level for every phase, carried-over
  ones included. `PhaseAfterCount` gives the phase after `n` ticks from any start
  phase once at least one tick has run. `StrobeAlternates` shows that the strobe
  alternates from any start phase.
- Threshold values: the constants are load 1.1/2.2/3.3 and 60/67/75 °C
  (`SafeShutdown.py:23-29`), and the model uses exactly these. A cool idle board
  (load 0.05, 40 °C) selects `idle` and a hot, lightly loaded board (load 0.2,
  78 °C) selects `high` (`Health.Samples`).
- Debounce: there is no per-button debounce state machine. The code sleeps
  0.2 s and re-reads the level once. The model takes that re-read level as a
  parameter.

## Model

| member | source | states |
|---|---|---|
| `Health.Select` | SafeShutdown.py:117-129 | the cascade's pattern is the more severe of the temperature tier and the load tier (thresholds 60/67/75 °C and 1.1/2.2/3.3) |
| `Health.HighDominates` | SafeShutdown.py:124-125 | temperature ≥ 75 or load ≥ 3.3 selects `high` whatever the other metric is, and `high` is selected only then |
| `Health.IdleIffBothBelowLow` | SafeShutdown.py:120-129 | the pattern is `idle` exactly when temperature < 60 and load < 1.1 |
| `Health.TiersMonotone` | SafeShutdown.py:23-29 | each per-metric tier is non-decreasing in its metric (the thresholds are ascending) |
| `Health.SelectMonotone` | SafeShutdown.py:123-129 | raising either metric never lowers the severity of the selected pattern |
| `Health.Samples` | SafeShutdown.py:117-129 | worked samples: (0.05, 40 °C) is idle, (0.2, 78 °C) is high, (2.5, 61 °C) is medium |
| `Led.ModeOf` | SafeShutdown.py:107-118 | while the flag is set the strobe is rendered and no metrics are consulted; otherwise the selected health pattern |
| `Led.Period` | SafeShutdown.py:110-165 | every mode's period lies between 1 and 14 ticks |
| `Led.OnTicks` | SafeShutdown.py:88-97 | the ON part of a period is between 1 tick and the whole period |
| `Led.NextPhase` | SafeShutdown.py:110-165 | after any tick the phase is inside the mode's period; idle resets it to 0; inside the period it counts up by one and wraps to 0 at the period's end |
| `Led.Level` | SafeShutdown.py:110-165 | the level written at any phase: idle is always ON, the strobe is ON on even phases, a blinking pattern is ON exactly while the phase is below its OnTicks (so a carried-over phase emits OFF until it wraps) |
| `Led.LevelWithinPeriod` | SafeShutdown.py:137-165 | inside a period the level is ON exactly for the first OnTicks phases (7 low, 4 medium, 2 high, 1 strobe) |
| `Led.Levels` | SafeShutdown.py:106-165 | the trace of `n` ticks of the worker loop in a fixed mode: exactly `n` levels, whose contents `Led.LevelsAt` gives |
| `Led.LevelsAt` | SafeShutdown.py:104-165 | the k-th of `n` ticks in a fixed mode emits the level of the phase reached after k ticks |
| `Led.PhaseCountsUp` | SafeShutdown.py:140-164 | inside one period the phase counts up by one per tick |
| `Led.PhaseAfterCount` | SafeShutdown.py:104-165 | after `n` ≥ 1 ticks from any start phase (a carried-over one included), or after none from a phase inside the period, the phase is (start + n) mod period |
| `Led.OnePeriod` | SafeShutdown.py:137-165 | one period from phase 0 emits OnTicks ON then the rest OFF, and returns the phase to 0 |
| `Led.PeriodTimings` | SafeShutdown.py:88-97 | low is 7 ON then 7 OFF, medium 4/4, high 2/2, the strobe ON then OFF |
| `Led.IdleSteadyOn` | SafeShutdown.py:131-135 | idle emits ON on every tick, from any phase |
| `Led.StrobeAlternates` | SafeShutdown.py:110-115 | the strobe alternates ON and OFF from any start phase, the k-th tick being ON exactly when start + k is even |
| `SafeShutdown.TickLevel` | SafeShutdown.py:106-165 | the level a daemon tick writes: with the flag set, ON on even phases whatever the metrics; otherwise ON in idle, and ON exactly below OnTicks of the selected blinking pattern |
| `SafeShutdown.AfterTick` | SafeShutdown.py:104-165 | a tick moves only the phase; it stays below 14, is 0 or 1 after a strobe tick and 0 after an idle tick |
| `SafeShutdown.AfterPower` | SafeShutdown.py:181-214 | a released button and a press while shutting down change nothing; a confirmed first press sets the flag, stops workloads once and requests one reboot |
| `SafeShutdown.AfterReset` | SafeShutdown.py:217-229 | a reset never touches the flag or the workload stop; a confirmed press requests exactly one reboot, a released button none |
| `SafeShutdown.ApplyKeepsInv` | SafeShutdown.py:104-229 | every single event keeps phase < 14, workload stops = (flag ? 1 : 0), and stops ≤ reboot requests |
| `SafeShutdown.RunKeepsInv` | SafeShutdown.py:104-229 | that invariant holds after any sequence of events |
| `SafeShutdown.FlagStaysSet` | SafeShutdown.py:198-202 | once set, the flag stays set, no further workload stop happens, and every later tick takes the strobe branch |
| `SafeShutdown.ShutdownIffConfirmedPower` | SafeShutdown.py:193-202 | the flag ends up set exactly when it was set already or the run holds a confirmed power press; the workload stop happens only in the run that sets it |
| `SafeShutdown.StopsNeverDecrease` | SafeShutdown.py:198-210 | the count of workload stops never decreases over a run |
| `SafeShutdown.RebootRequestsCounted` | SafeShutdown.py:207-229 | reboot requests grow by the confirmed reset presses plus the workload stops of the run |
| `SafeShutdown.WorkloadsStoppedOnce` | SafeShutdown.py:198-214 | from process start, workloads are stopped once if any confirmed power press occurs and never otherwise; reboots = confirmed resets + that stop |
| `SafeShutdown.PowerIdempotent` | SafeShutdown.py:198-202 | after a confirmed power press, any further power press changes nothing |
| `SafeShutdown.PowerPressScenario` | SafeShutdown.py:181-214 | press, tick, press again: the tick writes the strobe's first ON, and one stop and one reboot are issued in all |
| `SafeShutdown.SteadySampleRenders` | SafeShutdown.py:106-165 | ticks on an unchanging sample emit exactly the fixed-mode level sequence of the mode that sample selects |
| `SafeShutdown.DaemonOnePeriod` | SafeShutdown.py:137-165 | the daemon, from phase 0, writes one full blink period of the selected mode and comes back to its starting state |
| `SafeShutdown.Daemon.constructor` | SafeShutdown.py:104 | the daemon starts with phase 0, the flag clear (as initialised at SafeShutdown.py:35) and no command issued |
| `SafeShutdown.Daemon.LedTick` | SafeShutdown.py:106-165 | one worker iteration writes `TickLevel` and moves to `AfterTick`, keeping the invariant |
| `SafeShutdown.Daemon.PowerPress` | SafeShutdown.py:181-214 | the power callback updates the fields exactly as `AfterPower`, keeping the invariant |
| `SafeShutdown.Daemon.ResetPress` | SafeShutdown.py:217-229 | the reset callback updates the fields exactly as `AfterReset`, keeping the invariant |

## Left out

- GPIO setup, reads and writes (`init_gpio`, `GPIO.output`, `GPIO.input`, `add_event_detect`, `cleanup`): these are hardware calls. The LED level is the return value of `LedTick`. The debounced button level is a parameter of `PowerPress` and `ResetPress`.
- `get_load_and_temp`: this is file reading and number parsing. Load and temperature are parameters of each tick. It falls back to 0.0 separately for each metric, so a failed read puts that metric at 0.0, in its idle tier; the other metric decides the pattern.
- Floating point: load and temperature are exact `real` numbers. A `float` read from a decimal string compares to the decimal constants as the exact value does, except for values within rounding distance of a threshold.
- `stop_docker_containers` and `os.system("shutdown -r now")`: these run external processes. Each call is counted in the ghost fields `dockerStops` or `rebootRequests`. The exit-code check only logs, so it is not modelled.
- Threads and `threading.Lock`: every run is modelled as a sequence of single events on one object. The lock's effect on the flag's test-and-set is that `PowerPress` is one atomic step.
- SafeShutdown.Daemon.PowerPress: the flag set, the 3 s pause, the workload stop and the reboot request are one step. LED ticks that fall inside the pause are not interleaved. Such ticks read only the flag and move only the phase, so the final state is the same.
- `time.sleep` (the 0.2 s debounce, the 3 s feedback delay, `TICK`), the GPIO `bouncetime`, logging and `main`'s keep-alive loop: these are timing and I/O with no effect in a sequential model.
