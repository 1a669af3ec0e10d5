/**
 * The control state of the NESPi 4 safe-shutdown daemon: the LED worker's
 * phase counter, the shared "shutting down" flag, and how many times the
 * workload stop (stopping all Docker containers) and the reboot request
 * (`shutdown -r now`) have been issued.
 *
 * The daemon runs the LED worker in its own thread and the two button
 * callbacks on GPIO events; here every run is a sequence of single events
 * applied one after the other.  `State`, `Event` and the `After…` functions
 * specify one event; class `Daemon` performs it in place, field by field,
 * as the daemon does.
 */
module SafeShutdown {
  import opened Health
  import opened Led

  datatype State = State(phase: nat, shuttingDown: bool, dockerStops: nat, rebootRequests: nat)

  /**
   * One event: an LED tick on a metrics sample, or a button callback after its
   * debounce re-read.  A level of true is GPIO HIGH, which for the pulled-up
   * buttons means released.
   */
  datatype Event =
    | Tick(load1: real, tempC: real)
    | Power(levelAfterDebounce: bool)
    | Reset(levelAfterDebounce: bool)

  /** Process start: phase 0, no shutdown in progress, nothing issued yet. */
  function Init(): State
  {
    State(0, false, 0, 0)
  }

  /**
   * What every reachable state satisfies: the phase lies inside the longest
   * period, and the workload stop has run once exactly when the flag is set,
   * each time together with a reboot request.
   */
  ghost predicate Inv(s: State)
  {
    && s.phase < 14
    && s.dockerStops == (if s.shuttingDown then 1 else 0)
    && s.dockerStops <= s.rebootRequests
  }

  /**
   * The level an LED tick writes in state `s` on the given sample: the strobe
   * follows the parity of the phase, idle is always ON, and a blinking pattern
   * is ON for the first OnTicks phases of its period.
   */
  function TickLevel(s: State, load1: real, tempC: real): (r: bool)
    ensures s.shuttingDown ==> (r <==> s.phase % 2 == 0)
    ensures !s.shuttingDown && Select(load1, tempC) == Idle ==> r
    ensures !s.shuttingDown && Select(load1, tempC) != Idle ==>
      (r <==> s.phase < OnTicks(Health(Select(load1, tempC))))
  {
    Level(ModeOf(s.shuttingDown, load1, tempC), s.phase)
  }

  /** The state after an LED tick: only the phase moves. */
  function AfterTick(s: State, load1: real, tempC: real): (r: State)
    ensures r.shuttingDown == s.shuttingDown
    ensures r.dockerStops == s.dockerStops && r.rebootRequests == s.rebootRequests
    ensures r.phase < 14
    ensures s.shuttingDown ==> r.phase < 2
    ensures !s.shuttingDown && Select(load1, tempC) == Idle ==> r.phase == 0
  {
    s.(phase := NextPhase(ModeOf(s.shuttingDown, load1, tempC), s.phase))
  }

  /**
   * The power-button callback: a released button (HIGH after debounce) and a
   * press while a shutdown is already in progress change nothing; otherwise the
   * flag is set, the workloads are stopped once and a reboot is requested once.
   */
  function AfterPower(s: State, levelAfterDebounce: bool): (r: State)
    ensures levelAfterDebounce ==> r == s
    ensures s.shuttingDown ==> r == s
    ensures !levelAfterDebounce ==> r.shuttingDown
    ensures r.phase == s.phase
    ensures !levelAfterDebounce && !s.shuttingDown ==>
      r.dockerStops == s.dockerStops + 1 && r.rebootRequests == s.rebootRequests + 1
  {
    if levelAfterDebounce then s
    else if s.shuttingDown then s
    else s.(shuttingDown := true, dockerStops := s.dockerStops + 1, rebootRequests := s.rebootRequests + 1)
  }

  /**
   * The reset-button callback: never touches the flag nor the workloads; a
   * confirmed press requests one reboot, a released button none.
   */
  function AfterReset(s: State, levelAfterDebounce: bool): (r: State)
    ensures r.shuttingDown == s.shuttingDown && r.dockerStops == s.dockerStops && r.phase == s.phase
    ensures levelAfterDebounce ==> r == s
    ensures !levelAfterDebounce ==> r.rebootRequests == s.rebootRequests + 1
  {
    if levelAfterDebounce then s else s.(rebootRequests := s.rebootRequests + 1)
  }

  function Apply(s: State, e: Event): State
  {
    match e
    case Tick(load1, tempC) => AfterTick(s, load1, tempC)
    case Power(level) => AfterPower(s, level)
    case Reset(level) => AfterReset(s, level)
  }

  /** The state after the events of `es`, in order. */
  function Run(s: State, es: seq<Event>): State
    decreases |es|
  {
    if es == [] then s else Apply(Run(s, es[..|es| - 1]), es[|es| - 1])
  }

  /** The LED levels written by the ticks of `es`, in order. */
  function Emitted(s: State, es: seq<Event>): seq<bool>
    decreases |es|
  {
    if es == [] then []
    else
      var before := Run(s, es[..|es| - 1]);
      match es[|es| - 1]
      case Tick(load1, tempC) => Emitted(s, es[..|es| - 1]) + [TickLevel(before, load1, tempC)]
      case _ => Emitted(s, es[..|es| - 1])
  }

  /** Whether `es` holds a power press confirmed by the debounce re-read. */
  ghost predicate PowerConfirmed(es: seq<Event>)
  {
    exists i :: 0 <= i < |es| && es[i] == Power(false)
  }

  /** How many reset presses of `es` the debounce re-read confirms. */
  function ConfirmedResets(es: seq<Event>): nat
    decreases |es|
  {
    if es == [] then 0
    else ConfirmedResets(es[..|es| - 1]) + (if es[|es| - 1] == Reset(false) then 1 else 0)
  }

  /** `n` LED ticks on one unchanging sample. */
  function Ticks(load1: real, tempC: real, n: nat): (es: seq<Event>)
    ensures |es| == n
    ensures forall i :: 0 <= i < n ==> es[i] == Tick(load1, tempC)
  {
    seq(n, _ => Tick(load1, tempC))
  }

  /** Every single event keeps the invariant. */
  lemma ApplyKeepsInv(s: State, e: Event)
    requires Inv(s)
    ensures Inv(Apply(s, e))
  {
  }

  /** The invariant holds after any sequence of events from a state that has it; in particular from Init(). */
  lemma {:induction false} RunKeepsInv(s: State, es: seq<Event>)
    requires Inv(s)
    ensures Inv(Run(s, es))
    decreases |es|
  {
    if es != [] {
      RunKeepsInv(s, es[..|es| - 1]);
      ApplyKeepsInv(Run(s, es[..|es| - 1]), es[|es| - 1]);
    }
  }

  /**
   * Once the flag is set it stays set, the workload stop is never repeated,
   * and every later LED tick, at any point of the run, takes the strobe branch.
   */
  lemma {:induction false} FlagStaysSet(s: State, es: seq<Event>)
    requires s.shuttingDown
    ensures Run(s, es).shuttingDown && Run(s, es).dockerStops == s.dockerStops
    ensures forall i, load1, tempC :: 0 <= i <= |es| ==> ModeOf(Run(s, es[..i]).shuttingDown, load1, tempC) == ShuttingDown
    decreases |es|
  {
    if es != [] {
      FlagStaysSet(s, es[..|es| - 1]);
    }
    forall i | 0 <= i <= |es|
      ensures Run(s, es[..i]).shuttingDown
    {
      if i < |es| {
        FlagStaysSet(s, es[..i]);
      } else {
        assert es[..i] == es;
      }
    }
  }

  /**
   * Over any run, the flag ends up set exactly when it was set already or the
   * run holds a confirmed power press, and the workload stop happens at most
   * once: exactly when this run is the one that set the flag.
   */
  lemma {:induction false} ShutdownIffConfirmedPower(s: State, es: seq<Event>)
    ensures Run(s, es).shuttingDown <==> s.shuttingDown || PowerConfirmed(es)
    ensures Run(s, es).dockerStops == s.dockerStops + (if !s.shuttingDown && PowerConfirmed(es) then 1 else 0)
    decreases |es|
  {
    if es != [] {
      var init := es[..|es| - 1];
      ShutdownIffConfirmedPower(s, init);
      assert es == init + [es[|es| - 1]];
      PowerConfirmedSnoc(init, es[|es| - 1]);
    }
  }

  /** A run with one more event holds a confirmed power press when the shorter run does or the new event is one. */
  lemma PowerConfirmedSnoc(es: seq<Event>, e: Event)
    ensures PowerConfirmed(es + [e]) <==> PowerConfirmed(es) || e == Power(false)
  {
    var es' := es + [e];
    if PowerConfirmed(es) {
      var i :| 0 <= i < |es| && es[i] == Power(false);
      assert es'[i] == Power(false);
    }
    if e == Power(false) {
      assert es'[|es|] == Power(false);
    }
  }

  /**
   * Every reboot request comes either from a confirmed reset press or from
   * the one shutdown sequence: reboot requests grow by the confirmed resets
   * plus the workload stops of the run.
   */
  lemma {:induction false} RebootRequestsCounted(s: State, es: seq<Event>)
    ensures Run(s, es).rebootRequests == s.rebootRequests + ConfirmedResets(es) + (Run(s, es).dockerStops - s.dockerStops)
    decreases |es|
  {
    if es != [] {
      RebootRequestsCounted(s, es[..|es| - 1]);
      StopsNeverDecrease(s, es[..|es| - 1]);
    }
  }

  lemma {:induction false} StopsNeverDecrease(s: State, es: seq<Event>)
    ensures Run(s, es).dockerStops >= s.dockerStops
    decreases |es|
  {
    if es != [] {
      StopsNeverDecrease(s, es[..|es| - 1]);
    }
  }

  /** From process start: one confirmed power press, however many follow, stops the workloads exactly once. */
  lemma WorkloadsStoppedOnce(es: seq<Event>)
    ensures Run(Init(), es).dockerStops == (if PowerConfirmed(es) then 1 else 0)
    ensures Run(Init(), es).rebootRequests == ConfirmedResets(es) + Run(Init(), es).dockerStops
  {
    ShutdownIffConfirmedPower(Init(), es);
    RebootRequestsCounted(Init(), es);
  }

  /** A second power press is ignored: the callback is idempotent. */
  lemma PowerIdempotent(s: State, level: bool)
    ensures AfterPower(AfterPower(s, false), level) == AfterPower(s, false)
  {
  }

  /**
   * A confirmed power press switches the very next tick to the strobe, and a
   * second confirmed press issues nothing more.
   */
  lemma PowerPressScenario(load1: real, tempC: real)
    ensures var es := [Power(false), Tick(load1, tempC), Power(false)];
      && Run(Init(), es) == State(1, true, 1, 1)
      && Emitted(Init(), es) == [true]
  {
    var es := [Power(false), Tick(load1, tempC), Power(false)];
    var pressed := State(0, true, 1, 1);
    assert es[..1] == [Power(false)] && [Power(false)][..0] == [];
    assert Run(Init(), es[..1]) == pressed;
    assert es[..2][..1] == es[..1];
    assert Run(Init(), es[..2]) == State(1, true, 1, 1);
    assert Emitted(Init(), es[..1]) == [];
    assert Emitted(Init(), es[..2]) == [TickLevel(pressed, load1, tempC)] == [true];
  }

  /**
   * Ticks on one unchanging sample render exactly the fixed-mode level
   * sequence of the mode that sample selects, and move the phase accordingly.
   */
  lemma {:induction false} SteadySampleRenders(s: State, load1: real, tempC: real, n: nat)
    ensures Emitted(s, Ticks(load1, tempC, n)) == Levels(ModeOf(s.shuttingDown, load1, tempC), s.phase, n)
    ensures Run(s, Ticks(load1, tempC, n)) == s.(phase := PhaseAfter(ModeOf(s.shuttingDown, load1, tempC), s.phase, n))
    decreases n
  {
    if n > 0 {
      var m := ModeOf(s.shuttingDown, load1, tempC);
      var es := Ticks(load1, tempC, n);
      assert es[..n - 1] == Ticks(load1, tempC, n - 1);
      SteadySampleRenders(s, load1, tempC, n - 1);
      LevelsSnoc(m, s.phase, n - 1);
      PhaseAfterSnoc(m, s.phase, n - 1);
    }
  }

  /**
   * From phase 0, one full period of ticks on an unchanging sample writes
   * OnTicks ON then the rest OFF (7/7 low, 4/4 medium, 2/2 high, ON/OFF while
   * shutting down, a single ON when idle) and returns the phase to 0.
   */
  lemma DaemonOnePeriod(s: State, load1: real, tempC: real)
    requires s.phase == 0
    ensures var m := ModeOf(s.shuttingDown, load1, tempC);
      && Emitted(s, Ticks(load1, tempC, Period(m))) == Repeat(true, OnTicks(m)) + Repeat(false, Period(m) - OnTicks(m))
      && Run(s, Ticks(load1, tempC, Period(m))) == s
  {
    var m := ModeOf(s.shuttingDown, load1, tempC);
    SteadySampleRenders(s, load1, tempC, Period(m));
    OnePeriod(m);
  }

  /**
   * The daemon's state as a heap object: the LED worker's phase, the global
   * flag, and counters standing in for the two external commands.
   */
  class Daemon {
    var phase: nat
    var shuttingDown: bool
    // Instrumentation: how often the two external commands have been issued.
    ghost var dockerStops: nat
    ghost var rebootRequests: nat

    ghost function Snapshot(): State
      reads this
    {
      State(phase, shuttingDown, dockerStops, rebootRequests)
    }

    ghost predicate Valid()
      reads this
    {
      Inv(Snapshot())
    }

    constructor ()
      ensures Valid() && Snapshot() == Init()
    {
      phase, shuttingDown, dockerStops, rebootRequests := 0, false, 0, 0;
    }

    /** One iteration of the LED worker loop: read the flag, pick a pattern, write a level, advance the phase. */
    method LedTick(load1: real, tempC: real) returns (level: bool)
      requires Valid()
      modifies this
      ensures Valid()
      ensures level == TickLevel(old(Snapshot()), load1, tempC)
      ensures Snapshot() == AfterTick(old(Snapshot()), load1, tempC)
    {
      var sd := shuttingDown;
      if sd {
        level := phase % 2 == 0;
        phase := (phase + 1) % 2;
        return;
      }
      var pattern := Select(load1, tempC);
      if pattern == Idle {
        level := true;
        phase := 0;
      } else if pattern == Low {
        level := phase < 7;
        phase := (phase + 1) % 14;
      } else if pattern == Medium {
        level := phase < 4;
        phase := (phase + 1) % 8;
      } else {
        level := phase < 2;
        phase := (phase + 1) % 4;
      }
    }

    /** The power-button callback after its debounce sleep and re-read. */
    method PowerPress(levelAfterDebounce: bool)
      requires Valid()
      modifies this
      ensures Valid()
      ensures Snapshot() == AfterPower(old(Snapshot()), levelAfterDebounce)
    {
      if levelAfterDebounce {
        return;
      }
      if shuttingDown {
        return;
      }
      shuttingDown := true;
      dockerStops := dockerStops + 1;
      rebootRequests := rebootRequests + 1;
    }

    /** The reset-button callback after its debounce sleep and re-read. */
    method ResetPress(levelAfterDebounce: bool)
      requires Valid()
      modifies this
      ensures Valid()
      ensures Snapshot() == AfterReset(old(Snapshot()), levelAfterDebounce)
    {
      if levelAfterDebounce {
        return;
      }
      rebootRequests := rebootRequests + 1;
    }
  }
}
