/**
 * LED rendering of the NESPi 4 safe-shutdown daemon.
 *
 * The LED worker keeps one phase counter for all blink patterns.  On each tick
 * it emits a level (true is HIGH, LED on) computed from the current mode and the
 * phase, then advances the phase modulo the mode's period.  The idle pattern
 * emits HIGH and resets the phase to 0.  The phase is NOT reset when the mode
 * switches between non-idle modes, so the first period after such a switch may
 * be entered part-way.
 */
module Led {
  import opened Health

  /** What a tick renders: the shutdown strobe, or a health pattern. */
  datatype Mode = ShuttingDown | Health(pattern: Pattern)

  /** The shutdown flag takes absolute priority over the sampled metrics. */
  function ModeOf(shuttingDown: bool, load1: real, tempC: real): (m: Mode)
    ensures shuttingDown ==> m == ShuttingDown
    ensures !shuttingDown ==> m == Health(Select(load1, tempC))
  {
    if shuttingDown then ShuttingDown else Health(Select(load1, tempC))
  }

  /** Ticks per blink period (Idle has the trivial period 1: it always restarts at 0). */
  function Period(m: Mode): (r: nat)
    ensures 1 <= r <= 14
  {
    match m
    case ShuttingDown => 2
    case Health(Idle) => 1
    case Health(Low) => 14
    case Health(Medium) => 8
    case Health(High) => 4
  }

  /** How many ticks at the start of a period the LED is on. */
  function OnTicks(m: Mode): (r: nat)
    ensures 1 <= r <= Period(m)
  {
    match m
    case ShuttingDown => 1
    case Health(Idle) => 1
    case Health(Low) => 7
    case Health(Medium) => 4
    case Health(High) => 2
  }

  /**
   * The level one tick emits in mode `m` at phase `phase`.  For a blinking
   * health pattern this holds at every phase, so a phase carried over from a
   * longer pattern emits OFF until it wraps.
   */
  function Level(m: Mode, phase: nat): (r: bool)
    ensures m == Health(Idle) ==> r
    ensures m == ShuttingDown ==> (r <==> phase % 2 == 0)
    ensures m != ShuttingDown && m != Health(Idle) ==> (r <==> phase < OnTicks(m))
  {
    match m
    case ShuttingDown => phase % 2 == 0
    case Health(Idle) => true
    case Health(Low) => phase < 7
    case Health(Medium) => phase < 4
    case Health(High) => phase < 2
  }

  /** The phase after one tick in mode `m` from `phase`; always inside the mode's period. */
  function NextPhase(m: Mode, phase: nat): (r: nat)
    ensures r < Period(m)
    ensures m == Health(Idle) ==> r == 0
    ensures phase + 1 < Period(m) ==> r == phase + 1
    ensures phase + 1 == Period(m) ==> r == 0
  {
    match m
    case ShuttingDown => (phase + 1) % 2
    case Health(Idle) => 0
    case Health(Low) => (phase + 1) % 14
    case Health(Medium) => (phase + 1) % 8
    case Health(High) => (phase + 1) % 4
  }

  /** Inside a period, the level is on exactly for the first OnTicks(m) phases. */
  lemma LevelWithinPeriod(m: Mode, phase: nat)
    requires phase < Period(m)
    ensures Level(m, phase) <==> phase < OnTicks(m)
  {
  }

  /** The levels emitted by `n` consecutive ticks in one fixed mode, starting at `phase`. */
  function Levels(m: Mode, phase: nat, n: nat): (r: seq<bool>)
    ensures |r| == n
    decreases n
  {
    if n == 0 then [] else [Level(m, phase)] + Levels(m, NextPhase(m, phase), n - 1)
  }

  /** The phase after `n` consecutive ticks in one fixed mode, starting at `phase`. */
  function PhaseAfter(m: Mode, phase: nat, n: nat): nat
    decreases n
  {
    if n == 0 then phase else PhaseAfter(m, NextPhase(m, phase), n - 1)
  }

  /** `n` copies of `b`. */
  function Repeat(b: bool, n: nat): (r: seq<bool>)
    ensures |r| == n
    ensures forall i :: 0 <= i < n ==> r[i] == b
  {
    seq(n, _ => b)
  }

  /** The k-th of `n` ticks emits the level of the phase reached after k ticks. */
  lemma {:induction false} LevelsAt(m: Mode, phase: nat, n: nat, k: nat)
    requires k < n
    ensures Levels(m, phase, n)[k] == Level(m, PhaseAfter(m, phase, k))
    decreases k
  {
    if k > 0 {
      LevelsAt(m, NextPhase(m, phase), n - 1, k - 1);
    }
  }

  /** Inside one period the phase simply counts up, one per tick. */
  lemma {:induction false} PhaseCountsUp(m: Mode, phase: nat, j: nat)
    requires phase + j < Period(m)
    ensures PhaseAfter(m, phase, j) == phase + j
    decreases j
  {
    if j > 0 {
      PhaseCountsUp(m, phase + 1, j - 1);
    }
  }

  /** One tick followed by `j` more lands where phase + 1 + j does, from any phase. */
  lemma {:induction false} ModShift(m: Mode, phase: nat, j: nat)
    ensures (NextPhase(m, phase) + j) % Period(m) == (phase + 1 + j) % Period(m)
    decreases phase
  {
    if phase >= Period(m) {
      var below := phase - Period(m);
      ModShift(m, below, j);
      WrapAround(m, below + 1);
      WrapAround(m, below + 1 + j);
    }
  }

  /** Adding one whole period changes neither a residue nor the phase after a tick. */
  lemma WrapAround(m: Mode, j: nat)
    ensures (Period(m) + j) % Period(m) == j % Period(m)
    ensures j >= 1 ==> NextPhase(m, Period(m) + j - 1) == NextPhase(m, j - 1)
  {
    match m
    case ShuttingDown => assert (2 + j) % 2 == j % 2;
    case Health(Idle) => assert (1 + j) % 1 == j % 1;
    case Health(Low) => assert (14 + j) % 14 == j % 14;
    case Health(Medium) => assert (8 + j) % 8 == j % 8;
    case Health(High) => assert (4 + j) % 4 == j % 4;
  }

  /**
   * After `n` ticks the phase is (phase + n) mod period.  This holds from any
   * start phase once a tick has run, including a phase carried over from a
   * longer pattern; with no tick at all it needs the phase inside the period.
   */
  lemma {:induction false} PhaseAfterCount(m: Mode, phase: nat, n: nat)
    requires phase < Period(m) || n > 0
    ensures PhaseAfter(m, phase, n) == (phase + n) % Period(m)
    decreases n
  {
    if n > 0 {
      PhaseAfterCount(m, NextPhase(m, phase), n - 1);
      ModShift(m, phase, n - 1);
    }
  }

  /** Running one more tick appends the level of the phase reached so far. */
  lemma {:induction false} LevelsSnoc(m: Mode, phase: nat, n: nat)
    ensures Levels(m, phase, n + 1) == Levels(m, phase, n) + [Level(m, PhaseAfter(m, phase, n))]
    decreases n
  {
    if n > 0 {
      LevelsSnoc(m, NextPhase(m, phase), n - 1);
    }
  }

  /** Running one more tick advances the phase reached so far by one step. */
  lemma {:induction false} PhaseAfterSnoc(m: Mode, phase: nat, n: nat)
    ensures PhaseAfter(m, phase, n + 1) == NextPhase(m, PhaseAfter(m, phase, n))
    decreases n
  {
    if n > 0 {
      PhaseAfterSnoc(m, NextPhase(m, phase), n - 1);
    }
  }

  /**
   * One full period from phase 0 in a fixed mode: OnTicks(m) ticks on, then
   * the rest off, and the phase is back at 0.
   */
  lemma {:induction false} OnePeriod(m: Mode)
    ensures Levels(m, 0, Period(m)) == Repeat(true, OnTicks(m)) + Repeat(false, Period(m) - OnTicks(m))
    ensures PhaseAfter(m, 0, Period(m)) == 0
  {
    var r := Levels(m, 0, Period(m));
    var e := Repeat(true, OnTicks(m)) + Repeat(false, Period(m) - OnTicks(m));
    forall k | 0 <= k < Period(m)
      ensures r[k] == e[k]
    {
      OnePeriodAt(m, k);
    }
    assert r == e;
    PhaseAfterSnoc(m, 0, Period(m) - 1);
    PhaseCountsUp(m, 0, Period(m) - 1);
  }

  lemma OnePeriodAt(m: Mode, k: nat)
    requires k < Period(m)
    ensures Levels(m, 0, Period(m))[k] == (Repeat(true, OnTicks(m)) + Repeat(false, Period(m) - OnTicks(m)))[k]
  {
    LevelsAt(m, 0, Period(m), k);
    PhaseCountsUp(m, 0, k);
    LevelWithinPeriod(m, k);
  }

  /** The concrete timings: low 7 on / 7 off, medium 4 / 4, high 2 / 2, shutdown 1 / 1, idle always on. */
  lemma PeriodTimings()
    ensures Levels(Health(Low), 0, 14) == Repeat(true, 7) + Repeat(false, 7)
    ensures Levels(Health(Medium), 0, 8) == Repeat(true, 4) + Repeat(false, 4)
    ensures Levels(Health(High), 0, 4) == Repeat(true, 2) + Repeat(false, 2)
    ensures Levels(ShuttingDown, 0, 2) == [true, false]
  {
    OnePeriod(Health(Low));
    OnePeriod(Health(Medium));
    OnePeriod(Health(High));
    OnePeriod(ShuttingDown);
    assert Repeat(true, 1) + Repeat(false, 1) == [true, false];
  }

  /** Idle emits HIGH on every tick, from any phase, over any number of ticks. */
  lemma {:induction false} IdleSteadyOn(phase: nat, n: nat)
    ensures Levels(Health(Idle), phase, n) == Repeat(true, n)
    decreases n
  {
    if n > 0 {
      IdleSteadyOn(0, n - 1);
    }
  }

  /**
   * The strobe alternates HIGH and LOW from whatever phase the health patterns
   * left behind: the k-th tick is HIGH exactly when phase + k is even.
   */
  lemma {:induction false} StrobeAlternates(phase: nat, n: nat, k: nat)
    requires k < n
    ensures Levels(ShuttingDown, phase, n)[k] == ((phase + k) % 2 == 0)
    decreases k
  {
    if k > 0 {
      StrobeAlternates((phase + 1) % 2, n - 1, k - 1);
    }
  }
}
