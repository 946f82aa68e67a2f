/** The guided breathing session (src/components/BreathingExercise.tsx): a
    countdown of whole minutes and a phase machine (inhale, hold, exhale, hold
    empty) advanced by a 50 ms progress timer. The two timers are not
    modelled as timers: each callback is a method that the environment calls. */
module Breathing {
  import opened Builtins

  datatype BreathingType = Box | FourSevenEight
  datatype Phase = Inhale | Hold | Exhale | Hold2

  /** `phases`, the fixed order the machine walks through. */
  const Phases: seq<Phase> := [Inhale, Hold, Exhale, Hold2]

  /** The durations offered by the selector, in minutes. */
  const DurationChoices: seq<nat> := [1, 3, 5, 10]

  /** The milliseconds between two progress updates. */
  const ProgressInterval: nat := 50

  /** `breathingPatterns[type].phases[phase]`, in seconds. */
  function PhaseSeconds(t: BreathingType, p: Phase): nat
  {
    match (t, p)
    case (Box, _) => 4
    case (FourSevenEight, Inhale) => 4
    case (FourSevenEight, Hold) => 7
    case (FourSevenEight, Exhale) => 8
    case (FourSevenEight, Hold2) => 0
  }

  /** `phases.indexOf(phase)`. */
  function PhaseIndex(p: Phase): (i: nat)
    ensures i < |Phases| && Phases[i] == p
  {
    match p
    case Inhale => 0
    case Hold => 1
    case Exhale => 2
    case Hold2 => 3
  }

  /** The phase change at the end of a phase: the next phase in order, skipping
      hold-empty for 4-7-8, and whether the cycle counter goes up (when the
      skip happens, or when the next phase is inhale). */
  function Advance(t: BreathingType, p: Phase): (Phase, bool)
  {
    var next := (PhaseIndex(p) + 1) % |Phases|;
    if t == FourSevenEight && Phases[next] == Hold2 then
      (Phases[(next + 1) % |Phases|], true)
    else
      (Phases[next], Phases[next] == Inhale)
  }

  function NextPhase(t: BreathingType, p: Phase): Phase
  {
    Advance(t, p).0
  }

  /** The counter goes up exactly when the machine returns to inhale, and a
      phase that is entered always lasts a positive number of seconds. */
  lemma AdvanceFacts(t: BreathingType, p: Phase)
    ensures Advance(t, p).1 <==> NextPhase(t, p) == Inhale
    ensures PhaseSeconds(t, NextPhase(t, p)) > 0
    ensures t == FourSevenEight ==> NextPhase(t, p) != Hold2
  {
  }

  /** Box breathing walks inhale, hold, exhale, hold-empty and back; 4-7-8
      walks inhale, hold, exhale and back; from the stray state of 4-7-8 in
      hold-empty it goes to inhale. */
  lemma CycleOrder()
    ensures NextPhase(Box, Inhale) == Hold && NextPhase(Box, Hold) == Exhale
    ensures NextPhase(Box, Exhale) == Hold2 && NextPhase(Box, Hold2) == Inhale
    ensures NextPhase(FourSevenEight, Inhale) == Hold && NextPhase(FourSevenEight, Hold) == Exhale
    ensures NextPhase(FourSevenEight, Exhale) == Inhale && NextPhase(FourSevenEight, Hold2) == Inhale
  {
  }

  /** The number of phase changes in one cycle. */
  function CycleLength(t: BreathingType): nat
  {
    if t == Box then 4 else 3
  }

  /** `n` phase changes from `p`. */
  function AdvanceN(t: BreathingType, p: Phase, n: nat): Phase
    decreases n
  {
    if n == 0 then p else AdvanceN(t, NextPhase(t, p), n - 1)
  }

  /** How many times the counter goes up over `n` phase changes from `p`. */
  function CyclesCounted(t: BreathingType, p: Phase, n: nat): nat
    decreases n
  {
    if n == 0 then 0 else (if Advance(t, p).1 then 1 else 0) + CyclesCounted(t, NextPhase(t, p), n - 1)
  }

  /** One whole cycle from inhale ends at inhale having counted one cycle, and
      the seconds of the phases it passes through add up to 16 for box
      breathing and 19 for 4-7-8. */
  lemma OneCycleCountsOnce(t: BreathingType)
    ensures AdvanceN(t, Inhale, CycleLength(t)) == Inhale
    ensures CyclesCounted(t, Inhale, CycleLength(t)) == 1
    ensures forall n :: 0 < n < CycleLength(t) ==> AdvanceN(t, Inhale, n) != Inhale
    ensures PhaseSeconds(t, Inhale) + PhaseSeconds(t, AdvanceN(t, Inhale, 1)) + PhaseSeconds(t, AdvanceN(t, Inhale, 2))
      + (if t == Box then PhaseSeconds(t, AdvanceN(t, Inhale, 3)) else 0) == (if t == Box then 16 else 19)
  {
    assert AdvanceN(t, Inhale, 1) == Hold;
    assert AdvanceN(t, Inhale, 2) == Exhale;
    assert AdvanceN(t, Inhale, 3) == (if t == Box then Hold2 else Inhale);
    if t == Box {
      assert AdvanceN(t, Inhale, 4) == Inhale;
    }
  }

  /** The increase of the progress percentage per update: `(50 / ms) * 100`,
      `ms` being the phase's length in milliseconds. It is infinite in
      JavaScript for a phase of 0 seconds; `None` stands for that here. */
  function ProgressStep(secs: nat): Option<real>
  {
    if secs == 0 then None
    else Some((ProgressInterval as real / (secs * 1000) as real) * 100.0)
  }

  /** The progress after `k` updates from 0, with no phase change in between. */
  function ProgressAfter(secs: nat, k: nat): real
    requires secs > 0
  {
    if k == 0 then 0.0 else ProgressAfter(secs, k - 1) + ProgressStep(secs).value
  }

  lemma {:induction false} ProgressAfterClosed(secs: nat, k: nat)
    requires secs > 0
    ensures ProgressAfter(secs, k) == (5 * k) as real / secs as real
  {
    if k > 0 {
      ProgressAfterClosed(secs, k - 1);
      calc {
        ProgressAfter(secs, k);
        (5 * (k - 1)) as real / secs as real + 5.0 / secs as real;
        (5 * k) as real / secs as real;
      }
    }
  }

  /** A phase of `secs` seconds reaches 100 percent at exactly the update number
      `20 * secs`, that is after `secs` seconds of 50 ms updates. */
  lemma PhaseLastsItsSeconds(secs: nat, k: nat)
    requires secs > 0
    ensures ProgressAfter(secs, k) >= 100.0 <==> k >= 20 * secs
  {
    ProgressAfterClosed(secs, k);
    var q := (5 * k) as real / secs as real;
    assert q * secs as real == (5 * k) as real;
    if k >= 20 * secs {
      assert (5 * k) as real >= 100.0 * secs as real;
    } else {
      assert (5 * k) as real < 100.0 * secs as real;
    }
  }

  /** `getCircleScale()`: grows from 0.5 to 1 while inhaling, shrinks back while
      exhaling, full while holding, empty while holding empty. */
  function CircleScale(p: Phase, progress: real): (scale: real)
    requires 0.0 <= progress <= 100.0
    ensures 0.5 <= scale <= 1.0
    ensures p == Inhale && progress == 0.0 ==> scale == 0.5
    ensures p == Exhale && progress == 0.0 ==> scale == 1.0
  {
    if p == Inhale then 0.5 + (progress / 100.0) * 0.5
    else if p == Exhale then 1.0 - (progress / 100.0) * 0.5
    else if p == Hold then 1.0
    else 0.5
  }

  /** The circle always grows while inhaling and shrinks while exhaling. */
  lemma CircleScaleMonotone(p: Phase, a: real, b: real)
    requires 0.0 <= a <= b <= 100.0
    ensures p == Inhale ==> CircleScale(p, a) <= CircleScale(p, b)
    ensures p == Exhale ==> CircleScale(p, a) >= CircleScale(p, b)
  {
  }

  /** `formatTime()`: minutes, a colon and the seconds padded to two digits. */
  function FormatTime(seconds: nat): string
  {
    var secs := NatToString(seconds % 60);
    SmallNatToString(seconds % 60);
    NatToString(seconds / 60) + ":" + PadStart2(secs)
  }

  lemma SmallNatToString(n: nat)
    requires n < 100
    ensures |NatToString(n)| <= 2
  {
  }

  /** Leading zeros do not change the value of a digit string. */
  lemma PadStart2Value(s: string)
    requires |s| <= 2 && forall i :: 0 <= i < |s| ==> IsDigit(s[i])
    ensures forall i :: 0 <= i < 2 ==> IsDigit(PadStart2(s)[i])
    ensures DigitsValue(PadStart2(s)) == DigitsValue(s)
  {
    var r := PadStart2(s);
    assert r[..1][..0] == [] && r[..0] == [];
    if |s| == 1 {
      assert r == ['0', s[0]];
      assert s[..0] == [];
    } else if |s| == 0 {
      assert r == "00";
    }
  }

  /** The text reads back as the seconds it shows: everything before the
      colon is the digits of the minutes, the two digits after it the
      seconds below 60. */
  lemma FormatTimeReadsBack(seconds: nat)
    ensures var f := FormatTime(seconds);
      && |f| >= 4 && f[|f| - 3] == ':'
      && (forall i :: 0 <= i < |f| - 3 ==> IsDigit(f[i]))
      && (forall i :: |f| - 2 <= i < |f| ==> IsDigit(f[i]))
      && DigitsValue(f[|f| - 2..]) < 60
      && 60 * DigitsValue(f[..|f| - 3]) + DigitsValue(f[|f| - 2..]) == seconds
  {
    var f := FormatTime(seconds);
    var m := NatToString(seconds / 60);
    var s := NatToString(seconds % 60);
    SmallNatToString(seconds % 60);
    var ss := PadStart2(s);
    assert f == m + ":" + ss;
    assert f[..|f| - 3] == m;
    assert f[|f| - 2..] == ss;
    PadStart2Value(s);
    NatToStringRoundTrip(seconds / 60);
    NatToStringRoundTrip(seconds % 60);
  }

  /** The session's state, one field per piece of component state. */
  class Session {
    var isActive: bool
    var breathingType: BreathingType
    var duration: nat
    var timeRemaining: nat
    var currentPhase: Phase
    var phaseProgress: real
    var cycleCount: nat

    /** The duration is one of the offered choices, the countdown never exceeds
        it, and the stored progress stays below 100 percent. */
    ghost predicate Valid()
      reads this
    {
      && duration in DurationChoices
      && timeRemaining <= duration * 60
      && 0.0 <= phaseProgress < 100.0
    }

    /** The initial state: box breathing, 3 minutes, inhale, nothing counted. */
    constructor()
      ensures Valid()
      ensures !isActive && breathingType == Box && duration == 3 && timeRemaining == 180
      ensures currentPhase == Inhale && phaseProgress == 0.0 && cycleCount == 0
    {
      isActive := false;
      breathingType := Box;
      duration := 3;
      timeRemaining := 180;
      currentPhase := Inhale;
      phaseProgress := 0.0;
      cycleCount := 0;
    }

    /** The one-second countdown, which runs while active with time left: the
        last second ends the session. */
    method CountdownTick()
      requires Valid() && isActive && timeRemaining > 0
      modifies this
      ensures Valid()
      ensures timeRemaining == old(timeRemaining) - 1
      ensures isActive == (old(timeRemaining) > 1)
      ensures breathingType == old(breathingType) && duration == old(duration)
      ensures currentPhase == old(currentPhase) && phaseProgress == old(phaseProgress)
      ensures cycleCount == old(cycleCount)
    {
      if timeRemaining <= 1 {
        isActive := false;
        timeRemaining := 0;
      } else {
        timeRemaining := timeRemaining - 1;
      }
    }

    /** The 50 ms progress update, which runs while active: the progress grows
        by one step, and once it reaches 100 percent the phase advances, maybe
        counting a cycle, and the progress restarts at 0. A phase of 0 seconds
        advances at the first update. */
    method ProgressTick()
      requires Valid() && isActive
      modifies this
      ensures Valid()
      ensures var step := ProgressStep(PhaseSeconds(old(breathingType), old(currentPhase)));
        if step.Some? && old(phaseProgress) + step.value < 100.0 then
          && phaseProgress == old(phaseProgress) + step.value
          && currentPhase == old(currentPhase) && cycleCount == old(cycleCount)
        else
          && phaseProgress == 0.0
          && currentPhase == NextPhase(old(breathingType), old(currentPhase))
          && cycleCount == old(cycleCount) + (if Advance(old(breathingType), old(currentPhase)).1 then 1 else 0)
      ensures isActive && breathingType == old(breathingType)
      ensures duration == old(duration) && timeRemaining == old(timeRemaining)
    {
      var step := ProgressStep(PhaseSeconds(breathingType, currentPhase));
      if step.Some? && phaseProgress + step.value < 100.0 {
        phaseProgress := phaseProgress + step.value;
      } else {
        var (next, counted) := Advance(breathingType, currentPhase);
        if counted {
          cycleCount := cycleCount + 1;
        }
        currentPhase := next;
        phaseProgress := 0.0;
      }
    }

    /** Start or pause. Starting restarts the current phase's progress;
        pausing keeps everything. */
    method Toggle()
      requires Valid()
      modifies this
      ensures Valid()
      ensures isActive == !old(isActive)
      ensures phaseProgress == (if isActive then 0.0 else old(phaseProgress))
      ensures breathingType == old(breathingType) && duration == old(duration)
      ensures timeRemaining == old(timeRemaining) && currentPhase == old(currentPhase)
      ensures cycleCount == old(cycleCount)
    {
      isActive := !isActive;
      if isActive {
        phaseProgress := 0.0;
      }
    }

    /** `resetExercise()`: stops and restores the countdown, the phase and the
        counter; the pattern and duration stay. */
    method Reset()
      requires Valid()
      modifies this
      ensures Valid()
      ensures !isActive && timeRemaining == duration * 60
      ensures currentPhase == Inhale && phaseProgress == 0.0 && cycleCount == 0
      ensures breathingType == old(breathingType) && duration == old(duration)
    {
      isActive := false;
      timeRemaining := duration * 60;
      currentPhase := Inhale;
      phaseProgress := 0.0;
      cycleCount := 0;
    }

    /** A duration button, enabled only while paused: choosing a different
        duration restarts the countdown at it; choosing the current one
        changes nothing. */
    method SetDuration(minutes: nat)
      requires Valid() && !isActive && minutes in DurationChoices
      modifies this
      ensures Valid()
      ensures duration == minutes
      ensures timeRemaining == (if minutes == old(duration) then old(timeRemaining) else minutes * 60)
      ensures !isActive && breathingType == old(breathingType) && currentPhase == old(currentPhase)
      ensures phaseProgress == old(phaseProgress) && cycleCount == old(cycleCount)
    {
      if minutes != duration {
        duration := minutes;
        timeRemaining := minutes * 60;
      }
    }

    /** A pattern button, enabled only while paused: only the pattern changes,
        so the phase can be hold-empty under 4-7-8. */
    method SetBreathingType(t: BreathingType)
      requires Valid() && !isActive
      modifies this
      ensures Valid()
      ensures breathingType == t
      ensures !isActive && duration == old(duration) && timeRemaining == old(timeRemaining)
      ensures currentPhase == old(currentPhase) && phaseProgress == old(phaseProgress)
      ensures cycleCount == old(cycleCount)
    {
      breathingType := t;
    }
  }
}
