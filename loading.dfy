/** The deterministic logic behind the generation loading screen: the table of
    weighted steps and the lookup of the active step, the simulated-progress
    tick, the switch to caller-supplied progress, the rotating fun fact, the
    elapsed-time text and the classification of the step dots. The
    exponential curve is not modelled: a tick receives its raw value. */
module AiLoading {
  import opened Wrappers

  /** One entry of `generationSteps`; `duration` is its weight in seconds. */
  datatype GenerationStep = GenerationStep(labelText: string, duration: nat)

  /** The label of step `i` of `generationSteps`. */
  function StepLabel(i: nat): string {
    if i == 0 then "Understanding your recipe request"
    else if i == 1 then "Researching ingredients & techniques"
    else if i == 2 then "Writing your recipes"
    else if i == 3 then "Adding cooking tips & variations"
    else if i == 4 then "Formatting & organizing"
    else "Final taste test"
  }

  /** `generationSteps`: six steps, in order. */
  const GenerationSteps: seq<GenerationStep> :=
    [GenerationStep(StepLabel(0), 8), GenerationStep(StepLabel(1), 15),
     GenerationStep(StepLabel(2), 60), GenerationStep(StepLabel(3), 30),
     GenerationStep(StepLabel(4), 20), GenerationStep(StepLabel(5), 10)]

  /** Fact `i` of `funFacts`. */
  function FunFact(i: nat): string {
    if i == 0 then "Did you know? Honey is the only food that never spoils."
    else if i == 1 then "Pro tip: Salt your pasta water until it tastes like the ocean."
    else if i == 2 then "Fun fact: Apples belong to the rose family, just like pears and plums."
    else if i == 3 then "Chef secret: A dull knife is more dangerous than a sharp one."
    else if i == 4 then "Did you know? Cranberries bounce when they are ripe."
    else if i == 5 then "Cooking tip: Let your meat rest to keep those juices locked in!"
    else if i == 6 then "Fun fact: Wasabi is technically a member of the cabbage family."
    else "Pound cake got its name because it originally used a pound of every ingredient."
  }

  /** `funFacts`: eight facts, in order. */
  const FunFacts: seq<string> :=
    [FunFact(0), FunFact(1), FunFact(2), FunFact(3),
     FunFact(4), FunFact(5), FunFact(6), FunFact(7)]

  /** The number of fun facts. */
  const FactCount: nat := 8

  /** The table holds exactly `FactCount` facts. */
  lemma FunFactsCount()
    ensures |FunFacts| == FactCount
  {
  }

  // ---- Step weights and the active-step lookup ----

  /** A usable step table: at least one step, every weight positive. */
  predicate WellFormedSteps(steps: seq<GenerationStep>) {
    |steps| > 0 && forall i :: 0 <= i < |steps| ==> steps[i].duration > 0
  }

  /** The sum of the first `n` weights. */
  function Prefix(steps: seq<GenerationStep>, n: nat): nat
    requires n <= |steps|
  {
    if n == 0 then 0 else Prefix(steps, n - 1) + steps[n - 1].duration
  }

  /** `totalStepDuration`: the `reduce` of all weights. */
  function TotalDuration(steps: seq<GenerationStep>): nat {
    Prefix(steps, |steps|)
  }

  /** The shipped weights 8, 15, 60, 30, 20 and 10 sum to 143. */
  lemma GenerationStepsTotal()
    ensures WellFormedSteps(GenerationSteps)
    ensures TotalDuration(GenerationSteps) == 143
  {
    assert Prefix(GenerationSteps, 1) == 8;
    assert Prefix(GenerationSteps, 2) == 23;
    assert Prefix(GenerationSteps, 3) == 83;
    assert Prefix(GenerationSteps, 4) == 113;
    assert Prefix(GenerationSteps, 5) == 133;
  }

  /** Positive weights give a positive total. */
  lemma {:induction false} PrefixPositive(steps: seq<GenerationStep>, n: nat)
    requires WellFormedSteps(steps) && 0 < n <= |steps|
    ensures Prefix(steps, n) >= n
  {
    if n > 1 {
      PrefixPositive(steps, n - 1);
    }
  }

  /** The cumulative percentage reached at the end of step `i`; the last
      boundary is exactly 100. */
  function Boundary(steps: seq<GenerationStep>, i: nat): (b: real)
    requires i < |steps| && TotalDuration(steps) > 0
    ensures i == |steps| - 1 ==> b == 100.0
  {
    var t := TotalDuration(steps) as real;
    assert (100.0 * t) / t == 100.0;
    100.0 * (Prefix(steps, i + 1) as real) / t
  }

  /** The boundary comparison needs no division: `target < boundary(i)`
      exactly when `target * total < 100 * prefix(i + 1)`. */
  lemma BoundaryCrossMultiplied(steps: seq<GenerationStep>, i: nat, target: real)
    requires i < |steps| && TotalDuration(steps) > 0
    ensures target < Boundary(steps, i) <==>
      target * (TotalDuration(steps) as real) < 100.0 * (Prefix(steps, i + 1) as real)
  {
    var t := TotalDuration(steps) as real;
    var p := 100.0 * (Prefix(steps, i + 1) as real);
    assert Boundary(steps, i) * t == p;
    if target < Boundary(steps, i) {
      assert target * t < Boundary(steps, i) * t;
    } else {
      assert target * t >= Boundary(steps, i) * t;
    }
  }

  /** The step loop from index `i` on: the first step whose boundary exceeds
      `target`, or nothing. */
  function FindStepFrom(steps: seq<GenerationStep>, target: real, i: nat): (r: Option<nat>)
    requires i <= |steps| && TotalDuration(steps) > 0
    ensures r.Some? ==> i <= r.value < |steps|
    decreases |steps| - i
  {
    if i == |steps| then None
    else if target < Boundary(steps, i) then Some(i)
    else FindStepFrom(steps, target, i + 1)
  }

  /** The step loop over the whole table. */
  function FindStep(steps: seq<GenerationStep>, target: real): (r: Option<nat>)
    requires TotalDuration(steps) > 0
    ensures r.Some? ==> r.value < |steps|
  {
    FindStepFrom(steps, target, 0)
  }

  /** Below 100 the loop always finds a step: the last boundary is 100. */
  lemma {:induction false} StepFoundFrom(steps: seq<GenerationStep>, target: real, i: nat)
    requires WellFormedSteps(steps) && i < |steps| && target < 100.0
    ensures TotalDuration(steps) > 0
    ensures FindStepFrom(steps, target, i).Some?
    decreases |steps| - i
  {
    PrefixPositive(steps, |steps|);
    if i < |steps| - 1 && !(target < Boundary(steps, i)) {
      StepFoundFrom(steps, target, i + 1);
    }
  }

  /** For every target below 100, in particular every clamped target in
      [0, 95], the loop finds an index of the table. */
  lemma StepFound(steps: seq<GenerationStep>, target: real)
    requires WellFormedSteps(steps) && target < 100.0
    ensures TotalDuration(steps) > 0
    ensures FindStep(steps, target).Some? && FindStep(steps, target).value < |steps|
  {
    StepFoundFrom(steps, target, 0);
  }

  /** The loop finds `k` from `i` exactly when `k` is the first index from `i`
      on whose boundary exceeds the target. */
  lemma {:induction false} FindStepFromIsFirst(steps: seq<GenerationStep>, target: real, i: nat, k: nat)
    requires i <= |steps| && TotalDuration(steps) > 0
    ensures FindStepFrom(steps, target, i) == Some(k) <==>
      i <= k < |steps| && target < Boundary(steps, k) &&
      forall j :: i <= j < k ==> Boundary(steps, j) <= target
    decreases |steps| - i
  {
    if i < |steps| && !(target < Boundary(steps, i)) {
      FindStepFromIsFirst(steps, target, i + 1, k);
    }
  }

  /** `FindStep` returns the first `k` with `target < boundary(k)`. */
  lemma FindStepIsFirst(steps: seq<GenerationStep>, target: real, k: nat)
    requires TotalDuration(steps) > 0
    ensures FindStep(steps, target) == Some(k) <==>
      k < |steps| && target < Boundary(steps, k) &&
      forall j :: 0 <= j < k ==> Boundary(steps, j) <= target
  {
    FindStepFromIsFirst(steps, target, 0, k);
  }

  /** A larger target never selects an earlier step. */
  lemma {:induction false} FindStepFromMonotone(steps: seq<GenerationStep>, t1: real, t2: real, i: nat)
    requires i <= |steps| && TotalDuration(steps) > 0
    requires t1 <= t2 && FindStepFrom(steps, t2, i).Some?
    ensures FindStepFrom(steps, t1, i).Some?
    ensures FindStepFrom(steps, t1, i).value <= FindStepFrom(steps, t2, i).value
    decreases |steps| - i
  {
    if !(t1 < Boundary(steps, i)) {
      FindStepFromMonotone(steps, t1, t2, i + 1);
    }
  }

  /** The active step is non-decreasing in the target. */
  lemma FindStepMonotone(steps: seq<GenerationStep>, t1: real, t2: real)
    requires WellFormedSteps(steps) && t1 <= t2 < 100.0
    ensures TotalDuration(steps) > 0
    ensures FindStep(steps, t1).Some? && FindStep(steps, t2).Some?
    ensures FindStep(steps, t1).value <= FindStep(steps, t2).value
  {
    StepFound(steps, t2);
    FindStepFromMonotone(steps, t1, t2, 0);
  }

  /** Adding a step's share to the running percentage gives the percentage
      of the longer prefix. */
  lemma PercentStep(a: nat, d: nat, t: nat)
    requires t > 0
    ensures 100.0 * (a as real) / (t as real) + ((d as real) / (t as real)) * 100.0
      == 100.0 * ((a + d) as real) / (t as real)
  {
    var x := 1.0 / (t as real);
    assert (a as real) / (t as real) == (a as real) * x;
    assert (d as real) / (t as real) == (d as real) * x;
    assert ((a + d) as real) / (t as real) == ((a + d) as real) * x;
  }

  /** The step loop of the progress timer: accumulate each step's share of
      the total and stop at the first step whose cumulative percentage
      exceeds `target`. It selects exactly `FindStep`. */
  method ActiveStep(steps: seq<GenerationStep>, target: real) returns (r: Option<nat>)
    requires TotalDuration(steps) > 0
    ensures r == FindStep(steps, target)
  {
    var total := TotalDuration(steps);
    var cumulativePercent := 0.0;
    var i := 0;
    while i < |steps|
      invariant 0 <= i <= |steps|
      invariant cumulativePercent == 100.0 * (Prefix(steps, i) as real) / (total as real)
      invariant FindStep(steps, target) == FindStepFrom(steps, target, i)
    {
      PercentStep(Prefix(steps, i), steps[i].duration, total);
      cumulativePercent := cumulativePercent + (steps[i].duration as real / total as real) * 100.0;
      if target < cumulativePercent {
        return Some(i);
      }
      i := i + 1;
    }
    return None;
  }

  /** `Math.min(95, raw)`: the simulated target never exceeds 95. */
  function Target(raw: real): (t: real)
    ensures t <= 95.0
    ensures t == raw || (t == 95.0 && raw > 95.0)
  {
    if raw < 95.0 then raw else 95.0
  }

  /** The active step for a raw curve value, on the shipped table. */
  function StepForRaw(raw: real): (k: nat)
    ensures k < |GenerationSteps|
    ensures FindStep(GenerationSteps, Target(raw)) == Some(k)
  {
    StepFound(GenerationSteps, Target(raw));
    FindStep(GenerationSteps, Target(raw)).value
  }

  /** The step after each tick of a run of raw curve values. */
  function StepTrace(raws: seq<real>): (ks: seq<nat>)
    ensures |ks| == |raws|
    ensures forall i :: 0 <= i < |raws| ==> ks[i] == StepForRaw(raws[i])
  {
    seq(|raws|, i requires 0 <= i < |raws| => StepForRaw(raws[i]))
  }

  /** Non-decreasing tick values never move the step backwards. */
  lemma StepTraceMonotone(raws: seq<real>)
    requires forall i, j :: 0 <= i <= j < |raws| ==> raws[i] <= raws[j]
    ensures forall i, j :: 0 <= i <= j < |raws| ==> StepTrace(raws)[i] <= StepTrace(raws)[j]
  {
    forall i, j | 0 <= i <= j < |raws|
      ensures StepTrace(raws)[i] <= StepTrace(raws)[j]
    {
      GenerationStepsTotal();
      FindStepMonotone(GenerationSteps, Target(raws[i]), Target(raws[j]));
    }
  }

  /** A target of 10 lies past the first boundary (about 5.6) and before the
      second (about 16.1), so step 1, "Researching ingredients & techniques". */
  lemma TargetTenIsStepOne()
    ensures FindStep(GenerationSteps, 10.0) == Some(1)
  {
    GenerationStepsTotal();
    assert Prefix(GenerationSteps, 1) == 8;
    assert Prefix(GenerationSteps, 2) == 23;
    assert Boundary(GenerationSteps, 0) == 800.0 / 143.0;
    assert Boundary(GenerationSteps, 1) == 2300.0 / 143.0;
    assert FindStepFrom(GenerationSteps, 10.0, 1) == Some(1);
  }

  // ---- Display values ----

  /** `Math.round(x)`: the nearest integer, halves rounded up. */
  function Round(x: real): (r: int)
    ensures r as real - 0.5 <= x < r as real + 0.5
  {
    (x + 0.5).Floor
  }

  /** Rounding never goes past an integer bound, so a simulated display
      (rounded clamped target) is at most 95. */
  lemma RoundAtMost(x: real, bound: int)
    requires x <= bound as real
    ensures Round(x) <= bound
  {
  }

  /** The decimal digit for `d`. */
  function DigitChar(d: nat): (c: char)
    requires d < 10
    ensures '0' <= c <= '9'
  {
    ('0' as int + d) as char
  }

  /** A non-negative integer in decimal, as a template literal renders it. */
  function NatToString(n: nat): (s: string)
    ensures |s| >= 1
    ensures forall i :: 0 <= i < |s| ==> '0' <= s[i] <= '9'
    decreases n
  {
    if n < 10 then [DigitChar(n)] else NatToString(n / 10) + [DigitChar(n % 10)]
  }

  predicate AllDigits(s: string) {
    forall i :: 0 <= i < |s| ==> '0' <= s[i] <= '9'
  }

  /** The value of a string of decimal digits. */
  function ParseDecimal(s: string): nat
    requires AllDigits(s)
    decreases |s|
  {
    if s == [] then 0
    else ParseDecimal(s[..|s| - 1]) * 10 + (s[|s| - 1] as int - '0' as int)
  }

  /** Reading the decimal text back gives the number. */
  lemma {:induction false} DecimalRoundTrip(n: nat)
    ensures ParseDecimal(NatToString(n)) == n
    decreases n
  {
    if n >= 10 {
      var s := NatToString(n);
      assert s[..|s| - 1] == NatToString(n / 10);
      DecimalRoundTrip(n / 10);
    }
  }

  /** The decimal text has no leading zero unless the number is zero. */
  lemma {:induction false} DecimalNoLeadingZero(n: nat)
    ensures NatToString(n)[0] == '0' <==> n == 0
    decreases n
  {
    if n >= 10 {
      DecimalNoLeadingZero(n / 10);
    }
  }

  /** Whole elapsed seconds split into minutes and seconds `[0, 60)`:
      `Math.floor(s / 60)` and `Math.floor(s % 60)` for `s >= 0`. */
  function SplitTime(seconds: real): (ms: (nat, nat))
    requires seconds >= 0.0
    ensures ms.1 < 60
    ensures ((ms.0 * 60 + ms.1) as real) <= seconds < ((ms.0 * 60 + ms.1 + 1) as real)
  {
    var mins := (seconds / 60.0).Floor;
    assert mins as real <= seconds / 60.0 < mins as real + 1.0;
    assert 60.0 * (mins as real) <= seconds < 60.0 * (mins as real) + 60.0;
    var rest := seconds - 60.0 * (mins as real);
    var secs := rest.Floor;
    assert 0 <= secs < 60;
    assert ((mins * 60) as real) == 60.0 * (mins as real);
    (mins, secs)
  }

  /** `formatTime(seconds)`: "{m}m {s}s" when there is at least a minute,
      otherwise "{s}s". */
  function FormatTime(seconds: real): (r: string)
    requires seconds >= 0.0
    ensures |r| >= 2 && r[|r| - 1] == 's'
  {
    var (mins, secs) := SplitTime(seconds);
    if mins > 0 then NatToString(mins) + "m " + NatToString(secs) + "s"
    else NatToString(secs) + "s"
  }

  /** The minute part appears exactly when at least 60 seconds have passed. */
  lemma FormatTimeMinutes(seconds: real)
    requires seconds >= 0.0
    ensures 'm' in FormatTime(seconds) <==> seconds >= 60.0
  {
    var (mins, secs) := SplitTime(seconds);
    var a, b := NatToString(mins), NatToString(secs);
    if mins > 0 {
      assert FormatTime(seconds)[|a|] == 'm';
    } else {
      assert FormatTime(seconds) == b + "s";
      assert forall i :: 0 <= i < |b| + 1 ==> (b + "s")[i] != 'm';
    }
  }

  /** 65 seconds read "1m 5s"; 45 seconds read "45s". */
  lemma FormatTimeExamples()
    ensures FormatTime(65.0) == "1m 5s"
    ensures FormatTime(45.0) == "45s"
  {
    assert SplitTime(65.0) == (1, 5);
    assert SplitTime(45.0) == (0, 45);
    assert NatToString(45) == NatToString(4) + [DigitChar(5)];
  }

  /** The elapsed-time caption. */
  function ElapsedText(elapsed: real): (r: string)
    ensures elapsed <= 0.0 ==> r == "Starting..."
  {
    if elapsed > 0.0 then FormatTime(elapsed) + " elapsed" else "Starting..."
  }

  // ---- Fun facts ----

  /** `(prev + 1) % funFacts.length`. */
  function NextFact(i: nat): (r: nat)
    ensures r < FactCount
    ensures i + 1 < FactCount ==> r == i + 1
  {
    (i + 1) % FactCount
  }

  /** The fact index after `n` rotations. */
  function Rotate(i: nat, n: nat): nat {
    if n == 0 then i else NextFact(Rotate(i, n - 1))
  }

  /** `n` rotations advance the index by `n`, modulo the number of facts. */
  lemma {:induction false} RotateAdvances(i: nat, n: nat)
    requires i < FactCount
    ensures Rotate(i, n) == (i + n) % FactCount
  {
    if n > 0 {
      RotateAdvances(i, n - 1);
    }
  }

  /** Eight rotations return to the starting fact. */
  lemma RotateCycle(i: nat)
    requires i < FactCount
    ensures Rotate(i, FactCount) == i
  {
    RotateAdvances(i, FactCount);
  }

  // ---- Step dots ----

  /** How a step dot is drawn. */
  datatype StepDot = Done | Active | Pending

  /** The dot for step `index` while `current` is active: exactly one of
      done (before it), active (it) or pending (after it). */
  function DotClass(index: nat, current: nat): (d: StepDot)
    ensures d == Done <==> index < current
    ensures d == Active <==> index == current
    ensures d == Pending <==> index > current
  {
    if index < current then Done else if index == current then Active else Pending
  }

  /** The row of `n` dots. */
  function StepDots(n: nat, current: nat): (r: seq<StepDot>)
    ensures |r| == n
    ensures forall i :: 0 <= i < n ==> r[i] == DotClass(i, current)
  {
    seq(n, i requires 0 <= i < n => DotClass(i, current))
  }

  /** With the active step inside the row, exactly one dot is active. */
  lemma ExactlyOneActive(n: nat, current: nat)
    requires current < n
    ensures (set i | 0 <= i < n && StepDots(n, current)[i] == Active) == {current}
    ensures |set i | 0 <= i < n && StepDots(n, current)[i] == Active| == 1
  {
    var dots := StepDots(n, current);
    assert (set i | 0 <= i < n && dots[i] == Active) == {current};
  }

  // ---- The component's state ----

  /** The state of one mounted loading screen. `progress` is the caller's
      `progress` prop, 0 meaning "not reported": while it is 0 a timer ticks
      the simulation; otherwise the caller's value is shown as it is. */
  class AILoading {
    var progress: real
    var fakeProgress: real
    var currentStepIndex: nat
    var elapsedTime: real
    var factIndex: nat

    predicate Valid()
      reads this
    {
      currentStepIndex < |GenerationSteps| && factIndex < FactCount &&
      (progress != 0.0 ==> fakeProgress == progress)
    }

    /** Mounting: progress 0, step 0, no time elapsed, and a starting fact
        (drawn at random by the source, a parameter here); then the progress
        effect runs once. */
    constructor (progress: real, initialFact: nat)
      requires initialFact < FactCount
      ensures Valid()
      ensures this.progress == progress
      ensures fakeProgress == if progress == 0.0 then 0.0 else progress
      ensures currentStepIndex == 0 && elapsedTime == 0.0 && factIndex == initialFact
    {
      this.progress := progress;
      fakeProgress := if progress == 0.0 then 0.0 else progress;
      currentStepIndex := 0;
      elapsedTime := 0.0;
      factIndex := initialFact;
    }

    /** A new value of the `progress` prop re-runs the progress effect: a
        non-zero value is shown directly and stops the ticking; zero starts
        the ticking again (from a new start time, which the caller's `elapsed`
        reflects). Nothing else changes. */
    method SetProgress(p: real)
      requires Valid()
      modifies this
      ensures Valid()
      ensures progress == p
      ensures fakeProgress == if p != 0.0 then p else old(fakeProgress)
      ensures currentStepIndex == old(currentStepIndex)
      ensures elapsedTime == old(elapsedTime) && factIndex == old(factIndex)
    {
      progress := p;
      if p != 0.0 {
        fakeProgress := p;
      }
    }

    /** One timer tick with `elapsed` seconds since the start and `raw`, the
        curve's value. Without a timer (progress reported) nothing happens.
        Otherwise the clamped target is shown and the step loop runs; the
        step is the one `FindStep` selects, or unchanged if none is. */
    method Tick(elapsed: real, raw: real)
      requires Valid()
      modifies this
      ensures Valid()
      ensures old(progress) != 0.0 ==>
        progress == old(progress) && fakeProgress == old(fakeProgress) &&
        currentStepIndex == old(currentStepIndex) && elapsedTime == old(elapsedTime) &&
        factIndex == old(factIndex)
      ensures old(progress) == 0.0 ==>
        progress == 0.0 && elapsedTime == elapsed && fakeProgress == Target(raw) &&
        factIndex == old(factIndex) &&
        TotalDuration(GenerationSteps) > 0 &&
        currentStepIndex == FindStep(GenerationSteps, Target(raw)).GetOr(old(currentStepIndex))
      ensures old(progress) == 0.0 ==> Round(fakeProgress) <= 95
    {
      if progress != 0.0 {
        return;
      }
      elapsedTime := elapsed;
      var targetProgress := Target(raw);
      fakeProgress := targetProgress;
      RoundAtMost(targetProgress, 95);
      GenerationStepsTotal();
      var found := ActiveStep(GenerationSteps, targetProgress);
      if found.Some? {
        currentStepIndex := found.value;
      }
    }

    /** The fact timer: advance to the next fact, cyclically. */
    method RotateFact()
      requires Valid()
      modifies this
      ensures Valid()
      ensures factIndex == NextFact(old(factIndex))
      ensures progress == old(progress) && fakeProgress == old(fakeProgress)
      ensures currentStepIndex == old(currentStepIndex) && elapsedTime == old(elapsedTime)
    {
      factIndex := NextFact(factIndex);
    }

    /** `displayProgress`: the rounded shown value; with progress reported it
        is the rounded reported value. */
    function DisplayProgress(): (r: int)
      reads this
      requires Valid()
      ensures progress != 0.0 ==> r == Round(progress)
    {
      Round(fakeProgress)
    }

    /** The step shown as current. */
    function CurrentStep(): (s: GenerationStep)
      reads this
      requires Valid()
      ensures s in GenerationSteps
    {
      GenerationSteps[currentStepIndex]
    }

    /** The fact shown. */
    function CurrentFact(): (f: string)
      reads this
      requires Valid()
      ensures f in FunFacts
    {
      FunFactsCount();
      FunFacts[factIndex]
    }

    /** The row of step dots; exactly one of them is active. */
    function Dots(): (r: seq<StepDot>)
      reads this
      requires Valid()
      ensures |r| == |GenerationSteps|
      ensures forall i :: 0 <= i < |r| ==> (r[i] == Active <==> i == currentStepIndex)
    {
      StepDots(|GenerationSteps|, currentStepIndex)
    }

    /** The "take a bit more time" hint: shown from a displayed 90% on, that
        is, once the unrounded value reaches 89.5. */
    function HangTight(): (r: bool)
      reads this
      requires Valid()
      ensures r <==> fakeProgress >= 89.5
    {
      DisplayProgress() >= 90
    }
  }
}
