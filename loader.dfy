/**
 * The full-page loader (components/page-loader.tsx): a simulated progress
 * interval capped at 90, a completion interval started by the window's load
 * event, the fade-out and hide timers, and the phase label and badge chosen
 * from `progress`.
 *
 * Each timer firing is a method call. `Math.random() * 15` is the
 * `increment` argument of a simulation tick, any value in [0, 15).
 */
module Loader {
  import opened Common

  /** `targetProgress`: the simulation never goes beyond it. */
  const SimulationCap: real := 90.0
  /** `Math.random() * 15` lies in [0, MaxIncrement). */
  const MaxIncrement: real := 15.0
  const Full: int := 100

  function Min(a: real, b: real): real {
    if a <= b then a else b
  }

  /** One 200 ms simulation tick on the running total: add, then clamp at the cap. */
  function SimulationStep(current: real, increment: real): (next: real)
    ensures next == SimulationCap <==> current + increment >= SimulationCap
    ensures current + increment < SimulationCap ==> next == current + increment
    ensures 0.0 <= increment && current <= SimulationCap ==> current <= next <= SimulationCap
  {
    if current + increment >= SimulationCap then SimulationCap else current + increment
  }

  /** The running total after the given ticks. */
  function SimulatedTotal(increments: seq<real>): real {
    if increments == [] then 0.0
    else SimulationStep(SimulatedTotal(increments[..|increments| - 1]), increments[|increments| - 1])
  }

  function Sum(xs: seq<real>): real {
    if xs == [] then 0.0 else Sum(xs[..|xs| - 1]) + xs[|xs| - 1]
  }

  predicate ValidIncrements(increments: seq<real>) {
    forall i :: 0 <= i < |increments| ==> 0.0 <= increments[i] < MaxIncrement
  }

  /** The running total is the sum of the random increments, capped at 90. */
  lemma {:induction false} SimulationIsCappedSum(increments: seq<real>)
    requires ValidIncrements(increments)
    ensures SimulatedTotal(increments) == Min(Sum(increments), SimulationCap)
    ensures Sum(increments) >= 0.0
  {
    if increments != [] {
      SimulationIsCappedSum(increments[..|increments| - 1]);
    }
  }

  /**
   * The displayed value `Math.floor(currentProgress)` never decreases from
   * tick to tick and never exceeds 90.
   */
  lemma {:induction false} SimulationIsMonotone(increments: seq<real>, k: nat)
    requires ValidIncrements(increments) && k <= |increments|
    ensures 0.0 <= SimulatedTotal(increments[..k]) <= SimulatedTotal(increments) <= SimulationCap
    ensures 0 <= SimulatedTotal(increments[..k]).Floor <= SimulatedTotal(increments).Floor <= 90
  {
    if k < |increments| {
      var init := increments[..|increments| - 1];
      assert increments[..k] == init[..k];
      SimulationIsMonotone(init, k);
    } else {
      assert increments[..k] == increments;
      SimulationIsCappedSum(increments);
    }
  }

  /** The simulation interval is cleared exactly when the total reaches 90. */
  lemma SimulationStopsAtCap(increments: seq<real>)
    requires ValidIncrements(increments)
    ensures SimulatedTotal(increments) == SimulationCap <==> Sum(increments) >= SimulationCap
  {
    SimulationIsCappedSum(increments);
  }

  /** One 30 ms completion tick: the progress it sets and whether the interval runs on. */
  datatype Completion = Completion(progress: int, running: bool)

  /** The updater of `completeInterval`. */
  function CompletionTick(prev: int): (c: Completion)
    ensures c.running <==> prev < Full
    ensures prev <= Full + 1 ==> c.progress <= Full + 1
  {
    if prev >= Full then Completion(Full, false) else Completion(prev + 2, true)
  }

  /** The completion interval after `n` ticks from `start`; a cleared interval ticks no more. */
  function CompletionRun(start: int, n: nat): Completion {
    if n == 0 then Completion(start, true)
    else
      var c := CompletionRun(start, n - 1);
      if c.running then CompletionTick(c.progress) else c
  }

  /** Increments of 2 until the first value at or above 100, plus the tick that stops. */
  function TicksToComplete(start: int): nat
    requires start <= Full
  {
    (Full + 1 - start) / 2 + 1
  }

  /** Until 100 is reached or passed, every tick adds 2 and the interval runs on. */
  lemma {:induction false} CompletionClimbs(start: int, k: nat)
    requires start <= Full && k < TicksToComplete(start)
    ensures CompletionRun(start, k) == Completion(start + 2 * k, true)
  {
    if k > 0 {
      CompletionClimbs(start, k - 1);
    }
  }

  /** From any start at most 100, the completion interval settles at exactly 100 and stops. */
  lemma {:induction false} CompletionSettles(start: int, n: nat)
    requires start <= Full && n >= TicksToComplete(start)
    ensures CompletionRun(start, n) == Completion(Full, false)
  {
    if n == TicksToComplete(start) {
      CompletionClimbs(start, n - 1);
    } else {
      CompletionSettles(start, n - 1);
    }
  }

  /** From a start in 0..100 the progress stays between the start and 101; stopped means 100. */
  lemma {:induction false} CompletionBounded(start: int, n: nat)
    requires 0 <= start <= Full
    ensures start <= CompletionRun(start, n).progress <= Full + 1
    ensures !CompletionRun(start, n).running ==> CompletionRun(start, n).progress == Full
  {
    if n < TicksToComplete(start) {
      CompletionClimbs(start, n);
    } else {
      CompletionSettles(start, n);
    }
  }

  /** The phase texts rendered for `progress` (each is its own conditional). */
  function PhaseLabels(progress: int): (labels: seq<string>)
    ensures 0 <= progress <= Full ==> |labels| == 1
    ensures progress > Full ==> labels == []
    ensures labels == ["Complete"] <==> progress == Full
  {
    var labels :=
      (if progress < 30 then ["Initializing System"] else []) +
      (if 30 <= progress < 60 then ["Loading Assets"] else []) +
      (if 60 <= progress < 90 then ["Preparing Interface"] else []) +
      (if 90 <= progress < Full then ["Almost Ready"] else []) +
      (if progress == Full then ["Complete"] else []);
    assert progress < 30 ==> labels == ["Initializing System"];
    assert 30 <= progress < 60 ==> labels == ["Loading Assets"];
    assert 60 <= progress < 90 ==> labels == ["Preparing Interface"];
    assert 90 <= progress < Full ==> labels == ["Almost Ready"];
    assert progress == Full ==> labels == ["Complete"];
    assert "Initializing System" != "Complete" && "Loading Assets" != "Complete";
    assert "Preparing Interface" != "Complete" && "Almost Ready" != "Complete";
    labels
  }

  const Establishing: string := "Establishing Secure Connection"
  const Secure: string := "Connection Secure"

  /** The security badge text. */
  function Badge(progress: int): (text: string)
    ensures text == Establishing <==> progress < Full
    ensures text == Secure <==> progress >= Full
  {
    if progress < Full then Establishing else Secure
  }

  /** What the overlay shows while it is rendered. */
  datatype Overlay = Overlay(percent: int, phaseLabels: seq<string>, badge: string, fadingOut: bool)

  /** The state of the `PageLoader` component and of its effect's timers. */
  class PageLoader {
    var isLoading: bool
    var progress: int
    var fadeOut: bool
    /** The effect's local `currentProgress`. */
    var currentProgress: real
    /** `progressInterval` has not been cleared. */
    var simulationRunning: bool
    /** `completeInterval` has been started and not cleared. */
    var completionRunning: bool
    /** `handleLoad` waits for the window's load event. */
    var loadListening: bool
    var loadHandled: bool
    /** The 500 ms timer before the fade. */
    var fadeTimerPending: bool
    /** The 800 ms timer before hiding. */
    var hideTimerPending: bool

    ghost predicate Valid()
      reads this
    {
      && 0.0 <= currentProgress <= SimulationCap
      && (simulationRunning <==> currentProgress < SimulationCap)
      && 0 <= progress <= Full + 1
      && !(loadListening && loadHandled)
      && (completionRunning || fadeTimerPending || fadeOut ==> loadHandled)
      && (fadeTimerPending ==> !fadeOut && !hideTimerPending && isLoading)
      && (hideTimerPending ==> fadeOut && isLoading)
      && (!isLoading ==> fadeOut)
    }

    /**
     * Mount and the effect: the overlay shows at 0 %, the simulation starts,
     * and `handleLoad` runs at once if the document is complete, otherwise it
     * waits for the load event.
     */
    constructor (documentComplete: bool)
      ensures Valid()
      ensures isLoading && progress == 0 && !fadeOut
      ensures simulationRunning && currentProgress == 0.0 && !hideTimerPending
      ensures documentComplete ==> loadHandled && completionRunning && fadeTimerPending && !loadListening
      ensures !documentComplete ==> loadListening && !loadHandled && !completionRunning && !fadeTimerPending
    {
      isLoading, progress, fadeOut := true, 0, false;
      currentProgress, simulationRunning := 0.0, true;
      hideTimerPending := false;
      if documentComplete {
        loadListening := false;
        loadHandled, completionRunning, fadeTimerPending := true, true, true;
      } else {
        loadListening := true;
        loadHandled, completionRunning, fadeTimerPending := false, false, false;
      }
    }

    /** What is rendered: the overlay while loading, nothing afterwards. */
    function View(): (v: Option<Overlay>)
      reads this
      ensures v.None? <==> !isLoading
      ensures v.Some? ==> v.value == Overlay(progress, PhaseLabels(progress), Badge(progress), fadeOut)
    {
      if isLoading then Some(Overlay(progress, PhaseLabels(progress), Badge(progress), fadeOut)) else None
    }

    /** A tick of `progressInterval` with `Math.random() * 15 == increment`. */
    method SimulationTick(increment: real)
      requires Valid() && simulationRunning && 0.0 <= increment < MaxIncrement
      modifies this`currentProgress, this`simulationRunning, this`progress
      ensures Valid()
      ensures currentProgress == SimulationStep(old(currentProgress), increment)
      ensures old(currentProgress) <= currentProgress
      ensures simulationRunning == (currentProgress < SimulationCap)
      ensures progress == currentProgress.Floor
    {
      currentProgress := currentProgress + increment;
      if currentProgress >= SimulationCap {
        currentProgress := SimulationCap;
        simulationRunning := false;
      }
      progress := currentProgress.Floor;
    }

    /** `handleLoad`: starts the completion interval and the 500 ms fade timer. */
    method HandleLoad()
      requires Valid() && !loadHandled && !loadListening
      modifies this`completionRunning, this`fadeTimerPending, this`loadHandled
      ensures Valid()
      ensures loadHandled && completionRunning && fadeTimerPending
    {
      loadHandled := true;
      completionRunning := true;
      fadeTimerPending := true;
    }

    /** The window's load event, which fires once. */
    method WindowLoad()
      requires Valid() && loadListening
      modifies this`loadListening, this`completionRunning, this`fadeTimerPending, this`loadHandled
      ensures Valid()
      ensures !loadListening && loadHandled && completionRunning && fadeTimerPending
    {
      loadListening := false;
      HandleLoad();
    }

    /** A tick of `completeInterval`. */
    method CompletionTickFires()
      requires Valid() && completionRunning
      modifies this`progress, this`completionRunning
      ensures Valid()
      ensures Completion(progress, completionRunning) == CompletionTick(old(progress))
    {
      if progress >= Full {
        completionRunning := false;
        progress := Full;
      } else {
        progress := progress + 2;
      }
    }

    /** The 500 ms timer: the overlay starts fading and the 800 ms timer is set. */
    method FadeTimerFires()
      requires Valid() && fadeTimerPending
      modifies this`fadeOut, this`fadeTimerPending, this`hideTimerPending
      ensures Valid()
      ensures fadeOut && !fadeTimerPending && hideTimerPending && isLoading
    {
      fadeOut := true;
      fadeTimerPending := false;
      hideTimerPending := true;
    }

    /** The 800 ms timer: the overlay is gone, after it has faded. */
    method HideTimerFires()
      requires Valid() && hideTimerPending
      modifies this`isLoading, this`hideTimerPending
      ensures Valid()
      ensures !isLoading && fadeOut && View() == None
    {
      isLoading := false;
      hideTimerPending := false;
    }

    /**
     * After the completion interval has stopped and the load event is spent,
     * only the simulation can still move `progress`, and never above 90.
     */
    ghost predicate CompletionLost()
      reads this
    {
      loadHandled && !completionRunning && !loadListening && progress <= SimulationCap.Floor
    }

    /** Any timer firing that can happen now, or nothing when it cannot. */
    method Dispatch(e: LoaderEvent)
      requires Valid()
      modifies this
      ensures Valid()
      ensures old(CompletionLost()) ==> CompletionLost()
      ensures old(!isLoading) ==> !isLoading
    {
      match e {
        case SimulationTimer(increment) =>
          if simulationRunning && 0.0 <= increment < MaxIncrement { SimulationTick(increment); }
        case LoadEvent =>
          if loadListening { WindowLoad(); }
        case CompletionTimer =>
          if completionRunning { CompletionTickFires(); }
        case FadeTimer =>
          if fadeTimerPending { FadeTimerFires(); }
        case HideTimer =>
          if hideTimerPending { HideTimerFires(); }
      }
    }
  }

  datatype LoaderEvent = SimulationTimer(increment: real) | LoadEvent | CompletionTimer | FadeTimer | HideTimer

  /**
   * The two intervals are independent, and an order the real timers produce
   * loses the completion. The document is not complete at mount; simulation
   * ticks of 14.75 fire at 200, 400, ..., 1000 ms; the load event comes at
   * 1185 ms; the sixth simulation tick at 1200 ms shows 88; completion ticks
   * at 1215, 1245, ..., 1365 ms climb to 100 and the one at 1395 ms stops the
   * interval; the simulation tick at 1400 ms then shows 89, and the
   * completion interval never runs again.
   */
  method CompletionUndoneBySimulation() returns (peak: int, final: int, completing: bool, phase: seq<string>)
    ensures peak == Full && final == 89 && !completing
    ensures phase == ["Preparing Interface"]
  {
    var l := new PageLoader(false);
    var i := 0;
    while i < 5
      invariant 0 <= i <= 5
      invariant l.Valid() && l.loadListening && !l.loadHandled && !l.completionRunning
      invariant l.simulationRunning && l.currentProgress == 14.75 * i as real
    {
      l.SimulationTick(14.75);
      i := i + 1;
    }
    l.WindowLoad();
    l.SimulationTick(14.75);
    assert l.currentProgress == 88.5 && l.progress == 88;
    var j := 0;
    while j < 6
      invariant 0 <= j <= 6
      invariant l.Valid() && l.progress == 88 + 2 * j && l.completionRunning
      invariant l.simulationRunning && l.currentProgress == 88.5
    {
      l.CompletionTickFires();
      j := j + 1;
    }
    peak := l.progress;
    l.CompletionTickFires();
    l.SimulationTick(1.0);
    final, completing, phase := l.progress, l.completionRunning, PhaseLabels(l.progress);
  }
}
