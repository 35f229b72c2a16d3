/**
 * The storage assessment process flow (components/storage-section.tsx): a
 * step counter advanced every 3 s modulo 4, and what each of the four steps
 * shows for the current value: a filled circle, a filled connector to the
 * next step, the pulse ring and highlighted card, and its two-digit label.
 */
module StorageProcess {

  /** The process steps, in display order (their titles). */
  const ProcessSteps: seq<string> := ["Storage Facility", "Air Sampling", "Chemical Analysis", "Safety Status"]

  /** The modulus written in the tick, `(prev + 1) % 4`. */
  const StepModulus: nat := 4

  /** One 3 s tick. The counter is never negative, so JavaScript's `%` agrees with Dafny's. */
  function NextStep(prev: nat): (next: nat)
    ensures next < StepModulus
    ensures prev + 1 < StepModulus ==> next == prev + 1
    ensures prev + 1 == StepModulus ==> next == 0
  {
    (prev + 1) % StepModulus
  }

  /** The counter after `n` ticks from `start`. */
  function StepAfter(start: nat, n: nat): nat {
    if n == 0 then start else NextStep(StepAfter(start, n - 1))
  }

  /** After `n` ticks the counter has moved `n` places round the cycle. */
  lemma {:induction false} StepAfterIsOffset(start: nat, n: nat)
    requires start < StepModulus
    ensures StepAfter(start, n) == (start + n) % StepModulus
  {
    if n > 0 {
      StepAfterIsOffset(start, n - 1);
    }
  }

  /** Four ticks bring the counter back to where it was. */
  lemma FourTicksReturn(start: nat)
    requires start < StepModulus
    ensures StepAfter(start, 4) == start
  {
    StepAfterIsOffset(start, 4);
  }

  /** The modulus is the number of steps, and every step is reached from every other within 4 ticks. */
  lemma EveryStepVisited(start: nat, target: nat)
    requires start < StepModulus && target < StepModulus
    ensures StepModulus == |ProcessSteps|
    ensures exists n :: 0 <= n < StepModulus && StepAfter(start, n) == target
  {
    var n := (target + StepModulus - start) % StepModulus;
    StepAfterIsOffset(start, n);
    assert StepAfter(start, n) == target;
  }

  /** Circle `i` is red-filled: `i <= activeStep`. */
  function StepCircles(activeStep: int): (filled: seq<bool>)
    ensures |filled| == |ProcessSteps|
  {
    seq(|ProcessSteps|, i requires 0 <= i < |ProcessSteps| => i <= activeStep)
  }

  /** Connectors follow steps 0..2 only; connector `i` is filled when `i < activeStep`. */
  function Connectors(activeStep: int): (filled: seq<bool>)
    ensures |filled| == |ProcessSteps| - 1
  {
    seq(|ProcessSteps| - 1, i requires 0 <= i < |ProcessSteps| - 1 => i < activeStep)
  }

  /** Step `i` carries the pulse ring and the highlighted card: `activeStep === i`. */
  function Highlighted(activeStep: int): (marked: seq<bool>)
    ensures |marked| == |ProcessSteps|
  {
    seq(|ProcessSteps|, i requires 0 <= i < |ProcessSteps| => activeStep == i)
  }

  function Repeat<T>(x: T, n: nat): (r: seq<T>)
    ensures |r| == n && forall i :: 0 <= i < n ==> r[i] == x
  {
    if n == 0 then [] else [x] + Repeat(x, n - 1)
  }

  /** The filled circles are exactly the first `activeStep + 1`. */
  lemma FilledCirclesArePrefix(activeStep: nat)
    requires activeStep < StepModulus
    ensures StepCircles(activeStep) == Repeat(true, activeStep + 1) + Repeat(false, |ProcessSteps| - activeStep - 1)
  {
    var expected := Repeat(true, activeStep + 1) + Repeat(false, |ProcessSteps| - activeStep - 1);
    forall i | 0 <= i < |ProcessSteps| ensures StepCircles(activeStep)[i] == expected[i] {
      if i <= activeStep {
        assert expected[i] == Repeat(true, activeStep + 1)[i];
      } else {
        assert expected[i] == Repeat(false, |ProcessSteps| - activeStep - 1)[i - activeStep - 1];
      }
    }
  }

  /** A connector is filled exactly when both circles it joins are filled. */
  lemma ConnectorJoinsFilledCircles(activeStep: int, i: nat)
    requires i < |ProcessSteps| - 1
    ensures Connectors(activeStep)[i] <==> StepCircles(activeStep)[i] && StepCircles(activeStep)[i + 1]
  {
  }

  /** Exactly one step is highlighted, the active one, whatever the counter holds in 0..3. */
  lemma ExactlyOneHighlighted(activeStep: nat)
    requires activeStep < StepModulus
    ensures Highlighted(activeStep)[activeStep]
    ensures forall i :: 0 <= i < |ProcessSteps| && Highlighted(activeStep)[i] ==> i == activeStep
  {
  }

  /** The character of a decimal digit. */
  function DigitChar(d: nat): char
    requires d < 10
  {
    ('0' as int + d) as char
  }

  /** The value of a decimal digit character ('0' for anything else). */
  function DigitValue(c: char): nat {
    if '0' <= c <= '9' then (c - '0') as nat else 0
  }

  /** `String(n)` for a natural number. */
  function DecimalString(n: nat): (s: string)
    ensures |s| >= 1
    ensures forall i :: 0 <= i < |s| ==> '0' <= s[i] <= '9'
  {
    if n < 10 then [DigitChar(n)] else DecimalString(n / 10) + [DigitChar(n % 10)]
  }

  /** Reads the decimal digits of `s` as a number. */
  function ParseDecimal(s: string): nat {
    if s == [] then 0 else ParseDecimal(s[..|s| - 1]) * 10 + DigitValue(s[|s| - 1])
  }

  /** `s.padStart(width, fill)` with a one-character fill. */
  function PadStart(s: string, width: nat, fill: char): (r: string)
    ensures |r| == if |s| >= width then |s| else width
    ensures r[|r| - |s|..] == s
    ensures forall i :: 0 <= i < |r| - |s| ==> r[i] == fill
  {
    if |s| >= width then s else Repeat(fill, width - |s|) + s
  }

  /** `String(i + 1).padStart(2, "0")`. */
  function StepLabel(i: nat): string {
    PadStart(DecimalString(i + 1), 2, '0')
  }

  lemma {:induction false} DecimalRoundTrip(n: nat)
    ensures ParseDecimal(DecimalString(n)) == n
  {
    if n >= 10 {
      DecimalRoundTrip(n / 10);
      var s := DecimalString(n);
      assert s[..|s| - 1] == DecimalString(n / 10);
      assert DigitValue(s[|s| - 1]) == n % 10;
    }
  }

  lemma {:induction false} LeadingZerosIgnored(zeros: nat, s: string)
    ensures ParseDecimal(Repeat('0', zeros) + s) == ParseDecimal(s)
    decreases |s|, zeros
  {
    var padded := Repeat('0', zeros) + s;
    if s == [] {
      assert padded == Repeat('0', zeros);
      if zeros > 0 {
        assert padded[..|padded| - 1] == Repeat('0', zeros - 1);
        LeadingZerosIgnored(zeros - 1, []);
        assert Repeat('0', zeros - 1) + [] == Repeat('0', zeros - 1);
      }
    } else {
      assert padded[..|padded| - 1] == Repeat('0', zeros) + s[..|s| - 1];
      LeadingZerosIgnored(zeros, s[..|s| - 1]);
    }
  }

  /** Each label reads back as its step number, so the labels are distinct. */
  lemma StepLabelReadsBack(i: nat)
    ensures ParseDecimal(StepLabel(i)) == i + 1
    ensures |StepLabel(i)| >= 2
  {
    var digits := DecimalString(i + 1);
    DecimalRoundTrip(i + 1);
    if |digits| < 2 {
      assert StepLabel(i) == Repeat('0', 2 - |digits|) + digits;
      LeadingZerosIgnored(2 - |digits|, digits);
    }
  }

  /** Steps 1 to 9 are labelled with a leading zero. */
  lemma SingleDigitLabel(i: nat)
    requires i < 9
    ensures StepLabel(i) == ['0', DigitChar(i + 1)]
  {
    assert DecimalString(i + 1) == [DigitChar(i + 1)];
    assert Repeat('0', 1) == ['0'];
  }

  /** The four labels shown are "01", "02", "03", "04". */
  lemma ProcessStepLabels()
    ensures seq(|ProcessSteps|, i requires 0 <= i < |ProcessSteps| => StepLabel(i)) == ["01", "02", "03", "04"]
  {
    SingleDigitLabel(0);
    SingleDigitLabel(1);
    SingleDigitLabel(2);
    SingleDigitLabel(3);
  }

  /** The counter behind the process flow. */
  class StepIndicator {
    var activeStep: nat

    ghost predicate Valid()
      reads this
    {
      activeStep < StepModulus
    }

    constructor ()
      ensures Valid() && activeStep == 0
    {
      activeStep := 0;
    }

    /** The 3 s interval tick. */
    method Tick()
      requires Valid()
      modifies this
      ensures Valid()
      ensures activeStep == NextStep(old(activeStep))
    {
      activeStep := (activeStep + 1) % StepModulus;
    }
  }

  /** From mount, the step shown after `n` ticks is `n % 4`, and four ticks return to step 0. */
  method TicksFromMount(n: nat) returns (shown: nat, afterFourMore: nat)
    ensures shown == n % StepModulus && shown == StepAfter(0, n)
    ensures afterFourMore == shown
  {
    var s := new StepIndicator();
    var k := 0;
    while k < n
      invariant 0 <= k <= n
      invariant s.Valid() && s.activeStep == StepAfter(0, k)
    {
      s.Tick();
      k := k + 1;
    }
    shown := s.activeStep;
    StepAfterIsOffset(0, n);
    var j := 0;
    while j < 4
      invariant 0 <= j <= 4
      invariant s.Valid() && s.activeStep == StepAfter(shown, j)
    {
      s.Tick();
      j := j + 1;
    }
    FourTicksReturn(shown);
    afterFourMore := s.activeStep;
  }
}
