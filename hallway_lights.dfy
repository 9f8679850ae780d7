/** The lighting-control state of the hallway controller in src/main.cpp:
    the three globals the HTTP route handlers and the self-test task share,
    and the duty values written to LEDC channel 0. */
module HallwayLights {

  /** The duty value the firmware writes for 100 % on the 13-bit LEDC
      timer of PWM channel 0: 2^13. */
  const MaxDuty: int := 8192

  /** Increment of both counting loops of the self-test sweep. */
  const SweepStep: int := 82

  /** A sequence of duty values that all lie in [0, MaxDuty]. */
  predicate InDutyRange(s: seq<int>)
  {
    forall i :: 0 <= i < |s| ==> 0 <= s[i] <= MaxDuty
  }

  // ---------------------------------------------------------------------
  // The percent-to-duty table of the /pwmN routes
  // ---------------------------------------------------------------------

  /** The duty for `percent` on the 13-bit channel, rounded to the nearest
      integer, halves upwards. */
  function DutyOf(percent: int): (d: int)
    requires 0 <= percent <= 100
    ensures 0 <= d <= MaxDuty
    ensures 100 * d - 50 <= percent * MaxDuty < 100 * d + 50
    ensures percent == 100 ==> d == MaxDuty
  {
    (percent * MaxDuty + 50) / 100
  }

  /** A higher percentage always gives a higher duty. */
  lemma DutyOfIncreasing(a: int, b: int)
    requires 0 <= a < b <= 100
    ensures DutyOf(a) < DutyOf(b)
  {
  }

  /** No percentage is mapped to a duty strictly between 0 and 82: the 74
      at which the self-test sweep ends is not the duty of any percentage. */
  lemma DutyOfSkipsBelowOnePercent(p: int)
    requires 0 <= p <= 100
    ensures DutyOf(p) == 0 || DutyOf(p) >= 82
    ensures DutyOf(p) != MaxDuty % SweepStep
  {
  }

  /** The brightness levels that have a /pwmN route. */
  datatype Level = P0 | P1 | P5 | P10 | P15 | P20 | P30 | P50 | P100

  /** The N of the /pwmN route, which the handler stores in pwmValue. */
  function Percent(l: Level): (n: nat)
    ensures n <= 100
  {
    match l
    case P0 => 0
    case P1 => 1
    case P5 => 5
    case P10 => 10
    case P15 => 15
    case P20 => 20
    case P30 => 30
    case P50 => 50
    case P100 => 100
  }

  /** The duty value the /pwmN handler passes to setPWMDutyCycle, as
      hard-coded in each handler; it is the rounded duty of N. */
  function HandlerDuty(l: Level): (d: int)
    ensures d == DutyOf(Percent(l))
    ensures 0 <= d <= MaxDuty
  {
    match l
    case P0 => 0
    case P1 => 82
    case P5 => 410
    case P10 => 819
    case P15 => 1229
    case P20 => 1638
    case P30 => 2458
    case P50 => 4096
    case P100 => 8192
  }

  /** Across the /pwmN routes the written duty is strictly increasing in N,
      and two routes with the same N are the same route. */
  lemma HandlerDutyMonotonic(a: Level, b: Level)
    ensures Percent(a) < Percent(b) ==> HandlerDuty(a) < HandlerDuty(b)
    ensures Percent(a) == Percent(b) <==> a == b
    ensures HandlerDuty(a) <= HandlerDuty(b) <==> Percent(a) <= Percent(b)
  {
  }

  /** The routes registered in setServerResponses that change the state
      (the "/" page and the 404 handler only render HTML). */
  datatype Route = Blink250ms | Blink2000ms | Pwm(level: Level) | TestPwm

  // ---------------------------------------------------------------------
  // The self-test sweep
  // ---------------------------------------------------------------------

  /** The values the upward loop `for (duty = d; duty <= 8192; duty += 82)`
      writes. */
  function UpSweepFrom(d: int): (r: seq<int>)
    ensures forall i :: 0 <= i < |r| ==> d <= r[i] <= MaxDuty
    decreases MaxDuty + 1 - d
  {
    if d <= MaxDuty then [d] + UpSweepFrom(d + SweepStep) else []
  }

  /** The values the downward loop `for (duty = d; duty >= 0; duty -= 82)`
      writes. */
  function DownSweepFrom(d: int): (r: seq<int>)
    ensures forall i :: 0 <= i < |r| ==> 0 <= r[i] <= d
    decreases d + 1
  {
    if d >= 0 then [d] + DownSweepFrom(d - SweepStep) else []
  }

  /** What the upward loop of cyclePWMTask writes. */
  function UpSweep(): (r: seq<int>)
    ensures InDutyRange(r)
  {
    UpSweepFrom(0)
  }

  /** What the downward loop of cyclePWMTask writes. */
  function DownSweep(): (r: seq<int>)
    ensures InDutyRange(r)
  {
    DownSweepFrom(MaxDuty)
  }

  /** The upward loop started at d writes d, d + 82, ... up to the last
      value not above MaxDuty. */
  lemma {:induction false} UpSweepFromShape(d: int)
    ensures |UpSweepFrom(d)| == if d <= MaxDuty then (MaxDuty - d) / SweepStep + 1 else 0
    ensures forall i :: 0 <= i < |UpSweepFrom(d)| ==> UpSweepFrom(d)[i] == d + SweepStep * i
    decreases MaxDuty + 1 - d
  {
    if d <= MaxDuty {
      UpSweepFromShape(d + SweepStep);
      var rest := UpSweepFrom(d + SweepStep);
      assert UpSweepFrom(d) == [d] + rest;
      forall i | 0 < i < |UpSweepFrom(d)|
        ensures UpSweepFrom(d)[i] == d + SweepStep * i
      {
        assert UpSweepFrom(d)[i] == rest[i - 1];
      }
    }
  }

  /** The downward loop started at d writes d, d - 82, ... down to the last
      value not below 0. */
  lemma {:induction false} DownSweepFromShape(d: int)
    ensures |DownSweepFrom(d)| == if d >= 0 then d / SweepStep + 1 else 0
    ensures forall i :: 0 <= i < |DownSweepFrom(d)| ==> DownSweepFrom(d)[i] == d - SweepStep * i
    decreases d + 1
  {
    if d >= 0 {
      DownSweepFromShape(d - SweepStep);
      var rest := DownSweepFrom(d - SweepStep);
      assert DownSweepFrom(d) == [d] + rest;
      forall i | 0 < i < |DownSweepFrom(d)|
        ensures DownSweepFrom(d)[i] == d - SweepStep * i
      {
        assert DownSweepFrom(d)[i] == rest[i - 1];
      }
    }
  }

  /** The upward loop writes exactly the multiples of 82 from 0 to 8118,
      100 values in strictly ascending order, all within [0, MaxDuty]. */
  lemma UpSweepFacts()
    ensures |UpSweep()| == 100
    ensures forall i :: 0 <= i < |UpSweep()| ==> UpSweep()[i] == SweepStep * i
    ensures UpSweep()[0] == 0 && UpSweep()[|UpSweep()| - 1] == 8118
    ensures forall i, j :: 0 <= i < j < |UpSweep()| ==> UpSweep()[i] < UpSweep()[j]
    ensures forall x :: x in UpSweep() <==> 0 <= x <= 8118 && x % SweepStep == 0
    ensures InDutyRange(UpSweep())
  {
    UpSweepFromShape(0);
    var s := UpSweep();
    forall x | 0 <= x <= 8118 && x % SweepStep == 0
      ensures x in s
    {
      assert s[x / SweepStep] == x;
    }
  }

  /** The downward loop writes 8192 - 82 k for k = 0 .. 99, 100 values in
      strictly descending order, all within [0, MaxDuty]; the last is 74,
      not 0, since 8192 is not a multiple of 82. */
  lemma DownSweepFacts()
    ensures |DownSweep()| == 100
    ensures forall i :: 0 <= i < |DownSweep()| ==> DownSweep()[i] == MaxDuty - SweepStep * i
    ensures DownSweep()[0] == MaxDuty
    ensures DownSweep()[|DownSweep()| - 1] == 74 == MaxDuty % SweepStep
    ensures forall i, j :: 0 <= i < j < |DownSweep()| ==> DownSweep()[i] > DownSweep()[j]
    ensures InDutyRange(DownSweep())
  {
    DownSweepFromShape(MaxDuty);
  }

  // ---------------------------------------------------------------------
  // The controller state
  // ---------------------------------------------------------------------

  /** The module-level state of main.cpp together with PWM channel 0. */
  class Controller {
    /** blinkInterval, in milliseconds. */
    var blinkInterval: nat
    /** pwmValue: the percentage chosen by the last /pwmN route. */
    var pwmValue: nat
    /** testingPWM: raised by /testPWM, cleared by the sweep task. */
    var testingPWM: bool
    /** The duty value last written to PWM channel 0. */
    var duty: int
    /** Every duty value written to PWM channel 0, oldest first. */
    ghost var writes: seq<int>

    /** The duty register holds the last write, every write is in range,
        and pwmValue is a percentage. */
    ghost predicate Valid()
      reads this
    {
      writes != [] && duty == writes[|writes| - 1] && InDutyRange(writes) && pwmValue <= 100
    }

    /** Boot: the initial values of the globals, then setup() writes
        duty 0. */
    constructor ()
      ensures Valid()
      ensures blinkInterval == 1000 && pwmValue == 0 && !testingPWM
      ensures duty == 0 && writes == [0]
    {
      blinkInterval := 1000;
      pwmValue := 0;
      testingPWM := false;
      writes := [];
      new;
      SetPwmDutyCycle(0);
    }

    /** setPWMDutyCycle: writes `dutyCycle` to PWM channel 0. */
    method SetPwmDutyCycle(dutyCycle: int)
      modifies this
      ensures duty == dutyCycle && writes == old(writes) + [dutyCycle]
      ensures blinkInterval == old(blinkInterval) && pwmValue == old(pwmValue)
      ensures testingPWM == old(testingPWM)
    {
      duty := dutyCycle;
      writes := writes + [dutyCycle];
    }

    /** The state change of the handler registered for route `r`. */
    method Handle(r: Route)
      requires Valid()
      modifies this
      ensures Valid()
      ensures r.Pwm? ==> writes == old(writes) + [DutyOf(Percent(r.level))]
      ensures r.Pwm? ==> pwmValue == Percent(r.level) && duty == DutyOf(pwmValue)
      ensures !r.Pwm? ==> writes == old(writes) && duty == old(duty) && pwmValue == old(pwmValue)
      ensures blinkInterval == match r
                               case Blink250ms => 250
                               case Blink2000ms => 2000
                               case _ => old(blinkInterval)
      ensures testingPWM == (r.TestPwm? || old(testingPWM))
    {
      match r
      case Blink250ms =>
        blinkInterval := 250;
      case Blink2000ms =>
        blinkInterval := 2000;
      case Pwm(level) =>
        SetPwmDutyCycle(HandlerDuty(level));
        pwmValue := Percent(level);
      case TestPwm =>
        testingPWM := true;
    }

    /** The upward loop of cyclePWMTask: writes 0, 82, ... while the value
        is at most MaxDuty. Only the duty register and the log change. */
    method SweepUp()
      requires Valid()
      modifies this
      ensures Valid()
      ensures writes == old(writes) + UpSweep()
      ensures pwmValue == old(pwmValue) && blinkInterval == old(blinkInterval)
      ensures testingPWM == old(testingPWM)
    {
      var d := 0;
      while d <= MaxDuty
        invariant 0 <= d <= MaxDuty + SweepStep
        invariant Valid()
        invariant writes + UpSweepFrom(d) == old(writes) + UpSweep()
        invariant pwmValue == old(pwmValue) && blinkInterval == old(blinkInterval)
        invariant testingPWM == old(testingPWM)
        decreases MaxDuty + SweepStep - d
      {
        assert UpSweepFrom(d) == [d] + UpSweepFrom(d + SweepStep);
        SetPwmDutyCycle(d);
        d := d + SweepStep;
      }
      assert UpSweepFrom(d) == [];
    }

    /** The downward loop of cyclePWMTask: writes 8192, 8110, ... while the
        value is at least 0. Only the duty register and the log change. */
    method SweepDown()
      requires Valid()
      modifies this
      ensures Valid()
      ensures writes == old(writes) + DownSweep()
      ensures pwmValue == old(pwmValue) && blinkInterval == old(blinkInterval)
      ensures testingPWM == old(testingPWM)
    {
      var d := MaxDuty;
      while d >= 0
        invariant -SweepStep <= d <= MaxDuty
        invariant Valid()
        invariant writes + DownSweepFrom(d) == old(writes) + DownSweep()
        invariant pwmValue == old(pwmValue) && blinkInterval == old(blinkInterval)
        invariant testingPWM == old(testingPWM)
        decreases d + SweepStep
      {
        assert DownSweepFrom(d) == [d] + DownSweepFrom(d - SweepStep);
        SetPwmDutyCycle(d);
        d := d - SweepStep;
      }
      assert DownSweepFrom(d) == [];
    }

    /** One pass of the for(;;) loop of cyclePWMTask: if testingPWM is
        raised, sweep the duty up and down and lower the flag; otherwise
        change nothing. Neither pwmValue nor blinkInterval is touched. */
    method SweepIteration()
      requires Valid()
      modifies this
      ensures Valid()
      ensures old(testingPWM) ==> writes == old(writes) + UpSweep() + DownSweep()
      ensures old(testingPWM) ==> duty == MaxDuty % SweepStep && duty != DutyOf(pwmValue)
      ensures !old(testingPWM) ==> writes == old(writes) && duty == old(duty)
      ensures !testingPWM
      ensures pwmValue == old(pwmValue) && blinkInterval == old(blinkInterval)
    {
      if testingPWM {
        SweepUp();
        SweepDown();
        DownSweepFacts();
        DutyOfSkipsBelowOnePercent(pwmValue);
        testingPWM := false;
      }
    }
  }
}
