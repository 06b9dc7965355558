/** The repository's acceptance criterion, stated as proofs: driven with the
    same inputs from freshly initialised state, the legacy and the
    encapsulated shapes return equal outputs at every step, a bridge handle
    returns what a directly constructed controller does, a reset controller
    behaves like a fresh one, and two controllers do not influence each other. */
module Equivalence {
  import opened PidLaw
  import opened PidLegacy
  import opened PidEncapsulated
  import KalmanLaw
  import opened KalmanLegacy
  import opened KalmanEncapsulated
  import opened SFuncBridge

  /** Runs a legacy record and an encapsulated controller side by side over
      `xs`, both from their initial state: the outputs agree at every step and
      are those of the PID law. */
  method PidShapesAgree(t: Tuning, xs: seq<Sample>) returns (legacyOutputs: seq<real>, modernOutputs: seq<real>)
    requires t.dt != 0.0
    ensures legacyOutputs == modernOutputs == Run(t, Zero, xs).outputs
  {
    var legacy := new PidState();
    PidInit(legacy);
    var modern := new PidController(t.kp, t.ki, t.kd, t.dt);
    legacyOutputs, modernOutputs := [], [];
    for i := 0 to |xs|
      invariant modern.Tuning() == t
      invariant legacy.Memory() == modern.Memory()
      invariant legacyOutputs == modernOutputs
      invariant legacyOutputs == Run(t, Zero, xs[..i]).outputs
      invariant legacy.Memory() == Run(t, Zero, xs[..i]).final
    {
      RunSnoc(t, Zero, xs, i);
      var outLegacy := PidStep(legacy, xs[i].setpoint, xs[i].measured, t.kp, t.ki, t.kd, t.dt);
      var outModern := modern.Step(xs[i].setpoint, xs[i].measured);
      legacyOutputs := legacyOutputs + [outLegacy];
      modernOutputs := modernOutputs + [outModern];
    }
    assert xs[..|xs|] == xs;
  }

  /** How much of each output the simulated plant adds to the measurement. */
  const PlantGain: real := 0.01

  /** The closed loop of the PID equivalence test: the setpoint is fixed, the
      measurement starts at `initialMeasured` and after every step moves by the
      legacy output times `PlantGain`. `fed` is the sequence of samples both
      shapes received; their outputs agree at every step. */
  method PidClosedLoop(t: Tuning, setpoint: real, initialMeasured: real, steps: nat)
    returns (legacyOutputs: seq<real>, modernOutputs: seq<real>, fed: seq<Sample>)
    requires t.dt != 0.0
    ensures |fed| == steps
    ensures legacyOutputs == modernOutputs == Run(t, Zero, fed).outputs
    ensures forall k :: 0 <= k < steps ==> fed[k].setpoint == setpoint
    ensures steps > 0 ==> fed[0].measured == initialMeasured
    ensures forall k :: 0 < k < steps ==> fed[k].measured == fed[k - 1].measured + legacyOutputs[k - 1] * PlantGain
  {
    var legacy := new PidState();
    PidInit(legacy);
    var modern := new PidController(t.kp, t.ki, t.kd, t.dt);
    var measured := initialMeasured;
    legacyOutputs, modernOutputs, fed := [], [], [];
    for i := 0 to steps
      invariant |fed| == |legacyOutputs| == i
      invariant modern.Tuning() == t
      invariant legacy.Memory() == modern.Memory()
      invariant legacyOutputs == modernOutputs
      invariant legacyOutputs == Run(t, Zero, fed).outputs
      invariant legacy.Memory() == Run(t, Zero, fed).final
      invariant forall k :: 0 <= k < i ==> fed[k].setpoint == setpoint
      invariant i > 0 ==> fed[0].measured == initialMeasured
      invariant forall k :: 0 < k < i ==> fed[k].measured == fed[k - 1].measured + legacyOutputs[k - 1] * PlantGain
      invariant measured == if i == 0 then initialMeasured else fed[i - 1].measured + legacyOutputs[i - 1] * PlantGain
    {
      var sample := Sample(setpoint, measured);
      RunSnoc(t, Zero, fed + [sample], i);
      assert (fed + [sample])[..i] == fed;
      var outLegacy := PidStep(legacy, setpoint, measured, t.kp, t.ki, t.kd, t.dt);
      var outModern := modern.Step(setpoint, measured);
      fed := fed + [sample];
      assert fed[..i + 1] == fed;
      legacyOutputs := legacyOutputs + [outLegacy];
      modernOutputs := modernOutputs + [outModern];
      measured := measured + outLegacy * PlantGain;
    }
  }

  /** Steps a controller through an arbitrary history, resets it, and runs it
      beside a freshly constructed controller with the same tuning: the two
      agree on every later input. */
  method ResetMatchesFresh(t: Tuning, history: seq<Sample>, xs: seq<Sample>)
    returns (resetOutputs: seq<real>, freshOutputs: seq<real>)
    requires t.dt != 0.0
    ensures resetOutputs == freshOutputs == Run(t, Zero, xs).outputs
  {
    var used := new PidController(t.kp, t.ki, t.kd, t.dt);
    for i := 0 to |history|
      invariant used.Tuning() == t
    {
      var _ := used.Step(history[i].setpoint, history[i].measured);
    }
    used.Reset();
    var pristine := new PidController(t.kp, t.ki, t.kd, t.dt);
    resetOutputs, freshOutputs := [], [];
    for i := 0 to |xs|
      invariant used.Tuning() == pristine.Tuning() == t
      invariant used.Memory() == pristine.Memory()
      invariant resetOutputs == freshOutputs
      invariant resetOutputs == Run(t, Zero, xs[..i]).outputs
      invariant used.Memory() == Run(t, Zero, xs[..i]).final
    {
      RunSnoc(t, Zero, xs, i);
      var a := used.Step(xs[i].setpoint, xs[i].measured);
      var b := pristine.Step(xs[i].setpoint, xs[i].measured);
      resetOutputs, freshOutputs := resetOutputs + [a], freshOutputs + [b];
    }
    assert xs[..|xs|] == xs;
  }

  /** Runs a legacy Kalman record and an encapsulated filter side by side over
      `zs` from the same initial values: the estimates agree at every step and
      are those of the Kalman law. */
  method KalmanShapesAgree(initialX: real, initialP: real, Q: real, R: real, zs: seq<real>)
    returns (legacyEstimates: seq<real>, modernEstimates: seq<real>)
    requires KalmanLaw.Defined(KalmanLaw.Filter(initialX, initialP, Q, R), zs)
    ensures legacyEstimates == modernEstimates == KalmanLaw.Run(KalmanLaw.Filter(initialX, initialP, Q, R), zs).estimates
  {
    var f0 := KalmanLaw.Filter(initialX, initialP, Q, R);
    var legacy := new KalmanState();
    KalmanInit(legacy, initialX, initialP, Q, R);
    var modern := new KalmanFilter(initialX, initialP, Q, R);
    legacyEstimates, modernEstimates := [], [];
    for i := 0 to |zs|
      invariant legacy.Filter() == modern.Filter()
      invariant legacyEstimates == modernEstimates
      invariant KalmanLaw.Defined(f0, zs[..i])
      invariant legacyEstimates == KalmanLaw.Run(f0, zs[..i]).estimates
      invariant legacy.Filter() == KalmanLaw.Run(f0, zs[..i]).final
    {
      KalmanLaw.RunSnoc(f0, zs, i);
      var a := KalmanUpdate(legacy, zs[i]);
      var b := modern.Update(zs[i]);
      legacyEstimates, modernEstimates := legacyEstimates + [a], modernEstimates + [b];
    }
    assert zs[..|zs|] == zs;
  }

  /** The scenario of the Kalman equivalence test: its tuning and its ten
      measurements are processed without a division by zero, and both shapes
      return the same ten estimates. */
  method KalmanTestScenario() returns (legacyEstimates: seq<real>, modernEstimates: seq<real>)
    ensures |legacyEstimates| == 10
    ensures legacyEstimates == modernEstimates
  {
    var zs := [98.5, 101.2, 99.8, 102.1, 100.3, 98.9, 101.7, 100.1, 99.5, 100.8];
    KalmanLaw.SaneRun(KalmanLaw.Filter(100.0, 1.0, 0.1, 1.0), zs);
    legacyEstimates, modernEstimates := KalmanShapesAgree(100.0, 1.0, 0.1, 1.0, zs);
  }

  /** Drives a bridge handle through its whole life (create, one step per
      sample, destroy) beside a directly constructed controller: the handle
      returns what the controller returns, call for call. */
  method BridgeMatchesDirect(t: Tuning, xs: seq<Sample>) returns (bridgeOutputs: seq<real>, directOutputs: seq<real>)
    requires t.dt != 0.0
    ensures bridgeOutputs == directOutputs == Run(t, Zero, xs).outputs
  {
    var h := Create(t.kp, t.ki, t.kd, t.dt);
    var direct := new PidController(t.kp, t.ki, t.kd, t.dt);
    bridgeOutputs, directOutputs := [], [];
    for i := 0 to |xs|
      invariant h.Live() && fresh(h.controller) && h.controller != direct
      invariant h.controller.Tuning() == direct.Tuning() == t
      invariant h.controller.Memory() == direct.Memory()
      invariant bridgeOutputs == directOutputs
      invariant bridgeOutputs == Run(t, Zero, xs[..i]).outputs
      invariant direct.Memory() == Run(t, Zero, xs[..i]).final
    {
      RunSnoc(t, Zero, xs, i);
      var a := Step(h, xs[i].setpoint, xs[i].measured);
      var b := direct.Step(xs[i].setpoint, xs[i].measured);
      bridgeOutputs, directOutputs := bridgeOutputs + [a], directOutputs + [b];
    }
    Destroy(h);
    assert xs[..|xs|] == xs;
  }

  /** The number of entries of `schedule` equal to `b`. */
  function Count(schedule: seq<bool>, b: bool): nat
    decreases |schedule|
  {
    if schedule == [] then 0
    else Count(schedule[..|schedule| - 1], b) + (if schedule[|schedule| - 1] == b then 1 else 0)
  }

  /** A prefix of a schedule has at most as many entries equal to `b` as the
      whole schedule. */
  lemma {:induction false} CountPrefix(schedule: seq<bool>, k: nat, b: bool)
    requires k <= |schedule|
    ensures Count(schedule[..k], b) <= Count(schedule, b)
    decreases |schedule| - k
  {
    if k < |schedule| {
      CountPrefix(schedule, k + 1, b);
      assert schedule[..k + 1][..k] == schedule[..k];
    } else {
      assert schedule[..k] == schedule;
    }
  }

  /** Two handles with their own tuning, stepped in any interleaving: entry
      `true` of `schedule` steps the first handle with its next sample, entry
      `false` the second. Each returns what it would return alone, so nothing
      leaks from one to the other. */
  method HandlesIndependent(t1: Tuning, t2: Tuning, xs1: seq<Sample>, xs2: seq<Sample>, schedule: seq<bool>)
    returns (outputs1: seq<real>, outputs2: seq<real>)
    requires t1.dt != 0.0 && t2.dt != 0.0
    requires Count(schedule, true) == |xs1| && Count(schedule, false) == |xs2|
    ensures outputs1 == Run(t1, Zero, xs1).outputs
    ensures outputs2 == Run(t2, Zero, xs2).outputs
  {
    var h1 := Create(t1.kp, t1.ki, t1.kd, t1.dt);
    var h2 := Create(t2.kp, t2.ki, t2.kd, t2.dt);
    outputs1, outputs2 := [], [];
    var i1, i2 := 0, 0;
    for k := 0 to |schedule|
      invariant h1.Live() && h2.Live() && h1 != h2
      invariant fresh(h1.controller) && fresh(h2.controller) && h1.controller != h2.controller
      invariant h1.controller.Tuning() == t1 && h2.controller.Tuning() == t2
      invariant i1 == Count(schedule[..k], true) && i2 == Count(schedule[..k], false)
      invariant i1 <= |xs1| && i2 <= |xs2|
      invariant outputs1 == Run(t1, Zero, xs1[..i1]).outputs
      invariant h1.controller.Memory() == Run(t1, Zero, xs1[..i1]).final
      invariant outputs2 == Run(t2, Zero, xs2[..i2]).outputs
      invariant h2.controller.Memory() == Run(t2, Zero, xs2[..i2]).final
    {
      assert schedule[..k + 1][..k] == schedule[..k];
      CountPrefix(schedule, k + 1, true);
      CountPrefix(schedule, k + 1, false);
      if schedule[k] {
        RunSnoc(t1, Zero, xs1, i1);
        var a := Step(h1, xs1[i1].setpoint, xs1[i1].measured);
        outputs1 := outputs1 + [a];
        i1 := i1 + 1;
      } else {
        RunSnoc(t2, Zero, xs2, i2);
        var b := Step(h2, xs2[i2].setpoint, xs2[i2].measured);
        outputs2 := outputs2 + [b];
        i2 := i2 + 1;
      }
    }
    Destroy(h1);
    Destroy(h2);
    assert schedule[..|schedule|] == schedule;
    assert xs1[..|xs1|] == xs1;
    assert xs2[..|xs2|] == xs2;
  }
}
