/** The PID control law on values: what one step of either shape computes from
    the two remembered quantities (previous error, integral) and one sample. */
module PidLaw {

  /** The four tuning constants: proportional, integral and derivative gain, and
      the sample interval. */
  datatype Tuning = Tuning(kp: real, ki: real, kd: real, dt: real)

  /** The mutable part of a controller: the error seen at the previous step and
      the accumulated integral of the error. */
  datatype Memory = Memory(prevError: real, integral: real)

  /** One tick's inputs. */
  datatype Sample = Sample(setpoint: real, measured: real)

  /** The outputs of a run of steps and the memory left behind. */
  datatype Trace = Trace(outputs: seq<real>, final: Memory)

  /** The memory after construction, initialisation or reset. */
  const Zero: Memory := Memory(0.0, 0.0)

  function Error(s: Sample): real {
    s.setpoint - s.measured
  }

  /** The memory after one step: forward-Euler integration of the error. */
  function Next(m: Memory, dt: real, s: Sample): (r: Memory)
    ensures r.prevError == s.setpoint - s.measured
    ensures r.integral - m.integral == r.prevError * dt
  {
    Memory(Error(s), m.integral + Error(s) * dt)
  }

  /** The output of one step taken from memory `m`: the integral term uses the
      integral AFTER this step's accumulation, the derivative term the change of
      the error since the previous step. */
  function Output(t: Tuning, m: Memory, s: Sample): (r: real)
    requires t.dt != 0.0
    // with only the proportional gain, the output is kp times the error
    ensures t.ki == 0.0 && t.kd == 0.0 ==> r == t.kp * (s.setpoint - s.measured)
    // at rest (no error now or before), only the stored integral acts
    ensures s.setpoint == s.measured && m.prevError == 0.0 ==> r == t.ki * m.integral
  {
    t.kp * Error(s) + t.ki * Next(m, t.dt, s).integral + t.kd * (Error(s) - m.prevError) / t.dt
  }

  /** The sum of the errors of a sequence of samples. */
  function ErrorSum(xs: seq<Sample>): real {
    if xs == [] then 0.0 else Error(xs[0]) + ErrorSum(xs[1..])
  }

  /** Steps a controller with tuning `t` and memory `m` once per sample of `xs`.
      The integral left behind is the time integral of the errors seen, and the
      previous error is the last sample's error. */
  function Run(t: Tuning, m: Memory, xs: seq<Sample>): (r: Trace)
    requires t.dt != 0.0
    ensures |r.outputs| == |xs|
    ensures r.final.integral == m.integral + t.dt * ErrorSum(xs)
    ensures r.final.prevError == if xs == [] then m.prevError else Error(xs[|xs| - 1])
    decreases |xs|
  {
    if xs == [] then Trace([], m)
    else
      var rest := Run(t, Next(m, t.dt, xs[0]), xs[1..]);
      Trace([Output(t, m, xs[0])] + rest.outputs, rest.final)
  }

  /** The k-th output of a run is one step taken from the memory that the first
      k samples leave behind. */
  lemma {:induction false} RunOutputAt(t: Tuning, m: Memory, xs: seq<Sample>, k: nat)
    requires t.dt != 0.0
    requires k < |xs|
    ensures Run(t, m, xs).outputs[k] == Output(t, Run(t, m, xs[..k]).final, xs[k])
    decreases k
  {
    if k > 0 {
      var m1 := Next(m, t.dt, xs[0]);
      RunOutputAt(t, m1, xs[1..], k - 1);
      assert xs[..k][0] == xs[0];
      assert xs[..k][1..] == xs[1..][..k - 1];
    }
  }

  /** A run over a concatenation is the first run followed by a run from the
      memory it leaves behind: the controller carries nothing from one step to
      the next except its memory. */
  lemma {:induction false} RunAppend(t: Tuning, m: Memory, xs: seq<Sample>, ys: seq<Sample>)
    requires t.dt != 0.0
    ensures Run(t, m, xs + ys) ==
            Trace(Run(t, m, xs).outputs + Run(t, Run(t, m, xs).final, ys).outputs,
                  Run(t, Run(t, m, xs).final, ys).final)
    decreases |xs|
  {
    if xs == [] {
      assert [] + ys == ys;
    } else {
      assert (xs + ys)[0] == xs[0];
      assert (xs + ys)[1..] == xs[1..] + ys;
      RunAppend(t, Next(m, t.dt, xs[0]), xs[1..], ys);
    }
  }

  /** Extending the samples of a run by one extends its outputs by the output
      of one step from the memory the run left behind. */
  lemma {:induction false} RunSnoc(t: Tuning, m: Memory, xs: seq<Sample>, i: nat)
    requires t.dt != 0.0
    requires i < |xs|
    ensures Run(t, m, xs[..i + 1]).outputs ==
            Run(t, m, xs[..i]).outputs + [Output(t, Run(t, m, xs[..i]).final, xs[i])]
    ensures Run(t, m, xs[..i + 1]).final == Next(Run(t, m, xs[..i]).final, t.dt, xs[i])
  {
    var before := Run(t, m, xs[..i]).final;
    RunAppend(t, m, xs[..i], [xs[i]]);
    assert xs[..i] + [xs[i]] == xs[..i + 1];
    assert [xs[i]][1..] == [];
    assert Run(t, before, [xs[i]]) == Trace([Output(t, before, xs[i])], Next(before, t.dt, xs[i]));
  }
}
