/** The legacy procedural PID controller: a caller-owned record of two fields
    and free procedures that update it in place; the gains and the sample
    interval are passed on every step. */
module PidLegacy {
  import opened PidLaw

  /** The state record; `PidInit` must run before the first step. */
  class PidState {
    var prevError: real
    var integral: real

    /** Allocates the record, as a C declaration does, without giving its
        fields any particular values. */
    constructor ()
    {
    }

    /** The record's contents as a value. */
    function Memory(): PidLaw.Memory
      reads this
    {
      PidLaw.Memory(prevError, integral)
    }
  }

  /** Zeroes both fields. */
  method PidInit(state: PidState)
    modifies state
    ensures state.prevError == 0.0 && state.integral == 0.0
    ensures state.Memory() == Zero
  {
    state.prevError := 0.0;
    state.integral := 0.0;
  }

  /** One control step. Only the two fields of `state` change: the previous
      error becomes this step's error and the integral accumulates error times
      dt. The output uses the accumulated (new) integral and the old previous
      error, and depends on nothing but the record and the arguments. */
  method PidStep(state: PidState, setpoint: real, measured: real,
                 kp: real, ki: real, kd: real, dt: real) returns (output: real)
    requires dt != 0.0
    modifies state
    ensures state.prevError == setpoint - measured
    ensures state.integral == old(state.integral) + (setpoint - measured) * dt
    ensures output == kp * (setpoint - measured) + ki * state.integral
                      + kd * ((setpoint - measured) - old(state.prevError)) / dt
    ensures output == Output(Tuning(kp, ki, kd, dt), old(state.Memory()), Sample(setpoint, measured))
    ensures state.Memory() == Next(old(state.Memory()), dt, Sample(setpoint, measured))
  {
    var error := setpoint - measured;
    var derivative := (error - state.prevError) / dt;

    state.integral := state.integral + error * dt;
    state.prevError := error;

    output := kp * error + ki * state.integral + kd * derivative;
  }

  /** Zeroes both fields, leaving the record exactly as `PidInit` does. */
  method PidReset(state: PidState)
    modifies state
    ensures state.prevError == 0.0 && state.integral == 0.0
    ensures state.Memory() == Zero
  {
    state.prevError := 0.0;
    state.integral := 0.0;
  }
}
