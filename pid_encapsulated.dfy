/** The encapsulated PID controller: tuning fixed at construction, and the two
    state fields private to each instance. */
module PidEncapsulated {
  import opened PidLaw

  class PidController {
    var kp: real
    var ki: real
    var kd: real
    var dt: real
    var prevError: real
    var integral: real

    /** The tuning the controller was constructed with. */
    function Tuning(): PidLaw.Tuning
      reads this
    {
      PidLaw.Tuning(kp, ki, kd, dt)
    }

    /** The mutable state as a value. */
    function Memory(): PidLaw.Memory
      reads this
    {
      PidLaw.Memory(prevError, integral)
    }

    /** Stores the tuning unchanged and starts from zero state. */
    constructor (kp: real, ki: real, kd: real, dt: real)
      ensures this.kp == kp && this.ki == ki && this.kd == kd && this.dt == dt
      ensures prevError == 0.0 && integral == 0.0
      ensures Tuning() == PidLaw.Tuning(kp, ki, kd, dt) && Memory() == Zero
    {
      this.kp, this.ki, this.kd, this.dt := kp, ki, kd, dt;
      prevError, integral := 0.0, 0.0;
    }

    /** One control step. Only `prevError` and `integral` may change, so the
        tuning and every other object are left as they were. */
    method Step(setpoint: real, measured: real) returns (output: real)
      requires dt != 0.0
      modifies this`prevError, this`integral
      ensures prevError == setpoint - measured
      ensures integral == old(integral) + (setpoint - measured) * dt
      ensures output == kp * (setpoint - measured) + ki * integral
                        + kd * ((setpoint - measured) - old(prevError)) / dt
      ensures output == Output(Tuning(), old(Memory()), Sample(setpoint, measured))
      ensures Memory() == Next(old(Memory()), dt, Sample(setpoint, measured))
    {
      var error := setpoint - measured;
      var derivative := (error - prevError) / dt;

      integral := integral + error * dt;
      prevError := error;

      output := kp * error + ki * integral + kd * derivative;
    }

    /** Zeroes the state and keeps the tuning: the controller is then in the
        state a fresh one with the same tuning starts from. */
    method Reset()
      modifies this`prevError, this`integral
      ensures prevError == 0.0 && integral == 0.0
      ensures Memory() == Zero
    {
      prevError := 0.0;
      integral := 0.0;
    }
  }
}
