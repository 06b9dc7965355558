/** The opaque-handle bridge: a host that only knows a create/step/destroy
    calling convention drives an encapsulated PID controller through a handle
    that exclusively owns it. Destruction is modelled by a ghost liveness flag;
    the memory itself is not released. */
module SFuncBridge {
  import opened PidLaw
  import opened PidEncapsulated

  /** The handle. Its fields are arbitrary until `Create` assigns them (in the
      C++ struct, value-initialisation makes the pointer nullptr). */
  class SFuncHandle {
    var controller: PidController?
    /** True from `Create` until `Destroy`. */
    ghost var live: bool

    /** A handle the host may still step or destroy. */
    ghost predicate Live()
      reads this
    {
      live && controller != null
    }
  }

  /** Allocates a handle and a controller with the given tuning and zero state,
      both new, so no other handle or controller shares them. */
  method Create(kp: real, ki: real, kd: real, dt: real) returns (h: SFuncHandle)
    ensures fresh(h) && h.Live() && fresh(h.controller)
    ensures h.controller.Tuning() == Tuning(kp, ki, kd, dt)
    ensures h.controller.Memory() == Zero
  {
    h := new SFuncHandle;
    h.controller := new PidController(kp, ki, kd, dt);
    h.live := true;
  }

  /** Forwards one step to the owned controller. Only that controller's two
      state fields change; the handle keeps its controller and stays live. */
  method Step(h: SFuncHandle, setpoint: real, measured: real) returns (output: real)
    requires h.Live() && h.controller.dt != 0.0
    modifies h.controller`prevError, h.controller`integral
    ensures h.Live() && h.controller == old(h.controller)
    ensures output == Output(old(h.controller.Tuning()), old(h.controller.Memory()), Sample(setpoint, measured))
    ensures h.controller.Tuning() == old(h.controller.Tuning())
    ensures h.controller.Memory() == Next(old(h.controller.Memory()), h.controller.dt, Sample(setpoint, measured))
  {
    output := h.controller.Step(setpoint, measured);
  }

  /** Ends the handle's life; stepping or destroying it again is ruled out by
      the `Live` precondition of both. */
  method Destroy(h: SFuncHandle)
    requires h.Live()
    modifies h`live
    ensures !h.Live()
  {
    h.live := false;
  }
}
