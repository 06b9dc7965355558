/** The legacy procedural Kalman filter: a caller-owned record of four fields
    updated in place by free procedures. */
module KalmanLegacy {
  import opened KalmanLaw

  /** The state record; `KalmanInit` must run before the first update. */
  class KalmanState {
    var x: real
    var P: real
    var Q: real
    var R: real

    /** Allocates the record, as a C declaration does, without giving its
        fields any particular values. */
    constructor ()
    {
    }

    /** The record's contents as a value. */
    function Filter(): KalmanLaw.Filter
      reads this
    {
      KalmanLaw.Filter(x, P, Q, R)
    }
  }

  /** Stores the four arguments verbatim. */
  method KalmanInit(state: KalmanState, initialX: real, initialP: real, Q: real, R: real)
    modifies state
    ensures state.x == initialX && state.P == initialP && state.Q == Q && state.R == R
  {
    state.x := initialX;
    state.P := initialP;
    state.Q := Q;
    state.R := R;
  }

  /** Predict, then correct with `measurement`; returns the new estimate. Only
      `x` and `P` change. */
  method KalmanUpdate(state: KalmanState, measurement: real) returns (estimate: real)
    requires state.P + state.Q + state.R != 0.0
    modifies state`x, state`P
    ensures state.Filter() == Update(old(state.Filter()), measurement)
    ensures estimate == state.x
    ensures state.Q == old(state.Q) && state.R == old(state.R)
    ensures Sane(old(state.Filter())) ==> 0.0 <= state.P <= old(state.P) + state.Q
  {
    if Sane(state.Filter()) {
      CovarianceShrinks(state.Filter(), measurement);
    }
    // Predict
    state.P := state.P + state.Q;

    // Correct
    var K := state.P / (state.P + state.R);
    state.x := state.x + K * (measurement - state.x);
    state.P := (1.0 - K) * state.P;

    estimate := state.x;
  }
}
