/** The encapsulated Kalman filter: the same update rule held in an object,
    with read-only accessors for the estimate and the covariance. */
module KalmanEncapsulated {
  import opened KalmanLaw

  class KalmanFilter {
    var x: real
    var P: real
    var Q: real
    var R: real

    /** The object's fields as a value. */
    function Filter(): KalmanLaw.Filter
      reads this
    {
      KalmanLaw.Filter(x, P, Q, R)
    }

    /** Stores the four arguments verbatim. */
    constructor (initialX: real, initialP: real, Q: real, R: real)
      ensures x == initialX && P == initialP && this.Q == Q && this.R == R
    {
      x, P := initialX, initialP;
      this.Q, this.R := Q, R;
    }

    /** Predict, then correct with `measurement`; returns the new estimate,
        which `GetEstimate` reports from then on. Only `x` and `P` change. */
    method Update(measurement: real) returns (estimate: real)
      requires P + Q + R != 0.0
      modifies this`x, this`P
      ensures Filter() == KalmanLaw.Update(old(Filter()), measurement)
      ensures estimate == GetEstimate()
      ensures Q == old(Q) && R == old(R)
      ensures Sane(old(Filter())) ==> 0.0 <= GetCovariance() <= old(P) + Q
    {
      if Sane(Filter()) {
        CovarianceShrinks(Filter(), measurement);
      }
      // Predict
      P := P + Q;

      // Correct
      var K := P / (P + R);
      x := x + K * (measurement - x);
      P := (1.0 - K) * P;

      estimate := x;
    }

    /** The current estimate, x_ of the filter's state. */
    function GetEstimate(): (r: real)
      reads this
      ensures r == Filter().x
    {
      x
    }

    /** The current covariance, P_ of the filter's state. */
    function GetCovariance(): (r: real)
      reads this
      ensures r == Filter().p
    {
      P
    }
  }
}
