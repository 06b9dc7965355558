# Legacy and encapsulated estimators, and the S-Function bridge

This project models a small migration repository. It holds two recursive
estimators, each in two shapes that must behave identically:

- a single-axis PID controller, as a legacy C record (`PID_State`) with free
  procedures `PID_Init`, `PID_Step` and `PID_Reset`, and as a C++ class
  `PidController` with `step` and `reset`;
- a one-dimensional Kalman filter, as a legacy C record (`Kalman_State`) with
  `Kalman_Init` and `Kalman_Update`, and as a C++ class `KalmanFilter` with
  `update`, `getEstimate` and `getCovariance`;
- an opaque-handle bridge (`SFuncHandle`, `pid_bridge_create`,
  `pid_bridge_step`, `pid_bridge_destroy`). It lets a host that only knows a
  create/step/destroy calling convention drive a `PidController`.

Every `double` is a Dafny `real`. Both shapes do the same operations in the
same order, so the repository's 1e-10 tolerance becomes exact equality.

Layout, one module per file:

- `PidLaw` (`pid_law.dfy`) and `KalmanLaw` (`kalman_law.dfy`) give the update
  rules on values. `PidLaw.Next` and `PidLaw.Output` are one PID step, and
  `KalmanLaw.Update` is one filter update. `Run` in each module applies them
  over a sequence of inputs. The lemmas there state what the rules guarantee.
- `PidLegacy` and `KalmanLegacy` model the C records as classes. The C
  procedures are free methods that update the record in place.
- `PidEncapsulated` and `KalmanEncapsulated` model the C++ classes. Their
  methods may modify only the fields the source assigns, named field by field
  in `modifies`. `GetEstimate` and `GetCovariance` are functions that read
  `x`/`P` and return them.
- `SFuncBridge` models the handle. The handle holds a nullable controller
  reference and a ghost `live` flag.
- `Equivalence` turns the repository's equivalence tests, and the reset and
  independence properties, into methods:
  - `PidShapesAgree`, `PidClosedLoop` and `KalmanShapesAgree` run the legacy
    and the encapsulated shape side by side. Their loop invariants prove that
    the outputs agree at every step and match the law.
  - `KalmanTestScenario` instantiates `KalmanShapesAgree` with the test's
    tuning and ten measurements. It proves that no step divides by zero and
    that both shapes return the same ten estimates.
  - `ResetMatchesFresh` drives two encapsulated controllers, one reset after
    an arbitrary history and one fresh.
  - `BridgeMatchesDirect` drives a bridge handle beside a directly
    constructed controller.
  - `HandlesIndependent` drives two bridge handles in any interleaving.

Every step and update method (`PidStep`, `PidController.Step`, the bridge's
`Step`, `KalmanUpdate` and `KalmanFilter.Update`) ties its new state to the
law: `Memory() == Next(old(Memory()), …)` or `Filter() == Update(old(Filter()),
…)`, plus the returned value. So each lemma about the law is a statement about
both shapes.

A note on the covariance: it is tempting to read the Kalman update as
strictly reducing the uncertainty whenever R > 0. The code gives this only
when the predicted covariance P + Q is also positive. With P + Q == 0 the new
covariance is 0, the same value. `KalmanLaw.CovarianceShrinks` states what the
code does.

## Model

| member | source | states |
|---|---|---|
| `PidLegacy.PidInit` | legacy/pid_controller.c:12-16 | both fields of the record are 0 afterwards |
| `PidLegacy.PidStep` | legacy/pid_controller.c:18-28 | prev_error becomes setpoint - measured; integral gains error * dt; output is kp*e + ki*(new integral) + kd*(e - old prev_error)/dt; only the given record changes |
| `PidLegacy.PidReset` | legacy/pid_controller.c:30-34 | leaves the record in exactly the state `PidInit` produces |
| `PidEncapsulated.PidController.constructor` | include/pid/PidController.hpp:17-20 | stores kp, ki, kd, dt unchanged; prev_error_ and integral_ start at 0 |
| `PidEncapsulated.PidController.Step` | include/pid/PidController.hpp:22-31 | same update and output as the legacy step; its frame excludes the four tuning fields and every other object |
| `PidEncapsulated.PidController.Reset` | include/pid/PidController.hpp:33-37 | zeroes prev_error_ and integral_; the tuning is outside its frame |
| `KalmanLegacy.KalmanInit` | legacy/kalman_filter.c:9-16 | stores x, P, Q, R verbatim |
| `KalmanLegacy.KalmanUpdate` | legacy/kalman_filter.c:18-29 | the new record is the law's update of the old; Q and R unchanged; returns the new x; with sane noise 0 <= P' <= P + Q |
| `KalmanEncapsulated.KalmanFilter.constructor` | include/kalman/KalmanFilter.hpp:12-14 | stores x_, P_, Q_, R_ verbatim |
| `KalmanEncapsulated.KalmanFilter.GetEstimate` | include/kalman/KalmanFilter.hpp:29 | reads only the object and returns x_, the estimate of the filter's state |
| `KalmanEncapsulated.KalmanFilter.GetCovariance` | include/kalman/KalmanFilter.hpp:30 | reads only the object and returns P_, the covariance of the filter's state |
| `KalmanEncapsulated.KalmanFilter.Update` | include/kalman/KalmanFilter.hpp:16-30 | same update as the legacy one; only x_ and P_ change; the result equals `GetEstimate()` afterwards; with sane noise 0 <= `GetCovariance()` <= old P_ + Q_ |
| `SFuncBridge.Create` | bridge/pid_sfunc_bridge.cpp:29-34 | a fresh, live handle owning a fresh controller with the given tuning and zero state |
| `SFuncBridge.Step` | bridge/pid_sfunc_bridge.cpp:37-40 | requires a live handle; returns exactly the owned controller's step; changes only that controller's state fields; keeps the same controller and stays live |
| `SFuncBridge.Destroy` | bridge/pid_sfunc_bridge.cpp:43-47 | requires a live handle and leaves it not live, so use after destroy and double destroy are caller obligations |
| `PidLaw.Next` | legacy/pid_controller.c:21-25 | the new prev_error is setpoint - measured, and the integral grows by exactly that error times dt |
| `PidLaw.Output` | legacy/pid_controller.c:21-27 | defined for dt != 0; with ki = kd = 0 it is kp times the error; at rest (no error now or at the previous step) only ki times the stored integral remains |
| `PidLaw.Run` | legacy/pid_controller.c:18-28 | one output per sample; the integral left behind is the initial one plus dt times the sum of all errors; prev_error is the last sample's error |
| `PidLaw.RunOutputAt` | include/pid/PidController.hpp:22-31 | the k-th output of a run is one step from the memory the first k samples leave behind |
| `PidLaw.RunAppend` | legacy/pid_controller.c:18-28 | a run over xs + ys is the run over xs followed by a run over ys from the memory xs left: nothing but the two fields carries over |
| `PidLaw.RunSnoc` | legacy/pid_controller.c:18-28 | one more sample adds exactly one step's output and memory to a run |
| `KalmanLaw.Update` | legacy/kalman_filter.c:21-26 | defined when P + Q + R != 0; an update changes only x and P, never Q or R |
| `KalmanLaw.UpdateWeightedForm` | legacy/kalman_filter.c:21-26 | independent form of the update: x' = (R*x + Pp*z)/(Pp + R) and P' = Pp*R/(Pp + R) for Pp = P + Q; Q and R unchanged |
| `KalmanLaw.InformationAdds` | legacy/kalman_filter.c:21-26 | with Pp, R and Pp + R all non-zero: 1/P' = 1/Pp + 1/R |
| `KalmanLaw.GainInUnitInterval` | legacy/kalman_filter.c:21-24 | with P >= 0, Q >= 0, R > 0 the gain is defined and 0 <= K < 1 |
| `KalmanLaw.CovarianceShrinks` | legacy/kalman_filter.c:21-26 | with sane noise 0 <= P' <= P + Q, and P' < P + Q when P + Q > 0 |
| `KalmanLaw.EstimateBetween` | legacy/kalman_filter.c:24-25 | with sane noise x' lies between x and the measurement; a measurement equal to x leaves x unchanged |
| `KalmanLaw.UpdateKeepsSane` | legacy/kalman_filter.c:21-26 | sane noise (P >= 0, Q >= 0, R > 0) is preserved by an update |
| `KalmanLaw.Run` | legacy/kalman_filter.c:18-29 | one estimate per measurement; Q and R never change; the last estimate is the final x |
| `KalmanLaw.SaneRun` | include/kalman/KalmanFilter.hpp:16-27 | from sane noise every measurement sequence is processable, sanity (so P >= 0) holds after any number of updates, and P never exceeds P0 + n*Q |
| `KalmanLaw.RunAppend` | legacy/kalman_filter.c:18-29 | xs + ys is processable exactly when xs is and ys is from where xs ends; the run over it is the two runs in sequence |
| `KalmanLaw.RunSnoc` | legacy/kalman_filter.c:18-29 | one more measurement adds exactly one update to a run |
| `Equivalence.PidShapesAgree` | tests/test_pid_equivalence.cpp:41-51 | a freshly initialised record and a fresh controller with equal tuning return equal outputs on every input sequence, namely the law's |
| `Equivalence.PidClosedLoop` | tests/test_pid_equivalence.cpp:32-61 | in the test's closed loop (measured += legacy output * 0.01) both shapes return equal outputs at every step |
| `Equivalence.ResetMatchesFresh` | include/pid/PidController.hpp:17-37 | after any history and a reset, a controller returns what a fresh one with the same tuning returns, on every later input |
| `Equivalence.KalmanShapesAgree` | tests/test_kalman_equivalence.cpp:33-41 | a legacy record and a filter from the same initial values return equal estimates on every processable measurement sequence, namely the law's |
| `Equivalence.KalmanTestScenario` | tests/test_kalman_equivalence.cpp:17-35 | the test's tuning and ten measurements divide by zero nowhere, and both shapes return the same ten estimates |
| `Equivalence.BridgeMatchesDirect` | bridge/pid_sfunc_bridge.cpp:29-47 | create, one bridge step per sample, destroy: the handle returns what a directly constructed controller returns, call for call |
| `Equivalence.HandlesIndependent` | bridge/pid_sfunc_bridge.cpp:29-40 | two handles stepped in any interleaving own distinct controllers, and each returns exactly what it would return alone |

## Left out

- Floating point: `double` is `real`. Rounding and the 1e-10 tolerance of the tests are not modelled.
- Division by zero is a precondition, not behaviour: dt != 0 for a PID step, and P + Q + R != 0 for a Kalman update.
- Memory release: `pid_bridge_destroy` deletes the controller and the handle. The model only clears the ghost `live` flag. Allocation failure in `new` is not modelled either.
- Access control: the C++ fields are private, but Dafny has no private fields. The model gets the same effect from the frames: each method's `modifies` names only the fields the source assigns.
- Linkage: `extern "C"`, the header guards and the unused `<cstring>`/`<cstdlib>` includes are ABI details with no behaviour.
- Test output: the tests' `printf` reporting, pass/fail counters and exit codes are I/O. Their loops are kept as the `Equivalence` methods.
- Host scheduling: how the simulation host calls the bridge and manages the sample time happens outside these files.
