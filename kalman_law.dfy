/** The one-dimensional Kalman update on values: predict (P + Q), compute the
    gain, correct the estimate and the covariance. Both the legacy record and
    the encapsulated filter are specified by these functions. */
module KalmanLaw {

  /** Estimate `x`, error covariance `p`, process noise `q`, measurement noise `r`. */
  datatype Filter = Filter(x: real, p: real, q: real, r: real)

  /** The outputs of a run of updates and the filter left behind. */
  datatype Trace = Trace(estimates: seq<real>, final: Filter)

  /** The covariance after the predict stage. */
  function Predicted(f: Filter): real {
    f.p + f.q
  }

  /** The gain's denominator is non-zero. */
  predicate Solvable(f: Filter) {
    Predicted(f) + f.r != 0.0
  }

  /** Noise covariances that make a variance: P and Q non-negative, R positive. */
  predicate Sane(f: Filter) {
    f.p >= 0.0 && f.q >= 0.0 && f.r > 0.0
  }

  function Gain(f: Filter): real
    requires Solvable(f)
  {
    Predicted(f) / (Predicted(f) + f.r)
  }

  /** One update with measurement `z`. */
  function Update(f: Filter, z: real): (r: Filter)
    requires Solvable(f)
    // the update changes only the estimate and its covariance
    ensures r.q == f.q && r.r == f.r
  {
    var k := Gain(f);
    Filter(f.x + k * (z - f.x), (1.0 - k) * Predicted(f), f.q, f.r)
  }

  /** The update written independently, as the precision-weighted average of
      the old estimate and the measurement, and the covariance as the product
      over the sum of the predicted and the measurement covariance. */
  lemma {:induction false} UpdateWeightedForm(f: Filter, z: real)
    requires Solvable(f)
    ensures Update(f, z).x == (f.r * f.x + Predicted(f) * z) / (Predicted(f) + f.r)
    ensures Update(f, z).p == Predicted(f) * f.r / (Predicted(f) + f.r)
    ensures Update(f, z).q == f.q && Update(f, z).r == f.r
  {
    var pp, s := Predicted(f), Predicted(f) + f.r;
    var k := Gain(f);
    assert k * s == pp;
    assert (1.0 - k) * s == f.r;
    Quotient(1.0 - k, f.r, s);
    assert (f.x + k * (z - f.x)) * s == (s - pp) * f.x + pp * z;
    Quotient(f.x + k * (z - f.x), (s - pp) * f.x + pp * z, s);
  }

  /** Division undoes multiplication by a non-zero number. */
  lemma {:induction false} Quotient(a: real, b: real, c: real)
    requires c != 0.0 && a * c == b
    ensures a == b / c
  {
    assert (b / c) * c == b;
    assert (a - b / c) * c == 0.0;
  }

  /** With non-zero predicted and measurement covariance, information adds up:
      the new inverse covariance is the sum of the two inverse covariances. */
  lemma {:induction false} InformationAdds(f: Filter, z: real)
    requires Solvable(f) && Predicted(f) != 0.0 && f.r != 0.0
    ensures Update(f, z).p != 0.0
    ensures 1.0 / Update(f, z).p == 1.0 / Predicted(f) + 1.0 / f.r
  {
    var pp, s := Predicted(f), Predicted(f) + f.r;
    UpdateWeightedForm(f, z);
    var p' := Update(f, z).p;
    assert p' * s == pp * f.r;
    assert p' != 0.0;
    assert (1.0 / pp + 1.0 / f.r) * (pp * f.r) == s;
    assert (1.0 / p') * (pp * f.r) == s by {
      assert (1.0 / p') * p' == 1.0;
    }
  }

  /** With sane noise the gain lies in [0, 1). */
  lemma {:induction false} GainInUnitInterval(f: Filter)
    requires Sane(f)
    ensures Solvable(f)
    ensures 0.0 <= Gain(f) < 1.0
  {
    var pp, s := Predicted(f), Predicted(f) + f.r;
    assert s > 0.0;
    assert Gain(f) * s == pp;
  }

  /** With sane noise the updated covariance is non-negative and at most the
      predicted one, and strictly below it whenever the predicted one is
      positive. */
  lemma {:induction false} CovarianceShrinks(f: Filter, z: real)
    requires Sane(f)
    ensures Solvable(f)
    ensures 0.0 <= Update(f, z).p <= Predicted(f)
    ensures Predicted(f) > 0.0 ==> Update(f, z).p < Predicted(f)
  {
    GainInUnitInterval(f);
    var k := Gain(f);
    assert Update(f, z).p == (1.0 - k) * Predicted(f);
    assert 0.0 < 1.0 - k <= 1.0;
  }

  /** With sane noise the new estimate lies between the old estimate and the
      measurement; a measurement equal to the estimate leaves it unchanged. */
  lemma {:induction false} EstimateBetween(f: Filter, z: real)
    requires Sane(f)
    ensures Solvable(f)
    ensures f.x <= z ==> f.x <= Update(f, z).x <= z
    ensures z <= f.x ==> z <= Update(f, z).x <= f.x
    ensures z == f.x ==> Update(f, z).x == f.x
  {
    GainInUnitInterval(f);
    var k := Gain(f);
    var d := z - f.x;
    assert Update(f, z).x == f.x + k * d;
    if d >= 0.0 {
      assert 0.0 <= k * d <= d;
    } else {
      assert d <= k * d <= 0.0;
    }
  }

  /** Sane noise is kept by an update. */
  lemma {:induction false} UpdateKeepsSane(f: Filter, z: real)
    requires Sane(f)
    ensures Solvable(f) && Sane(Update(f, z))
  {
    CovarianceShrinks(f, z);
  }

  /** Every update of the sequence divides by a non-zero number. */
  predicate Defined(f: Filter, zs: seq<real>)
    decreases |zs|
  {
    zs == [] || (Solvable(f) && Defined(Update(f, zs[0]), zs[1..]))
  }

  /** Updates the filter once per measurement of `zs`; each update returns the
      new estimate, the noise covariances never change. */
  function Run(f: Filter, zs: seq<real>): (r: Trace)
    requires Defined(f, zs)
    ensures |r.estimates| == |zs|
    ensures r.final.q == f.q && r.final.r == f.r
    ensures zs != [] ==> r.estimates[|zs| - 1] == r.final.x
    ensures zs == [] ==> r.final == f
    decreases |zs|
  {
    if zs == [] then Trace([], f)
    else
      var g := Update(f, zs[0]);
      var rest := Run(g, zs[1..]);
      Trace([g.x] + rest.estimates, rest.final)
  }

  /** From sane noise every measurement sequence can be processed, and the
      covariance stays non-negative after any number of updates without ever
      exceeding the starting covariance plus the accumulated process noise. */
  lemma {:induction false} SaneRun(f: Filter, zs: seq<real>)
    requires Sane(f)
    ensures Defined(f, zs)
    ensures Sane(Run(f, zs).final)
    ensures Run(f, zs).final.p <= f.p + |zs| as real * f.q
    decreases |zs|
  {
    if zs != [] {
      var g := Update(f, zs[0]);
      CovarianceShrinks(f, zs[0]);
      SaneRun(g, zs[1..]);
      assert Run(f, zs).final == Run(g, zs[1..]).final;
      var n := |zs[1..]| as real;
      assert |zs| as real == n + 1.0;
      assert g.q == f.q && g.p <= f.p + f.q;
      calc {
        Run(f, zs).final.p;
        == Run(g, zs[1..]).final.p;
        <= g.p + n * g.q;
        == { assert n * g.q == n * f.q; }
        g.p + n * f.q;
        <= f.p + f.q + n * f.q;
        == f.p + (n + 1.0) * f.q;
        == f.p + |zs| as real * f.q;
      }
    }
  }

  /** A sequence of updates can be processed exactly when its first part can
      and the rest can from the filter the first part leaves behind; the run
      over the whole is the two runs one after the other. */
  lemma {:induction false} RunAppend(f: Filter, xs: seq<real>, ys: seq<real>)
    ensures Defined(f, xs + ys) <==> Defined(f, xs) && Defined(Run(f, xs).final, ys)
    ensures Defined(f, xs + ys) ==>
              Run(f, xs + ys) == Trace(Run(f, xs).estimates + Run(Run(f, xs).final, ys).estimates,
                                       Run(Run(f, xs).final, ys).final)
    decreases |xs|
  {
    if xs == [] {
      assert [] + ys == ys;
    } else {
      assert (xs + ys)[0] == xs[0];
      assert (xs + ys)[1..] == xs[1..] + ys;
      if Solvable(f) {
        RunAppend(Update(f, xs[0]), xs[1..], ys);
      }
    }
  }

  /** The run over the first i + 1 measurements extends the run over the
      first i by one update. */
  lemma {:induction false} RunSnoc(f: Filter, zs: seq<real>, i: nat)
    requires Defined(f, zs) && i < |zs|
    ensures Defined(f, zs[..i]) && Solvable(Run(f, zs[..i]).final) && Defined(f, zs[..i + 1])
    ensures Run(f, zs[..i + 1]).estimates ==
            Run(f, zs[..i]).estimates + [Update(Run(f, zs[..i]).final, zs[i]).x]
    ensures Run(f, zs[..i + 1]).final == Update(Run(f, zs[..i]).final, zs[i])
  {
    assert zs[..i + 1] + zs[i + 1..] == zs;
    RunAppend(f, zs[..i + 1], zs[i + 1..]);
    assert zs[..i] + [zs[i]] == zs[..i + 1];
    RunAppend(f, zs[..i], [zs[i]]);
    var before := Run(f, zs[..i]).final;
    assert [zs[i]][1..] == [];
    assert Run(before, [zs[i]]) == Trace([Update(before, zs[i]).x], Update(before, zs[i]));
  }
}
