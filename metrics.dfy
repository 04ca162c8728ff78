/** Running precision, recall and F-score, recomputed after every flushed chunk. */
module Metrics {
  import opened Errors

  /** One line group of the running report: precision, recall, F-score. */
  datatype Report = Report(precision: real, recall: real, fscore: real)

  /** Precision is guarded: no counted prediction gives 0, otherwise the ratio. */
  function Precision(ok: nat, totalPred: nat): (p: real)
    ensures totalPred == 0 ==> p == 0.0
    ensures ok <= totalPred ==> 0.0 <= p <= 1.0
  {
    if totalPred == 0 then 0.0 else ok as real / totalPred as real
  }

  /** With a counted prediction, precision is the share of counted predictions that
      found a box. */
  lemma PrecisionIsRatio(ok: nat, totalPred: nat)
    requires totalPred > 0
    ensures Precision(ok, totalPred) * totalPred as real == ok as real
  {
  }

  /** Recall is not guarded: zero ground truth is a division by zero. */
  function Recall(ok: nat, totalTrue: nat): (r: Result<real>)
    ensures r.Err? <==> totalTrue == 0
    ensures r.Err? ==> r.error == ZeroGroundTruth
    ensures r.Ok? && ok <= totalTrue ==> 0.0 <= r.value <= 1.0
  {
    if totalTrue == 0 then Err(ZeroGroundTruth) else Ok(ok as real / totalTrue as real)
  }

  /** With ground truth present, recall is the share of ground-truth boxes found. */
  lemma RecallIsRatio(ok: nat, totalTrue: nat)
    requires totalTrue > 0
    ensures Recall(ok, totalTrue).Ok?
    ensures Recall(ok, totalTrue).value * totalTrue as real == ok as real
  {
  }

  /** The F-score, guarded against p + r == 0. For non-negative p and r it lies between
      the two and is zero exactly when one of them is. */
  function FScore(p: real, r: real): (f: real)
    ensures p + r == 0.0 ==> f == 0.0
    ensures 0.0 <= p && 0.0 <= r ==>
              (p <= r ==> p <= f <= r) && (r <= p ==> r <= f <= p) && (f == 0.0 <==> p == 0.0 || r == 0.0)
  {
    if p + r == 0.0 then 0.0
    else
      var f := 2.0 * p * r / (p + r);
      HarmonicMeanBetween(p, r, f);
      f
  }

  /** Away from the guard the F-score is the harmonic mean 2pr / (p + r). */
  lemma FScoreIsHarmonicMean(p: real, r: real)
    requires p + r != 0.0
    ensures FScore(p, r) * (p + r) == 2.0 * p * r
  {
  }

  lemma CancelPositive(a: real, b: real, c: real)
    requires c > 0.0 && a * c <= b * c
    ensures a <= b
  {
  }

  lemma MulMonotone(a: real, b: real, c: real)
    requires a <= b && 0.0 <= c
    ensures a * c <= b * c
  {
  }

  lemma HarmonicLower(a: real, b: real, f: real)
    requires 0.0 <= a <= b && a + b > 0.0 && f * (a + b) == 2.0 * a * b
    ensures a <= f
  {
    MulMonotone(a, b, a);
    assert a * (a + b) == a * a + a * b;
    CancelPositive(a, f, a + b);
  }

  lemma HarmonicUpper(a: real, b: real, f: real)
    requires 0.0 <= a <= b && a + b > 0.0 && f * (a + b) == 2.0 * a * b
    ensures f <= b
  {
    MulMonotone(a, b, b);
    assert b * (a + b) == a * b + b * b;
    CancelPositive(f, b, a + b);
  }

  lemma HarmonicMeanBetween(p: real, r: real, f: real)
    requires p + r != 0.0
    requires f == 2.0 * p * r / (p + r)
    ensures 0.0 <= p && 0.0 <= r ==>
              (p <= r ==> p <= f <= r) && (r <= p ==> r <= f <= p) && (f == 0.0 <==> p == 0.0 || r == 0.0)
  {
    assert f * (p + r) == 2.0 * p * r;
    if 0.0 <= p && 0.0 <= r {
      if p <= r {
        HarmonicLower(p, r, f);
        HarmonicUpper(p, r, f);
      }
      if r <= p {
        assert f * (r + p) == 2.0 * r * p;
        HarmonicLower(r, p, f);
        HarmonicUpper(r, p, f);
      }
      if f == 0.0 {
        assert p * r == 0.0;
      }
    }
  }

  /** The metrics computed after a flush from the cumulative counters; the only failure
      is the unguarded recall. */
  function RunningReport(ok: nat, totalPred: nat, totalTrue: nat): (res: Result<Report>)
    ensures res.Err? <==> totalTrue == 0
    ensures res.Ok? && ok <= totalPred && ok <= totalTrue ==>
              var m := res.value;
              0.0 <= m.precision <= 1.0 && 0.0 <= m.recall <= 1.0 && 0.0 <= m.fscore <= 1.0
  {
    var p := Precision(ok, totalPred);
    var r := Recall(ok, totalTrue);
    if r.Err? then Err(r.error) else Ok(Report(p, r.value, FScore(p, r.value)))
  }
}
