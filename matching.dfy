/** The per-image first-fit greedy matcher and the running counters it updates. */
module Matching {
  import opened Errors
  import opened Boxes
  import opened GroundTruth

  /** The script's running counters `ok`, `total_pred` and `total_true`. */
  datatype Tally = Tally(ok: nat, totalPred: nat, totalTrue: nat)

  /** Counter state inside one image: the `true_matched` flags and the two counters
      the prediction loop changes. */
  datatype MatchState = MatchState(matched: seq<bool>, ok: nat, totalPred: nat)

  /** `t` is the lowest-index ground-truth box that is still free and that `b` claims. */
  predicate LowestFree(truth: seq<Box>, matched: seq<bool>, b: Box, iou: Iou, t: nat)
    requires |matched| == |truth| && Scored(truth) && |b.probs| > 0
  {
    && t < |truth|
    && !matched[t]
    && Claims(truth[t], b, iou)
    && forall u :: 0 <= u < t ==> matched[u] || !Claims(truth[u], b, iou)
  }

  /** No free ground-truth box is claimed by `b`. */
  predicate NoneFree(truth: seq<Box>, matched: seq<bool>, b: Box, iou: Iou)
    requires |matched| == |truth| && Scored(truth) && |b.probs| > 0
  {
    forall u :: 0 <= u < |truth| ==> matched[u] || !Claims(truth[u], b, iou)
  }

  /** The scan of the ground-truth list from index `t` on: skip matched boxes, stop at
      the first one that `b` claims. */
  function FirstFitFrom(truth: seq<Box>, matched: seq<bool>, b: Box, iou: Iou, t: nat): (r: Option<nat>)
    requires |matched| == |truth| && Scored(truth) && |b.probs| > 0 && t <= |truth|
    ensures r.Some? ==> t <= r.value < |truth| && !matched[r.value] && Claims(truth[r.value], b, iou)
    ensures forall u :: t <= u < (if r.Some? then r.value else |truth|) ==>
              matched[u] || !Claims(truth[u], b, iou)
    decreases |truth| - t
  {
    if t == |truth| then None
    else if !matched[t] && Claims(truth[t], b, iou) then Some(t)
    else FirstFitFrom(truth, matched, b, iou, t + 1)
  }

  function FirstFit(truth: seq<Box>, matched: seq<bool>, b: Box, iou: Iou): Option<nat>
    requires |matched| == |truth| && Scored(truth) && |b.probs| > 0
  {
    FirstFitFrom(truth, matched, b, iou, 0)
  }

  /** The first-fit rule: the scan finds the lowest free claimable box, or none. */
  lemma FirstFitIsLowestFree(truth: seq<Box>, matched: seq<bool>, b: Box, iou: Iou)
    requires |matched| == |truth| && Scored(truth) && |b.probs| > 0
    ensures FirstFit(truth, matched, b, iou).None? <==> NoneFree(truth, matched, b, iou)
    ensures forall t: nat :: LowestFree(truth, matched, b, iou, t) <==> FirstFit(truth, matched, b, iou) == Some(t)
  {
    var r := FirstFit(truth, matched, b, iou);
    forall t: nat | LowestFree(truth, matched, b, iou, t)
      ensures r == Some(t)
    {
    }
  }

  /** One prediction of the loop: an empty score vector raises, a prediction below the
      threshold is skipped, a counted one claims the first free matching box. */
  function PredStep(st: MatchState, b: Box, truth: seq<Box>, iou: Iou): (r: Result<MatchState>)
    requires |st.matched| == |truth| && Scored(truth)
    ensures r.Err? <==> |b.probs| == 0
    ensures r.Ok? ==> |r.value.matched| == |truth|
  {
    if |b.probs| == 0 then Err(EmptyScores)
    else if !Counted(b) then Ok(st)
    else
      var ff := FirstFit(truth, st.matched, b, iou);
      if ff.None? then Ok(st.(totalPred := st.totalPred + 1))
      else Ok(MatchState(st.matched[ff.value := true], st.ok + 1, st.totalPred + 1))
  }

  /** What one prediction does to the counters and flags: nothing when it is below the
      threshold; otherwise one more counted prediction, and if some free box is
      claimable, exactly the lowest such box becomes matched and `ok` grows by one. */
  lemma PredStepEffect(st: MatchState, b: Box, truth: seq<Box>, iou: Iou)
    requires |st.matched| == |truth| && Scored(truth) && |b.probs| > 0
    ensures PredStep(st, b, truth, iou).Ok?
    ensures !Counted(b) ==> PredStep(st, b, truth, iou) == Ok(st)
    ensures Counted(b) && NoneFree(truth, st.matched, b, iou) ==>
              PredStep(st, b, truth, iou) == Ok(st.(totalPred := st.totalPred + 1))
    ensures forall t: nat :: Counted(b) && LowestFree(truth, st.matched, b, iou, t) ==>
              PredStep(st, b, truth, iou) == Ok(MatchState(st.matched[t := true], st.ok + 1, st.totalPred + 1))
  {
    FirstFitIsLowestFree(truth, st.matched, b, iou);
  }

  /** The prediction loop of one image, in list order, starting from `st`. */
  function MatchPreds(st: MatchState, preds: seq<Box>, truth: seq<Box>, iou: Iou): Result<MatchState>
    requires |st.matched| == |truth| && Scored(truth)
    decreases |preds|
  {
    if preds == [] then Ok(st)
    else
      var r := PredStep(st, preds[0], truth, iou);
      if r.Err? then r else MatchPreds(r.value, preds[1..], truth, iou)
  }

  lemma MatchPredsUnfold(st: MatchState, preds: seq<Box>, truth: seq<Box>, iou: Iou)
    requires |st.matched| == |truth| && Scored(truth)
    requires preds != [] && |preds[0].probs| > 0
    ensures MatchPreds(st, preds, truth, iou) == MatchPreds(PredStep(st, preds[0], truth, iou).value, preds[1..], truth, iou)
  {
  }

  /** Number of `true` flags. */
  function CountTrue(m: seq<bool>): nat
  {
    if m == [] then 0 else (if m[0] then 1 else 0) + CountTrue(m[1..])
  }

  /** Number of predictions at or above the threshold. */
  function CountCounted(preds: seq<Box>): nat
    requires Scored(preds)
  {
    if preds == [] then 0 else (if Counted(preds[0]) then 1 else 0) + CountCounted(preds[1..])
  }

  lemma {:induction false} CountTrueBound(m: seq<bool>)
    ensures CountTrue(m) <= |m|
  {
    if m != [] {
      CountTrueBound(m[1..]);
    }
  }

  lemma {:induction false} CountTrueSet(m: seq<bool>, t: nat)
    requires t < |m| && !m[t]
    ensures CountTrue(m[t := true]) == CountTrue(m) + 1
  {
    if t > 0 {
      assert m[t := true][1..] == m[1..][t - 1 := true];
      CountTrueSet(m[1..], t - 1);
    } else {
      assert m[t := true][1..] == m[1..];
    }
  }

  /** A prediction loop fails exactly when some prediction has no scores. */
  lemma {:induction false} MatchPredsFailsIffEmptyScores(st: MatchState, preds: seq<Box>, truth: seq<Box>, iou: Iou)
    requires |st.matched| == |truth| && Scored(truth)
    ensures MatchPreds(st, preds, truth, iou).Err? <==> !Scored(preds)
    ensures MatchPreds(st, preds, truth, iou).Err? ==> MatchPreds(st, preds, truth, iou).error == EmptyScores
    decreases |preds|
  {
    if preds != [] {
      var r := PredStep(st, preds[0], truth, iou);
      if r.Ok? {
        MatchPredsFailsIffEmptyScores(r.value, preds[1..], truth, iou);
        assert Scored(preds) <==> Scored(preds[1..]) by {
          assert forall i :: 1 <= i < |preds| ==> preds[i] == preds[1..][i - 1];
        }
      } else {
        assert |preds[0].probs| == 0;
      }
    }
  }

  /** Counter invariants of the prediction loop: flags are only ever set, `ok` grows by
      the number of newly set flags (so each ground-truth box is credited at most once),
      `totalPred` grows by the number of counted predictions, and `ok` never grows more
      than `totalPred`. */
  lemma {:induction false} MatchPredsCounters(st: MatchState, preds: seq<Box>, truth: seq<Box>, iou: Iou)
    requires |st.matched| == |truth| && Scored(truth) && Scored(preds)
    ensures MatchPreds(st, preds, truth, iou).Ok?
    ensures var r := MatchPreds(st, preds, truth, iou).value;
      && |r.matched| == |truth|
      && (forall t :: 0 <= t < |truth| && st.matched[t] ==> r.matched[t])
      && st.ok <= r.ok
      && r.ok - st.ok == CountTrue(r.matched) - CountTrue(st.matched)
      && r.totalPred == st.totalPred + CountCounted(preds)
      && r.ok - st.ok <= r.totalPred - st.totalPred
    decreases |preds|
  {
    if preds != [] {
      var b := preds[0];
      assert Scored(preds[1..]) by {
        assert forall i :: 0 <= i < |preds| - 1 ==> preds[1..][i] == preds[i + 1];
      }
      PredStepEffect(st, b, truth, iou);
      FirstFitIsLowestFree(truth, st.matched, b, iou);
      var s1 := PredStep(st, b, truth, iou).value;
      if Counted(b) {
        match FirstFit(truth, st.matched, b, iou)
        case Some(t) => CountTrueSet(st.matched, t);
        case None =>
      }
      MatchPredsCounters(s1, preds[1..], truth, iou);
    }
  }

  /** No ground-truth flag set yet (np.zeros). */
  function Unmatched(n: nat): seq<bool>
  {
    seq(n, _ => false)
  }

  lemma {:induction false} CountTrueUnmatched(n: nat)
    ensures CountTrue(Unmatched(n)) == 0
  {
    if n > 0 {
      assert Unmatched(n)[1..] == Unmatched(n - 1);
      CountTrueUnmatched(n - 1);
    }
  }

  /** One image of a flushed chunk: load its labels, add them to `totalTrue`, then run
      its predictions against them from all-unmatched flags. */
  function ImageStep(t: Tally, preds: seq<Box>, labels: LabelArray, n: nat, iou: Iou): Result<Tally>
  {
    GroundTruthScored(labels, n);
    var gt := GroundTruthBoxes(labels, n);
    if gt.Err? then Err(gt.error)
    else
      var truth := gt.value;
      var r := MatchPreds(MatchState(Unmatched(|truth|), t.ok, t.totalPred), preds, truth, iou);
      if r.Err? then Err(r.error) else Ok(Tally(r.value.ok, r.value.totalPred, t.totalTrue + |truth|))
  }

  /** Both counter invariants `ok <= totalPred` and `ok <= totalTrue`. */
  predicate Consistent(t: Tally)
  {
    t.ok <= t.totalPred && t.ok <= t.totalTrue
  }

  /** One image fails exactly when its labels are malformed or one of its predictions
      has no scores; otherwise `totalTrue` grows by the row count, `totalPred` by the
      number of counted predictions, `ok` by at most either of them, and no counter
      decreases. */
  lemma ImageStepCounters(t: Tally, preds: seq<Box>, labels: LabelArray, n: nat, iou: Iou)
    ensures ImageStep(t, preds, labels, n, iou).Err? <==>
              GroundTruthBoxes(labels, n).Err? || !Scored(preds)
    ensures ImageStep(t, preds, labels, n, iou).Ok? ==>
      var t' := ImageStep(t, preds, labels, n, iou).value;
      && t'.totalTrue == t.totalTrue + |AsRows(labels)|
      && t'.totalPred == t.totalPred + CountCounted(preds)
      && t.ok <= t'.ok
      && t'.ok - t.ok <= |AsRows(labels)|
      && t'.ok - t.ok <= t'.totalPred - t.totalPred
      && (Consistent(t) ==> Consistent(t'))
  {
    LabelRowsYieldOneBoxEach(labels, n);
    if GroundTruthBoxes(labels, n).Ok? {
      var truth := GroundTruthBoxes(labels, n).value;
      var st := MatchState(Unmatched(|truth|), t.ok, t.totalPred);
      MatchPredsFailsIffEmptyScores(st, preds, truth, iou);
      if Scored(preds) {
        MatchPredsCounters(st, preds, truth, iou);
        var ms := MatchPreds(st, preds, truth, iou).value;
        CountTrueUnmatched(|truth|);
        CountTrueBound(ms.matched);
      }
    }
  }

  /** The scan over the ground-truth list for one counted prediction (the inner loop):
      set the flag of the first free box the prediction claims and stop. */
  method ClaimFirstFit(trueMatched: array<bool>, truth: seq<Box>, b: Box, iou: Iou) returns (claimed: bool)
    requires trueMatched.Length == |truth| && Scored(truth) && |b.probs| > 0
    modifies trueMatched
    ensures match FirstFit(truth, old(trueMatched[..]), b, iou)
            case None => !claimed && trueMatched[..] == old(trueMatched[..])
            case Some(t) => claimed && trueMatched[..] == old(trueMatched[..])[t := true]
  {
    var t := 0;
    while t < |truth|
      invariant 0 <= t <= |truth|
      invariant trueMatched[..] == old(trueMatched[..])
      invariant FirstFitFrom(truth, trueMatched[..], b, iou, t) == FirstFit(truth, trueMatched[..], b, iou)
    {
      if trueMatched[t] {
        t := t + 1;
        continue;
      }
      if iou(truth[t], b) > MATCH_IOU && ArgMax(truth[t].probs) == ArgMax(b.probs) {
        trueMatched[t] := true;
        return true;
      }
      t := t + 1;
    }
    return false;
  }

  /** One pass of the prediction loop for a prediction with scores: skip it below the
      threshold, otherwise count it and let it claim a ground-truth box. */
  method CountPrediction(trueMatched: array<bool>, truth: seq<Box>, b: Box, iou: Iou, ok: nat, totalPred: nat)
    returns (ok': nat, totalPred': nat)
    requires trueMatched.Length == |truth| && Scored(truth) && |b.probs| > 0
    modifies trueMatched
    ensures PredStep(MatchState(old(trueMatched[..]), ok, totalPred), b, truth, iou)
         == Ok(MatchState(trueMatched[..], ok', totalPred'))
  {
    ok', totalPred' := ok, totalPred;
    if b.probs[ArgMax(b.probs)] < DETECTION_THRESHOLD {
      return;
    }
    ghost var ff := FirstFit(truth, trueMatched[..], b, iou);
    totalPred' := totalPred' + 1;
    var claimed := ClaimFirstFit(trueMatched, truth, b, iou);
    if claimed {
      ok' := ok' + 1;
    }
    assert claimed == ff.Some?;
  }

  /** The prediction loop of one image, in list order, over the flags in `trueMatched`. */
  method MatchPredictions(trueMatched: array<bool>, truth: seq<Box>, preds: seq<Box>, iou: Iou, ok0: nat, totalPred0: nat)
    returns (res: Result<MatchState>)
    requires trueMatched.Length == |truth| && Scored(truth)
    modifies trueMatched
    ensures res == MatchPreds(MatchState(old(trueMatched[..]), ok0, totalPred0), preds, truth, iou)
    ensures res.Ok? ==> res.value.matched == trueMatched[..]
  {
    var ok, totalPred := ok0, totalPred0;
    var k := 0;
    while k < |preds|
      invariant 0 <= k <= |preds|
      invariant MatchPreds(MatchState(trueMatched[..], ok, totalPred), preds[k..], truth, iou)
             == MatchPreds(MatchState(old(trueMatched[..]), ok0, totalPred0), preds, truth, iou)
    {
      var b := preds[k];
      assert preds[k..][0] == b && preds[k..][1..] == preds[k + 1..];
      if |b.probs| == 0 {
        return Err(EmptyScores);
      }
      MatchPredsUnfold(MatchState(trueMatched[..], ok, totalPred), preds[k..], truth, iou);
      ok, totalPred := CountPrediction(trueMatched, truth, b, iou, ok, totalPred);
      k := k + 1;
    }
    res := Ok(MatchState(trueMatched[..], ok, totalPred));
  }

  /** One image of a flushed chunk, as the script runs it: load the labels, add them to
      `totalTrue`, and run the predictions against fresh zeroed flags. */
  method ProcessImage(tally: Tally, preds: seq<Box>, labels: LabelArray, n: nat, iou: Iou)
    returns (res: Result<Tally>)
    ensures res == ImageStep(tally, preds, labels, n, iou)
  {
    var gt := LoadGroundTruth(labels, n);
    if gt.Err? {
      return Err(gt.error);
    }
    var boxesTrue := gt.value;
    GroundTruthScored(labels, n);
    var totalTrue := tally.totalTrue + |boxesTrue|;
    var trueMatched := new bool[|boxesTrue|](_ => false);
    assert trueMatched[..] == Unmatched(|boxesTrue|);
    var r := MatchPredictions(trueMatched, boxesTrue, preds, iou, tally.ok, tally.totalPred);
    if r.Err? {
      return Err(r.error);
    }
    res := Ok(Tally(r.value.ok, r.value.totalPred, totalTrue));
  }
}
