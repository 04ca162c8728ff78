/** Concrete runs of the evaluator on one or two images with a two-class label set. */
module Scenarios {
  import opened Errors
  import opened Boxes
  import opened GroundTruth
  import opened Matching
  import opened Metrics
  import opened Streaming

  /** A label file with one object of class 0 centred in the image. */
  const ROW: seq<real> := [0.0, 0.5, 0.5, 0.2, 0.2]

  /** The ground-truth box that ROW yields with two classes. */
  const TRUTH: Box := Box(OneHot(2, 0), 0.5, 0.5, 0.2, 0.2)

  /** A confident prediction of class 0 at the same place. */
  const HIT: Box := Box([0.9, 0.1], 0.5, 0.5, 0.2, 0.2)

  lemma TruthOfRow()
    ensures GroundTruthBoxes(Flat(ROW), 2) == Ok([TRUTH])
  {
    assert TruncToInt(ROW[0]) == 0;
    assert ClassSlot(0, 2) == Some(0);
    assert RowBox(ROW, 2) == Ok(TRUTH);
    assert [ROW][1..] == [];
    assert [] + [TRUTH] == [TRUTH];
    assert CollectBoxes([], [ROW], 2) == CollectBoxes([TRUTH], [], 2);
  }

  /** A run of one image is one flush of that image. */
  lemma SingleImageRun(img: Image, n: nat, iou: Iou)
    ensures Run([img], CHUNK_SIZE, n, iou) == ChunkStep(START, [img], n, iou)
    ensures FoldImages(Tally(0, 0, 0), [img], n, iou) == ImageStep(Tally(0, 0, 0), img.preds, img.labels, n, iou)
  {
    assert Chunks([img], CHUNK_SIZE) == [[img]];
    assert [[img]][1..] == [];
    var r := ChunkStep(START, [img], n, iou);
    assert RunChunks(START, [[img]], n, iou) == r by {
      if r.Ok? {
        assert RunChunks(START, [[img]], n, iou) == RunChunks(r.value, [], n, iou);
      }
    }
    SingleImageFold(img, n, iou);
  }

  /** A single-image run that completes, from the image's counters and report. */
  lemma SingleImageResult(img: Image, n: nat, iou: Iou, t: Tally, m: Report)
    requires ImageStep(Tally(0, 0, 0), img.preds, img.labels, n, iou) == Ok(t)
    requires RunningReport(t.ok, t.totalPred, t.totalTrue) == Ok(m)
    ensures Run([img], CHUNK_SIZE, n, iou) == Ok(RunState(t, 1, [m]))
  {
    SingleImageRun(img, n, iou);
    assert START.reports + [m] == [m];
  }

  lemma SingleImageFold(img: Image, n: nat, iou: Iou)
    ensures FoldImages(Tally(0, 0, 0), [img], n, iou) == ImageStep(Tally(0, 0, 0), img.preds, img.labels, n, iou)
  {
    assert [img][1..] == [];
  }

  /** The prediction loop over a single prediction. */
  lemma SinglePrediction(st: MatchState, b: Box, truth: seq<Box>, iou: Iou)
    requires |st.matched| == |truth| && Scored(truth)
    ensures MatchPreds(st, [b], truth, iou) == PredStep(st, b, truth, iou)
  {
    assert [b][1..] == [];
  }

  lemma HitScores()
    ensures ArgMax(HIT.probs) == 0 && Counted(HIT)
  {
    assert HIT.probs[..1] == [0.9];
  }

  /** The image holding HIT and ROW: one counted prediction that claims the box. */
  lemma HitMatchesTruth(iou: Iou)
    requires iou(TRUTH, HIT) > MATCH_IOU
    ensures ImageStep(Tally(0, 0, 0), [HIT], Flat(ROW), 2, iou) == Ok(Tally(1, 1, 1))
  {
    TruthOfRow();
    HitScores();
    ArgMaxOneHot(2, 0);
    var st := MatchState(Unmatched(1), 0, 0);
    assert FirstFit([TRUTH], st.matched, HIT, iou) == Some(0);
    SinglePrediction(st, HIT, [TRUTH], iou);
    assert Unmatched(1)[0 := true] == [true];
  }

  lemma PerfectReport()
    ensures RunningReport(1, 1, 1) == Ok(Report(1.0, 1.0, 1.0))
  {
    assert Precision(1, 1) == 1.0;
    assert Recall(1, 1) == Ok(1.0);
    var f := FScore(1.0, 1.0);
    assert 1.0 <= f <= 1.0;
  }

  /** A correct detection: one match, precision, recall and F-score all 1. */
  lemma SingleCorrectDetection(iou: Iou)
    requires iou(TRUTH, HIT) > MATCH_IOU
    ensures Run([Image([HIT], Flat(ROW))], CHUNK_SIZE, 2, iou)
         == Ok(RunState(Tally(1, 1, 1), 1, [Report(1.0, 1.0, 1.0)]))
  {
    HitMatchesTruth(iou);
    PerfectReport();
    SingleImageResult(Image([HIT], Flat(ROW)), 2, iou, Tally(1, 1, 1), Report(1.0, 1.0, 1.0));
  }

  /** The same box with the other class: counted but unmatched, all metrics 0. */
  lemma WrongClassDetection(iou: Iou)
    ensures Run([Image([Box([0.1, 0.9], 0.5, 0.5, 0.2, 0.2)], Flat(ROW))], CHUNK_SIZE, 2, iou)
         == Ok(RunState(Tally(0, 1, 1), 1, [Report(0.0, 0.0, 0.0)]))
  {
    var miss := Box([0.1, 0.9], 0.5, 0.5, 0.2, 0.2);
    TruthOfRow();
    ArgMaxOneHot(2, 0);
    assert miss.probs[..1] == [0.1];
    assert ArgMax(miss.probs) == 1;
    var st := MatchState(Unmatched(1), 0, 0);
    assert FirstFit([TRUTH], st.matched, miss, iou) == None;
    SinglePrediction(st, miss, [TRUTH], iou);
    assert ImageStep(Tally(0, 0, 0), [miss], Flat(ROW), 2, iou) == Ok(Tally(0, 1, 1));
    assert RunningReport(0, 1, 1) == Ok(Report(0.0, 0.0, 0.0));
    SingleImageResult(Image([miss], Flat(ROW)), 2, iou, Tally(0, 1, 1), Report(0.0, 0.0, 0.0));
  }

  /** A prediction below the threshold is not counted: precision is guarded to 0. */
  lemma NoConfidentDetection(iou: Iou)
    ensures Run([Image([Box([0.3, 0.2], 0.5, 0.5, 0.2, 0.2)], Flat(ROW))], CHUNK_SIZE, 2, iou)
         == Ok(RunState(Tally(0, 0, 1), 1, [Report(0.0, 0.0, 0.0)]))
  {
    var weak := Box([0.3, 0.2], 0.5, 0.5, 0.2, 0.2);
    TruthOfRow();
    assert weak.probs[..1] == [0.3];
    assert ArgMax(weak.probs) == 0;
    var st := MatchState(Unmatched(1), 0, 0);
    SinglePrediction(st, weak, [TRUTH], iou);
    assert ImageStep(Tally(0, 0, 0), [weak], Flat(ROW), 2, iou) == Ok(Tally(0, 0, 1));
    assert RunningReport(0, 0, 1) == Ok(Report(0.0, 0.0, 0.0));
    SingleImageResult(Image([weak], Flat(ROW)), 2, iou, Tally(0, 0, 1), Report(0.0, 0.0, 0.0));
  }

  /** A second object, of class 1, elsewhere in the image. */
  const ROW2: seq<real> := [1.0, 0.2, 0.2, 0.1, 0.1]

  const TRUTH2: Box := Box(OneHot(2, 1), 0.2, 0.2, 0.1, 0.1)

  lemma TruthOfTwoRows()
    ensures GroundTruthBoxes(Rows([ROW, ROW2]), 2) == Ok([TRUTH, TRUTH2])
  {
    assert TruncToInt(ROW[0]) == 0 && TruncToInt(ROW2[0]) == 1;
    assert RowBox(ROW, 2) == Ok(TRUTH);
    assert RowBox(ROW2, 2) == Ok(TRUTH2);
    assert [ROW, ROW2][1..] == [ROW2];
    assert [ROW2][1..] == [];
    assert [] + [TRUTH] == [TRUTH];
    assert CollectBoxes([], [ROW, ROW2], 2) == CollectBoxes([TRUTH], [ROW2], 2);
    assert [TRUTH] + [TRUTH2] == [TRUTH, TRUTH2];
    assert CollectBoxes([TRUTH], [ROW2], 2) == CollectBoxes([TRUTH, TRUTH2], [], 2);
  }

  /** Two objects and one prediction that claims the first: half the ground truth is
      found, precision is 1, recall 0.5 and the F-score 2/3. */
  lemma TwoTruthsOneDetection(iou: Iou)
    requires iou(TRUTH, HIT) > MATCH_IOU
    ensures Run([Image([HIT], Rows([ROW, ROW2]))], CHUNK_SIZE, 2, iou)
         == Ok(RunState(Tally(1, 1, 2), 1, [Report(1.0, 0.5, 2.0 / 3.0)]))
  {
    TruthOfTwoRows();
    HitScores();
    ArgMaxOneHot(2, 0);
    ArgMaxOneHot(2, 1);
    var st := MatchState(Unmatched(2), 0, 0);
    assert FirstFit([TRUTH, TRUTH2], st.matched, HIT, iou) == Some(0);
    SinglePrediction(st, HIT, [TRUTH, TRUTH2], iou);
    assert Unmatched(2)[0 := true] == [true, false];
    assert ImageStep(Tally(0, 0, 0), [HIT], Rows([ROW, ROW2]), 2, iou) == Ok(Tally(1, 1, 2));
    assert Recall(1, 2) == Ok(0.5);
    FScoreIsHarmonicMean(1.0, 0.5);
    assert RunningReport(1, 1, 2) == Ok(Report(1.0, 0.5, 2.0 / 3.0));
    SingleImageResult(Image([HIT], Rows([ROW, ROW2])), 2, iou, Tally(1, 1, 2), Report(1.0, 0.5, 2.0 / 3.0));
  }

  /** An empty label file: np.loadtxt gives an empty one-dimensional array, which is
      given one empty row, and reading its class column fails. */
  lemma EmptyLabelFileFails(k: nat, iou: Iou)
    requires k > 0
    ensures Run([Image([], Flat([]))], k, 2, iou) == Err(LabelRowWidth)
  {
    assert GroundTruthBoxes(Flat([]), 2) == Err(LabelRowWidth);
    assert ImageStep(Tally(0, 0, 0), [], Flat([]), 2, iou) == Err(LabelRowWidth);
    assert Chunks([Image([], Flat([]))], k) == [[Image([], Flat([]))]];
    assert FoldImages(Tally(0, 0, 0), [Image([], Flat([]))], 2, iou) == Err(LabelRowWidth);
    assert ChunkStep(START, [Image([], Flat([]))], 2, iou) == Err(LabelRowWidth);
    RunChunksStep(START, [[Image([], Flat([]))]], 2, iou);
  }

  /** An image whose label array is two-dimensional with no rows (an array np.loadtxt
      does not return for a label file), followed by one correct detection. */
  function EmptyThenHit(): seq<Image>
  {
    [Image([], Rows([])), Image([HIT], Flat(ROW))]
  }

  /** With a two-dimensional label array that has no rows, whether the unguarded recall
      aborts depends on the chunk size: one image per chunk divides by zero after the
      first flush, one chunk of both images completes. */
  lemma RecallAbortDependsOnChunkSize(iou: Iou)
    requires iou(TRUTH, HIT) > MATCH_IOU
    ensures Run(EmptyThenHit(), 1, 2, iou) == Err(ZeroGroundTruth)
    ensures Run(EmptyThenHit(), 2, 2, iou).Ok?
  {
    var imgs := EmptyThenHit();
    assert Chunks(imgs, 1)[0] == [imgs[0]];
    assert GroundTruthBoxes(Rows([]), 2) == Ok([]);
    assert ImageStep(Tally(0, 0, 0), [], Rows([]), 2, iou) == Ok(Tally(0, 0, 0));
    assert FoldImages(Tally(0, 0, 0), [imgs[0]], 2, iou) == Ok(Tally(0, 0, 0));
    HitMatchesTruth(iou);
    assert Chunks(imgs, 2) == [imgs];
    assert [imgs][1..] == [];
    assert imgs[1..] == [Image([HIT], Flat(ROW))];
    assert FoldImages(Tally(0, 0, 0), imgs, 2, iou) == Ok(Tally(1, 1, 1));
  }

  /** A run whose only label array is two-dimensional with no rows never has ground
      truth to divide by. */
  lemma NoGroundTruthAborts(iou: Iou)
    ensures Run([Image([], Rows([]))], CHUNK_SIZE, 2, iou) == Err(ZeroGroundTruth)
  {
    SingleImageRun(Image([], Rows([])), 2, iou);
    assert GroundTruthBoxes(Rows([]), 2) == Ok([]);
    assert ImageStep(Tally(0, 0, 0), [], Rows([]), 2, iou) == Ok(Tally(0, 0, 0));
  }
}
