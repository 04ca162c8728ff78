# Detection F-score evaluator — Dafny model

`code/eval_detection_fscore.py` evaluates a trained traffic-sign or vehicle detector
(YOLO, tiny-YOLO or SSD) on a directory of images. This project models the evaluation
engine of that script, lines 78–154:

- **Ground-truth construction.** Each image has a label file. Every row
  `class x y w h` of that file becomes one box whose score vector is one-hot at the
  row's class index (assuming `BoundBox(n)` starts with zero scores; see "Left out").
- **First-fit greedy matcher.** Each prediction whose best-class score reaches the
  detection threshold 0.6 is counted. It then claims the lowest-index ground-truth box
  that is still free, whose IoU with it is above 0.5 and whose argmax class equals its
  own. The `true_matched` flags make sure no ground-truth box is credited twice.
- **Running counters.** `ok`, `total_pred` and `total_true` persist across the whole
  run.
- **Chunked streaming loop.** Images are buffered. The buffer is flushed when its length
  is a multiple of 128 or when the last image has been appended. Every flush matches
  the buffered images in order and recomputes the running precision, recall and
  F-score from the cumulative counters.
- **Metrics and their guards.** Precision is 0 when nothing was counted. The F-score
  is 0 when `p + r == 0`. Recall has no guard, so a flush with no ground truth so far
  is a division by zero.

Modules, one file each:

| file | module | what it holds |
|---|---|---|
| `errors.dfy` | `Errors` | the error cases of the script (`Error`), plus `Result` and `Option` |
| `boxes.dfy` | `Boxes` | `Box`, `np.argmax`, the detection threshold, the claim rule |
| `ground_truth.dfy` | `GroundTruth` | label array to one-hot boxes (spec functions and the `LoadGroundTruth` loop) |
| `matching.dfy` | `Matching` | the per-image matcher: spec functions, then the loops over a `true_matched` array |
| `metrics.dfy` | `Metrics` | precision, recall, F-score and the running report |
| `streaming.dfy` | `Streaming` | chunks, the run as a fold over chunks, the `Evaluate` buffer loop |
| `scenarios.dfy` | `Scenarios` | concrete one- and two-image runs |

How the layers fit together:

- Each imperative loop of the script is a method proved equal to a specification
  function:
  - `Evaluate` equals `Run`;
  - `FlushChunk` equals `ChunkStep`;
  - `ProcessImage` equals `ImageStep`;
  - `MatchPredictions` equals `MatchPreds` and leaves its flags in the array;
  - `LoadGroundTruth` equals `GroundTruthBoxes`.
- The properties are lemmas about those functions.
- Every exception the modelled inputs can raise becomes an `Err` value:
  - `np.argmax` of an empty score vector;
  - a label row of the wrong width;
  - a class index out of range;
  - recall with no ground truth;
  - no images at all.
- The IoU of two boxes is a parameter `iou: (Box, Box) -> real`, because `box_iou`
  is not part of this model.
- The number of classes `n` is a parameter, as is the chunk size (128 in the script).

Points where the model follows the code literally:

- `int()` truncates toward zero. A negative index `k` in `-n..-1` selects slot `k + n`,
  as Python indexing does (`bx.probs[int(gt[j, 0])]`, line 119).
- An empty label file gives an empty one-dimensional array. Line 116 gives it one
  (empty) row, which then fails on its class column (`LabelRowWidth`).
- The error order inside a row is: an empty row fails on `gt[j, 0]`, an
  out-of-range class fails on `probs[...]`, and a width other than 5 fails on the
  four-way unpacking of line 120.
- The skip test of line 126 is `score < 0.6`, so a best score of exactly 0.6 is counted.
- The inner `for i, img_path in enumerate(img_paths)` (line 106) rebinds the outer `i`.
  This has no effect: the flush condition on line 96 is evaluated before the inner
  loop, and the next `enumerate` step rebinds `i`. The model keeps one index.

## Model

| member | source | states |
|---|---|---|
| Boxes.ArgMax | code/eval_detection_fscore.py:126 | `np.argmax`: a valid index of a maximal score, and the first one (every earlier score is strictly smaller) |
| Boxes.CountedIffSomeScoreReaches | code/eval_detection_fscore.py:126-128 | a prediction is counted iff some class score is >= 0.6: the threshold is inclusive |
| GroundTruth.TruncTowardZero | code/eval_detection_fscore.py:119 | `int()` of a float rounds toward zero: down for non-negative values, up for negative ones |
| GroundTruth.ClassSlot | code/eval_detection_fscore.py:119 | a Python index is valid iff `-n <= k < n`; it selects slot `k` or, when negative, `k + n` |
| GroundTruth.ArgMaxOneHot | code/eval_detection_fscore.py:118-119 | the argmax of a one-hot vector is its hot slot |
| GroundTruth.RowBoxSpec | code/eval_detection_fscore.py:117-121 | a label row yields a box iff it is 5 wide with an in-range class; that box has n scores, its argmax class is the row's class (its truncation when non-negative) and its geometry is the row's last four columns; an empty row is a width error |
| GroundTruth.CollectBoxesSpec | code/eval_detection_fscore.py:117-121 | the row loop succeeds iff every row yields a box; it then appends exactly one box per row, in row order |
| GroundTruth.LabelRowsYieldOneBoxEach | code/eval_detection_fscore.py:114-121 | a label file yields boxes iff every row does; then one box per row with the row's class and geometry, and a one-dimensional file yields exactly one box |
| GroundTruth.GroundTruthScored | code/eval_detection_fscore.py:117-121 | every ground-truth box has a score vector, so the matcher's argmax of it exists |
| GroundTruth.LoadGroundTruth | code/eval_detection_fscore.py:112-121 | the loop building `boxes_true` computes exactly the ground-truth boxes of the label array, or its error |
| Matching.FirstFitFrom | code/eval_detection_fscore.py:129-135 | the scan from `t` returns a free, claimable box at or after `t`, and every box it passed is either matched or not claimable |
| Matching.FirstFitIsLowestFree | code/eval_detection_fscore.py:129-135 | first-fit rule: the scan finds `t` iff `t` is the lowest free box the prediction claims, and finds none iff no free box is claimable |
| Matching.PredStep | code/eval_detection_fscore.py:125-135 | one prediction fails iff its score vector is empty; otherwise the flags keep their length |
| Matching.PredStepEffect | code/eval_detection_fscore.py:125-135 | a prediction below the threshold changes nothing; a counted one adds 1 to `total_pred` and, when it claims lowest free box `t`, sets flag `t` and adds 1 to `ok` |
| Matching.CountTrueBound | code/eval_detection_fscore.py:124 | the number of set flags is at most the number of ground-truth boxes |
| Matching.CountTrueSet | code/eval_detection_fscore.py:133 | setting a clear flag adds exactly one to the number of set flags |
| Matching.CountTrueUnmatched | code/eval_detection_fscore.py:124 | the `np.zeros` flags start with none set |
| Matching.MatchPredsFailsIffEmptyScores | code/eval_detection_fscore.py:125-126 | the prediction loop fails iff some prediction has an empty score vector, and the error is then `EmptyScores` |
| Matching.MatchPredsCounters | code/eval_detection_fscore.py:124-135 | over the loop the flags are only ever set, `ok` grows by exactly the number of newly set flags, `total_pred` by the number of counted predictions, and `ok` by no more than `total_pred` |
| Matching.ImageStepCounters | code/eval_detection_fscore.py:112-135 | an image fails iff its labels are malformed or a prediction has no scores; otherwise `total_true` grows by its row count, `total_pred` by its counted predictions, `ok` by at most either, and `ok <= total_pred`, `ok <= total_true` are preserved |
| Matching.ClaimFirstFit | code/eval_detection_fscore.py:129-135 | the inner loop over `true_matched` sets exactly the flag the first-fit rule picks, reports whether it did, and changes nothing else |
| Matching.CountPrediction | code/eval_detection_fscore.py:126-135 | one pass of the prediction loop updates the array and the two counters exactly as one prediction step does |
| Matching.MatchPredictions | code/eval_detection_fscore.py:125-135 | the prediction loop over the array computes the prediction loop of the model, and on success the array holds its final flags |
| Matching.ProcessImage | code/eval_detection_fscore.py:112-135 | one image of a flush (labels, fresh `np.zeros` flags, prediction loop) computes the image step of the model, or its error |
| Metrics.Precision | code/eval_detection_fscore.py:147 | precision is 0 when nothing was counted, and lies in [0, 1] when `ok <= total_pred` |
| Metrics.PrecisionIsRatio | code/eval_detection_fscore.py:147 | with a counted prediction, precision times `total_pred` is `ok` |
| Metrics.Recall | code/eval_detection_fscore.py:148 | recall fails iff `total_true == 0` (no guard), with `ZeroGroundTruth`; otherwise it lies in [0, 1] when `ok <= total_true` |
| Metrics.RecallIsRatio | code/eval_detection_fscore.py:148 | with ground truth, recall times `total_true` is `ok` |
| Metrics.FScore | code/eval_detection_fscore.py:151 | 0 when `p + r == 0`; for non-negative p and r it lies between them and is 0 iff one of them is |
| Metrics.FScoreIsHarmonicMean | code/eval_detection_fscore.py:151 | away from the guard, `f * (p + r) == 2 p r` |
| Metrics.RunningReport | code/eval_detection_fscore.py:146-151 | the running report fails iff there is no ground truth yet; with consistent counters all three metrics lie in [0, 1] |
| Streaming.ChunksPartition | code/eval_detection_fscore.py:89-96 | the flushed chunks concatenate to the image list in order, are non-empty and at most the chunk size long, all but the last are exactly the chunk size, and their number `c` satisfies `(c - 1) k < N <= c k`, i.e. `c == ceil(N / k)` |
| Streaming.ChunksHead | code/eval_detection_fscore.py:96 | a full buffer, or one that ends at the last image, is exactly the first chunk of what is left |
| Streaming.ModOfPositiveUpTo | code/eval_detection_fscore.py:96 | for a buffer of 1..k images, `len % k == 0` iff the buffer is full |
| Streaming.FoldImagesAppend | code/eval_detection_fscore.py:106-135 | processing `a + b` image by image is processing `a` and then `b` from the result |
| Streaming.FoldImagesCounters | code/eval_detection_fscore.py:82-84 | across images the counters never decrease, `total_true` grows by the number of label rows, and `ok <= total_pred`, `ok <= total_true` are preserved |
| Streaming.RunChunksFacts | code/eval_detection_fscore.py:96-151 | completed flushes add one iteration and one report each, keep the earlier reports, give the counters of processing all their images in order, never decrease a counter, and the last report is computed from the final counters |
| Streaming.FlushIsNextChunk | code/eval_detection_fscore.py:96-144 | flushing the buffer either fails the whole run with the same error or leaves the rest of the run to the remaining images |
| Streaming.RunChunksSucceeds | code/eval_detection_fscore.py:148 | if all images process without error and every label array has a row, no flush divides by zero |
| Streaming.EvaluationSummary | code/eval_detection_fscore.py:89-154 | a completed run makes `ceil(N / k)` flushes with one report each; its counters are those of processing every image once in order; they are consistent; `total_true` is the total row count; the final report is computed from the final counters and lies in [0, 1]; runs whose images all process and have a row always complete |
| Streaming.CompletionIndependentOfChunkSize | code/eval_detection_fscore.py:80 | when every label array has a row, a run completes with one chunk size iff it completes with any other |
| Streaming.FinalCountsIndependentOfChunkSize | code/eval_detection_fscore.py:80 | any two chunk sizes that complete end with the same counters and the same final precision, recall and F-score |
| Streaming.FlushChunk | code/eval_detection_fscore.py:96-151 | the body of one flush (each buffered image in order, then the running report) computes one chunk step of the model |
| Streaming.FlushBuffer | code/eval_detection_fscore.py:96-144 | a flush as the loop performs it either fails the whole run or leaves the rest of the run to the remaining images |
| Streaming.Evaluate | code/eval_detection_fscore.py:74-154 | the buffering loop with its flush condition (length a multiple of the chunk size, or last image) computes the whole run of the model: no images is an error, otherwise the flushes of the chunks in order |
| Scenarios.TruthOfRow | code/eval_detection_fscore.py:114-121 | the label row `0 0.5 0.5 0.2 0.2` yields one class-0 box at that place |
| Scenarios.SingleImageRun | code/eval_detection_fscore.py:96 | a run of one image is a single flush of that image |
| Scenarios.SingleCorrectDetection | code/eval_detection_fscore.py:125-151 | one correct detection: counters (1, 1, 1), one flush, precision, recall and F-score all 1 |
| Scenarios.WrongClassDetection | code/eval_detection_fscore.py:132 | the same geometry with the wrong class is counted but not matched: counters (0, 1, 1), all metrics 0 |
| Scenarios.NoConfidentDetection | code/eval_detection_fscore.py:126-127 | a prediction whose best score is below 0.6 is not counted: precision is guarded to 0, recall and F-score are 0 |
| Scenarios.TruthOfTwoRows | code/eval_detection_fscore.py:114-121 | a two-row label file yields its two boxes in row order |
| Scenarios.TwoTruthsOneDetection | code/eval_detection_fscore.py:123-151 | two objects and one detection of the first: counters (1, 1, 2), precision 1, recall 0.5, F-score 2/3 |
| Scenarios.RecallAbortDependsOnChunkSize | code/eval_detection_fscore.py:148 | an image whose label array is two-dimensional with no rows, followed by a correct detection, aborts with chunk size 1 but completes with chunk size 2 |
| Scenarios.NoGroundTruthAborts | code/eval_detection_fscore.py:148 | a run whose only label array is two-dimensional with no rows ends in the recall division by zero |
| Scenarios.EmptyLabelFileFails | code/eval_detection_fscore.py:114-119 | an empty label file (an empty one-dimensional array, given one empty row at line 116) fails on its class column for every chunk size |

## Left out

- Decoding of the network output (`yolo_postprocess_net_out`, `BBoxUtility.detection_out`, lines 107–111) and non-maximum suppression are not part of this model. The predicted boxes of each image are an input. The NMS threshold of line 17 is therefore unused.
- `box_iou` is not part of this model. The IoU is a parameter of every operation, so IoU symmetry and its values on identical or disjoint boxes are not stated.
- Image loading and resizing (lines 90–93), `model.predict` (line 100), timing, `fps`, `mean_fps` and the average fps of line 161 are left out: they are I/O, a clock and a foreign model call. `mean_fps` feeds no counter or metric.
- Command-line parsing, the dataset and model tables and weight loading (lines 21–72) are left out. The class count `n` is a parameter.
- The directory listing of line 70 is left out. The image list is an input, in the order `os.listdir` would give.
- The printed running and final reports and the `evaluation.txt` file (lines 103, 149–152, 156–171) are left out. The model instead keeps the list of running reports. The final values printed at lines 158–160 are the last running report.
- `np.loadtxt` parsing is left out. The label file is taken as its parsed array, one- or two-dimensional (`LabelArray`).
- A two-dimensional `Rows` array may hold rows of unequal width. `loadtxt` rejects such a file itself, while the model fails on the first bad row, with `ClassIndexOutOfRange` or `LabelRowWidth` as lines 119–120 would for that row.
- A file holding a single number makes `np.loadtxt` return a zero-dimensional array. The script then fails on `gt.shape[0]` at line 117. `LabelArray` cannot express that array, so the model has no such input.
- `np.loadtxt` never returns a two-dimensional array with no rows: an empty file gives `Flat([])`, which fails at line 119 (`Scenarios.EmptyLabelFileFails`). So on label files the script can read, every label array has a row, `ZeroGroundTruth` is not reachable, and whether a run completes does not depend on the chunk size (`Streaming.CompletionIndependentOfChunkSize`). `Rows([])` is kept in the model only to show the unguarded division of line 148.
- Floats are modelled as exact reals and counters as naturals. Rounding is not modelled, and neither is the fact that 0.6 is not exact in binary floating point. NaN and infinite values are not modelled. That covers a NaN prediction score, and a NaN or infinite class column, on which `int()` at line 119 raises.
- `BoundBox(n)` (line 118) is assumed to start with an `n`-vector of zero scores. Its definition, in the `tools/` package imported at line 12, is not part of this model. `GroundTruth.OneHot`, `GroundTruth.RowBoxSpec` and `GroundTruth.LabelRowsYieldOneBoxEach` rest on this assumption. Here `n` is `len(classes)`, without the SSD background slot of line 47.
- Each image's predicted boxes are a fixed input. This assumes `model.predict` (line 100) gives an image the same output whatever chunk or batch it is in. `Streaming.FinalCountsIndependentOfChunkSize` rests on this assumption.
- Errors carry no partial report. When a flush fails, the reports already printed are not returned.
- `Streaming.Evaluate` treats an empty image list as the error `NoImages`. The script quits with a message before the loop (lines 74–76).
- `code/models/vgg.py` and `code/models/dilation.py` are network definitions. They are not part of this model.
