/** Boxes as the matcher sees them, and the two thresholds of the matching rule. */
module Boxes {

  /** A box in centre/size form with one score per class (BoundBox in the source). */
  datatype Box = Box(probs: seq<real>, x: real, y: real, w: real, h: real)

  /** Intersection over union; its geometry is not part of this model. */
  type Iou = (Box, Box) -> real

  /** Minimum best-class score for a prediction to be counted. */
  const DETECTION_THRESHOLD: real := 0.6

  /** A ground-truth box is claimed only when the IoU is strictly above this value. */
  const MATCH_IOU: real := 0.5

  /** np.argmax: the index of the first maximal score. */
  function ArgMax(s: seq<real>): (r: nat)
    requires |s| > 0
    ensures r < |s|
    ensures forall i :: 0 <= i < |s| ==> s[i] <= s[r]
    ensures forall i :: 0 <= i < r ==> s[i] < s[r]
  {
    if |s| == 1 then 0
    else
      var k := ArgMax(s[..|s| - 1]);
      if s[|s| - 1] > s[k] then |s| - 1 else k
  }

  /** The best-class score of a box. */
  function BestScore(b: Box): real
    requires |b.probs| > 0
  {
    b.probs[ArgMax(b.probs)]
  }

  /** A prediction is counted unless its best-class score is below the threshold. */
  predicate Counted(b: Box)
    requires |b.probs| > 0
  {
    !(BestScore(b) < DETECTION_THRESHOLD)
  }

  /** A prediction is counted exactly when some class score reaches the threshold;
      a score equal to the threshold is enough. */
  lemma CountedIffSomeScoreReaches(b: Box)
    requires |b.probs| > 0
    ensures Counted(b) <==> exists i :: 0 <= i < |b.probs| && b.probs[i] >= DETECTION_THRESHOLD
  {
    if !Counted(b) {
      forall i | 0 <= i < |b.probs| ensures b.probs[i] < DETECTION_THRESHOLD {
        assert b.probs[i] <= BestScore(b);
      }
    }
  }

  /** Ground-truth box `a` may be claimed by prediction `b`: IoU strictly above
      MATCH_IOU and the same argmax class. */
  predicate Claims(a: Box, b: Box, iou: Iou)
    requires |a.probs| > 0 && |b.probs| > 0
  {
    iou(a, b) > MATCH_IOU && ArgMax(a.probs) == ArgMax(b.probs)
  }

  /** Every box of the list has a non-empty score vector, so its argmax exists. */
  predicate Scored(boxes: seq<Box>)
  {
    forall t :: 0 <= t < |boxes| ==> |boxes[t].probs| > 0
  }
}
