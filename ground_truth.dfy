/** Ground-truth construction: every label row becomes a one-hot box. */
module GroundTruth {
  import opened Errors
  import opened Boxes

  /** The array np.loadtxt returns for a label file, one- or two-dimensional. A single
      row, a single column or an empty file give a one-dimensional array, several rows
      of several columns a two-dimensional one. The zero-dimensional array of a file
      holding one number is not modelled. */
  datatype LabelArray = Flat(row: seq<real>) | Rows(rows: seq<seq<real>>)

  /** The rows of the label array, after a one-dimensional array is given a leading axis. */
  function AsRows(gt: LabelArray): seq<seq<real>>
  {
    match gt
    case Flat(row) => [row]
    case Rows(rows) => rows
  }

  /** Python's int() on a float. */
  function TruncToInt(x: real): int
  {
    if x >= 0.0 then x.Floor else -((-x).Floor)
  }

  /** int() truncates toward zero: it rounds down non-negative values and rounds up
      negative ones. */
  lemma TruncTowardZero(x: real)
    ensures 0.0 <= x ==> TruncToInt(x) as real <= x < TruncToInt(x) as real + 1.0
    ensures x < 0.0 ==> TruncToInt(x) as real - 1.0 < x <= TruncToInt(x) as real
  {
  }

  /** The slot a Python index `k` selects in a vector of length `n`; negative indices
      count from the end, anything else raises IndexError. */
  function ClassSlot(k: int, n: nat): (s: Option<nat>)
    ensures s.Some? <==> -(n as int) <= k < n
    ensures s.Some? ==> s.value < n && (s.value == k || s.value == k + n)
  {
    if 0 <= k < n then Some(k) else if -(n as int) <= k < 0 then Some(k + n) else None
  }

  /** A probability vector of length `n` that is zero except for weight 1 at `c`. */
  function OneHot(n: nat, c: nat): seq<real>
  {
    seq(n, i => if i == c then 1.0 else 0.0)
  }

  lemma ArgMaxOneHot(n: nat, c: nat)
    requires c < n
    ensures ArgMax(OneHot(n, c)) == c
  {
    var s := OneHot(n, c);
    var r := ArgMax(s);
    assert s[c] == 1.0;
    assert s[c] <= s[r];
  }

  /** One label row `class x y w h` as a box. An empty row fails on its class column,
      a bad class index fails when the one-hot slot is set, and a row that is not five
      wide fails when its geometry is unpacked. */
  function RowBox(row: seq<real>, n: nat): Result<Box>
  {
    if |row| == 0 then Err(LabelRowWidth)
    else
      var slot := ClassSlot(TruncToInt(row[0]), n);
      if slot.None? then Err(ClassIndexOutOfRange)
      else if |row| != 5 then Err(LabelRowWidth)
      else Ok(Box(OneHot(n, slot.value), row[1], row[2], row[3], row[4]))
  }

  /** A row yields a box exactly when it is five wide with an in-range class index; the
      box then has `n` scores whose argmax is the row's class slot (the class index
      itself when it is non-negative) and the row's geometry. */
  lemma RowBoxSpec(row: seq<real>, n: nat)
    ensures RowBox(row, n).Ok? <==> |row| == 5 && -(n as int) <= TruncToInt(row[0]) < n
    ensures RowBox(row, n).Ok? ==> (
              var b := RowBox(row, n).value;
              && |b.probs| == n
              && ArgMax(b.probs) == ClassSlot(TruncToInt(row[0]), n).value
              && (0.0 <= row[0] ==> ArgMax(b.probs) == TruncToInt(row[0]))
              && [b.x, b.y, b.w, b.h] == row[1..])
    ensures |row| == 0 ==> RowBox(row, n) == Err(LabelRowWidth)
  {
    if RowBox(row, n).Ok? {
      ArgMaxOneHot(n, ClassSlot(TruncToInt(row[0]), n).value);
      TruncTowardZero(row[0]);
    }
  }

  /** The boxes of `rows`, appended to `acc` in row order; the first bad row aborts. */
  function CollectBoxes(acc: seq<Box>, rows: seq<seq<real>>, n: nat): Result<seq<Box>>
    decreases |rows|
  {
    if rows == [] then Ok(acc)
    else
      var b := RowBox(rows[0], n);
      if b.Err? then Err(b.error) else CollectBoxes(acc + [b.value], rows[1..], n)
  }

  /** The ground-truth boxes of one label array. */
  function GroundTruthBoxes(gt: LabelArray, n: nat): Result<seq<Box>>
  {
    CollectBoxes([], AsRows(gt), n)
  }

  lemma {:induction false} CollectBoxesOk(acc: seq<Box>, rows: seq<seq<real>>, n: nat)
    ensures CollectBoxes(acc, rows, n).Ok? <==> forall j :: 0 <= j < |rows| ==> RowBox(rows[j], n).Ok?
    decreases |rows|
  {
    if rows != [] && RowBox(rows[0], n).Ok? {
      CollectBoxesOk(acc + [RowBox(rows[0], n).value], rows[1..], n);
      assert forall j :: 1 <= j < |rows| ==> rows[j] == rows[1..][j - 1];
    }
  }

  lemma {:induction false} CollectBoxesContents(acc: seq<Box>, rows: seq<seq<real>>, n: nat)
    ensures CollectBoxes(acc, rows, n).Ok? ==>
      var r := CollectBoxes(acc, rows, n).value;
      |r| == |acc| + |rows| && r[..|acc|] == acc &&
      forall j :: 0 <= j < |rows| ==> RowBox(rows[j], n).Ok? && r[|acc| + j] == RowBox(rows[j], n).value
    decreases |rows|
  {
    if rows != [] && RowBox(rows[0], n).Ok? {
      var b := RowBox(rows[0], n).value;
      CollectBoxesContents(acc + [b], rows[1..], n);
      if CollectBoxes(acc, rows, n).Ok? {
        var r := CollectBoxes(acc, rows, n).value;
        assert r == CollectBoxes(acc + [b], rows[1..], n).value;
        assert r[..|acc| + 1] == acc + [b];
        assert r[..|acc|] == (acc + [b])[..|acc|];
        forall j | 1 <= j < |rows|
          ensures RowBox(rows[j], n).Ok? && r[|acc| + j] == RowBox(rows[j], n).value
        {
          assert rows[j] == rows[1..][j - 1];
          assert |acc + [b]| + (j - 1) == |acc| + j;
        }
      }
    }
  }

  lemma CollectBoxesSpec(acc: seq<Box>, rows: seq<seq<real>>, n: nat)
    ensures CollectBoxes(acc, rows, n).Ok? <==> forall j :: 0 <= j < |rows| ==> RowBox(rows[j], n).Ok?
    ensures CollectBoxes(acc, rows, n).Ok? ==>
      var r := CollectBoxes(acc, rows, n).value;
      |r| == |acc| + |rows| && r[..|acc|] == acc &&
      forall j :: 0 <= j < |rows| ==> RowBox(rows[j], n).Ok? && r[|acc| + j] == RowBox(rows[j], n).value
  {
    CollectBoxesOk(acc, rows, n);
    CollectBoxesContents(acc, rows, n);
  }

  /** Each label row yields exactly one box whose argmax class is the row's class index
      (negative indices counting from the end), and a well-formed label file always
      yields as many boxes as it has rows. */
  lemma LabelRowsYieldOneBoxEach(gt: LabelArray, n: nat)
    ensures GroundTruthBoxes(gt, n).Ok? <==>
      forall j :: 0 <= j < |AsRows(gt)| ==> RowBox(AsRows(gt)[j], n).Ok?
    ensures GroundTruthBoxes(gt, n).Ok? ==>
      var boxes := GroundTruthBoxes(gt, n).value;
      |boxes| == |AsRows(gt)| && Scored(boxes) &&
      forall j :: 0 <= j < |boxes| ==>
        && |boxes[j].probs| == n
        && ArgMax(boxes[j].probs) == ClassSlot(TruncToInt(AsRows(gt)[j][0]), n).value
        && [boxes[j].x, boxes[j].y, boxes[j].w, boxes[j].h] == AsRows(gt)[j][1..]
    ensures gt.Flat? && GroundTruthBoxes(gt, n).Ok? ==> |GroundTruthBoxes(gt, n).value| == 1
  {
    var rows := AsRows(gt);
    CollectBoxesSpec([], rows, n);
    if GroundTruthBoxes(gt, n).Ok? {
      var boxes := GroundTruthBoxes(gt, n).value;
      forall j | 0 <= j < |boxes|
        ensures |boxes[j].probs| == n > 0
        ensures ArgMax(boxes[j].probs) == ClassSlot(TruncToInt(rows[j][0]), n).value
        ensures [boxes[j].x, boxes[j].y, boxes[j].w, boxes[j].h] == rows[j][1..]
      {
        RowBoxSpec(rows[j], n);
        assert boxes[j] == RowBox(rows[j], n).value;
      }
    }
  }

  lemma GroundTruthScored(gt: LabelArray, n: nat)
    ensures GroundTruthBoxes(gt, n).Ok? ==> Scored(GroundTruthBoxes(gt, n).value)
  {
    LabelRowsYieldOneBoxEach(gt, n);
  }

  /** The loop at the head of each image's evaluation: one box appended per label row. */
  method LoadGroundTruth(gt: LabelArray, n: nat) returns (res: Result<seq<Box>>)
    ensures res == GroundTruthBoxes(gt, n)
  {
    var rows := AsRows(gt);
    var boxesTrue: seq<Box> := [];
    var j := 0;
    while j < |rows|
      invariant 0 <= j <= |rows|
      invariant CollectBoxes(boxesTrue, rows[j..], n) == GroundTruthBoxes(gt, n)
    {
      assert rows[j..][1..] == rows[j + 1..];
      var bx := RowBox(rows[j], n);
      if bx.Err? {
        return Err(bx.error);
      }
      boxesTrue := boxesTrue + [bx.value];
      j := j + 1;
    }
    res := Ok(boxesTrue);
  }
}
