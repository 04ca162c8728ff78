/** The evaluation run: images are buffered, and every full buffer (or the buffer holding
    the last image) is flushed, matched image by image and reported on. */
module Streaming {
  import opened Errors
  import opened Boxes
  import opened GroundTruth
  import opened Matching
  import opened Metrics

  /** Images per flushed chunk in the script. */
  const CHUNK_SIZE: nat := 128

  /** One image file: the decoder's boxes for it and the array of its label file. */
  datatype Image = Image(preds: seq<Box>, labels: LabelArray)

  /** The run's state between flushes: the counters, the flush count `iterations` and
      the running reports printed so far. */
  datatype RunState = RunState(tally: Tally, iterations: nat, reports: seq<Report>)

  const START: RunState := RunState(Tally(0, 0, 0), 0, [])

  /** Consecutive pieces of `k` elements; the last piece holds the remainder. */
  function Chunks<T>(s: seq<T>, k: nat): seq<seq<T>>
    requires k > 0
    decreases |s|
  {
    if |s| == 0 then [] else if |s| <= k then [s] else [s[..k]] + Chunks(s[k..], k)
  }

  function Flatten<T>(cs: seq<seq<T>>): seq<T>
  {
    if cs == [] then [] else cs[0] + Flatten(cs[1..])
  }

  lemma {:induction false} ChunksFlatten<T>(s: seq<T>, k: nat)
    requires k > 0
    ensures Flatten(Chunks(s, k)) == s
    decreases |s|
  {
    if |s| > k {
      ChunksFlatten(s[k..], k);
      assert Chunks(s, k)[1..] == Chunks(s[k..], k);
      assert s[..k] + s[k..] == s;
    }
  }

  lemma {:induction false} ChunksCount<T>(s: seq<T>, k: nat)
    requires k > 0
    ensures |s| > 0 ==> (|Chunks(s, k)| - 1) * k < |s| <= |Chunks(s, k)| * k
    ensures |s| == 0 <==> |Chunks(s, k)| == 0
    decreases |s|
  {
    if |s| > k {
      ChunksCount(s[k..], k);
      var c := |Chunks(s[k..], k)|;
      assert |Chunks(s, k)| == c + 1;
      assert (c - 1) * k < |s| - k <= c * k;
      assert (c + 1 - 1) * k == c * k && (c + 1) * k == c * k + k;
    }
  }

  lemma {:induction false} ChunksSizes<T>(s: seq<T>, k: nat)
    requires k > 0
    ensures forall i :: 0 <= i < |Chunks(s, k)| ==> 0 < |Chunks(s, k)[i]| <= k
    ensures forall i :: 0 <= i < |Chunks(s, k)| - 1 ==> |Chunks(s, k)[i]| == k
    decreases |s|
  {
    if |s| > k {
      var rest := Chunks(s[k..], k);
      ChunksSizes(s[k..], k);
      assert Chunks(s, k) == [s[..k]] + rest;
      forall i | 1 <= i < |Chunks(s, k)|
        ensures Chunks(s, k)[i] == rest[i - 1]
      {
      }
    }
  }

  /** Every element lands in exactly one chunk, in the original order; chunks are
      non-empty, at most `k` long, all but the last exactly `k` long, and their number
      `c` is ceil(|s| / k), that is (c - 1) * k < |s| <= c * k. */
  lemma ChunksPartition<T>(s: seq<T>, k: nat)
    requires k > 0
    ensures Flatten(Chunks(s, k)) == s
    ensures |s| > 0 ==> (|Chunks(s, k)| - 1) * k < |s| <= |Chunks(s, k)| * k
    ensures |s| == 0 <==> |Chunks(s, k)| == 0
    ensures forall i :: 0 <= i < |Chunks(s, k)| ==> 0 < |Chunks(s, k)[i]| <= k
    ensures forall i :: 0 <= i < |Chunks(s, k)| - 1 ==> |Chunks(s, k)[i]| == k
  {
    ChunksFlatten(s, k);
    ChunksCount(s, k);
    ChunksSizes(s, k);
  }

  /** A flush takes exactly the buffered images off the front of what is left. */
  lemma ChunksHead<T>(s: seq<T>, k: nat, m: nat)
    requires k > 0 && 0 < m <= |s| && m <= k && (m == k || m == |s|)
    ensures Chunks(s, k) == [s[..m]] + Chunks(s[m..], k)
  {
    if m == |s| {
      assert s[..m] == s;
      assert s[m..] == [];
    }
  }

  lemma ModOfPositiveUpTo(m: nat, k: nat)
    requires 0 < m <= k
    ensures m % k == 0 <==> m == k
  {
  }

  /** The images of a flushed chunk, processed in order from the counters `t`. */
  function FoldImages(t: Tally, imgs: seq<Image>, n: nat, iou: Iou): Result<Tally>
    decreases |imgs|
  {
    if imgs == [] then Ok(t)
    else
      var r := ImageStep(t, imgs[0].preds, imgs[0].labels, n, iou);
      if r.Err? then r else FoldImages(r.value, imgs[1..], n, iou)
  }

  /** One flush: count it, match its images, then compute the running report. */
  function ChunkStep(st: RunState, chunk: seq<Image>, n: nat, iou: Iou): Result<RunState>
  {
    var r := FoldImages(st.tally, chunk, n, iou);
    if r.Err? then Err(r.error)
    else
      var t := r.value;
      var m := RunningReport(t.ok, t.totalPred, t.totalTrue);
      if m.Err? then Err(m.error) else Ok(RunState(t, st.iterations + 1, st.reports + [m.value]))
  }

  /** The flushes of a run, in order, from state `st`: nothing when no chunk is left,
      otherwise the next flush and the rest of the run. */
  function RunChunks(st: RunState, chunks: seq<seq<Image>>, n: nat, iou: Iou): Result<RunState>
    decreases |chunks|, 1
  {
    if chunks == [] then Ok(st) else FlushThenRun(st, chunks, n, iou)
  }

  /** The flush of the first chunk, then the run over the remaining chunks. */
  function FlushThenRun(st: RunState, chunks: seq<seq<Image>>, n: nat, iou: Iou): Result<RunState>
    requires chunks != []
    decreases |chunks|, 0
  {
    var r := ChunkStep(st, chunks[0], n, iou);
    if r.Err? then r else RunChunks(r.value, chunks[1..], n, iou)
  }

  lemma RunChunksStep(st: RunState, chunks: seq<seq<Image>>, n: nat, iou: Iou)
    requires chunks != []
    ensures RunChunks(st, chunks, n, iou) ==
              var r := ChunkStep(st, chunks[0], n, iou);
              if r.Err? then r else RunChunks(r.value, chunks[1..], n, iou)
  {
  }

  /** A whole evaluation: no image is an error, otherwise the flushes of the chunks of
      the image list from zero counters. */
  function Run(images: seq<Image>, k: nat, n: nat, iou: Iou): Result<RunState>
    requires k > 0
  {
    if images == [] then Err(NoImages) else RunChunks(START, Chunks(images, k), n, iou)
  }

  /** Number of label rows over a list of images. */
  function TotalRows(imgs: seq<Image>): nat
  {
    if imgs == [] then 0 else |AsRows(imgs[0].labels)| + TotalRows(imgs[1..])
  }

  /** Processing a list of images in one go is processing a prefix and then the rest. */
  lemma {:induction false} FoldImagesAppend(t: Tally, a: seq<Image>, b: seq<Image>, n: nat, iou: Iou)
    ensures FoldImages(t, a + b, n, iou) ==
              var r := FoldImages(t, a, n, iou);
              if r.Err? then r else FoldImages(r.value, b, n, iou)
    decreases |a|
  {
    if a == [] {
      assert a + b == b;
    } else {
      assert (a + b)[0] == a[0];
      assert (a + b)[1..] == a[1..] + b;
      var r := ImageStep(t, a[0].preds, a[0].labels, n, iou);
      if r.Ok? {
        FoldImagesAppend(r.value, a[1..], b, n, iou);
      }
    }
  }

  /** Across images the counters never decrease, keep `ok <= totalPred` and
      `ok <= totalTrue`, and `totalTrue` grows by exactly the number of label rows. */
  lemma {:induction false} FoldImagesCounters(t: Tally, imgs: seq<Image>, n: nat, iou: Iou)
    ensures FoldImages(t, imgs, n, iou).Ok? ==>
      var t' := FoldImages(t, imgs, n, iou).value;
      && t.ok <= t'.ok && t.totalPred <= t'.totalPred
      && t'.totalTrue == t.totalTrue + TotalRows(imgs)
      && (Consistent(t) ==> Consistent(t'))
    decreases |imgs|
  {
    if imgs != [] {
      ImageStepCounters(t, imgs[0].preds, imgs[0].labels, n, iou);
      match ImageStep(t, imgs[0].preds, imgs[0].labels, n, iou)
      case Err(e) =>
      case Ok(t') => FoldImagesCounters(t', imgs[1..], n, iou);
    }
  }

  lemma {:induction false} RunChunksReports(st: RunState, chunks: seq<seq<Image>>, n: nat, iou: Iou)
    ensures RunChunks(st, chunks, n, iou).Ok? ==>
      var st' := RunChunks(st, chunks, n, iou).value;
      && st'.iterations == st.iterations + |chunks|
      && |st'.reports| == |st.reports| + |chunks|
      && st'.reports[..|st.reports|] == st.reports
      && (chunks != [] ==>
            RunningReport(st'.tally.ok, st'.tally.totalPred, st'.tally.totalTrue) == Ok(st'.reports[|st'.reports| - 1]))
    decreases |chunks|
  {
    if chunks != [] && RunChunks(st, chunks, n, iou).Ok? {
      RunChunksStep(st, chunks, n, iou);
      var s1 := ChunkStep(st, chunks[0], n, iou).value;
      RunChunksReports(s1, chunks[1..], n, iou);
      var st' := RunChunks(st, chunks, n, iou).value;
      assert st'.reports[..|s1.reports|] == s1.reports;
      assert st'.reports[..|st.reports|] == s1.reports[..|st.reports|];
      if chunks[1..] == [] {
        assert st' == s1;
      }
    }
  }

  lemma {:induction false} RunChunksTally(st: RunState, chunks: seq<seq<Image>>, n: nat, iou: Iou)
    ensures RunChunks(st, chunks, n, iou).Ok? ==>
              FoldImages(st.tally, Flatten(chunks), n, iou) == Ok(RunChunks(st, chunks, n, iou).value.tally)
    decreases |chunks|
  {
    if chunks != [] && RunChunks(st, chunks, n, iou).Ok? {
      RunChunksStep(st, chunks, n, iou);
      FoldImagesAppend(st.tally, chunks[0], Flatten(chunks[1..]), n, iou);
      var s1 := ChunkStep(st, chunks[0], n, iou).value;
      RunChunksTally(s1, chunks[1..], n, iou);
    }
  }

  /** What a completed sequence of flushes did: one iteration and one report per chunk,
      the counters are those of processing all images in order, the last report is
      computed from the final counters, and the counters never decreased. */
  lemma RunChunksFacts(st: RunState, chunks: seq<seq<Image>>, n: nat, iou: Iou)
    ensures RunChunks(st, chunks, n, iou).Ok? ==>
      var st' := RunChunks(st, chunks, n, iou).value;
      && st'.iterations == st.iterations + |chunks|
      && |st'.reports| == |st.reports| + |chunks|
      && st'.reports[..|st.reports|] == st.reports
      && FoldImages(st.tally, Flatten(chunks), n, iou) == Ok(st'.tally)
      && st.tally.ok <= st'.tally.ok && st.tally.totalPred <= st'.tally.totalPred
      && st.tally.totalTrue <= st'.tally.totalTrue
      && (chunks != [] ==>
            RunningReport(st'.tally.ok, st'.tally.totalPred, st'.tally.totalTrue) == Ok(st'.reports[|st'.reports| - 1]))
  {
    RunChunksReports(st, chunks, n, iou);
    RunChunksTally(st, chunks, n, iou);
    FoldImagesCounters(st.tally, Flatten(chunks), n, iou);
  }

  /** Flushing the buffer `images[start..i + 1]` runs exactly the first chunk of what is
      left of the run. */
  lemma FlushIsNextChunk(images: seq<Image>, start: nat, i: nat, k: nat, st: RunState, buffer: seq<Image>,
                         r: Result<RunState>, goal: Result<RunState>, n: nat, iou: Iou)
    requires k > 0 && start <= i < |images| && i + 1 - start <= k
    requires i + 1 - start == k || i + 1 == |images|
    requires RunChunks(st, Chunks(images[start..], k), n, iou) == goal
    requires buffer == images[start..i + 1] && r == ChunkStep(st, buffer, n, iou)
    ensures r.Err? ==> goal == Err(r.error)
    ensures r.Ok? ==> RunChunks(r.value, Chunks(images[i + 1..], k), n, iou) == goal
  {
    var rest := images[start..];
    var m := i + 1 - start;
    ChunksHead(rest, k, m);
    assert rest[..m] == images[start..i + 1] && rest[m..] == images[i + 1..];
    var cs := [images[start..i + 1]] + Chunks(images[i + 1..], k);
    assert cs[0] == images[start..i + 1] && cs[1..] == Chunks(images[i + 1..], k);
    RunChunksStep(st, cs, n, iou);
  }

  lemma SliceExtend<T>(s: seq<T>, a: nat, b: nat)
    requires a <= b < |s|
    ensures s[a..b] + [s[b]] == s[a..b + 1]
  {
  }

  /** Once every image has been flushed nothing of the run is left. */
  lemma NothingLeft(images: seq<Image>, k: nat, st: RunState, n: nat, iou: Iou)
    requires k > 0
    ensures RunChunks(st, Chunks(images[|images|..], k), n, iou) == Ok(st)
  {
    assert images[|images|..] == [];
  }

  lemma FlattenCons<T>(cs: seq<seq<T>>)
    requires cs != []
    ensures Flatten(cs) == cs[0] + Flatten(cs[1..])
  {
  }

  /** If processing all images succeeds and every label array has a row, the running
      recall never divides by zero, so every chunking of the images completes. */
  lemma {:induction false} RunChunksSucceeds(st: RunState, chunks: seq<seq<Image>>, n: nat, iou: Iou)
    requires FoldImages(st.tally, Flatten(chunks), n, iou).Ok?
    requires forall c :: c in chunks ==> c != []
    requires forall img :: img in Flatten(chunks) ==> |AsRows(img.labels)| > 0
    ensures RunChunks(st, chunks, n, iou).Ok?
    decreases |chunks|
  {
    if chunks != [] {
      var c := chunks[0];
      var rest := Flatten(chunks[1..]);
      assert c in chunks;
      FlattenCons(chunks);
      FoldImagesAppend(st.tally, c, rest, n, iou);
      FoldImagesCounters(st.tally, c, n, iou);
      assert c[0] in Flatten(chunks);
      assert TotalRows(c) > 0;
      var s1 := ChunkStep(st, c, n, iou).value;
      assert forall img :: img in rest ==> img in Flatten(chunks);
      assert forall c' :: c' in chunks[1..] ==> c' in chunks;
      RunChunksSucceeds(s1, chunks[1..], n, iou);
    }
  }

  /** EvaluationSummary stated on `RunChunks` rather than `Run`: with `Run` unfolded in
      the same proof the solver's cost grows several-fold, so the wrapper below only
      restates this lemma. */
  lemma ChunkedRunSummary(images: seq<Image>, k: nat, n: nat, iou: Iou)
    requires k > 0 && images != []
    ensures RunChunks(START, Chunks(images, k), n, iou).Ok? ==>
      var st := RunChunks(START, Chunks(images, k), n, iou).value;
      && (st.iterations - 1) * k < |images| <= st.iterations * k
      && |st.reports| == st.iterations > 0
      && FoldImages(Tally(0, 0, 0), images, n, iou) == Ok(st.tally)
      && Consistent(st.tally)
      && st.tally.totalTrue == TotalRows(images)
      && var last := st.reports[|st.reports| - 1];
         && RunningReport(st.tally.ok, st.tally.totalPred, st.tally.totalTrue) == Ok(last)
         && 0.0 <= last.precision <= 1.0 && 0.0 <= last.recall <= 1.0 && 0.0 <= last.fscore <= 1.0
    ensures FoldImages(Tally(0, 0, 0), images, n, iou).Ok? &&
            (forall img :: img in images ==> |AsRows(img.labels)| > 0) ==>
              RunChunks(START, Chunks(images, k), n, iou).Ok?
  {
    ChunksPartition(images, k);
    RunChunksFacts(START, Chunks(images, k), n, iou);
    FoldImagesCounters(Tally(0, 0, 0), images, n, iou);
    if FoldImages(Tally(0, 0, 0), images, n, iou).Ok? &&
       (forall img :: img in images ==> |AsRows(img.labels)| > 0) {
      var cs := Chunks(images, k);
      forall c | c in cs ensures c != [] {
        var i :| 0 <= i < |cs| && cs[i] == c;
      }
      RunChunksSucceeds(START, cs, n, iou);
    }
  }

  /** A whole run matches every image once, in order, and its result does not depend on
      the chunk size: it makes ceil(N / k) flushes with one report each, the final
      counters are those of processing all images in order (so every chunk size that
      completes yields the same counters and the same final report), and the final
      precision, recall and F-score lie in [0, 1]. When processing all images succeeds
      and every label array has a row, every chunk size completes. */
  lemma EvaluationSummary(images: seq<Image>, k: nat, n: nat, iou: Iou)
    requires k > 0 && images != []
    ensures Run(images, k, n, iou).Ok? ==>
      var st := Run(images, k, n, iou).value;
      && (st.iterations - 1) * k < |images| <= st.iterations * k
      && |st.reports| == st.iterations > 0
      && FoldImages(Tally(0, 0, 0), images, n, iou) == Ok(st.tally)
      && Consistent(st.tally)
      && st.tally.totalTrue == TotalRows(images)
      && var last := st.reports[|st.reports| - 1];
         && RunningReport(st.tally.ok, st.tally.totalPred, st.tally.totalTrue) == Ok(last)
         && 0.0 <= last.precision <= 1.0 && 0.0 <= last.recall <= 1.0 && 0.0 <= last.fscore <= 1.0
    ensures FoldImages(Tally(0, 0, 0), images, n, iou).Ok? &&
            (forall img :: img in images ==> |AsRows(img.labels)| > 0) ==>
              Run(images, k, n, iou).Ok?
  {
    ChunkedRunSummary(images, k, n, iou);
  }

  /** Two chunk sizes that both complete end with the same counters and final report. */
  lemma FinalCountsIndependentOfChunkSize(images: seq<Image>, k1: nat, k2: nat, n: nat, iou: Iou)
    requires k1 > 0 && k2 > 0
    requires Run(images, k1, n, iou).Ok?
    requires Run(images, k2, n, iou).Ok?
    ensures var s1 := Run(images, k1, n, iou).value;
            var s2 := Run(images, k2, n, iou).value;
            && s1.tally == s2.tally && |s1.reports| > 0 && |s2.reports| > 0
            && s1.reports[|s1.reports| - 1] == s2.reports[|s2.reports| - 1]
  {
    EvaluationSummary(images, k1, n, iou);
    EvaluationSummary(images, k2, n, iou);
  }

  /** When every label array has a row, as every array np.loadtxt returns for a label
      file does, whether a run completes does not depend on the chunk size. */
  lemma CompletionIndependentOfChunkSize(images: seq<Image>, k1: nat, k2: nat, n: nat, iou: Iou)
    requires k1 > 0 && k2 > 0
    requires forall img :: img in images ==> |AsRows(img.labels)| > 0
    ensures Run(images, k1, n, iou).Ok? <==> Run(images, k2, n, iou).Ok?
  {
    if images != [] {
      EvaluationSummary(images, k1, n, iou);
      EvaluationSummary(images, k2, n, iou);
    }
  }

  /** The matching work of one flush: each buffered image in order, then the running
      report from the cumulative counters. */
  method FlushChunk(st: RunState, chunk: seq<Image>, n: nat, iou: Iou) returns (res: Result<RunState>)
    ensures res == ChunkStep(st, chunk, n, iou)
  {
    var iterations := st.iterations + 1;
    var tally := st.tally;
    var j := 0;
    while j < |chunk|
      invariant 0 <= j <= |chunk|
      invariant FoldImages(tally, chunk[j..], n, iou) == FoldImages(st.tally, chunk, n, iou)
    {
      assert chunk[j..][0] == chunk[j] && chunk[j..][1..] == chunk[j + 1..];
      var r := ProcessImage(tally, chunk[j].preds, chunk[j].labels, n, iou);
      if r.Err? {
        return Err(r.error);
      }
      tally := r.value;
      j := j + 1;
    }
    var report := RunningReport(tally.ok, tally.totalPred, tally.totalTrue);
    if report.Err? {
      return Err(report.error);
    }
    res := Ok(RunState(tally, iterations, st.reports + [report.value]));
  }

  /** What is left of a run that started elsewhere: from state `st`, the chunks of
      `rest` produce the run's final result `goal`. */
  ghost predicate Resumes(st: RunState, rest: seq<Image>, k: nat, n: nat, iou: Iou, goal: Result<RunState>)
    requires k > 0
  {
    RunChunks(st, Chunks(rest, k), n, iou) == goal
  }

  /** A flush as the evaluation loop sees it: the buffer `images[start..i + 1]` is the
      next chunk of the run, so flushing it either fails the whole run or leaves the
      rest of the run to the remaining images. */
  method FlushBuffer(st: RunState, buffer: seq<Image>, ghost images: seq<Image>, ghost start: nat, ghost i: nat,
                     k: nat, ghost goal: Result<RunState>, n: nat, iou: Iou)
    returns (r: Result<RunState>)
    requires k > 0 && start <= i < |images| && i + 1 - start <= k
    requires i + 1 - start == k || i + 1 == |images|
    requires Resumes(st, images[start..], k, n, iou, goal)
    requires buffer == images[start..i + 1]
    ensures r.Err? ==> goal == Err(r.error)
    ensures r.Ok? ==> Resumes(r.value, images[i + 1..], k, n, iou, goal)
  {
    r := FlushChunk(st, buffer, n, iou);
    FlushIsNextChunk(images, start, i, k, st, buffer, r, goal, n, iou);
  }

  /** The evaluation loop: append each image to the buffer and flush when the buffer
      length is a multiple of the chunk size or the last image has been appended. */
  method Evaluate(images: seq<Image>, chunkSize: nat, n: nat, iou: Iou) returns (res: Result<RunState>)
    requires chunkSize > 0
    ensures res == Run(images, chunkSize, n, iou)
  {
    if |images| == 0 {
      return Err(NoImages);
    }
    var st := START;
    var buffer: seq<Image> := [];
    ghost var goal := Run(images, chunkSize, n, iou);
    ghost var start := 0;
    var i := 0;
    while i < |images|
      invariant 0 <= start <= i <= |images|
      invariant buffer == images[start..i]
      invariant |buffer| < chunkSize
      invariant i == |images| ==> start == i
      invariant Resumes(st, images[start..], chunkSize, n, iou, goal)
    {
      SliceExtend(images, start, i);
      buffer := buffer + [images[i]];
      assert buffer == images[start..i + 1];
      ModOfPositiveUpTo(|buffer|, chunkSize);
      if |buffer| % chunkSize == 0 || i + 1 == |images| {
        var r := FlushBuffer(st, buffer, images, start, i, chunkSize, goal, n, iou);
        if r.Err? {
          return Err(r.error);
        }
        st := r.value;
        buffer := [];
        start := i + 1;
        assert buffer == images[start..i + 1];
      }
      i := i + 1;
    }
    NothingLeft(images, chunkSize, st, n, iou);
    assert Resumes(st, images[|images|..], chunkSize, n, iou, goal);
    res := Ok(st);
  }
}
