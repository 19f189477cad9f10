/** One training epoch: the nested loop over batches and augmentation
    options, with every call it makes to the model, optimizer and reporter
    recorded as an event in a call log. */
module Train {
  import opened Traces

  /** The configuration fields the loop reads; `options` is what
      `aug_params.get_options_of_chosen_transform()` returns. */
  datatype Config = Config(modelType: string, isTangentProp: bool, options: seq<real>)

  /** What the loop reads of its loader: the number of batches it yields and
      `len(loader.dataset)`. */
  datatype TrainLoader = TrainLoader(numBatches: nat, datasetLen: nat)

  /** A call made by the loop; `batch` is `batch_idx`, `aug` the inner index `i`. */
  datatype Event =
    | ModelTrain                              // model.train()
    | RequiresGrad(batch: nat)                // base_data.requires_grad = True
    | FetchData(batch: nat, aug: nat)         // get_batch_data(base_data, model_type, i)
    | Predict(batch: nat, aug: nat)           // get_model_prediction
    | ComputeLoss(batch: nat, aug: nat)       // get_model_loss
    | RecordBatchData(batch: nat, aug: nat)   // reporter.record_batch_data
    | ZeroGrad(batch: nat, aug: nat)          // optimizer.zero_grad()
    | Backward(batch: nat, aug: nat)          // loss.backward()
    | OptimizerStep(batch: nat, aug: nat)     // optimizer.step()
    | KeepLog(batch: nat, aug: nat)           // reporter.keep_log
    | ReleaseMemory(batch: nat, aug: nat)     // gc.collect() and torch.cuda.empty_cache()
    | RecordAugerinoLims                      // reporter.record_augerino_lims

  /** `n_augs`: the number of inner iterations per batch. */
  function NAugs(c: Config): nat { if c.modelType == "segmented" then |c.options| else 1 }

  /** One inner iteration outside segmented mode; the inner loop is skipped
      only in segmented mode with no strength options. */
  lemma NAugsCases(c: Config)
    ensures c.modelType != "segmented" ==> NAugs(c) == 1
    ensures NAugs(c) == 0 <==> c.modelType == "segmented" && c.options == []
  {
  }

  /** The calls of inner iteration `i` of batch `b`. */
  function InnerEvents(b: nat, i: nat): (r: seq<Event>)
    ensures |r| == if b % 2 == 0 then 9 else 7
  {
    [FetchData(b, i), Predict(b, i), ComputeLoss(b, i), RecordBatchData(b, i),
     ZeroGrad(b, i), Backward(b, i), OptimizerStep(b, i)]
    + (if b % 2 == 0 then [KeepLog(b, i), ReleaseMemory(b, i)] else [])
  }

  /** The first `k` inner iterations of batch `b`. */
  function InnerLoop(b: nat, k: nat): seq<Event> { FlatMap(k, (i: nat) => InnerEvents(b, i)) }

  function GradPart(c: Config, b: nat): seq<Event> { if c.isTangentProp then [RequiresGrad(b)] else [] }

  /** The calls made for batch `b`. */
  function BatchEvents(c: Config, b: nat): seq<Event> { GradPart(c, b) + InnerLoop(b, NAugs(c)) }

  /** The calls made for the first `k` batches. */
  function BatchLoop(c: Config, k: nat): seq<Event> { FlatMap(k, (b: nat) => BatchEvents(c, b)) }

  function Tail(c: Config): seq<Event> { if c.modelType == "augerino" then [RecordAugerinoLims] else [] }

  /** Every call of one epoch over `n` batches, in order. */
  function EpochEvents(c: Config, n: nat): (r: seq<Event>)
    ensures |r| > 0 && r[0] == ModelTrain
  {
    [ModelTrain] + BatchLoop(c, n) + Tail(c)
  }

  /** The reporter; only its `train_set_len` is state the loop writes. */
  class Reporter {
    var trainSetLen: int

    constructor (trainSetLen: int)
      ensures this.trainSetLen == trainSetLen
    {
      this.trainSetLen := trainSetLen;
    }
  }

  /** The order in which the loop calls its collaborators. */
  class CallLog {
    var events: seq<Event>

    constructor ()
      ensures events == []
    {
      events := [];
    }
  }

  /** One pass of the inner loop: forward, loss, record, then the optimizer
      update, and on even batches the log entry and memory release. */
  method InnerIteration(log: CallLog, batchIdx: nat, i: nat)
    modifies log
    ensures log.events == old(log.events) + InnerEvents(batchIdx, i)
  {
    log.events := log.events + [FetchData(batchIdx, i), Predict(batchIdx, i), ComputeLoss(batchIdx, i)];
    log.events := log.events + [RecordBatchData(batchIdx, i)];
    log.events := log.events + [ZeroGrad(batchIdx, i)];
    log.events := log.events + [Backward(batchIdx, i)];
    log.events := log.events + [OptimizerStep(batchIdx, i)];
    if batchIdx % 2 == 0 {
      log.events := log.events + [KeepLog(batchIdx, i), ReleaseMemory(batchIdx, i)];
    }
  }

  /** The body of the batch loop for `batch_idx`: the tangent-prop flag, then
      `n_augs` inner iterations with i = 0, 1, ... in order. */
  method TrainBatch(config: Config, log: CallLog, batchIdx: nat, nAugs: nat)
    requires nAugs == NAugs(config)
    modifies log
    ensures log.events == old(log.events) + BatchEvents(config, batchIdx)
  {
    if config.isTangentProp {
      log.events := log.events + [RequiresGrad(batchIdx)];
    }
    ghost var batchStart := log.events;
    for i := 0 to nAugs
      invariant log.events == batchStart + InnerLoop(batchIdx, i)
    {
      InnerIteration(log, batchIdx, i);
      InnerLoopStep(batchIdx, i);
    }
  }

  /** The batch loop of `train_model`: batch_idx = 0, 1, ... in order. */
  method RunBatches(config: Config, log: CallLog, numBatches: nat, nAugs: nat)
    requires nAugs == NAugs(config)
    modifies log
    ensures log.events == old(log.events) + BatchLoop(config, numBatches)
  {
    ghost var start := log.events;
    for batchIdx := 0 to numBatches
      invariant log.events == start + BatchLoop(config, batchIdx)
    {
      TrainBatch(config, log, batchIdx, nAugs);
      BatchLoopStep(config, batchIdx);
    }
  }

  /** `train_model` for one epoch. */
  method TrainModel(config: Config, reporter: Reporter, log: CallLog, loader: TrainLoader)
    modifies reporter, log
    ensures reporter.trainSetLen ==
              if config.modelType == "segmented" then NAugs(config) * loader.datasetLen
              else old(reporter.trainSetLen)
    ensures log.events == old(log.events) + EpochEvents(config, loader.numBatches)
  {
    ghost var before := log.events;
    log.events := log.events + [ModelTrain];
    var nAugs := 1;
    if config.modelType == "segmented" {
      nAugs := |config.options|;
      reporter.trainSetLen := nAugs * loader.datasetLen;
    }
    RunBatches(config, log, loader.numBatches, nAugs);
    if config.modelType == "augerino" {
      log.events := log.events + [RecordAugerinoLims];
    }
    assert log.events == before + [ModelTrain] + BatchLoop(config, loader.numBatches) + Tail(config);
  }

  lemma InnerLoopStep(b: nat, i: nat)
    ensures InnerLoop(b, i + 1) == InnerLoop(b, i) + InnerEvents(b, i)
  {
  }

  lemma BatchLoopStep(c: Config, b: nat)
    ensures BatchLoop(c, b + 1) == BatchLoop(c, b) + BatchEvents(c, b)
  {
  }

  /** Every call of an inner iteration belongs to that batch and iteration;
      none of them is model.train(), the gradient flag or the closing call. */
  lemma InnerEventsTagged(b: nat, i: nat)
    ensures forall k :: 0 <= k < |InnerEvents(b, i)| ==>
              && !InnerEvents(b, i)[k].ModelTrain?
              && !InnerEvents(b, i)[k].RequiresGrad?
              && !InnerEvents(b, i)[k].RecordAugerinoLims?
              && InnerEvents(b, i)[k].batch == b
              && InnerEvents(b, i)[k].aug == i
  {
  }

  /** The calls of the first `n` batches: the tangent-prop flag per batch,
      7 calls per inner iteration, and 2 more on even batches. */
  lemma {:induction false} BatchLoopLength(c: Config, n: nat)
    ensures |BatchLoop(c, n)| == (if c.isTangentProp then n else 0) + NAugs(c) * (7 * n + 2 * ((n + 1) / 2))
  {
    if n > 0 {
      var b := n - 1;
      var na := NAugs(c);
      BatchLoopLength(c, b);
      BatchLoopStep(c, b);
      var width: nat := if b % 2 == 0 then 9 else 7;
      FlatMapRows(na, (i: nat) => InnerEvents(b, i), width);
      assert 7 * b + 2 * ((b + 1) / 2) + width == 7 * n + 2 * ((n + 1) / 2);
      assert na * (7 * b + 2 * ((b + 1) / 2)) + na * width == na * (7 * n + 2 * ((n + 1) / 2)) by {
        Distribute(na, 7 * b + 2 * ((b + 1) / 2), width);
      }
    }
  }

  lemma Distribute(a: int, x: int, y: int)
    ensures a * x + a * y == a * (x + y)
  {
  }

  /** The number of calls one epoch makes: model.train(), the batches, and
      the closing record_augerino_lims in augerino mode. */
  lemma EpochLength(c: Config, n: nat)
    ensures |EpochEvents(c, n)| ==
              1 + (if c.isTangentProp then n else 0) + NAugs(c) * (7 * n + 2 * ((n + 1) / 2))
              + (if c.modelType == "augerino" then 1 else 0)
  {
    BatchLoopLength(c, n);
  }

  predicate IsFetch(e: Event) { e.FetchData? }
  predicate IsOptimizer(e: Event) { e.RecordBatchData? || e.ZeroGrad? || e.Backward? || e.OptimizerStep? }
  predicate IsLogging(e: Event) { e.KeepLog? || e.ReleaseMemory? }
  predicate IsRequiresGrad(e: Event) { e.RequiresGrad? }
  predicate IsRecordLims(e: Event) { e.RecordAugerinoLims? }

  /** The elements at positions lo..hi-1 are exactly the kept ones. */
  lemma {:induction false} FilterRange<T>(s: seq<T>, keep: T -> bool, lo: nat, hi: nat)
    requires lo <= hi <= |s|
    requires forall k :: 0 <= k < |s| ==> (keep(s[k]) <==> lo <= k < hi)
    ensures Filter(s, keep) == s[lo..hi]
    decreases |s|
  {
    if lo == hi {
      FilterNone(s, keep);
    } else {
      var init := s[..|s| - 1];
      assert forall k :: 0 <= k < |init| ==> init[k] == s[k];
      if hi == |s| {
        FilterRange(init, keep, lo, hi - 1);
        assert s[lo..hi] == init[lo..hi - 1] + [s[|s| - 1]];
      } else {
        FilterRange(init, keep, lo, hi);
        assert s[lo..hi] == init[lo..hi];
      }
    }
  }

  /** Filtering a batch: its tangent-prop flag, then each inner iteration. */
  lemma BatchFilter(c: Config, b: nat, keep: Event -> bool, row: nat -> seq<Event>)
    requires forall i: nat :: i < NAugs(c) ==> Filter(InnerEvents(b, i), keep) == row(i)
    ensures Filter(BatchEvents(c, b), keep) == Filter(GradPart(c, b), keep) + FlatMap(NAugs(c), row)
  {
    FilterAppend(GradPart(c, b), InnerLoop(b, NAugs(c)), keep);
    FilterFlatMap(NAugs(c), (i: nat) => InnerEvents(b, i), keep);
    FlatMapExt(NAugs(c), j => Filter(((i: nat) => InnerEvents(b, i))(j), keep), row);
  }

  /** Filtering an epoch: model.train(), each batch, then the closing call. */
  lemma EpochFilter(c: Config, n: nat, keep: Event -> bool, row: nat -> seq<Event>)
    requires forall b: nat :: b < n ==> Filter(BatchEvents(c, b), keep) == row(b)
    ensures Filter(EpochEvents(c, n), keep) == Filter([ModelTrain], keep) + FlatMap(n, row) + Filter(Tail(c), keep)
  {
    FilterAppend([ModelTrain] + BatchLoop(c, n), Tail(c), keep);
    FilterAppend([ModelTrain], BatchLoop(c, n), keep);
    FilterFlatMap(n, (b: nat) => BatchEvents(c, b), keep);
    FlatMapExt(n, j => Filter(((b: nat) => BatchEvents(c, b))(j), keep), row);
  }

  /** The fetches of batch `b`: view i for each inner iteration i. */
  function FetchRow(na: nat, b: nat): seq<Event> { FlatMap(na, (i: nat) => [FetchData(b, i)]) }

  /** The fetches of the first `n` batches. */
  function FetchRows(na: nat, n: nat): seq<Event> { FlatMap(n, (b: nat) => FetchRow(na, b)) }

  lemma FetchBatch(c: Config, b: nat)
    ensures Filter(BatchEvents(c, b), IsFetch) == FetchRow(NAugs(c), b)
  {
    forall i: nat | i < NAugs(c) ensures Filter(InnerEvents(b, i), IsFetch) == [FetchData(b, i)] {
      FilterRange(InnerEvents(b, i), IsFetch, 0, 1);
    }
    BatchFilter(c, b, IsFetch, (i: nat) => [FetchData(b, i)]);
    FilterNone(GradPart(c, b), IsFetch);
  }

  lemma FetchEpoch(c: Config, n: nat)
    ensures Filter(EpochEvents(c, n), IsFetch) == FetchRows(NAugs(c), n)
  {
    var row: nat -> seq<Event> := (b: nat) => FetchRow(NAugs(c), b);
    forall b: nat | b < n ensures Filter(BatchEvents(c, b), IsFetch) == row(b) {
      FetchBatch(c, b);
    }
    EpochFilter(c, n, IsFetch, row);
    FilterNone([ModelTrain], IsFetch);
    FilterNone(Tail(c), IsFetch);
  }

  lemma FetchRowsLayout(na: nat, n: nat)
    ensures |FetchRows(na, n)| == n * na
    ensures forall b: nat, i: nat :: b < n && i < na ==>
              Cell(b, i, na) < n * na && FetchRows(na, n)[Cell(b, i, na)] == FetchData(b, i)
  {
    forall b: nat | b < n
      ensures |FetchRow(na, b)| == na
      ensures forall i: nat :: i < na ==> FetchRow(na, b)[i] == FetchData(b, i)
    {
      FlatMapRows(na, (i: nat) => [FetchData(b, i)], 1);
      forall i: nat | i < na ensures FetchRow(na, b)[i] == FetchData(b, i) {
        assert Cell(i, 0, 1) == i;
      }
    }
    FlatMapRows(n, (b: nat) => FetchRow(na, b), na);
  }

  /** The inner loop runs n_augs times per batch, in order: the epoch makes
      batches * n_augs forward passes, and the one at position b * n_augs + i
      fetches view i of batch b. */
  lemma ForwardPasses(c: Config, n: nat)
    ensures |Filter(EpochEvents(c, n), IsFetch)| == n * NAugs(c)
    ensures forall b: nat, i: nat :: b < n && i < NAugs(c) ==>
              && Cell(b, i, NAugs(c)) < n * NAugs(c)
              && Filter(EpochEvents(c, n), IsFetch)[Cell(b, i, NAugs(c))] == FetchData(b, i)
  {
    FetchEpoch(c, n);
    FetchRowsLayout(NAugs(c), n);
  }

  /** The optimizer-side calls of one inner iteration, in source order. */
  function OptimizerCalls(b: nat, i: nat): seq<Event>
  {
    [RecordBatchData(b, i), ZeroGrad(b, i), Backward(b, i), OptimizerStep(b, i)]
  }

  /** The optimizer-side calls of batch `b`. */
  function OptimizerRow(na: nat, b: nat): seq<Event> { FlatMap(na, (i: nat) => OptimizerCalls(b, i)) }

  /** The optimizer-side calls of the first `n` batches. */
  function OptimizerRows(na: nat, n: nat): seq<Event> { FlatMap(n, (b: nat) => OptimizerRow(na, b)) }

  lemma OptimizerBatch(c: Config, b: nat)
    ensures Filter(BatchEvents(c, b), IsOptimizer) == OptimizerRow(NAugs(c), b)
  {
    forall i: nat | i < NAugs(c) ensures Filter(InnerEvents(b, i), IsOptimizer) == OptimizerCalls(b, i) {
      FilterRange(InnerEvents(b, i), IsOptimizer, 3, 7);
    }
    BatchFilter(c, b, IsOptimizer, (i: nat) => OptimizerCalls(b, i));
    FilterNone(GradPart(c, b), IsOptimizer);
  }

  lemma OptimizerEpoch(c: Config, n: nat)
    ensures Filter(EpochEvents(c, n), IsOptimizer) == OptimizerRows(NAugs(c), n)
  {
    var row: nat -> seq<Event> := (b: nat) => OptimizerRow(NAugs(c), b);
    forall b: nat | b < n ensures Filter(BatchEvents(c, b), IsOptimizer) == row(b) {
      OptimizerBatch(c, b);
    }
    EpochFilter(c, n, IsOptimizer, row);
    FilterNone([ModelTrain], IsOptimizer);
    FilterNone(Tail(c), IsOptimizer);
  }

  lemma OptimizerRowsLength(na: nat, n: nat)
    ensures |OptimizerRows(na, n)| == n * (na * 4)
  {
    forall b: nat | b < n ensures |OptimizerRow(na, b)| == na * 4 {
      FlatMapRows(na, (i: nat) => OptimizerCalls(b, i), 4);
    }
    FlatMapRows(n, (b: nat) => OptimizerRow(na, b), na * 4);
  }

  /** Leaving out everything else, the epoch's reporter and optimizer calls
      are record_batch_data, zero_grad, backward, step for every batch and
      every inner iteration, in loop order. */
  lemma OptimizerOrder(c: Config, n: nat)
    ensures Filter(EpochEvents(c, n), IsOptimizer) == OptimizerRows(NAugs(c), n)
    ensures |Filter(EpochEvents(c, n), IsOptimizer)| == n * (NAugs(c) * 4)
  {
    OptimizerEpoch(c, n);
    OptimizerRowsLength(NAugs(c), n);
  }

  /** What one batch contributes to the log: keep_log and the memory release
      after each inner iteration, but only for an even batch index. */
  function LogRow(na: nat, b: nat): seq<Event>
  {
    if b % 2 == 0 then FlatMap(na, (i: nat) => [KeepLog(b, i), ReleaseMemory(b, i)]) else []
  }

  /** The logging calls of the first `n` batches. */
  function LogRows(na: nat, n: nat): seq<Event> { FlatMap(n, (b: nat) => LogRow(na, b)) }

  lemma LogBatch(c: Config, b: nat)
    ensures Filter(BatchEvents(c, b), IsLogging) == LogRow(NAugs(c), b)
  {
    var na := NAugs(c);
    if b % 2 == 0 {
      forall i: nat | i < na ensures Filter(InnerEvents(b, i), IsLogging) == [KeepLog(b, i), ReleaseMemory(b, i)] {
        FilterRange(InnerEvents(b, i), IsLogging, 7, 9);
      }
      BatchFilter(c, b, IsLogging, (i: nat) => [KeepLog(b, i), ReleaseMemory(b, i)]);
    } else {
      forall i: nat | i < na ensures Filter(InnerEvents(b, i), IsLogging) == [] {
        FilterNone(InnerEvents(b, i), IsLogging);
      }
      var nothing: nat -> seq<Event> := (i: nat) => [];
      BatchFilter(c, b, IsLogging, nothing);
      FlatMapEmpty(na, nothing);
    }
    FilterNone(GradPart(c, b), IsLogging);
  }

  lemma LogEpoch(c: Config, n: nat)
    ensures Filter(EpochEvents(c, n), IsLogging) == LogRows(NAugs(c), n)
  {
    var row: nat -> seq<Event> := (b: nat) => LogRow(NAugs(c), b);
    forall b: nat | b < n ensures Filter(BatchEvents(c, b), IsLogging) == row(b) {
      LogBatch(c, b);
    }
    EpochFilter(c, n, IsLogging, row);
    FilterNone([ModelTrain], IsLogging);
    FilterNone(Tail(c), IsLogging);
  }

  lemma {:induction false} LogRowsLength(na: nat, n: nat)
    ensures |LogRows(na, n)| == 2 * na * ((n + 1) / 2)
  {
    if n > 0 {
      LogRowsLength(na, n - 1);
      var b := n - 1;
      if b % 2 == 0 {
        FlatMapRows(na, (i: nat) => [KeepLog(b, i), ReleaseMemory(b, i)], 2);
        assert (n + 1) / 2 == n / 2 + 1;
      } else {
        assert (n + 1) / 2 == n / 2;
      }
    }
  }

  /** Every entry of the log rows is a logging call of an even batch. */
  lemma LogRowsEven(na: nat, n: nat)
    ensures forall k :: 0 <= k < |LogRows(na, n)| ==>
              IsLogging(LogRows(na, n)[k]) && LogRows(na, n)[k].batch % 2 == 0
  {
    var row: nat -> seq<Event> := (b: nat) => LogRow(na, b);
    var logs := LogRows(na, n);
    forall k | 0 <= k < |logs| ensures IsLogging(logs[k]) && logs[k].batch % 2 == 0 {
      FlatMapMember(n, row, logs[k]);
      var b: nat :| b < n && logs[k] in row(b);
      if b % 2 == 0 {
        FlatMapMember(na, (i: nat) => [KeepLog(b, i), ReleaseMemory(b, i)], logs[k]);
      }
    }
  }

  /** keep_log and the memory release run only for even batch indices, and
      then once per inner iteration: 2 * n_augs calls for each of the
      ceil(n / 2) even batches. */
  lemma LoggingCadence(c: Config, n: nat)
    ensures Filter(EpochEvents(c, n), IsLogging) == LogRows(NAugs(c), n)
    ensures |Filter(EpochEvents(c, n), IsLogging)| == 2 * NAugs(c) * ((n + 1) / 2)
    ensures forall k :: 0 <= k < |Filter(EpochEvents(c, n), IsLogging)| ==>
              && IsLogging(Filter(EpochEvents(c, n), IsLogging)[k])
              && Filter(EpochEvents(c, n), IsLogging)[k].batch % 2 == 0
  {
    LogEpoch(c, n);
    LogRowsLength(NAugs(c), n);
    LogRowsEven(NAugs(c), n);
  }

  /** No inner iteration records the augerino limits. */
  lemma LimsBatch(c: Config, b: nat)
    ensures Filter(BatchEvents(c, b), IsRecordLims) == []
  {
    forall i: nat | i < NAugs(c) ensures Filter(InnerEvents(b, i), IsRecordLims) == [] {
      FilterNone(InnerEvents(b, i), IsRecordLims);
    }
    var nothing: nat -> seq<Event> := (i: nat) => [];
    BatchFilter(c, b, IsRecordLims, nothing);
    FlatMapEmpty(NAugs(c), nothing);
    FilterNone(GradPart(c, b), IsRecordLims);
  }

  /** record_augerino_lims is called exactly once per epoch in augerino mode,
      as the last call, and never otherwise. */
  lemma AugerinoLimsRecordedOnce(c: Config, n: nat)
    ensures Filter(EpochEvents(c, n), IsRecordLims) ==
              if c.modelType == "augerino" then [RecordAugerinoLims] else []
    ensures c.modelType == "augerino" ==>
              EpochEvents(c, n)[|EpochEvents(c, n)| - 1] == RecordAugerinoLims
  {
    var row: nat -> seq<Event> := (b: nat) => [];
    assert Filter(BatchLoop(c, n), IsRecordLims) == [] by {
      forall b: nat | b < n ensures Filter(BatchEvents(c, b), IsRecordLims) == row(b) {
        LimsBatch(c, b);
      }
      FilterFlatMap(n, (b: nat) => BatchEvents(c, b), IsRecordLims);
      FlatMapEmpty(n, j => Filter(((b: nat) => BatchEvents(c, b))(j), IsRecordLims));
    }
    FilterAppend([ModelTrain] + BatchLoop(c, n), Tail(c), IsRecordLims);
    FilterAppend([ModelTrain], BatchLoop(c, n), IsRecordLims);
    FilterNone([ModelTrain], IsRecordLims);
    if c.modelType == "augerino" {
      FilterAll(Tail(c), IsRecordLims);
    } else {
      FilterNone(Tail(c), IsRecordLims);
    }
  }

  /** The tangent-prop flags of the first `n` batches. */
  function GradRows(c: Config, n: nat): seq<Event> { FlatMap(n, (b: nat) => GradPart(c, b)) }

  /** Within one batch only the tangent-prop flag sets requires_grad. */
  lemma GradBatch(c: Config, b: nat)
    ensures Filter(BatchEvents(c, b), IsRequiresGrad) == GradPart(c, b)
  {
    forall i: nat | i < NAugs(c) ensures Filter(InnerEvents(b, i), IsRequiresGrad) == [] {
      FilterNone(InnerEvents(b, i), IsRequiresGrad);
    }
    var nothing: nat -> seq<Event> := (i: nat) => [];
    BatchFilter(c, b, IsRequiresGrad, nothing);
    FlatMapEmpty(NAugs(c), nothing);
    FilterAll(GradPart(c, b), IsRequiresGrad);
  }

  lemma GradEpoch(c: Config, n: nat)
    ensures Filter(EpochEvents(c, n), IsRequiresGrad) == GradRows(c, n)
  {
    var row: nat -> seq<Event> := (b: nat) => GradPart(c, b);
    forall b: nat | b < n ensures Filter(BatchEvents(c, b), IsRequiresGrad) == row(b) {
      GradBatch(c, b);
    }
    EpochFilter(c, n, IsRequiresGrad, row);
    FilterNone([ModelTrain], IsRequiresGrad);
    FilterNone(Tail(c), IsRequiresGrad);
  }

  lemma GradRowsLayout(c: Config, n: nat)
    ensures !c.isTangentProp ==> GradRows(c, n) == []
    ensures c.isTangentProp ==>
              && |GradRows(c, n)| == n
              && forall b: nat :: b < n ==> GradRows(c, n)[b] == RequiresGrad(b)
  {
    var row: nat -> seq<Event> := (b: nat) => GradPart(c, b);
    if c.isTangentProp {
      FlatMapRows(n, row, 1);
      forall b: nat | b < n ensures GradRows(c, n)[b] == RequiresGrad(b) {
        assert Cell(b, 0, 1) == b;
      }
    } else {
      FlatMapEmpty(n, row);
    }
  }

  /** base_data.requires_grad is set once per batch, in batch order, when
      is_tangent_prop holds, and never otherwise. */
  lemma GradTrackingOnlyForTangentProp(c: Config, n: nat)
    ensures !c.isTangentProp ==> Filter(EpochEvents(c, n), IsRequiresGrad) == []
    ensures c.isTangentProp ==>
              && |Filter(EpochEvents(c, n), IsRequiresGrad)| == n
              && forall b: nat :: b < n ==> Filter(EpochEvents(c, n), IsRequiresGrad)[b] == RequiresGrad(b)
  {
    GradEpoch(c, n);
    GradRowsLayout(c, n);
  }
}
