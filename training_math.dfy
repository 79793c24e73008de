/** What `BatchTask.call` and `Trainer.train` compute, on values.  A task
    runs its samples in order, adding each sample's loss and gradients to
    running totals that start at zero; the trainer adds the batch task totals of a
    mini-batch's sub-batches, divides the gradients by the mini-batch size
    and takes one descent step.  The classes `Tasks.BatchTask` and
    `Training.Trainer` are proved against these functions. */
module TrainingMath {
  import opened Wrappers
  import opened Vectors
  import opened LayerMath
  import opened NetworkMath
  import opened Loss
  import opened Partition

  /** One training sample. */
  datatype DataPoint = DataPoint(inputs: Vector, targets: Vector)

  /** The network reads `d.inputs` without running past its end, and the
      output and the targets are not both empty: an empty output against
      non-empty targets is a length mismatch, and the mean squared error of
      two empty vectors is not defined. */
  predicate Usable(ls: seq<Layer>, d: DataPoint) {
    Admits(ls, |d.inputs|) && (OutputLength(ls, |d.inputs|) > 0 || |d.targets| > 0)
  }

  predicate AllUsable(ls: seq<Layer>, ds: seq<DataPoint>) {
    forall d :: d in ds ==> Usable(ls, d)
  }

  /** Accumulated gradients, one per layer, and accumulated loss. */
  datatype Totals = Totals(gradients: seq<Gradient>, loss: real)

  /** The starting point of every accumulation: zero gradients, zero loss. */
  function Zero(ls: seq<Layer>): Totals {
    Totals(ZeroGradients(ls), 0.0)
  }

  /** `r` is a success holding gradients `gs` and loss `l`. */
  predicate Gives(r: Result<Totals>, gs: seq<Gradient>, l: real) {
    r.Success? && r.value.gradients == gs && r.value.loss == l
  }

  lemma GivesSuccess(r: Result<Totals>, gs: seq<Gradient>, l: real)
    requires Gives(r, gs, l)
    ensures r == Success(Totals(gs, l))
  {
  }

  /** Successful totals hold one gradient per layer of the layer's shape. */
  predicate Fits(ls: seq<Layer>, r: Result<Totals>) {
    r.Success? ==> FitsAll(ls, r.value.gradients)
  }

  /** Accumulated totals: they fit, and their input gradients are still the
      zeros they started from (`add` does not accumulate input gradients). */
  predicate Accumulated(ls: seq<Layer>, r: Result<Totals>) {
    Fits(ls, r)
    && (r.Success? ==> forall k :: 0 <= k < |ls| ==> r.value.gradients[k].input == Zeros(ls[k].inputSize))
  }

  /** What one sample contributes: `predict`, then `compute` and
      `derivative` against the targets, then `backward`.  `compute` fails
      when the targets do not have the output's length. */
  function Sample(ls: seq<Layer>, d: DataPoint): (r: Result<Totals>)
    requires Chained(ls) && Usable(ls, d)
    ensures Fits(ls, r)
  {
    var y := Predict(ls, d.inputs);
    if |y| != |d.targets| then Failure(LengthMismatch)
    else
      CachesReady(ls, d.inputs);
      var g := NetBackward(ls, Caches(ls, d.inputs), MseGradient(y, d.targets));
      NetBackwardFits(ls, Caches(ls, d.inputs), MseGradient(y, d.targets));
      Success(Totals(g, Mse(y, d.targets)))
  }

  /** Adding `b` into `a`: the first failure wins; otherwise gradients are
      added layer by layer and losses are summed. */
  function Combine(ls: seq<Layer>, a: Result<Totals>, b: Result<Totals>): (r: Result<Totals>)
    requires Fits(ls, a) && Fits(ls, b)
    ensures Fits(ls, r)
  {
    match a
    case Failure(e) => Failure(e)
    case Success(x) =>
      match b
      case Failure(e) => Failure(e)
      case Success(y) =>
        AddGradientsFit(ls, x.gradients, y.gradients);
        Success(Totals(AddGradients(x.gradients, y.gradients), x.loss + y.loss))
  }

  /** `BatchTask.call` on the samples `ds`: the totals of its samples, added
      in order to a zero start; it fails at the first sample that fails. */
  function Task(ls: seq<Layer>, ds: seq<DataPoint>): (r: Result<Totals>)
    requires Chained(ls) && AllUsable(ls, ds)
    ensures Accumulated(ls, r)
    decreases |ds|
  {
    if |ds| == 0 then Success(Zero(ls))
    else Combine(ls, Task(ls, ds[..|ds| - 1]), Sample(ls, ds[|ds| - 1]))
  }

  /** The trainer's reduction over the sub-batches `rs` of mini-batch `mb`:
      the batch task totals added in submission order to a zero start; the first
      failed task fails the whole reduction. */
  function Reduce(ls: seq<Layer>, mb: seq<DataPoint>, rs: seq<Range>): (r: Result<Totals>)
    requires Chained(ls) && AllUsable(ls, mb)
    requires Within(rs, |mb|)
    ensures Accumulated(ls, r)
    decreases |rs|
  {
    if |rs| == 0 then Success(Zero(ls))
    else
      var q := rs[|rs| - 1];
      Combine(ls, Reduce(ls, mb, rs[..|rs| - 1]), Task(ls, mb[q.from..q.to]))
  }

  /** The network's parameters and the epoch's loss so far. */
  datatype Progress = Progress(layers: seq<Layer>, loss: real)

  /** What `train` does with the reduced totals `r` of a mini-batch of `m`
      samples: after a failure, nothing; otherwise the summed gradients are
      divided by `m` and applied once, and the mini-batch loss is added. */
  function Update(p: Progress, r: Result<Totals>, m: nat, lr: real): (q: Progress)
    requires Chained(p.layers) && Fits(p.layers, r) && m > 0
    ensures SameShapes(p.layers, q.layers) && Chained(q.layers)
  {
    match r
    case Failure(_) => p
    case Success(t) =>
      var avg := DivGradients(t.gradients, m as real);
      DivGradientsFit(p.layers, t.gradients, m as real);
      ApplyAllKeepsShapes(p.layers, avg, lr);
      Progress(ApplyAll(p.layers, avg, lr), p.loss + t.loss)
  }

  /** One iteration of the mini-batch loop of `train`: the sub-batch tasks
      are reduced, then the result is applied. */
  function MiniBatchStep(p: Progress, mb: seq<DataPoint>, threads: nat, lr: real): (q: Progress)
    requires Chained(p.layers) && AllUsable(p.layers, mb) && |mb| > 0 && threads > 0
    ensures SameShapes(p.layers, q.layers) && Chained(q.layers)
  {
    SubmittedTiles(|mb|, threads);
    TilesOrdered(Submitted(|mb|, threads), |mb|);
    Update(p, Reduce(p.layers, mb, Submitted(|mb|, threads)), |mb|, lr)
  }

  /** Samples usable by a network stay usable by every network of the same shape. */
  lemma SameShapesUsable(ls: seq<Layer>, ms: seq<Layer>, ds: seq<DataPoint>)
    requires SameShapes(ls, ms) && AllUsable(ls, ds)
    ensures AllUsable(ms, ds)
  {
    SameShapesFit(ls, ms);
  }

  /** The first `b` mini-batches of one epoch over the samples in `order`.
      Each step uses the totals of one task over the whole mini-batch;
      `MiniBatchStepIsFullBatch` shows that this is what the threaded step
      of `train` computes, whatever the number of threads. */
  function EpochUpTo(ls: seq<Layer>, order: seq<DataPoint>, batchSize: nat, lr: real, b: nat): (p: Progress)
    requires Chained(ls) && AllUsable(ls, order) && batchSize > 0
    requires b <= CeilDiv(|order|, batchSize)
    ensures SameShapes(ls, p.layers) && Chained(p.layers)
    decreases b
  {
    if b == 0 then Progress(ls, 0.0)
    else
      var p := EpochUpTo(ls, order, batchSize, lr, b - 1);
      var mb := MiniBatch(order, batchSize, b - 1);
      SameShapesUsable(ls, p.layers, order);
      Update(p, Task(p.layers, mb), |mb|, lr)
  }

  /** One epoch: every mini-batch of `order`, starting from a zero loss. */
  function Epoch(ls: seq<Layer>, order: seq<DataPoint>, batchSize: nat, lr: real): (p: Progress)
    requires Chained(ls) && AllUsable(ls, order) && batchSize > 0
    ensures SameShapes(ls, p.layers) && Chained(p.layers)
  {
    EpochUpTo(ls, order, batchSize, lr, CeilDiv(|order|, batchSize))
  }

  /** `t` lists the states of an epoch: `t[b]` is its state after its
      first `b` mini-batches, for every `b` up to the number of mini-batches. */
  ghost predicate IsStages(t: seq<Progress>, ls: seq<Layer>, order: seq<DataPoint>, batchSize: nat, lr: real)
    requires Chained(ls) && AllUsable(ls, order) && batchSize > 0
  {
    |t| == CeilDiv(|order|, batchSize) + 1
    && forall b {:trigger EpochUpTo(ls, order, batchSize, lr, b)} :: 0 <= b < |t| ==> t[b] == EpochUpTo(ls, order, batchSize, lr, b)
  }

  /** An epoch has its list of states, one per mini-batch boundary. */
  lemma StagesExist(ls: seq<Layer>, order: seq<DataPoint>, batchSize: nat, lr: real)
    requires Chained(ls) && AllUsable(ls, order) && batchSize > 0
    ensures exists t :: IsStages(t, ls, order, batchSize, lr)
  {
    var n := CeilDiv(|order|, batchSize);
    var t := seq(n + 1, b requires 0 <= b <= n => EpochUpTo(ls, order, batchSize, lr, b));
    assert forall b :: 0 <= b < |t| ==> t[b] == EpochUpTo(ls, order, batchSize, lr, b);
    assert IsStages(t, ls, order, batchSize, lr);
  }

  /** A report line: the epoch and its average loss. */
  datatype Report = Report(epoch: nat, averageLoss: real)

  /** Epoch `epoch` of `epochs` is reported.  For positive epochs Java's
      `%` and Dafny's `%` agree, whatever the sign of `printInterval`. */
  predicate Reported(epoch: nat, epochs: nat, printInterval: int)
    requires printInterval != 0
  {
    epoch % printInterval == 0 || epoch == epochs
  }

  /** The reports after epoch `e` of `epochs`, whose average loss is `loss`:
      its report is appended when the epoch is reported. */
  function ExtendReports(rs: seq<Report>, e: nat, epochs: nat, printInterval: int, loss: real): (qs: seq<Report>)
    requires printInterval != 0
    ensures Reported(e, epochs, printInterval) ==> qs == rs + [Report(e, loss)]
    ensures !Reported(e, epochs, printInterval) ==> qs == rs
  {
    if Reported(e, epochs, printInterval) then rs + [Report(e, loss)] else rs
  }

  /** The orders of the epochs are permutations of `data`. */
  predicate Shuffles(orders: seq<seq<DataPoint>>, data: seq<DataPoint>) {
    forall e :: 0 <= e < |orders| ==> multiset(orders[e]) == multiset(data)
  }

  /** The parameters after the first `e` epochs, and the reports printed so
      far; epoch `k` (from 1) visits the samples in `orders[k - 1]`. */
  function TrainUpTo(ls: seq<Layer>, data: seq<DataPoint>, orders: seq<seq<DataPoint>>, batchSize: nat,
                     lr: real, epochs: nat, printInterval: int, e: nat): (r: (seq<Layer>, seq<Report>))
    requires Chained(ls) && AllUsable(ls, data) && Shuffles(orders, data) && |data| > 0
    requires batchSize > 0 && printInterval != 0 && e <= |orders|
    ensures SameShapes(ls, r.0) && Chained(r.0)
    decreases e
  {
    if e == 0 then (ls, [])
    else
      var (ms, reports) := TrainUpTo(ls, data, orders, batchSize, lr, epochs, printInterval, e - 1);
      ShuffleUsable(ls, ms, data, orders[e - 1]);
      var p := Epoch(ms, orders[e - 1], batchSize, lr);
      (p.layers, ExtendReports(reports, e, epochs, printInterval, p.loss / (|data| as real)))
  }

  /** `t` lists the states of training: `t[e]` is the parameters and the
      reports after its first `e` epochs, for every `e` up to `|orders|`. */
  ghost predicate IsHistory(t: seq<(seq<Layer>, seq<Report>)>, ls: seq<Layer>, data: seq<DataPoint>,
                            orders: seq<seq<DataPoint>>, batchSize: nat, lr: real, epochs: nat, printInterval: int)
    requires Chained(ls) && AllUsable(ls, data) && Shuffles(orders, data) && |data| > 0
    requires batchSize > 0 && printInterval != 0
  {
    |t| == |orders| + 1
    && forall e {:trigger TrainUpTo(ls, data, orders, batchSize, lr, epochs, printInterval, e)} :: 0 <= e < |t| ==>
         t[e] == TrainUpTo(ls, data, orders, batchSize, lr, epochs, printInterval, e)
  }

  /** Training has its list of states, one per epoch boundary. */
  lemma HistoryExists(ls: seq<Layer>, data: seq<DataPoint>, orders: seq<seq<DataPoint>>, batchSize: nat,
                      lr: real, epochs: nat, printInterval: int)
    requires Chained(ls) && AllUsable(ls, data) && Shuffles(orders, data) && |data| > 0
    requires batchSize > 0 && printInterval != 0
    ensures exists t :: IsHistory(t, ls, data, orders, batchSize, lr, epochs, printInterval)
  {
    var t := seq(|orders| + 1, e requires 0 <= e <= |orders| => TrainUpTo(ls, data, orders, batchSize, lr, epochs, printInterval, e));
    assert forall e :: 0 <= e < |t| ==> t[e] == TrainUpTo(ls, data, orders, batchSize, lr, epochs, printInterval, e);
    assert IsHistory(t, ls, data, orders, batchSize, lr, epochs, printInterval);
  }

  /** A permutation of usable samples is usable by a network of the same shape. */
  lemma ShuffleUsable(ls: seq<Layer>, ms: seq<Layer>, data: seq<DataPoint>, order: seq<DataPoint>)
    requires SameShapes(ls, ms) && AllUsable(ls, data) && multiset(order) == multiset(data)
    ensures AllUsable(ms, order)
  {
    forall d | d in order
      ensures Usable(ls, d)
    {
      assert d in multiset(order);
    }
    SameShapesUsable(ls, ms, order);
  }

  // ---------------------------------------------------------------------
  // Properties

  /** Two successes combine into the sum of their gradients and losses. */
  lemma CombineSuccess(ls: seq<Layer>, ag: seq<Gradient>, al: real, bg: seq<Gradient>, bl: real)
    requires FitsAll(ls, ag) && FitsAll(ls, bg)
    ensures CoversAll(bg, ag)
    ensures Combine(ls, Success(Totals(ag, al)), Success(Totals(bg, bl))) == Success(Totals(AddGradients(ag, bg), al + bl))
  {
    AddGradientsFit(ls, ag, bg);
  }

  /** Adding zero totals changes nothing. */
  lemma CombineZeroRight(ls: seq<Layer>, r: Result<Totals>)
    requires Fits(ls, r)
    ensures Combine(ls, r, Success(Zero(ls))) == r
  {
    if r.Success? {
      AddZeroGradients(ls, r.value.gradients);
    }
  }

  /** Adding accumulated totals to zero totals gives them back. */
  lemma CombineZeroLeft(ls: seq<Layer>, r: Result<Totals>)
    requires Accumulated(ls, r)
    ensures Combine(ls, Success(Zero(ls)), r) == r
  {
    if r.Success? {
      AddZeroGradientsLeft(ls, r.value.gradients);
    }
  }

  /** Combining is associative, failures included. */
  lemma CombineAssociates(ls: seq<Layer>, a: Result<Totals>, b: Result<Totals>, c: Result<Totals>)
    requires Fits(ls, a) && Fits(ls, b) && Fits(ls, c)
    ensures Combine(ls, Combine(ls, a, b), c) == Combine(ls, a, Combine(ls, b, c))
  {
    if a.Success? && b.Success? && c.Success? {
      AddGradientsAssociate(ls, a.value.gradients, b.value.gradients, c.value.gradients);
    }
  }

  /** A task over `xs + ys` is the batch task over `xs` combined with the batch task
      over `ys`: splitting a slice of samples between two tasks and adding
      their totals gives the totals of one task over the whole slice. */
  lemma {:induction false} TaskSplit(ls: seq<Layer>, xs: seq<DataPoint>, ys: seq<DataPoint>)
    requires Chained(ls) && AllUsable(ls, xs) && AllUsable(ls, ys)
    ensures AllUsable(ls, xs + ys)
    ensures Task(ls, xs + ys) == Combine(ls, Task(ls, xs), Task(ls, ys))
    decreases |ys|
  {
    if |ys| == 0 {
      assert xs + ys == xs;
      CombineZeroRight(ls, Task(ls, xs));
    } else {
      var front, y := ys[..|ys| - 1], ys[|ys| - 1];
      assert ys == front + [y];
      TaskSplit(ls, xs, front);
      TaskSplitStep(ls, xs, front, y);
    }
  }

  /** The inductive step of `TaskSplit`: one more sample at the end of `ys`. */
  lemma TaskSplitStep(ls: seq<Layer>, xs: seq<DataPoint>, ys: seq<DataPoint>, y: DataPoint)
    requires Chained(ls) && AllUsable(ls, xs) && AllUsable(ls, ys) && Usable(ls, y)
    requires AllUsable(ls, xs + ys) && Task(ls, xs + ys) == Combine(ls, Task(ls, xs), Task(ls, ys))
    ensures AllUsable(ls, xs + (ys + [y]))
    ensures Task(ls, xs + (ys + [y])) == Combine(ls, Task(ls, xs), Task(ls, ys + [y]))
  {
    AppendRegroup(xs, ys, y);
    TaskSnoc(ls, xs + ys, y);
    TaskSnoc(ls, ys, y);
    TasksAssociate(ls, xs, ys, y);
  }

  lemma AppendRegroup<T>(xs: seq<T>, ys: seq<T>, y: T)
    ensures xs + (ys + [y]) == (xs + ys) + [y]
  {
  }

  /** `Combine` regroups the totals of two tasks and a sample. */
  lemma TasksAssociate(ls: seq<Layer>, xs: seq<DataPoint>, ys: seq<DataPoint>, y: DataPoint)
    requires Chained(ls) && AllUsable(ls, xs) && AllUsable(ls, ys) && Usable(ls, y)
    ensures Combine(ls, Combine(ls, Task(ls, xs), Task(ls, ys)), Sample(ls, y))
         == Combine(ls, Task(ls, xs), Combine(ls, Task(ls, ys), Sample(ls, y)))
  {
    CombineAssociates(ls, Task(ls, xs), Task(ls, ys), Sample(ls, y));
  }

  /** The batch task over `ds` and then `d` adds `d`'s totals to those of `ds`. */
  lemma TaskSnoc(ls: seq<Layer>, ds: seq<DataPoint>, d: DataPoint)
    requires Chained(ls) && AllUsable(ls, ds) && Usable(ls, d)
    ensures AllUsable(ls, ds + [d])
    ensures Task(ls, ds + [d]) == Combine(ls, Task(ls, ds), Sample(ls, d))
  {
    var es := ds + [d];
    assert es[..|es| - 1] == ds && es[|es| - 1] == d;
  }

  lemma SliceSplit<T>(s: seq<T>, a: nat, b: nat)
    requires a <= b <= |s|
    ensures s[..a] + s[a..b] == s[..b]
  {
  }

  /** The batch task over one more sample adds that sample's totals. */
  lemma TaskPrefix(ls: seq<Layer>, ds: seq<DataPoint>, n: nat)
    requires Chained(ls) && AllUsable(ls, ds) && n < |ds|
    ensures AllUsable(ls, ds[..n]) && AllUsable(ls, ds[..n + 1])
    ensures Task(ls, ds[..n + 1]) == Combine(ls, Task(ls, ds[..n]), Sample(ls, ds[n]))
  {
    assert ds[..n + 1][..n] == ds[..n];
  }

  /** `Sample` unfolded, for a prediction of the targets' length. */
  lemma SampleSucceeds(ls: seq<Layer>, d: DataPoint, y: Vector)
    requires Chained(ls) && Usable(ls, d) && y == Predict(ls, d.inputs) && |y| == |d.targets|
    ensures Ready(ls, Caches(ls, d.inputs)) && LossGradientFits(ls, MseGradient(y, d.targets))
    ensures Gives(Sample(ls, d), NetBackward(ls, Caches(ls, d.inputs), MseGradient(y, d.targets)), Mse(y, d.targets))
  {
    CachesReady(ls, d.inputs);
  }

  /** `Sample` unfolded, for a prediction of another length than the targets. */
  lemma SampleFails(ls: seq<Layer>, d: DataPoint, y: Vector)
    requires Chained(ls) && Usable(ls, d) && y == Predict(ls, d.inputs) && |y| != |d.targets|
    ensures Sample(ls, d) == Failure(LengthMismatch)
  {
  }

  /** A network without outputs, facing a sample with targets, is usable:
      `compute` rejects the sample with a length mismatch, so every
      mini-batch holding it is skipped. */
  lemma EmptyOutputMismatches(p: Progress, mb: seq<DataPoint>, d: DataPoint, threads: nat, lr: real)
    requires Chained(p.layers) && AllUsable(p.layers, mb) && threads > 0 && d in mb
    requires OutputLength(p.layers, |d.inputs|) == 0 && |d.targets| > 0
    ensures Sample(p.layers, d) == Failure(LengthMismatch)
    ensures MiniBatchStep(p, mb, threads, lr) == p
  {
    MiniBatchFailureSkips(p, mb, threads, lr);
  }

  /** The loop step of `call` when the sample succeeds. */
  lemma TaskExtend(ls: seq<Layer>, ds: seq<DataPoint>, n: nat, sums: seq<Gradient>, loss: real,
                   sampleSums: seq<Gradient>, sampleLoss: real)
    requires Chained(ls) && AllUsable(ls, ds) && n < |ds|
    requires Gives(Task(ls, ds[..n]), sums, loss)
    requires Gives(Sample(ls, ds[n]), sampleSums, sampleLoss)
    ensures CoversAll(sampleSums, sums)
    ensures Gives(Task(ls, ds[..n + 1]), AddGradients(sums, sampleSums), loss + sampleLoss)
  {
    TaskPrefix(ls, ds, n);
    GivesSuccess(Task(ls, ds[..n]), sums, loss);
    GivesSuccess(Sample(ls, ds[n]), sampleSums, sampleLoss);
    CombineSuccess(ls, sums, loss, sampleSums, sampleLoss);
  }

  /** The loop step of `call` when the sample fails: the whole task fails
      with the sample's error. */
  lemma TaskStops(ls: seq<Layer>, ds: seq<DataPoint>, n: nat)
    requires Chained(ls) && AllUsable(ls, ds) && n < |ds|
    requires Task(ls, ds[..n]).Success? && Sample(ls, ds[n]).Failure?
    ensures Task(ls, ds) == Sample(ls, ds[n])
  {
    TaskPrefix(ls, ds, n);
    TaskSplit(ls, ds[..n + 1], ds[n + 1..]);
    SliceJoin(ds, n + 1);
  }

  lemma SliceJoin<T>(s: seq<T>, a: nat)
    requires a <= |s|
    ensures s[..a] + s[a..] == s
  {
  }

  /** Sub-batches that tile `[0, n)` reduce to the batch task over the first `n`
      samples. */
  lemma {:induction false} ReduceTiles(ls: seq<Layer>, mb: seq<DataPoint>, rs: seq<Range>, n: nat)
    requires Chained(ls) && AllUsable(ls, mb) && Tiles(rs, n) && n <= |mb|
    ensures Within(rs, |mb|)
    ensures Reduce(ls, mb, rs) == Task(ls, mb[..n])
    decreases |rs|
  {
    TilesOrdered(rs, n);
    if |rs| == 0 {
      assert mb[..n] == [];
    } else {
      var q := rs[|rs| - 1];
      TilesPrefix(rs, n);
      ReduceTiles(ls, mb, rs[..|rs| - 1], q.from);
      TaskSplit(ls, mb[..q.from], mb[q.from..n]);
      SliceSplit(mb, q.from, n);
    }
  }

  /** The number of threads does not matter: the reduction of a
      mini-batch's sub-batch tasks is one task over the whole mini-batch. */
  lemma ReduceIsTask(ls: seq<Layer>, mb: seq<DataPoint>, threads: nat)
    requires Chained(ls) && AllUsable(ls, mb) && threads > 0
    ensures Within(Submitted(|mb|, threads), |mb|)
    ensures Reduce(ls, mb, Submitted(|mb|, threads)) == Task(ls, mb)
  {
    SubmittedTiles(|mb|, threads);
    ReduceTiles(ls, mb, Submitted(|mb|, threads), |mb|);
    assert mb[..|mb|] == mb;
  }

  /** A mini-batch step is one full-batch step: the update is made with the
      totals of a single task over the whole mini-batch, so the thread count
      does not matter. */
  lemma MiniBatchStepIsFullBatch(p: Progress, mb: seq<DataPoint>, threads: nat, lr: real)
    requires Chained(p.layers) && AllUsable(p.layers, mb) && |mb| > 0 && threads > 0
    ensures MiniBatchStep(p, mb, threads, lr) == Update(p, Task(p.layers, mb), |mb|, lr)
    ensures MiniBatchStep(p, mb, threads, lr) == MiniBatchStep(p, mb, 1, lr)
  {
    ReduceIsTask(p.layers, mb, threads);
    ReduceIsTask(p.layers, mb, 1);
  }

  /** Mini-batch `b` of an epoch, with any number of threads, takes the
      epoch from its state after `b` mini-batches to its state after `b + 1`. */
  lemma EpochStep(ls: seq<Layer>, order: seq<DataPoint>, batchSize: nat, threads: nat, lr: real, b: nat)
    requires Chained(ls) && AllUsable(ls, order) && batchSize > 0 && threads > 0
    requires b < CeilDiv(|order|, batchSize)
    ensures AllUsable(EpochUpTo(ls, order, batchSize, lr, b).layers, order)
    ensures EpochUpTo(ls, order, batchSize, lr, b + 1)
         == MiniBatchStep(EpochUpTo(ls, order, batchSize, lr, b), MiniBatch(order, batchSize, b), threads, lr)
  {
    var p := EpochUpTo(ls, order, batchSize, lr, b);
    SameShapesUsable(ls, p.layers, order);
    MiniBatchStepIsFullBatch(p, MiniBatch(order, batchSize, b), threads, lr);
  }

  /** A task fails exactly when some sample's targets do not have the
      length of the network's output, and then with `LengthMismatch`. */
  lemma {:induction false} TaskFails(ls: seq<Layer>, ds: seq<DataPoint>)
    requires Chained(ls) && AllUsable(ls, ds)
    ensures Task(ls, ds).Failure? <==> exists d :: d in ds && |Predict(ls, d.inputs)| != |d.targets|
    ensures Task(ls, ds).Failure? ==> Task(ls, ds).error == LengthMismatch
    decreases |ds|
  {
    if |ds| > 0 {
      var front, last := ds[..|ds| - 1], ds[|ds| - 1];
      assert ds == front + [last];
      TaskFails(ls, front);
      if Task(ls, front).Failure? {
        var d :| d in front && |Predict(ls, d.inputs)| != |d.targets|;
        assert d in ds;
      }
    }
  }

  /** The epochs in `1..e` that print a report, in increasing order. */
  function ReportedEpochs(e: nat, epochs: nat, printInterval: int): seq<nat>
    requires printInterval != 0
    decreases e
  {
    if e == 0 then []
    else ReportedEpochs(e - 1, epochs, printInterval) + (if Reported(e, epochs, printInterval) then [e] else [])
  }

  /** The epochs of `rs`, in order. */
  function EpochsOf(rs: seq<Report>): (ks: seq<nat>)
    ensures |ks| == |rs| && forall i :: 0 <= i < |rs| ==> ks[i] == rs[i].epoch
  {
    seq(|rs|, i requires 0 <= i < |rs| => rs[i].epoch)
  }

  /** `ReportedEpochs` lists every epoch `k` in `1..e` with
      `k % printInterval == 0 || k == epochs`, no other, and each once in
      increasing order. */
  lemma {:induction false} ReportedEpochsAre(e: nat, epochs: nat, printInterval: int)
    requires printInterval != 0
    ensures forall k :: k in ReportedEpochs(e, epochs, printInterval) <==> 1 <= k <= e && Reported(k, epochs, printInterval)
    ensures forall i, j :: 0 <= i < j < |ReportedEpochs(e, epochs, printInterval)| ==>
      ReportedEpochs(e, epochs, printInterval)[i] < ReportedEpochs(e, epochs, printInterval)[j]
    decreases e
  {
    if e > 0 {
      var ks := ReportedEpochs(e - 1, epochs, printInterval);
      var all := ReportedEpochs(e, epochs, printInterval);
      ReportedEpochsAre(e - 1, epochs, printInterval);
      assert all == ks + (if Reported(e, epochs, printInterval) then [e] else []);
      forall i, j | 0 <= i < j < |all|
        ensures all[i] < all[j]
      {
        if j == |ks| {
          assert ks[i] in ks;
        }
      }
    }
  }

  /** A report is printed for exactly the epochs `k` with
      `k % printInterval == 0 || k == epochs`, once each, in epoch order. */
  lemma {:induction false} TrainReports(ls: seq<Layer>, data: seq<DataPoint>, orders: seq<seq<DataPoint>>, batchSize: nat,
                                        lr: real, epochs: nat, printInterval: int, e: nat)
    requires Chained(ls) && AllUsable(ls, data) && Shuffles(orders, data) && |data| > 0
    requires batchSize > 0 && printInterval != 0 && e <= |orders|
    ensures EpochsOf(TrainUpTo(ls, data, orders, batchSize, lr, epochs, printInterval, e).1) == ReportedEpochs(e, epochs, printInterval)
    decreases e
  {
    if e > 0 {
      TrainReports(ls, data, orders, batchSize, lr, epochs, printInterval, e - 1);
      var rs := TrainUpTo(ls, data, orders, batchSize, lr, epochs, printInterval, e - 1).1;
      var loss := TrainUpToReports(ls, data, orders, batchSize, lr, epochs, printInterval, e);
      EpochsExtend(rs, e, epochs, printInterval, loss);
    }
  }

  /** Epoch `e` adds itself to the epochs of the reports when it is reported. */
  lemma EpochsExtend(rs: seq<Report>, e: nat, epochs: nat, printInterval: int, loss: real)
    requires printInterval != 0
    ensures EpochsOf(ExtendReports(rs, e, epochs, printInterval, loss))
         == EpochsOf(rs) + (if Reported(e, epochs, printInterval) then [e] else [])
  {
    var qs := ExtendReports(rs, e, epochs, printInterval, loss);
    assert EpochsOf(qs) == EpochsOf(rs) + (if Reported(e, epochs, printInterval) then [e] else []);
  }

  /** Epoch `e` extends the reports of the epochs before it by its own. */
  lemma TrainUpToReports(ls: seq<Layer>, data: seq<DataPoint>, orders: seq<seq<DataPoint>>, batchSize: nat,
                         lr: real, epochs: nat, printInterval: int, e: nat) returns (loss: real)
    requires Chained(ls) && AllUsable(ls, data) && Shuffles(orders, data) && |data| > 0
    requires batchSize > 0 && printInterval != 0 && 0 < e <= |orders|
    ensures TrainUpTo(ls, data, orders, batchSize, lr, epochs, printInterval, e).1
         == ExtendReports(TrainUpTo(ls, data, orders, batchSize, lr, epochs, printInterval, e - 1).1, e, epochs, printInterval, loss)
  {
    var ms := TrainUpTo(ls, data, orders, batchSize, lr, epochs, printInterval, e - 1).0;
    ShuffleUsable(ls, ms, data, orders[e - 1]);
    loss := Epoch(ms, orders[e - 1], batchSize, lr).loss / (|data| as real);
  }

  /** The samples of a slice of usable samples are usable. */
  lemma SliceUsable(ls: seq<Layer>, ds: seq<DataPoint>, a: nat, b: nat)
    requires AllUsable(ls, ds) && a <= b <= |ds|
    ensures AllUsable(ls, ds[a..b])
  {
    forall d | d in ds[a..b]
      ensures Usable(ls, d)
    {
      var i :| 0 <= i < b - a && ds[a..b][i] == d;
      assert ds[a + i] == d;
    }
  }

  /** The reduction over one more sub-batch adds that sub-batch's task totals. */
  lemma ReducePrefix(ls: seq<Layer>, mb: seq<DataPoint>, rs: seq<Range>, n: nat)
    requires Chained(ls) && AllUsable(ls, mb) && Within(rs, |mb|) && n < |rs|
    ensures Within(rs[..n], |mb|) && Within(rs[..n + 1], |mb|)
    ensures Reduce(ls, mb, rs[..n + 1]) == Combine(ls, Reduce(ls, mb, rs[..n]), Task(ls, mb[rs[n].from..rs[n].to]))
  {
    assert rs[..n + 1][..n] == rs[..n];
    assert rs[..n + 1][n] == rs[n];
  }

  /** Once the reduction of the first `n` sub-batches has failed, the
      reduction of all of them fails. */
  lemma {:induction false} ReduceFailsFrom(ls: seq<Layer>, mb: seq<DataPoint>, rs: seq<Range>, n: nat)
    requires Chained(ls) && AllUsable(ls, mb) && Within(rs, |mb|) && n <= |rs|
    requires Within(rs[..n], |mb|) && Reduce(ls, mb, rs[..n]).Failure?
    ensures Reduce(ls, mb, rs).Failure?
    decreases |rs| - n
  {
    if n == |rs| {
      assert rs[..n] == rs;
    } else {
      ReducePrefix(ls, mb, rs, n);
      ReduceFailsFrom(ls, mb, rs, n + 1);
    }
  }

  /** A mini-batch with a sample whose targets do not have the length of
      the network's output changes neither the parameters nor the loss. */
  lemma MiniBatchFailureSkips(p: Progress, mb: seq<DataPoint>, threads: nat, lr: real)
    requires Chained(p.layers) && AllUsable(p.layers, mb) && |mb| > 0 && threads > 0
    requires exists d :: d in mb && |Predict(p.layers, d.inputs)| != |d.targets|
    ensures MiniBatchStep(p, mb, threads, lr) == p
  {
    MiniBatchStepIsFullBatch(p, mb, threads, lr);
    TaskFails(p.layers, mb);
  }

  /** A mini-batch none of whose samples fails moves the parameters by the
      learning rate times the average of its samples' gradients, once, and
      adds its summed loss. */
  lemma MiniBatchSuccessApplies(p: Progress, mb: seq<DataPoint>, threads: nat, lr: real)
    requires Chained(p.layers) && AllUsable(p.layers, mb) && |mb| > 0 && threads > 0
    requires forall d :: d in mb ==> |Predict(p.layers, d.inputs)| == |d.targets|
    ensures Task(p.layers, mb).Success?
    ensures MiniBatchStep(p, mb, threads, lr) == Update(p, Success(Task(p.layers, mb).value), |mb|, lr)
    ensures MiniBatchStep(p, mb, threads, lr).loss == p.loss + Task(p.layers, mb).value.loss
  {
    MiniBatchStepIsFullBatch(p, mb, threads, lr);
    TaskFails(p.layers, mb);
  }
}
