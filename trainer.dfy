/** `Trainer`: mini-batch gradient descent on a network.  Every epoch visits
    the samples in a new order, cuts them into mini-batches of `batchSize`,
    and cuts every mini-batch into at most `numThreads` sub-batches, each
    handled by a `BatchTask`.  The batch task totals are added up, divided by the
    mini-batch size and applied once.  A mini-batch whose reduction fails is
    skipped.  Epochs whose number is a multiple of `printInterval`, and the
    last epoch, report the epoch's summed loss divided by the number of
    samples. */
module Training {
  import opened Wrappers
  import opened Vectors
  import opened LayerMath
  import opened NetworkMath
  import opened Partition
  import opened TrainingMath
  import opened Gradients
  import opened GradientLists
  import opened Networks
  import opened Tasks

  class Trainer {
    const network: NeuralNetwork
    const learningRate: real
    const numThreads: nat

    /** The thread count is the number of available processors, which is at
        least one. */
    constructor (network: NeuralNetwork, learningRate: real, numThreads: nat)
      requires numThreads > 0
      ensures this.network == network && this.learningRate == learningRate && this.numThreads == numThreads
    {
      this.network := network;
      this.learningRate := learningRate;
      this.numThreads := numThreads;
    }

    /** `tasks[i]` works on the network over the samples of `mb` in range `rs[i]`. */
    predicate Assigned(tasks: seq<BatchTask>, mb: seq<DataPoint>, rs: seq<Range>) {
      |tasks| == |rs| && Within(rs, |mb|)
      && forall i :: 0 <= i < |rs| ==> tasks[i].network == network && tasks[i].subBatch == mb[rs[i].from..rs[i].to]
    }

    /** `epochs` epochs; epoch `k` visits the samples in the order
        `orders[k - 1]`, a permutation of `data`.  The parameters and the
        reports are those of `TrainUpTo`, and exactly the epochs `k` with
        `k % printInterval == 0 || k == epochs` are reported, in order. */
    method Train(data: seq<DataPoint>, orders: seq<seq<DataPoint>>, epochs: nat, batchSize: nat, printInterval: int)
      returns (reports: seq<Report>)
      requires network.Valid() && Chained(network.Params()) && AllUsable(network.Params(), data)
      requires |data| > 0 && batchSize > 0 && printInterval != 0 && numThreads > 0
      requires |orders| == epochs && Shuffles(orders, data)
      modifies network.layers, network.ParamArrays()
      ensures (network.Params(), reports)
           == TrainUpTo(old(network.Params()), data, orders, batchSize, learningRate, epochs, printInterval, epochs)
      ensures EpochsOf(reports) == ReportedEpochs(epochs, epochs, printInterval)
    {
      ghost var ls := network.Params();
      HistoryExists(ls, data, orders, batchSize, learningRate, epochs, printInterval);
      ghost var history :| IsHistory(history, ls, data, orders, batchSize, learningRate, epochs, printInterval);
      var numBatches := CeilDiv(|data|, batchSize);
      reports := [];
      assert history[0] == TrainUpTo(ls, data, orders, batchSize, learningRate, epochs, printInterval, 0);
      for epoch := 1 to epochs + 1
        invariant (network.Params(), reports) == history[epoch - 1]
      {
        reports := TrainEpoch(data, orders, epochs, batchSize, printInterval, epoch, numBatches, reports, ls, history);
      }
      assert history[epochs] == TrainUpTo(ls, data, orders, batchSize, learningRate, epochs, printInterval, epochs);
      TrainReports(ls, data, orders, batchSize, learningRate, epochs, printInterval, epochs);
    }

    /** The body of the epoch loop of `train`: the samples are visited in
        the epoch's order, and the epoch's report is added when it is
        printed. */
    method TrainEpoch(data: seq<DataPoint>, orders: seq<seq<DataPoint>>, epochs: nat, batchSize: nat, printInterval: int,
                      epoch: nat, numBatches: nat, reports: seq<Report>, ghost ls: seq<Layer>,
                      ghost history: seq<(seq<Layer>, seq<Report>)>) returns (newReports: seq<Report>)
      requires network.Valid() && Chained(ls) && AllUsable(ls, data)
      requires |data| > 0 && batchSize > 0 && printInterval != 0 && numThreads > 0
      requires |orders| == epochs && Shuffles(orders, data) && 0 < epoch <= epochs
      requires numBatches == CeilDiv(|data|, batchSize)
      requires IsHistory(history, ls, data, orders, batchSize, learningRate, epochs, printInterval)
      requires (network.Params(), reports) == history[epoch - 1]
      modifies network.layers, network.ParamArrays()
      ensures (network.Params(), newReports) == history[epoch]
    {
      assert history[epoch - 1] == TrainUpTo(ls, data, orders, batchSize, learningRate, epochs, printInterval, epoch - 1);
      assert history[epoch] == TrainUpTo(ls, data, orders, batchSize, learningRate, epochs, printInterval, epoch);
      var order := orders[epoch - 1];
      ShuffleUsable(ls, network.Params(), data, order);
      assert |order| == |multiset(order)| == |data|;
      StagesExist(network.Params(), order, batchSize, learningRate);
      ghost var stages :| IsStages(stages, network.Params(), order, batchSize, learningRate);
      assert stages[numBatches] == Epoch(network.Params(), order, batchSize, learningRate);
      var totalLoss := RunEpoch(order, numBatches, batchSize, stages);
      newReports := reports;
      if epoch % printInterval == 0 || epoch == epochs {
        var averageLoss := totalLoss / (|data| as real);
        newReports := reports + [Report(epoch, averageLoss)];
      }
    }

    /** One epoch over the samples in `order`: mini-batch `b` is the slice
        `[b * batchSize, min(b * batchSize + batchSize, |order|))`.  The
        returned loss is the sum of the losses of the mini-batches that did
        not fail. */
    method RunEpoch(order: seq<DataPoint>, numBatches: nat, batchSize: nat, ghost stages: seq<Progress>)
      returns (totalLoss: real)
      requires network.Valid() && Chained(network.Params()) && AllUsable(network.Params(), order)
      requires batchSize > 0 && numBatches == CeilDiv(|order|, batchSize) && numThreads > 0
      requires IsStages(stages, network.Params(), order, batchSize, learningRate)
      modifies network.layers, network.ParamArrays()
      ensures Progress(network.Params(), totalLoss) == stages[numBatches]
    {
      ghost var ls := network.Params();
      totalLoss := 0.0;
      assert stages[0] == EpochUpTo(ls, order, batchSize, learningRate, 0);
      var b := 0;
      while b < numBatches
        invariant b <= numBatches
        invariant Progress(network.Params(), totalLoss) == stages[b]
      {
        b, totalLoss := NextBatch(order, b, batchSize, totalLoss, ls, stages);
      }
    }

    /** One turn of the mini-batch loop of `train`: mini-batch `b` is
        trained, taking the epoch from its state after `b` mini-batches to
        its state after `next == b + 1`. */
    method NextBatch(order: seq<DataPoint>, b: nat, batchSize: nat, totalLoss: real, ghost ls: seq<Layer>,
                     ghost stages: seq<Progress>) returns (next: nat, newTotal: real)
      requires network.Valid() && Chained(ls) && AllUsable(ls, order) && batchSize > 0 && numThreads > 0
      requires IsStages(stages, ls, order, batchSize, learningRate)
      requires b < CeilDiv(|order|, batchSize)
      requires Progress(network.Params(), totalLoss) == stages[b]
      modifies network.layers, network.ParamArrays()
      ensures next == b + 1
      ensures Progress(network.Params(), newTotal) == stages[next]
    {
      EpochStep(ls, order, batchSize, numThreads, learningRate, b);
      newTotal := TrainBatch(order, b, batchSize, totalLoss);
      next := b + 1;
    }

    /** Mini-batch `b` of the epoch, the slice from `b * batchSize` up to
        `min(b * batchSize + batchSize, |order|)`, is trained. */
    method TrainBatch(order: seq<DataPoint>, b: nat, batchSize: nat, totalLoss: real) returns (newTotal: real)
      requires network.Valid() && Chained(network.Params()) && AllUsable(network.Params(), order)
      requires batchSize > 0 && numThreads > 0 && b < CeilDiv(|order|, batchSize)
      modifies network.layers, network.ParamArrays()
      ensures Progress(network.Params(), newTotal)
           == MiniBatchStep(Progress(old(network.Params()), totalLoss), MiniBatch(order, batchSize, b), numThreads, learningRate)
    {
      var miniBatch := Slice(order, batchSize, b);
      newTotal := RunMiniBatch(miniBatch, totalLoss);
    }

    /** The body of the mini-batch loop of `train`: the sub-batch tasks are
        created, their totals are reduced into a fresh zero list, divided by
        the mini-batch size and applied once, and the mini-batch loss is
        added to `totalLoss`.  When a task fails, nothing is applied and
        `totalLoss` is returned as it was. */
    method RunMiniBatch(miniBatch: seq<DataPoint>, totalLoss: real) returns (newTotal: real)
      requires network.Valid() && Chained(network.Params()) && AllUsable(network.Params(), miniBatch)
      requires |miniBatch| > 0 && numThreads > 0
      modifies network.layers, network.ParamArrays()
      ensures Progress(network.Params(), newTotal)
           == MiniBatchStep(Progress(old(network.Params()), totalLoss), miniBatch, numThreads, learningRate)
    {
      ghost var ls := network.Params();
      ghost var rs := Submitted(|miniBatch|, numThreads);
      var totalGradients := network.CreateEmptyGradientsList();
      var tasks := Submit(miniBatch);
      var reduced := Collect(tasks, totalGradients, ls, miniBatch, rs);
      if reduced.Failure? {
        return totalLoss;
      }
      GivesSuccess(Reduce(ls, miniBatch, rs), ValuesOf(totalGradients), reduced.value);
      newTotal := Descend(totalGradients, |miniBatch|, totalLoss, reduced.value, ls, ValuesOf(totalGradients));
    }

    /** The end of the mini-batch body: the reduced gradients `sums` are
        divided by the mini-batch size, the network applies them, and the
        mini-batch loss is added to `totalLoss`. */
    method Descend(totals: seq<GradientPackage>, miniBatchSize: nat, totalLoss: real, batchLoss: real,
                   ghost ls: seq<Layer>, ghost sums: seq<Gradient>) returns (newTotal: real)
      requires network.Valid() && network.Params() == ls && Chained(ls) && miniBatchSize > 0
      requires Separate(totals) && ValuesOf(totals) == sums && FitsAll(ls, sums)
      modifies totals, network.ParamArrays()
      ensures Progress(network.Params(), newTotal)
           == Update(Progress(ls, totalLoss), Success(Totals(sums, batchLoss)), miniBatchSize, learningRate)
    {
      DivGradientsFit(ls, sums, miniBatchSize as real);
      FitsCover(ls, DivGradients(sums, miniBatchSize as real));
      Average(totals, miniBatchSize);
      var _ := network.ApplyGradients(totals, learningRate);
      newTotal := totalLoss + batchLoss;
    }

    /** The submission loop of `train`: thread `t` gets the sub-batch
        `[t * s, min(t * s + s, m))` with `s = ceil(m / numThreads)`, when
        that range is not empty. */
    method Submit(miniBatch: seq<DataPoint>) returns (tasks: seq<BatchTask>)
      requires numThreads > 0
      ensures Assigned(tasks, miniBatch, Submitted(|miniBatch|, numThreads))
    {
      var m := |miniBatch|;
      var subBatchSize := CeilDiv(m, numThreads);
      tasks := [];
      for t := 0 to numThreads
        invariant Assigned(tasks, miniBatch, SubmittedUpTo(m, subBatchSize, t))
      {
        var tFrom := t * subBatchSize;
        var tTo := Min(tFrom + subBatchSize, m);
        if tFrom < tTo {
          var task := new BatchTask(network, miniBatch[tFrom..tTo]);
          AssignedExtend(tasks, task, miniBatch, SubmittedUpTo(m, subBatchSize, t), Range(tFrom, tTo));
          tasks := tasks + [task];
        }
      }
    }

    /** One more task, for the range `r`. */
    lemma AssignedExtend(tasks: seq<BatchTask>, task: BatchTask, mb: seq<DataPoint>, rs: seq<Range>, r: Range)
      requires Assigned(tasks, mb, rs) && r.from <= r.to <= |mb|
      requires task.network == network && task.subBatch == mb[r.from..r.to]
      ensures Assigned(tasks + [task], mb, rs + [r])
    {
    }

    /** The reduction loop of `train`: the batch task results are taken in
        submission order, their losses summed and their gradients added into
        `totals`.  The first failed task ends the loop with its error. */
    method Collect(tasks: seq<BatchTask>, totals: seq<GradientPackage>, ghost ls: seq<Layer>,
                   ghost mb: seq<DataPoint>, ghost rs: seq<Range>) returns (r: Result<real>)
      requires network.Valid() && network.Params() == ls && Chained(ls) && AllUsable(ls, mb)
      requires Assigned(tasks, mb, rs)
      requires Separate(totals) && ValuesOf(totals) == ZeroGradients(ls)
      modifies network.layers, totals
      ensures network.Params() == ls
      ensures r.Failure? ==> Reduce(ls, mb, rs).Failure?
      ensures r.Success? ==> Gives(Reduce(ls, mb, rs), ValuesOf(totals), r.value)
    {
      var batchLoss := 0.0;
      assert rs[..0] == [];
      for i := 0 to |tasks|
        invariant network.Params() == ls
        invariant Separate(totals) && Within(rs[..i], |mb|)
        invariant Gives(Reduce(ls, mb, rs[..i]), ValuesOf(totals), batchLoss)
      {
        var step := CollectOne(tasks[i], totals, batchLoss, ls, mb, rs, i);
        if step.Failure? {
          ReduceFailsFrom(ls, mb, rs, i + 1);
          return Failure(step.error);
        }
        batchLoss := step.value;
      }
      assert rs[..|tasks|] == rs;
      r := Success(batchLoss);
    }

    /** One iteration of the reduction loop: task `i` is run (its future is
        waited for) and, when it succeeds, its totals are added. */
    method CollectOne(task: BatchTask, totals: seq<GradientPackage>, batchLoss: real, ghost ls: seq<Layer>,
                      ghost mb: seq<DataPoint>, ghost rs: seq<Range>, ghost i: nat) returns (r: Result<real>)
      requires network.Valid() && network.Params() == ls && Chained(ls) && AllUsable(ls, mb)
      requires Within(rs, |mb|) && i < |rs| && task.network == network && task.subBatch == mb[rs[i].from..rs[i].to]
      requires Separate(totals) && Within(rs[..i], |mb|) && Gives(Reduce(ls, mb, rs[..i]), ValuesOf(totals), batchLoss)
      modifies network.layers, totals
      ensures network.Params() == ls && Within(rs[..i + 1], |mb|)
      ensures r.Failure? ==> Reduce(ls, mb, rs[..i + 1]).Failure?
      ensures r.Success? ==> Gives(Reduce(ls, mb, rs[..i + 1]), ValuesOf(totals), r.value)
    {
      SliceUsable(ls, mb, rs[i].from, rs[i].to);
      ReducePrefix(ls, mb, rs, i);
      ghost var sums := ValuesOf(totals);
      var result := RunTask(task, totals, sums);
      if result.Failure? {
        return Failure(result.error);
      }
      var taskResult := result.value;
      FreshApart(totals, taskResult.gradients);
      ghost var added := ValuesOf(taskResult.gradients);
      CombineSuccess(ls, sums, batchLoss, added, taskResult.batchLoss);
      Accumulate(network, totals, taskResult.gradients, sums, added);
      r := Success(batchLoss + taskResult.batchLoss);
    }

    /** `task.call()`; packages outside the network keep their contents. */
    method RunTask(task: BatchTask, ghost keep: seq<GradientPackage>, ghost kept: seq<Gradient>)
      returns (r: Result<BatchTaskResult>)
      requires task.network == network && network.Valid() && Chained(network.Params())
      requires AllUsable(network.Params(), task.subBatch) && ValuesOf(keep) == kept
      modifies network.layers
      ensures network.Params() == old(network.Params()) && ValuesOf(keep) == kept
      ensures r.Success? ==> Separate(r.value.gradients)
      ensures r.Success? ==> forall k :: 0 <= k < |r.value.gradients| ==> fresh(r.value.gradients[k])
      ensures TotalsOf(r) == Task(network.Params(), task.subBatch)
    {
      r := task.Call();
      forall k | 0 <= k < |keep|
        ensures unchanged(keep[k])
      {
      }
      ValuesKept(keep);
    }
  }

  /** Mini-batch `b` of `order`: the slice from `b * batchSize` up to
      `min(b * batchSize + batchSize, |order|)`. */
  method Slice<T>(order: seq<T>, batchSize: nat, b: nat) returns (miniBatch: seq<T>)
    requires batchSize > 0 && b < CeilDiv(|order|, batchSize)
    ensures miniBatch == MiniBatch(order, batchSize, b)
  {
    var from := b * batchSize;
    var to := Min(from + batchSize, |order|);
    ChunkBounds(|order|, batchSize, b);
    miniBatch := order[from..to];
  }

  /** The averaging loops of `train`: every weight-gradient and bias-gradient
      entry of every package is divided by the mini-batch size, in place;
      input gradients are left as they are. */
  method Average(totals: seq<GradientPackage>, miniBatchSize: nat)
    requires Separate(totals) && miniBatchSize > 0
    modifies totals
    ensures ValuesOf(totals) == DivGradients(old(ValuesOf(totals)), miniBatchSize as real)
  {
    ghost var gs := ValuesOf(totals);
    for k := 0 to |totals|
      invariant forall j :: 0 <= j < k ==> totals[j].Value() == DivGradient(gs[j], miniBatchSize as real)
      invariant forall j :: k <= j < |totals| ==> totals[j].Value() == gs[j]
    {
      forall j | 0 <= j < |totals| && j != k
        ensures totals[j] != totals[k]
      {
        assert Apart(totals, k, totals, j);
      }
      DivideWeightGradients(totals[k], miniBatchSize);
      DivideBiasGradients(totals[k], miniBatchSize);
    }
  }

  /** `row[j] /= miniBatchSize` for every entry of every row of the
      package's weight gradients. */
  method DivideWeightGradients(p: GradientPackage, miniBatchSize: nat)
    requires miniBatchSize > 0
    modifies p
    ensures p.weightGradients == DivM(old(p.weightGradients), miniBatchSize as real)
    ensures p.biasGradients == old(p.biasGradients) && p.inputGradient == old(p.inputGradient)
  {
    ghost var w0 := p.weightGradients;
    var d := miniBatchSize as real;
    for i := 0 to |p.weightGradients|
      invariant |p.weightGradients| == |w0|
      invariant p.biasGradients == old(p.biasGradients) && p.inputGradient == old(p.inputGradient)
      invariant forall r :: 0 <= r < i ==> p.weightGradients[r] == DivV(w0[r], d)
      invariant forall r :: i <= r < |w0| ==> p.weightGradients[r] == w0[r]
    {
      for j := 0 to |p.weightGradients[i]|
        invariant |p.weightGradients| == |w0| && |p.weightGradients[i]| == |w0[i]|
        invariant p.biasGradients == old(p.biasGradients) && p.inputGradient == old(p.inputGradient)
        invariant forall r :: 0 <= r < i ==> p.weightGradients[r] == DivV(w0[r], d)
        invariant forall r :: i < r < |w0| ==> p.weightGradients[r] == w0[r]
        invariant forall c :: 0 <= c < j ==> p.weightGradients[i][c] == w0[i][c] / d
        invariant forall c :: j <= c < |w0[i]| ==> p.weightGradients[i][c] == w0[i][c]
      {
        p.weightGradients := p.weightGradients[i := p.weightGradients[i][j := p.weightGradients[i][j] / d]];
      }
      assert p.weightGradients[i] == DivV(w0[i], d);
    }
  }

  /** `biasGradients[i] /= miniBatchSize` for every entry of the package's
      bias gradients. */
  method DivideBiasGradients(p: GradientPackage, miniBatchSize: nat)
    requires miniBatchSize > 0
    modifies p
    ensures p.biasGradients == DivV(old(p.biasGradients), miniBatchSize as real)
    ensures p.weightGradients == old(p.weightGradients) && p.inputGradient == old(p.inputGradient)
  {
    ghost var b0 := p.biasGradients;
    var d := miniBatchSize as real;
    for i := 0 to |p.biasGradients|
      invariant |p.biasGradients| == |b0|
      invariant p.weightGradients == old(p.weightGradients) && p.inputGradient == old(p.inputGradient)
      invariant forall c :: 0 <= c < i ==> p.biasGradients[c] == b0[c] / d
      invariant forall c :: i <= c < |b0| ==> p.biasGradients[c] == b0[c]
    {
      p.biasGradients := p.biasGradients[i := p.biasGradients[i] / d];
    }
  }
}
