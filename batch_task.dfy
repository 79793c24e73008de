/** `BatchTask`: the work one thread does for a mini-batch.  `call` runs
    `predict`, the loss, its derivative and `backward` on every sample of
    its sub-batch, in order, and adds the results into a fresh list of
    zero packages.  A loss that fails aborts the batch task. */
module Tasks {
  import opened Wrappers
  import opened LayerMath
  import opened NetworkMath
  import opened Loss
  import opened TrainingMath
  import opened Gradients
  import opened GradientLists
  import opened Networks

  /** The summed gradients of a task, one package per layer, and its summed loss. */
  datatype BatchTaskResult = BatchTaskResult(gradients: seq<GradientPackage>, batchLoss: real)

  /** The contents of a task's outcome. */
  function TotalsOf(r: Result<BatchTaskResult>): Result<Totals>
    reads if r.Success? then r.value.gradients else []
  {
    match r
    case Failure(e) => Failure(e)
    case Success(x) => Success(Totals(ValuesOf(x.gradients), x.batchLoss))
  }

  class BatchTask {
    const network: NeuralNetwork
    const subBatch: seq<DataPoint>

    constructor (network: NeuralNetwork, subBatch: seq<DataPoint>)
      ensures this.network == network && this.subBatch == subBatch
    {
      this.network := network;
      this.subBatch := subBatch;
    }

    /** The batch task's totals are `Task` of the network's parameters over the
        sub-batch, in fresh packages; the parameters are not changed (the
        layers' forward caches are). */
    method Call() returns (r: Result<BatchTaskResult>)
      requires network.Valid() && Chained(network.Params()) && AllUsable(network.Params(), subBatch)
      modifies network.layers
      ensures network.Params() == old(network.Params())
      ensures r.Success? ==> Separate(r.value.gradients)
      ensures r.Success? ==> forall k :: 0 <= k < |r.value.gradients| ==> fresh(r.value.gradients[k])
      ensures TotalsOf(r) == Task(network.Params(), subBatch)
    {
      ghost var ls := network.Params();
      var totalGradients := network.CreateEmptyGradientsList();
      var totalLoss := 0.0;
      assert subBatch[..0] == [];
      for n := 0 to |subBatch|
        invariant network.Params() == ls
        invariant forall k :: 0 <= k < |totalGradients| ==> fresh(totalGradients[k])
        invariant Separate(totalGradients)
        invariant Gives(Task(ls, subBatch[..n]), ValuesOf(totalGradients), totalLoss)
      {
        var step := AddSample(n, totalGradients, totalLoss, ls, ValuesOf(totalGradients));
        if step.Failure? {
          return Failure(step.error);
        }
        totalLoss := step.value;
      }
      assert subBatch[..|subBatch|] == subBatch;
      GivesSuccess(Task(ls, subBatch), ValuesOf(totalGradients), totalLoss);
      r := Success(BatchTaskResult(totalGradients, totalLoss));
    }

    /** One iteration of the sample loop of `call`: sample `n`'s gradients
        are added into `totals` and the new total loss is returned; a loss
        that fails ends the batch task with its error. */
    method AddSample(n: nat, totals: seq<GradientPackage>, totalLoss: real, ghost ls: seq<Layer>, ghost sums: seq<Gradient>)
      returns (r: Result<real>)
      requires network.Valid() && network.Params() == ls && Chained(ls) && AllUsable(ls, subBatch) && n < |subBatch|
      requires Separate(totals) && ValuesOf(totals) == sums
      requires Gives(Task(ls, subBatch[..n]), sums, totalLoss)
      modifies network.layers, totals
      ensures network.Params() == ls
      ensures r.Failure? ==> Task(ls, subBatch) == Failure(r.error)
      ensures r.Success? ==> Gives(Task(ls, subBatch[..n + 1]), ValuesOf(totals), r.value)
    {
      var loss, sampleGradients := RunSample(subBatch[n], ls, totals, sums);
      r := Conclude(n, totals, totalLoss, loss, sampleGradients, ls, sums);
    }

    /** The rest of the iteration once the sample's loss and gradients are
        known: a failed loss ends the batch task, otherwise the gradients are
        accumulated. */
    method Conclude(n: nat, totals: seq<GradientPackage>, totalLoss: real, loss: Result<real>,
                    sampleGradients: seq<GradientPackage>, ghost ls: seq<Layer>, ghost sums: seq<Gradient>)
      returns (r: Result<real>)
      requires Chained(ls) && AllUsable(ls, subBatch) && n < |subBatch|
      requires Separate(totals) && ValuesOf(totals) == sums
      requires Gives(Task(ls, subBatch[..n]), sums, totalLoss)
      requires loss.Failure? ==> Sample(ls, subBatch[n]) == Failure(loss.error)
      requires loss.Success? ==> Disjoint(totals, sampleGradients)
      requires loss.Success? ==> Gives(Sample(ls, subBatch[n]), ValuesOf(sampleGradients), loss.value)
      modifies totals
      ensures network.Params() == old(network.Params())
      ensures r.Failure? ==> Task(ls, subBatch) == Failure(r.error)
      ensures r.Success? ==> Gives(Task(ls, subBatch[..n + 1]), ValuesOf(totals), r.value)
    {
      if loss.Failure? {
        TaskStops(ls, subBatch, n);
        return Failure(loss.error);
      }
      var total := Absorb(n, totals, totalLoss, sampleGradients, loss.value, ls, sums);
      r := Success(total);
    }

    /** The accumulation at the end of the sample loop of `call`: the
        gradients of sample `n` are added into `totals`. */
    method Absorb(n: nat, totals: seq<GradientPackage>, totalLoss: real, sampleGradients: seq<GradientPackage>,
                  sampleLoss: real, ghost ls: seq<Layer>, ghost sums: seq<Gradient>) returns (total: real)
      requires Chained(ls) && AllUsable(ls, subBatch) && n < |subBatch|
      requires Separate(totals) && Disjoint(totals, sampleGradients) && ValuesOf(totals) == sums
      requires Gives(Task(ls, subBatch[..n]), sums, totalLoss)
      requires Gives(Sample(ls, subBatch[n]), ValuesOf(sampleGradients), sampleLoss)
      modifies totals
      ensures network.Params() == old(network.Params())
      ensures Gives(Task(ls, subBatch[..n + 1]), ValuesOf(totals), total)
    {
      ghost var added := ValuesOf(sampleGradients);
      TaskExtend(ls, subBatch, n, sums, totalLoss, added, sampleLoss);
      Accumulate(network, totals, sampleGradients, sums, added);
      total := totalLoss + sampleLoss;
    }

    /** The body of the sample loop of `call` up to the accumulation: the
        sample's loss and gradients, in fresh packages; a loss that fails
        is returned as the failure.  Only the forward caches change. */
    method RunSample(d: DataPoint, ghost ls: seq<Layer>, ghost keep: seq<GradientPackage>, ghost kept: seq<Gradient>)
      returns (loss: Result<real>, sampleGradients: seq<GradientPackage>)
      requires network.Valid() && network.Params() == ls && Chained(ls) && Usable(ls, d) && ValuesOf(keep) == kept
      modifies network.layers
      ensures network.Params() == ls && ValuesOf(keep) == kept
      ensures loss.Success? ==> Disjoint(keep, sampleGradients)
      ensures loss.Failure? ==> Sample(ls, d) == Failure(loss.error)
      ensures loss.Success? ==> Gives(Sample(ls, d), ValuesOf(sampleGradients), loss.value)
      ensures loss.Success? ==> Separate(sampleGradients)
      ensures loss.Success? ==> forall k :: 0 <= k < |sampleGradients| ==> fresh(sampleGradients[k])
    {
      var predictions := Forecast(d, ls, keep, kept);
      loss, sampleGradients := Score(d, predictions, ls);
      if loss.Success? {
        FreshApart(keep, sampleGradients);
      }
    }

    /** `predict` on the sample's inputs; packages outside the network keep
        their contents. */
    method Forecast(d: DataPoint, ghost ls: seq<Layer>, ghost keep: seq<GradientPackage>, ghost kept: seq<Gradient>)
      returns (predictions: seq<real>)
      requires network.Valid() && network.Params() == ls && Chained(ls) && Usable(ls, d) && ValuesOf(keep) == kept
      modifies network.layers
      ensures network.Valid() && network.Params() == ls && ValuesOf(keep) == kept
      ensures predictions == Predict(ls, d.inputs) && network.Caches() == NetworkMath.Caches(ls, d.inputs)
    {
      predictions := network.Predict(d.inputs);
      forall k | 0 <= k < |keep|
        ensures unchanged(keep[k])
      {
      }
      ValuesKept(keep);
    }

    /** The loss of `predictions` and, when it exists, the backward pass
        from its derivative. */
    method Score(d: DataPoint, predictions: seq<real>, ghost ls: seq<Layer>) returns (loss: Result<real>, sampleGradients: seq<GradientPackage>)
      requires network.Valid() && network.Params() == ls && Chained(ls) && Usable(ls, d)
      requires predictions == Predict(ls, d.inputs) && network.Caches() == NetworkMath.Caches(ls, d.inputs)
      ensures network.Params() == ls
      ensures loss.Failure? ==> Sample(ls, d) == Failure(loss.error)
      ensures loss.Success? ==> Gives(Sample(ls, d), ValuesOf(sampleGradients), loss.value)
      ensures loss.Success? ==> Separate(sampleGradients)
      ensures loss.Success? ==> forall k :: 0 <= k < |sampleGradients| ==> fresh(sampleGradients[k])
    {
      var lossGradient;
      loss, lossGradient := Evaluate(predictions, d.targets, ls, NetworkMath.Caches(ls, d.inputs));
      if loss.Failure? {
        SampleFails(ls, d, predictions);
        return loss, [];
      }
      sampleGradients := Backpropagate(d, predictions, lossGradient, ls);
    }

    /** `compute` and then, when it succeeds, `derivative`; the network is
        not touched. */
    method Evaluate(predictions: seq<real>, targets: seq<real>, ghost ls: seq<Layer>, ghost cs: seq<Cache>)
      returns (loss: Result<real>, lossGradient: seq<real>)
      requires network.Valid() && network.Params() == ls && network.Caches() == cs
      requires |predictions| == |targets| ==> |predictions| > 0
      ensures network.Valid() && network.Params() == ls && network.Caches() == cs
      ensures |predictions| != |targets| <==> loss == Failure(LengthMismatch)
      ensures |predictions| == |targets| ==> loss == Success(Mse(predictions, targets)) && lossGradient == MseGradient(predictions, targets)
    {
      loss := Compute(predictions, targets);
      if loss.Failure? {
        return loss, [];
      }
      var derivative := Derivative(predictions, targets);
      lossGradient := derivative.value;
    }

    /** `backward` from the loss gradient of a sample whose prediction has
        the targets' length. */
    method Backpropagate(d: DataPoint, predictions: seq<real>, lossGradient: seq<real>, ghost ls: seq<Layer>)
      returns (sampleGradients: seq<GradientPackage>)
      requires network.Valid() && network.Params() == ls && Chained(ls) && Usable(ls, d)
      requires predictions == Predict(ls, d.inputs) && network.Caches() == NetworkMath.Caches(ls, d.inputs)
      requires |predictions| == |d.targets| && lossGradient == MseGradient(predictions, d.targets)
      ensures network.Params() == ls
      ensures Gives(Sample(ls, d), ValuesOf(sampleGradients), Mse(predictions, d.targets))
      ensures Separate(sampleGradients)
      ensures forall k :: 0 <= k < |sampleGradients| ==> fresh(sampleGradients[k])
    {
      SampleSucceeds(ls, d, predictions);
      sampleGradients := network.Backward(lossGradient);
    }
  }

  /** The accumulation loop of `call` and of the trainer's reduction:
      `others` is added into `totals` layer by layer; the network's
      parameters are not touched. */
  method Accumulate(network: NeuralNetwork, totals: seq<GradientPackage>, others: seq<GradientPackage>,
                    ghost sums: seq<Gradient>, ghost added: seq<Gradient>)
    requires Separate(totals) && Disjoint(totals, others)
    requires ValuesOf(totals) == sums && ValuesOf(others) == added && CoversAll(added, sums)
    modifies totals
    ensures ValuesOf(totals) == AddGradients(sums, added)
    ensures network.Params() == old(network.Params())
  {
    AddAll(totals, others);
  }
}
