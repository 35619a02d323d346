/** The pieces of a multi-node fine-tuning job together: rows encoded from examples, batched by the
    microbatch size, dealt to the replicas and split again by the runtime. */
module SftJob {
  import opened Wrappers
  import opened Contracts
  import opened Seqs
  import opened TensorBatches
  import opened TrainingSpec
  import opened DataSchedule
  import opened DistributedConfig
  import opened TrainEntry
  import opened SftData
  import opened Losses

  lemma StepDataTrainable(c: TrainingConfig, rank: int, batches: seq<seq<Datum>>, step: nat, length: int)
    requires c.Valid() && 0 <= rank < c.World() && batches != [] && FullButLast(batches, c.micro)
    requires forall d :: d in Flatten(batches) ==> Trainable(d, length)
    ensures StepData(c, rank, batches, step) != []
    ensures forall d :: d in StepData(c, rank, batches, step) ==> Trainable(d, length)
  {
    RankToCoordinates(c, rank);
    ShapeIsExact(c);
    var d0 := RankInfoFromGlobalRank(c, rank).value.dataParallelRank;
    var local := Selected(batches, step, d0, c.DataParallel(), c.GradAccum()).value;
    forall b | b in local ensures b in batches && b != [] {
      SelectedFrom(batches, step, d0, c.DataParallel(), c.GradAccum(), b);
    }
    assert local[0] in local && Flatten(local) == local[0] + Flatten(local[1..]);
    forall d | d in Flatten(local) ensures Trainable(d, length) {
      FlattenMember(local, d);
      FlattenMember(batches, d);
    }
  }

  /** How many of a step's first microsteps read the last batch of the list. */
  function LastPicks(batches: nat, step: nat, rank: nat, size: nat, gradAccum: nat, upTo: nat): (k: nat)
    requires batches > 0
    ensures k <= upTo
  {
    if upTo == 0 then 0
    else
      var one := if Position(step, upTo - 1, rank, gradAccum, size) % batches == batches - 1 then 1 else 0;
      LastPicks(batches, step, rank, size, gradAccum, upTo - 1) + one
  }

  /** What the first microsteps select has full batches, but for the picks of the last one. */
  lemma {:induction false} SelectedSize<T>(batches: seq<seq<T>>, micro: nat, step: nat, rank: nat, size: nat,
                                           gradAccum: nat, upTo: nat)
    requires Selectable(batches, step, rank, size, gradAccum) && FullButLast(batches, micro) && upTo <= gradAccum
    ensures var k, last := LastPicks(|batches|, step, rank, size, gradAccum, upTo), |batches[|batches| - 1]|;
      |Flatten(Selected(batches, step, rank, size, gradAccum).value[..upTo])| == micro * (upTo - k) + last * k
  {
    var local, last := Selected(batches, step, rank, size, gradAccum).value, |batches[|batches| - 1]|;
    if upTo > 0 {
      SelectedSize(batches, micro, step, rank, size, gradAccum, upTo - 1);
      SelectedReadsPosition(batches, step, upTo - 1, rank, size, gradAccum);
      assert local[..upTo] == local[..upTo - 1] + [local[upTo - 1]];
      FlattenSnoc(local[..upTo - 1], local[upTo - 1]);
      var before := LastPicks(|batches|, step, rank, size, gradAccum, upTo - 1);
      OneBatchMore(micro, last, upTo - 1, before);
    }
  }

  lemma OneBatchMore(micro: nat, last: nat, n: nat, k: nat)
    requires k <= n
    ensures micro * (n + 1 - k) + last * k == micro * (n - k) + last * k + micro
    ensures micro * (n + 1 - (k + 1)) + last * (k + 1) == micro * (n - k) + last * k + last
  {
    assert micro * (n + 1 - k) == micro * (n - k) + micro;
    assert last * (k + 1) == last * k + last;
  }

  lemma ModOfSum(n: nat, a: nat, b: nat)
    requires n > 0
    ensures (n * a + b) % n == b % n
  {
    assert n * a + b == n * (a + b / n) + b % n;
    DivModUnique(n * a + b, n, a + b / n, b % n);
  }

  /** A step can be split exactly when its picks of the last batch add up to full microbatches: known
      from the sizes alone, before the run. */
  lemma StepDividesIff(c: TrainingConfig, rank: int, batches: seq<seq<Datum>>, step: nat)
    requires c.Valid() && 0 <= rank < c.World() && batches != [] && FullButLast(batches, c.micro)
    ensures 0 <= RankInfoFromGlobalRank(c, rank).value.dataParallelRank < c.DataParallel() && c.GradAccum() > 0
    ensures var d0, n := RankInfoFromGlobalRank(c, rank).value.dataParallelRank, c.GradAccum();
      var k := LastPicks(|batches|, step, d0, c.DataParallel(), n, n);
      |StepData(c, rank, batches, step)| % c.micro == 0 <==> (|batches[|batches| - 1]| * k) % c.micro == 0
  {
    RankToCoordinates(c, rank);
    ShapeIsExact(c);
    var d0, n := RankInfoFromGlobalRank(c, rank).value.dataParallelRank, c.GradAccum();
    var k := LastPicks(|batches|, step, d0, c.DataParallel(), n, n);
    var local := Selected(batches, step, d0, c.DataParallel(), n).value;
    SelectedSize(batches, c.micro, step, d0, c.DataParallel(), n, n);
    assert local[..n] == local;
    ModOfSum(c.micro, n - k, |batches[|batches| - 1]| * k);
  }

  /** With encoded data nothing but divisibility, the runtime and the learning rate can stop a step,
      and every microbatch of a step that is split has weights that add up to more than zero. */
  lemma StepFitsIffDivisible(c: TrainingConfig, rank: int, examples: seq<Example>, t: Tokenizer, config: DataConfig,
                             batches: seq<seq<Datum>>, learningRate: real, replies: nat -> Reply, step: nat)
    requires c.Valid() && 0 <= rank < c.World() && config.batchSize == c.micro
    requires Kept(examples, t, config).Ok? && Flatten(batches) == Kept(examples, t, config).value
    requires batches != [] && FullButLast(batches, config.batchSize)
    ensures var data := StepData(c, rank, batches, step);
      && (StepFits(c, rank, batches, learningRate, replies, step) <==>
            |data| % c.micro == 0 && replies(2 * step).Returns? && learningRate > 0.0 && replies(2 * step + 1).Returns?)
      && (forall d :: d in data ==> RowAccepted(d))
      && (|data| % c.micro == 0 ==>
            forall part :: part in Microbatches(BatchOf(data), c.micro) ==> TokenWeight(part.weights) > 0.0)
  {
    KeptAreTrainable(examples, t, config);
    StepDataTrainable(c, rank, batches, step, config.sequenceLength);
    var data := StepData(c, rank, batches, step);
    TrainableIsAccepted(data, config.sequenceLength);
    forall d | d in data ensures RowAccepted(d) { assert Trainable(d, config.sequenceLength); }
    if |data| % c.micro == 0 {
      SplitWeightsPositive(data, config.sequenceLength, c.micro);
    }
  }

  /** When the microbatch size divides the number of rows, every step of every rank goes through as
      long as the runtime does, on exactly the microbatches it was dealt. */
  lemma DivisibleDataTrains(c: TrainingConfig, rank: int, examples: seq<Example>, t: Tokenizer, config: DataConfig,
                            batches: seq<seq<Datum>>, learningRate: real, replies: nat -> Reply, n: nat)
    requires c.Valid() && c.Supported(true) && 0 <= rank < c.World() && config.batchSize == c.micro
    requires Kept(examples, t, config).Ok? && Flatten(batches) == Kept(examples, t, config).value
    requires batches != [] && FullButLast(batches, config.batchSize)
    requires |Kept(examples, t, config).value| % c.micro == 0 && learningRate > 0.0 && forall k :: replies(k).Returns?
    ensures StepsFit(c, rank, batches, learningRate, replies, n)
    ensures 0 <= RankInfoFromGlobalRank(c, rank).value.dataParallelRank < c.DataParallel() && c.GradAccum() > 0
    ensures forall step: nat ::
      var data := StepData(c, rank, batches, step);
      var local := Selected(batches, step, RankInfoFromGlobalRank(c, rank).value.dataParallelRank,
                            c.DataParallel(), c.GradAccum()).value;
      && (forall d :: d in data ==> RowAccepted(d))
      && data == Flatten(local) && |data| % c.micro == 0
      && Microbatches(BatchOf(data), c.micro) == BatchesOf(local)
  {
    RankToCoordinates(c, rank);
    ShapeIsExact(c);
    KeptAreTrainable(examples, t, config);
    AllFullIff(batches, c.micro);
    forall b, d | b in batches && d in b ensures RowAccepted(d) {
      FlattenMember(batches, d);
      assert Trainable(d, config.sequenceLength);
    }
    forall step: nat
      ensures var data := StepData(c, rank, batches, step);
        var local := Selected(batches, step, RankInfoFromGlobalRank(c, rank).value.dataParallelRank,
                              c.DataParallel(), c.GradAccum()).value;
        && (forall d :: d in data ==> RowAccepted(d))
        && data == Flatten(local) && |data| % c.micro == 0
        && Microbatches(BatchOf(data), c.micro) == BatchesOf(local)
        && StepFits(c, rank, batches, learningRate, replies, step)
    {
      StepRegroups(c, rank, batches, step);
      StepFitsIffDivisible(c, rank, examples, t, config, batches, learningRate, replies, step);
    }
  }
}
