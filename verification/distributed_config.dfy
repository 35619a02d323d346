/** The shape of a distributed job: how many replicas, how many microbatches a step, and which part
    of the model and of the data each rank has. */
module DistributedConfig {
  import opened Wrappers
  import opened Seqs

  datatype TrainingConfig = TrainingConfig(
    nNodes: int,
    gpusPerNode: int,
    tensor: int,
    pipeline: int,
    micro: int,
    globalBatch: Option<int>)
  {
    predicate Positive() {
      && nNodes > 0 && gpusPerNode > 0 && tensor > 0 && pipeline > 0 && micro > 0
      && (globalBatch.Some? ==> globalBatch.value > 0)
    }

    function World(): int {
      nNodes * gpusPerNode
    }

    function ModelParallel(): (r: int)
      ensures Positive() ==> r > 0
    {
      tensor * pipeline
    }

    function DataParallel(): int
      requires Positive()
    {
      World() / ModelParallel()
    }

    function EffectiveGlobalBatch(): int
      requires Positive()
    {
      if globalBatch.Some? then globalBatch.value else micro * DataParallel()
    }

    function GradAccum(): int
      requires Positive() && micro * DataParallel() > 0
    {
      EffectiveGlobalBatch() / (micro * DataParallel())
    }

    predicate Valid() {
      && Positive()
      && World() % ModelParallel() == 0
      && micro * DataParallel() > 0
      && EffectiveGlobalBatch() % (micro * DataParallel()) == 0
    }

    /** require_supported_model_parallel. */
    predicate Supported(allowPipeline: bool)
      requires Valid()
    {
      && (pipeline == 1 || allowPipeline)
      && (pipeline > 1 ==> GradAccum() >= pipeline)
    }
  }

  lemma ProductPositive(a: int, b: int)
    requires a > 0 && b > 0
    ensures a * b > 0
  {
    MulGrows(a, b);
  }

  lemma QuotientPositive(x: int, n: int)
    requires x > 0 && n > 0 && x % n == 0
    ensures x / n > 0 && x == n * (x / n)
  {
    assert x == n * (x / n);
  }

  /** The world is made of replicas of pipeline times tensor ranks, and a global batch of this many
      rounds of one microbatch per replica. */
  ghost predicate Divides(nNodes: int, gpusPerNode: int, tensor: int, pipeline: int, micro: int,
                          globalBatch: Option<int>, replicas: int, rounds: int)
  {
    && replicas > 0 && rounds > 0
    && nNodes * gpusPerNode == tensor * pipeline * replicas
    && (globalBatch.Some? ==> globalBatch.value == micro * replicas * rounds)
  }

  lemma ValidDivides(c: TrainingConfig)
    requires c.Valid()
    ensures Divides(c.nNodes, c.gpusPerNode, c.tensor, c.pipeline, c.micro, c.globalBatch, c.DataParallel(),
                    c.GradAccum())
  {
    ShapeIsExact(c);
    QuotientPositive(c.EffectiveGlobalBatch(), c.micro * c.DataParallel());
    QuotientPositive(c.World(), c.ModelParallel());
  }

  /** What a configuration is built from: positive sizes that divide. */
  ghost predicate Builds(nNodes: int, gpusPerNode: int, tensor: int, pipeline: int, micro: int,
                         globalBatch: Option<int>)
  {
    && nNodes > 0 && gpusPerNode > 0 && tensor > 0 && pipeline > 0 && micro > 0
    && exists replicas, rounds :: Divides(nNodes, gpusPerNode, tensor, pipeline, micro, globalBatch, replicas, rounds)
  }

  lemma BuildsIff(c: TrainingConfig)
    ensures c.Valid() <==> Builds(c.nNodes, c.gpusPerNode, c.tensor, c.pipeline, c.micro, c.globalBatch)
  {
    if c.Valid() {
      ValidDivides(c);
    }
    if Builds(c.nNodes, c.gpusPerNode, c.tensor, c.pipeline, c.micro, c.globalBatch) {
      var replicas, rounds :|
        Divides(c.nNodes, c.gpusPerNode, c.tensor, c.pipeline, c.micro, c.globalBatch, replicas, rounds);
      ProductPositive(c.micro, replicas);
      ProductPositive(c.micro * replicas, rounds);
      DividesValid(c, replicas, rounds);
    }
  }

  lemma DividesValid(c: TrainingConfig, replicas: int, rounds: int)
    requires c.Positive()
    requires Divides(c.nNodes, c.gpusPerNode, c.tensor, c.pipeline, c.micro, c.globalBatch, replicas, rounds)
    ensures c.Valid()
  {
    DivModUnique(c.World(), c.ModelParallel(), replicas, 0);
    var per := c.micro * replicas;
    ProductPositive(c.micro, replicas);
    if c.globalBatch.Some? {
      DivModUnique(c.EffectiveGlobalBatch(), per, rounds, 0);
    } else {
      DivModUnique(per, per, 1, 0);
    }
  }

  /** The checks made on construction, in their order: every failure is a ValueError, and the division by
      the replica size is never by zero. */
  method Construct(nNodes: int, gpusPerNode: int, tensor: int, pipeline: int, micro: int, globalBatch: Option<int>)
    returns (r: Result<TrainingConfig, Error>)
    ensures r.Ok? <==> Builds(nNodes, gpusPerNode, tensor, pipeline, micro, globalBatch)
    ensures r.Ok? <==> TrainingConfig(nNodes, gpusPerNode, tensor, pipeline, micro, globalBatch).Valid()
    ensures r == Ok(TrainingConfig(nNodes, gpusPerNode, tensor, pipeline, micro, globalBatch)) || r == Err(ValueError)
  {
    var c := TrainingConfig(nNodes, gpusPerNode, tensor, pipeline, micro, globalBatch);
    BuildsIff(c);
    if nNodes <= 0 || gpusPerNode <= 0 || tensor <= 0 || pipeline <= 0 || micro <= 0 {
      return Err(ValueError);
    }
    if globalBatch.Some? && globalBatch.value <= 0 {
      return Err(ValueError);
    }
    if c.World() % c.ModelParallel() != 0 {
      return Err(ValueError);
    }
    ProductPositive(nNodes, gpusPerNode);
    QuotientPositive(c.World(), c.ModelParallel());
    ProductPositive(micro, c.DataParallel());
    if c.EffectiveGlobalBatch() % (micro * c.DataParallel()) != 0 {
      return Err(ValueError);
    }
    r := Ok(c);
  }

  /** The world is replicas times pipeline stages times tensor shards, and a global batch is
      accumulation steps times microbatch rows times replicas. */
  lemma ShapeIsExact(c: TrainingConfig)
    requires c.Valid()
    ensures c.DataParallel() > 0 && c.GradAccum() > 0
    ensures c.World() == c.DataParallel() * c.pipeline * c.tensor
    ensures c.EffectiveGlobalBatch() == c.GradAccum() * c.micro * c.DataParallel()
    ensures c.globalBatch == None ==> c.GradAccum() == 1
  {
    ProductPositive(c.nNodes, c.gpusPerNode);
    QuotientPositive(c.World(), c.ModelParallel());
    var dp, per := c.DataParallel(), c.micro * c.DataParallel();
    assert c.World() == c.ModelParallel() * dp;
    assert c.tensor * c.pipeline * dp == dp * c.pipeline * c.tensor;
    ProductPositive(c.micro, dp);
    QuotientPositive(c.EffectiveGlobalBatch(), per);
    assert c.GradAccum() * c.micro * dp == per * c.GradAccum();
    if c.globalBatch == None { DivModUnique(per, per, 1, 0); }
  }

  /** The pipeline entry point: with no global batch size of its own (absent or zero) it asks for one
      that accumulates exactly as many microbatches as there are stages, which is a supported shape. */
  lemma PipelineDefaultBatch(nNodes: int, gpusPerNode: int, tensor: int, pipeline: int, micro: int)
    requires nNodes > 0 && gpusPerNode > 0 && tensor > 0 && pipeline > 1 && micro > 0
    requires (nNodes * gpusPerNode) % (tensor * pipeline) == 0
    ensures tensor * pipeline > 0
    ensures var dp := (nNodes * gpusPerNode) / (tensor * pipeline);
      var c := TrainingConfig(nNodes, gpusPerNode, tensor, pipeline, micro, Some(micro * dp * pipeline));
      c.Valid() && c.GradAccum() == pipeline && c.Supported(true) && !c.Supported(false)
  {
    ProductPositive(tensor, pipeline);
    ProductPositive(nNodes, gpusPerNode);
    QuotientPositive(nNodes * gpusPerNode, tensor * pipeline);
    var dp := (nNodes * gpusPerNode) / (tensor * pipeline);
    ProductPositive(micro, dp);
    ProductPositive(micro * dp, pipeline);
    MultipleMod(pipeline, micro * dp);
  }

  /** The configuration an entry point rebuilds from the world it finds itself in and from its arguments. */
  function EntryConfig(worldSize: int, localWorldSize: int, tensor: int, pipeline: int, micro: int, globalBatch: int)
    : TrainingConfig
  {
    var gpus := if localWorldSize <= 0 then 1 else localWorldSize;
    var nodes := if worldSize / gpus < 1 then 1 else worldSize / gpus;
    TrainingConfig(nodes, gpus, tensor, pipeline, micro, Some(globalBatch))
  }

  /** It is the launcher's, with the global batch size made explicit: same replicas, same accumulation. */
  lemma EntryRebuildsConfig(c: TrainingConfig)
    requires c.Valid()
    ensures var e := EntryConfig(c.World(), c.gpusPerNode, c.tensor, c.pipeline, c.micro, c.EffectiveGlobalBatch());
      && e == c.(globalBatch := Some(c.EffectiveGlobalBatch()))
      && e.Valid() && e.DataParallel() == c.DataParallel() && e.GradAccum() == c.GradAccum()
  {
    ShapeIsExact(c);
    DivModUnique(c.World(), c.gpusPerNode, c.nNodes, 0);
    ProductPositive(c.GradAccum(), c.micro);
    ProductPositive(c.GradAccum() * c.micro, c.DataParallel());
  }

  // ---------------------------------------------------------------- ranks

  datatype RankInfo = RankInfo(
    globalRank: int,
    dataParallelRank: int,
    tensorRank: int,
    pipelineRank: int,
    config: TrainingConfig)
  {
    predicate IsArtifactWriter() {
      dataParallelRank == 0 && tensorRank == 0 && pipelineRank == 0
    }

    predicate IsLossReporter() {
      tensorRank == 0 && pipelineRank == config.pipeline - 1
    }
  }

  function RankInfoFromGlobalRank(c: TrainingConfig, rank: int): Result<RankInfo, Error>
    requires c.Valid()
  {
    if rank < 0 || rank >= c.World() then Err(ValueError)
    else
      var inReplica := rank % c.ModelParallel();
      Ok(RankInfo(rank, rank / c.ModelParallel(), inReplica % c.tensor, inReplica / c.tensor, c))
  }

  /** The rank at given coordinates. */
  function RankAt(c: TrainingConfig, d: int, p: int, t: int): int {
    c.ModelParallel() * d + (c.tensor * p + t)
  }

  lemma MixedRadix(a: int, m: int, b: int, n: int)
    requires 0 <= a < m && 0 <= b < n
    ensures 0 <= m * b + a < m * n
  {
    MulGrows(m, n - b);
    assert m * n == m * b + m * (n - b);
    if b > 0 { MulGrows(m, b); }
  }

  lemma CoordinatesToRank(c: TrainingConfig, d: int, p: int, t: int)
    requires c.Valid() && 0 <= d < c.DataParallel() && 0 <= p < c.pipeline && 0 <= t < c.tensor
    ensures 0 <= RankAt(c, d, p, t) < c.World()
    ensures RankInfoFromGlobalRank(c, RankAt(c, d, p, t)) == Ok(RankInfo(RankAt(c, d, p, t), d, t, p, c))
  {
    var inReplica := c.tensor * p + t;
    MixedRadix(t, c.tensor, p, c.pipeline);
    MixedRadix(inReplica, c.ModelParallel(), d, c.DataParallel());
    ShapeIsExact(c);
    assert c.World() == c.ModelParallel() * c.DataParallel();
    DivModUnique(RankAt(c, d, p, t), c.ModelParallel(), d, inReplica);
    DivModUnique(inReplica, c.tensor, p, t);
  }

  lemma RankToCoordinates(c: TrainingConfig, rank: int)
    requires c.Valid() && 0 <= rank < c.World()
    ensures var info := RankInfoFromGlobalRank(c, rank).value;
      && 0 <= info.dataParallelRank < c.DataParallel()
      && 0 <= info.pipelineRank < c.pipeline
      && 0 <= info.tensorRank < c.tensor
      && RankAt(c, info.dataParallelRank, info.pipelineRank, info.tensorRank) == rank
  {
    var mp := c.ModelParallel();
    var d, inReplica := rank / mp, rank % mp;
    ShapeIsExact(c);
    assert c.World() == mp * c.DataParallel();
    QuotientBelow(rank, mp, c.DataParallel());
    QuotientBelow(inReplica, c.tensor, c.pipeline);
    assert rank == mp * d + inReplica && inReplica == c.tensor * (inReplica / c.tensor) + inReplica % c.tensor;
  }

  lemma QuotientBelow(x: int, n: int, k: int)
    requires n > 0 && 0 <= x < n * k
    ensures 0 <= x / n < k
  {
    assert x == n * (x / n) + x % n;
  }

  /** Ranks and coordinates correspond one to one, and only ranks outside the world are refused. */
  lemma RanksAreCoordinates(c: TrainingConfig)
    requires c.Valid()
    ensures forall rank :: RankInfoFromGlobalRank(c, rank).Ok? <==> 0 <= rank < c.nNodes * c.gpusPerNode
    ensures forall rank :: 0 <= rank < c.World() ==>
      var info := RankInfoFromGlobalRank(c, rank).value;
      && 0 <= info.dataParallelRank < c.DataParallel()
      && 0 <= info.pipelineRank < c.pipeline
      && 0 <= info.tensorRank < c.tensor
      && rank == c.tensor * c.pipeline * info.dataParallelRank + (c.tensor * info.pipelineRank + info.tensorRank)
    ensures forall d, p, t | 0 <= d < c.DataParallel() && 0 <= p < c.pipeline && 0 <= t < c.tensor ::
      && 0 <= RankAt(c, d, p, t) < c.World()
      && RankInfoFromGlobalRank(c, RankAt(c, d, p, t)) == Ok(RankInfo(RankAt(c, d, p, t), d, t, p, c))
  {
    forall rank | 0 <= rank < c.World()
      ensures var info := RankInfoFromGlobalRank(c, rank).value;
        && 0 <= info.dataParallelRank < c.DataParallel()
        && 0 <= info.pipelineRank < c.pipeline
        && 0 <= info.tensorRank < c.tensor
        && RankAt(c, info.dataParallelRank, info.pipelineRank, info.tensorRank) == rank
    {
      RankToCoordinates(c, rank);
    }
    forall d, p, t | 0 <= d < c.DataParallel() && 0 <= p < c.pipeline && 0 <= t < c.tensor
      ensures 0 <= RankAt(c, d, p, t) < c.World()
      ensures RankInfoFromGlobalRank(c, RankAt(c, d, p, t)) == Ok(RankInfo(RankAt(c, d, p, t), d, t, p, c))
    {
      CoordinatesToRank(c, d, p, t);
    }
  }

  /** Rank 0 and no other writes artifacts. */
  lemma OneArtifactWriter(c: TrainingConfig, rank: int)
    requires c.Valid() && 0 <= rank < c.World()
    ensures RankInfoFromGlobalRank(c, rank).value.IsArtifactWriter() <==> rank == 0
  {
    RankToCoordinates(c, rank);
    ShapeIsExact(c);
    CoordinatesToRank(c, 0, 0, 0);
    assert RankAt(c, 0, 0, 0) == 0;
  }

  /** The first shard of the last stage of replica d. */
  function ReporterOf(c: TrainingConfig, d: int): int {
    RankAt(c, d, c.pipeline - 1, 0)
  }

  predicate Reports(c: TrainingConfig, rank: int)
    requires c.Valid() && 0 <= rank < c.World()
  {
    RankInfoFromGlobalRank(c, rank).value.IsLossReporter()
  }

  /** Each replica has exactly one loss reporter. */
  lemma OneLossReporter(c: TrainingConfig, rank: int, d: int)
    requires c.Valid() && 0 <= rank < c.World() && 0 <= d < c.DataParallel()
    ensures Reports(c, rank) && rank / c.ModelParallel() == d <==> rank == ReporterOf(c, d)
    ensures ReporterOf(c, d) == c.tensor * c.pipeline * d + c.tensor * (c.pipeline - 1)
  {
    RankToCoordinates(c, rank);
    CoordinatesToRank(c, d, c.pipeline - 1, 0);
  }

  // ---------------------------------------------------------------- averaging the loss

  /** What rank contributes to the two all-reduces: its loss if it reports, else zero. */
  function Contributions(c: TrainingConfig, losses: seq<real>, upTo: nat): (sums: seq<real>)
    requires c.Valid() && upTo <= |losses| && upTo <= c.World()
    ensures |sums| == upTo
  {
    seq(upTo, rank requires 0 <= rank < upTo => if Reports(c, rank) then losses[rank] else 0.0)
  }

  function Counts(c: TrainingConfig, upTo: nat): (ones: seq<real>)
    requires c.Valid() && upTo <= c.World()
    ensures |ones| == upTo
  {
    seq(upTo, rank requires 0 <= rank < upTo => if Reports(c, rank) then 1.0 else 0.0)
  }

  function AtLeastOne(x: real): (r: real)
    ensures r >= 1.0
  {
    if x < 1.0 then 1.0 else x
  }

  /** The value every rank is left with after both sums are reduced over all ranks. */
  function AverageScalar(c: TrainingConfig, losses: seq<real>): real
    requires c.Valid() && |losses| == c.World()
  {
    SumReal(Contributions(c, losses, c.World())) / AtLeastOne(SumReal(Counts(c, c.World())))
  }

  /** The losses of the replicas, each as its reporter has it. */
  function ReplicaLosses(c: TrainingConfig, losses: seq<real>, replicas: nat): seq<real>
    requires c.Valid() && |losses| == c.World() && replicas <= c.DataParallel()
  {
    seq(replicas, d requires 0 <= d < replicas =>
          (CoordinatesToRank(c, d, c.pipeline - 1, 0); losses[ReporterOf(c, d)]))
  }

  lemma ReplicaRange(c: TrainingConfig, d: nat)
    requires c.Valid() && d < c.DataParallel()
    ensures var mp := c.ModelParallel();
      && 0 <= mp * d && mp * (d + 1) == mp * d + mp <= c.World()
      && mp * d <= ReporterOf(c, d) < mp * (d + 1)
      && (forall rank :: mp * d <= rank < mp * (d + 1) ==> rank / mp == d)
  {
    var mp := c.ModelParallel();
    ShapeIsExact(c);
    assert c.World() == mp * c.DataParallel();
    assert mp * c.DataParallel() == mp * (d + 1) + mp * (c.DataParallel() - d - 1);
    if c.DataParallel() - d - 1 > 0 { MulGrows(mp, c.DataParallel() - d - 1); }
    if d > 0 { MulGrows(mp, d); }
    MixedRadix(0, c.tensor, c.pipeline - 1, c.pipeline);
    assert mp * (d + 1) == mp * d + mp;
    forall rank | mp * d <= rank < mp * (d + 1) ensures rank / mp == d {
      DivModUnique(rank, mp, d, rank - mp * d);
    }
  }

  /** One replica's stretch of ranks adds its reporter's loss, and one to the count. */
  lemma SumOfReplica(c: TrainingConfig, losses: seq<real>, d: nat)
    requires c.Valid() && |losses| == c.World() && d < c.DataParallel()
    ensures var mp := c.ModelParallel();
      && 0 <= mp * d <= mp * (d + 1) <= c.World() && 0 <= ReporterOf(c, d) < |losses|
      && SumReal(Contributions(c, losses, mp * (d + 1))[mp * d..]) == losses[ReporterOf(c, d)]
      && SumReal(Counts(c, mp * (d + 1))[mp * d..]) == 1.0
  {
    ReplicaRange(c, d);
    var from, to, reporter := c.ModelParallel() * d, c.ModelParallel() * (d + 1), ReporterOf(c, d);
    forall rank | from <= rank < to ensures Reports(c, rank) <==> rank == reporter {
      OneLossReporter(c, rank, d);
    }
    SumOfOne(Contributions(c, losses, to)[from..], reporter - from);
    SumOfOne(Counts(c, to)[from..], reporter - from);
  }

  lemma {:induction false} SumsByReplica(c: TrainingConfig, losses: seq<real>, d: nat)
    requires c.Valid() && |losses| == c.World() && d <= c.DataParallel()
    ensures 0 <= c.ModelParallel() * d <= c.World()
    ensures SumReal(Contributions(c, losses, c.ModelParallel() * d)) == SumReal(ReplicaLosses(c, losses, d))
    ensures SumReal(Counts(c, c.ModelParallel() * d)) == d as real
  {
    if d > 0 {
      SumOfReplica(c, losses, d - 1);
      SumsByReplica(c, losses, d - 1);
      var from, to := c.ModelParallel() * (d - 1), c.ModelParallel() * d;
      PrefixSum(Contributions(c, losses, to), Contributions(c, losses, from));
      PrefixSum(Counts(c, to), Counts(c, from));
      PrefixSum(ReplicaLosses(c, losses, d), ReplicaLosses(c, losses, d - 1));
      SumOfOne(ReplicaLosses(c, losses, d)[d - 1..], 0);
    }
  }

  lemma PrefixSum(xs: seq<real>, front: seq<real>)
    requires |front| <= |xs| && forall i :: 0 <= i < |front| ==> xs[i] == front[i]
    ensures SumReal(xs) == SumReal(front) + SumReal(xs[|front|..])
  {
    assert xs == front + xs[|front|..];
    SumRealAppend(front, xs[|front|..]);
  }

  /** The divisor is always the number of replicas, and the result the mean of their losses. */
  lemma AverageIsReplicaMean(c: TrainingConfig, losses: seq<real>)
    requires c.Valid() && |losses| == c.World()
    ensures c.DataParallel() >= 1 && SumReal(Counts(c, c.World())) == c.DataParallel() as real
    ensures |ReplicaLosses(c, losses, c.DataParallel())| == c.DataParallel()
    ensures AverageScalar(c, losses) == SumReal(ReplicaLosses(c, losses, c.DataParallel())) / c.DataParallel() as real
  {
    ShapeIsExact(c);
    assert c.World() == c.ModelParallel() * c.DataParallel();
    SumsByReplica(c, losses, c.DataParallel());
  }
}
