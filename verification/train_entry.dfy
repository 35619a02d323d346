/** One rank's training loop in a multi-node job: pick this replica's microbatches, train on them as
    one logical batch, and average the loss over the replicas. */
module TrainEntry {
  import opened Wrappers
  import opened Contracts
  import opened Seqs
  import opened TensorBatches
  import opened TrainingSpec
  import opened SftLoop
  import opened DataSchedule
  import opened DistributedConfig
  import opened Losses

  /** The data of one logical step: the selected microbatches, one after the other. */
  function StepData(c: TrainingConfig, rank: int, batches: seq<seq<Datum>>, step: nat): seq<Datum>
    requires c.Valid() && 0 <= rank < c.World() && batches != []
  {
    RankToCoordinates(c, rank);
    ShapeIsExact(c);
    var info := RankInfoFromGlobalRank(c, rank).value;
    Flatten(Selected(batches, step, info.dataParallelRank, c.DataParallel(), c.GradAccum()).value)
  }

  /** What the runtime answers to the tensors of accepted data: it splits them before it does anything else,
      and raises if it cannot. */
  function BridgeReply(micro: nat, data: seq<Datum>, reply: Reply): Reply {
    match ToTensorBatch(data, "cross_entropy")
    case Err(_) => reply
    case Ok(batch) => if Splits(batch, micro) then reply else Raises
  }

  /** That is so for every model: the runtime's step errs on the tensors of accepted data that the
      microbatch size does not divide, and otherwise only if the model's shapes are wrong. */
  lemma IndivisibleRaises(micro: nat, data: seq<Datum>, model: TensorBatch -> seq<real>, reply: Reply)
    requires micro > 0 && Accepted(data, "cross_entropy")
    ensures ToTensorBatch(data, "cross_entropy") == Ok(BatchOf(data)) && Aligned(BatchOf(data))
    ensures |data| % micro != 0 ==>
      StepResult(BatchOf(data), micro, model) == Err(InvalidRequest) && BridgeReply(micro, data, reply) == Raises
    ensures |data| % micro == 0 ==>
      && BridgeReply(micro, data, reply) == reply
      && (StepResult(BatchOf(data), micro, model).Ok? <==> ShapesFit(Microbatches(BatchOf(data), micro), model))
  {
  }

  /** A batch that cannot be split is accepted by the backend, so it fails the run. */
  lemma IndivisibleFailsRun(s: State, id: string, n: nat, data: seq<Datum>, micro: nat, reply: Reply)
    requires AtStep(s, id, n) && micro > 0 && Accepted(data, "cross_entropy")
    ensures var call := ForwardBackward(id, data, "cross_entropy");
      var (after, answer) := Apply(s, call, BridgeReply(micro, data, reply));
      && (|data| % micro != 0 ==> answer == Raised && id in after.runs && after.runs[id].status == Failed)
      && (|data| % micro == 0 && reply.Returns? ==> answer.Gradient? && MidStep(after, id, n))
  {
    ForwardAt(s, id, n, data, BridgeReply(micro, data, reply));
  }

  /** What step s of the loop needs to go through. */
  ghost predicate StepFits(c: TrainingConfig, rank: int, batches: seq<seq<Datum>>, learningRate: real,
                           replies: nat -> Reply, s: nat)
    requires c.Valid() && 0 <= rank < c.World()
  {
    && batches != []
    && Accepted(StepData(c, rank, batches, s), "cross_entropy")
    && |StepData(c, rank, batches, s)| % c.micro == 0
    && replies(2 * s).Returns?
    && learningRate > 0.0
    && replies(2 * s + 1).Returns?
  }

  ghost predicate StepsFit(c: TrainingConfig, rank: int, batches: seq<seq<Datum>>, learningRate: real,
                           replies: nat -> Reply, n: nat)
    requires c.Valid() && 0 <= rank < c.World()
  {
    forall s :: 0 <= s < n ==> StepFits(c, rank, batches, learningRate, replies, s)
  }

  lemma OneStepMoreFits(c: TrainingConfig, rank: int, batches: seq<seq<Datum>>, learningRate: real,
                        replies: nat -> Reply, n: nat)
    requires c.Valid() && 0 <= rank < c.World()
    ensures StepsFit(c, rank, batches, learningRate, replies, n + 1)
       <==> StepsFit(c, rank, batches, learningRate, replies, n) && StepFits(c, rank, batches, learningRate, replies, n)
  {
  }

  datatype Steps = Steps(losses: seq<real>, optimizerStep: nat, checkpointVersion: nat)

  /** The calls of the first n steps. */
  ghost predicate CallsMade(c: TrainingConfig, rank: int, batches: seq<seq<Datum>>, learningRate: real, runId: string,
                            h: History, n: nat)
    requires c.Valid() && 0 <= rank < c.World() && (n > 0 ==> batches != [])
  {
    && |h| == 2 * n
    && forall s :: 0 <= s < n ==>
         && h[2 * s].call == ForwardBackward(runId, StepData(c, rank, batches, s), "cross_entropy")
         && h[2 * s + 1].call == OptimStep(runId, learningRate)
  }

  /** Each step's loss is the average the ranks arrive at, this rank bringing the loss it computed. */
  ghost predicate LossesAverage(c: TrainingConfig, rank: int, others: nat -> seq<real>, h: History, losses: seq<real>)
    requires c.Valid() && 0 <= rank < c.World() && |h| == 2 * |losses| && forall s :: |others(s)| == c.World()
  {
    forall s :: 0 <= s < |losses| ==> losses[s] == AverageScalar(c, others(s)[rank := LossOf(h[2 * s])])
  }

  lemma OneMoreStep(c: TrainingConfig, rank: int, batches: seq<seq<Datum>>, learningRate: real, runId: string,
                    others: nat -> seq<real>, h: History, first: Entry, second: Entry, losses: seq<real>)
    requires c.Valid() && 0 <= rank < c.World() && batches != [] && forall s :: |others(s)| == c.World()
    requires CallsMade(c, rank, batches, learningRate, runId, h, |losses|) && LossesAverage(c, rank, others, h, losses)
    requires first.call == ForwardBackward(runId, StepData(c, rank, batches, |losses|), "cross_entropy")
    requires second.call == OptimStep(runId, learningRate)
    ensures CallsMade(c, rank, batches, learningRate, runId, h + [first, second], |losses| + 1)
    ensures LossesAverage(c, rank, others, h + [first, second],
                          losses + [AverageScalar(c, others(|losses|)[rank := LossOf(first)])])
  {
  }

  lemma OptimAtRate(s: State, id: string, n: nat, learningRate: real, reply: Reply)
    requires MidStep(s, id, n)
    ensures var call := OptimStep(id, learningRate);
      var (after, answer) := Apply(s, call, reply);
      && StatusFits(s, call)
      && (answer.Stepped? <==> learningRate > 0.0 && reply.Returns?)
      && (answer.Stepped? ==> AtStep(after, id, n + 1) && answer == Stepped(n + 1, n + 1))
  {
  }

  /** One turn: forward_backward on the logical batch, then optim_step. */
  method TrainStep(client: Client, runId: string, batch: seq<Datum>, micro: nat, learningRate: real,
                   first: Reply, second: Reply, ghost known: iset<Client>, ghost n: nat)
    returns (after: Client, gradient: Answer, step: Answer, ghost entry: Entry, ghost entry': Entry)
    requires micro > 0 && ClosedUnderCalls(known) && client in known && AtStep(client.s, runId, n)
    ensures after in known
    ensures gradient.Gradient? && step.Stepped? <==>
      && Accepted(batch, "cross_entropy") && |batch| % micro == 0
      && first.Returns? && learningRate > 0.0 && second.Returns?
    ensures gradient.Gradient? && step.Stepped? ==>
      && step == Stepped(n + 1, n + 1) && AtStep(after.s, runId, n + 1)
      && after.h == client.h + [entry, entry']
      && entry.call == ForwardBackward(runId, batch, "cross_entropy") && entry.answer == gradient
      && entry'.call == OptimStep(runId, learningRate)
  {
    var reply := BridgeReply(micro, batch, first);
    ForwardAt(client.s, runId, n, batch, reply);
    var issued := Issue(client, ForwardBackward(runId, batch, "cross_entropy"), reply);
    after, gradient, step := issued.0, issued.1, Raised;
    entry, entry' := after.h[|client.h|], after.h[|client.h|];
    if gradient.Gradient? {
      OptimAtRate(after.s, runId, n, learningRate, second);
      issued := Issue(after, OptimStep(runId, learningRate), second);
      after, step := issued.0, issued.1;
      entry' := after.h[|client.h| + 1];
    }
  }

  /** The body of the step loop up to the losses: select, flatten, train. */
  method TrainSelected(client: Client, runId: string, c: TrainingConfig, rank: int, batches: seq<seq<Datum>>,
                       learningRate: real, replies: nat -> Reply, ghost known: iset<Client>, step: nat)
    returns (after: Client, r: Result<(Answer, Answer), Error>, ghost entry: Entry, ghost entry': Entry)
    requires c.Valid() && 0 <= rank < c.World()
    requires ClosedUnderCalls(known) && client in known && AtStep(client.s, runId, step)
    ensures after in known
    ensures r.Ok? <==> StepFits(c, rank, batches, learningRate, replies, step)
    ensures r.Ok? ==>
      && batches != []
      && r.value.0.Gradient? && r.value.1 == Stepped(step + 1, step + 1) && AtStep(after.s, runId, step + 1)
      && after.h == client.h + [entry, entry'] && LossOf(entry) == r.value.0.loss
      && entry.call == ForwardBackward(runId, StepData(c, rank, batches, step), "cross_entropy")
      && entry'.call == OptimStep(runId, learningRate)
  {
    var info := RankInfoFromGlobalRank(c, rank).value;
    RankToCoordinates(c, rank);
    ShapeIsExact(c);
    entry := Entry(CloseRun(""), Raises, Raised);
    entry' := entry;
    after := client;
    var local := SelectDataParallelItems(batches, step, info.dataParallelRank, c.DataParallel(), c.GradAccum());
    if local.Err? {
      return after, Err(local.error), entry, entry';
    }
    var batch := Flatten(local.value);
    assert batch == StepData(c, rank, batches, step);
    var gradient, stepped;
    after, gradient, stepped, entry, entry' := TrainStep(client, runId, batch, c.micro, learningRate,
                                                         replies(2 * step), replies(2 * step + 1), known, step);
    if !gradient.Gradient? || !stepped.Stepped? {
      return after, Err(if gradient.Gradient? then ErrorOf(stepped) else ErrorOf(gradient)), entry, entry';
    }
    r := Ok((gradient, stepped));
  }

  /** The step loop of one rank. others gives, for each step, the losses the ranks bring to the
      all-reduce; this rank's own entry is the loss it just computed. */
  method RunSteps(client: Client, runId: string, c: TrainingConfig, rank: int, batches: seq<seq<Datum>>, maxSteps: int,
                  learningRate: real, replies: nat -> Reply, others: nat -> seq<real>, ghost known: iset<Client>)
    returns (after: Client, r: Result<Steps, Error>, ghost made: History)
    requires c.Valid() && 0 <= rank < c.World() && forall s :: |others(s)| == c.World()
    requires ClosedUnderCalls(known) && client in known && AtStep(client.s, runId, 0)
    ensures after in known
    ensures var n := if maxSteps < 0 then 0 else maxSteps;
      && (r.Ok? <==> StepsFit(c, rank, batches, learningRate, replies, n))
      && (r.Ok? ==>
            && (n > 0 ==> batches != [])
            && |r.value.losses| == r.value.optimizerStep == r.value.checkpointVersion == n
            && AtStep(after.s, runId, n)
            && after.h == client.h + made
            && CallsMade(c, rank, batches, learningRate, runId, made, n)
            && LossesAverage(c, rank, others, made, r.value.losses))
  {
    after, made := client, [];
    var p := Steps([], 0, 0);
    var step := 0;
    while step < maxSteps
      invariant 0 <= step && (maxSteps >= 0 ==> step <= maxSteps) && (maxSteps < 0 ==> step == 0)
      invariant after in known && AtStep(after.s, runId, step)
      invariant |p.losses| == p.optimizerStep == p.checkpointVersion == step
      invariant step > 0 ==> batches != []
      invariant StepsFit(c, rank, batches, learningRate, replies, step)
      invariant after.h == client.h + made
      invariant CallsMade(c, rank, batches, learningRate, runId, made, step)
      invariant LossesAverage(c, rank, others, made, p.losses)
    {
      var trained;
      ghost var first, second;
      after, trained, first, second :=
        TrainSelected(after, runId, c, rank, batches, learningRate, replies, known, step);
      if trained.Err? {
        return after, Err(trained.error), made;
      }
      OneStepMoreFits(c, rank, batches, learningRate, replies, step);
      OneMoreStep(c, rank, batches, learningRate, runId, others, made, first, second, p.losses);
      made := made + [first, second];
      var loss := AverageScalar(c, others(step)[rank := trained.value.0.loss]);
      p := Steps(p.losses + [loss], trained.value.1.optimizerStep, trained.value.1.checkpointVersion);
      step := step + 1;
    }
    r := Ok(p);
  }

  function LossOf(e: Entry): real {
    if e.answer.Gradient? then e.answer.loss else 0.0
  }

  // ---------------------------------------------------------------- the microbatches come back

  lemma SelectedFrom<T>(items: seq<T>, step: int, rank: int, size: int, gradAccum: int, x: T)
    requires Selectable(items, step, rank, size, gradAccum)
    ensures x in Selected(items, step, rank, size, gradAccum).value ==> x in items
  {
    var chosen := Selected(items, step, rank, size, gradAccum).value;
    if x in chosen {
      var m :| 0 <= m < |chosen| && chosen[m] == x;
      StepNotNegative(step, gradAccum);
      assert chosen[m] == items[Index(|items|, step * gradAccum + m, rank, size)];
    }
  }

  /** When every batch is full, the runtime's split of a step's logical batch is the selected
      microbatches, tensors and all, as many as the step accumulates, and at least one per
      pipeline stage. */
  lemma StepRegroups(c: TrainingConfig, rank: int, batches: seq<seq<Datum>>, step: nat)
    requires c.Valid() && c.Supported(true) && 0 <= rank < c.World() && batches != []
    requires forall b :: b in batches ==> |b| == c.micro
    requires forall b, d :: b in batches && d in b ==> RowAccepted(d)
    ensures 0 <= RankInfoFromGlobalRank(c, rank).value.dataParallelRank < c.DataParallel() && c.GradAccum() > 0
    ensures var data := StepData(c, rank, batches, step);
      var local := Selected(batches, step, RankInfoFromGlobalRank(c, rank).value.dataParallelRank,
                            c.DataParallel(), c.GradAccum()).value;
      && data == Flatten(local)
      && (forall d :: d in data ==> RowAccepted(d))
      && |data| % c.micro == 0
      && Microbatches(BatchOf(data), c.micro) == BatchesOf(local)
      && |BatchesOf(local)| == c.GradAccum() >= c.pipeline
  {
    RankToCoordinates(c, rank);
    ShapeIsExact(c);
    var d0 := RankInfoFromGlobalRank(c, rank).value.dataParallelRank;
    var local := Selected(batches, step, d0, c.DataParallel(), c.GradAccum()).value;
    forall b | b in local ensures b in batches { SelectedFrom(batches, step, d0, c.DataParallel(), c.GradAccum(), b); }
    forall d | d in Flatten(local) ensures RowAccepted(d) {
      FlattenMember(local, d);
      var b :| b in local && d in b;
      assert b in batches;
    }
    RegroupFull(local, c.micro);
    BatchesOfLength(local);
  }
}
