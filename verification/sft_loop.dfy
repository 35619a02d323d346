/** The training driver: forward_backward and optim_step a batch at a time, a save every so often, and
    one at the end if there was none. The service it talks to is the atomic training machine. */
module SftLoop {
  import opened Wrappers
  import opened Contracts
  import opened Seqs
  import opened Artifacts
  import opened TensorBatches
  import opened TrainingSpec

  datatype Summary = Summary(
    runId: string,
    steps: nat,
    losses: seq<real>,
    optimizerStep: nat,
    checkpointVersion: nat,
    artifact: WeightArtifact,
    inputTokens: nat,
    trainingSteps: nat)

  /** The number of saves a run of n steps makes. */
  function SavesMade(n: nat, saveEvery: nat): nat {
    if saveEvery == 0 || n < saveEvery then 1 else n / saveEvery
  }

  /** The version of the artifact such a run returns. */
  function FinalVersion(n: nat, saveEvery: nat): nat {
    if saveEvery == 0 || n < saveEvery then n else saveEvery * (n / saveEvery)
  }

  function CountSaves(h: History): nat {
    if h == [] then 0 else CountSaves(h[..|h| - 1]) + (if h[|h| - 1].answer.Saved? then 1 else 0)
  }

  lemma CountSavesSnoc(h: History, e: Entry)
    ensures CountSaves(h + [e]) == CountSaves(h) + (if e.answer.Saved? then 1 else 0)
  {
    assert (h + [e])[..|h|] == h;
  }

  /** The calls of h, made one after the other from a state. */
  function ReplayFrom(s: State, h: History): State {
    if h == [] then s
    else Apply(ReplayFrom(s, h[..|h| - 1]), h[|h| - 1].call, h[|h| - 1].reply).0
  }

  lemma ReplayFromSnoc(s: State, h: History, e: Entry)
    ensures ReplayFrom(s, h + [e]) == Apply(ReplayFrom(s, h), e.call, e.reply).0
  {
    assert (h + [e])[..|h|] == h;
  }

  /** The call finds its run in the status it needs. */
  ghost predicate StatusFits(s: State, call: Call) {
    call.Create? || (call.runId in s.runs && (call.CloseRun? || s.runs[call.runId].status == RequiredStatus(call)))
  }

  /** Every call of h was issued in a fitting status and answered as recorded. */
  ghost predicate InOrder(s: State, h: History) {
    h == [] ||
    var before, e := h[..|h| - 1], h[|h| - 1];
    && InOrder(s, before)
    && StatusFits(ReplayFrom(s, before), e.call)
    && e.answer == Apply(ReplayFrom(s, before), e.call, e.reply).1
  }

  lemma InOrderSnoc(s: State, h: History, e: Entry)
    requires InOrder(s, h) && StatusFits(ReplayFrom(s, h), e.call)
    requires e.answer == Apply(ReplayFrom(s, h), e.call, e.reply).1
    ensures InOrder(s, h + [e])
  {
    assert (h + [e])[..|h|] == h;
  }

  lemma NextMultiple(i: nat, k: nat)
    requires k > 0
    ensures (i + 1) % k == 0 ==> (i + 1) / k == i / k + 1 && i + 1 == k * ((i + 1) / k)
    ensures (i + 1) % k != 0 ==> (i + 1) / k == i / k
    ensures i + 1 < k ==> (i + 1) / k == 0
  {
    Successor(i, k);
    assert i + 1 == k * ((i + 1) / k) + (i + 1) % k;
    if i + 1 < k {
      DivModUnique(i + 1, k, 0, i + 1);
    }
  }

  /** Tokens of the first n batches. */
  function TokensOf(dataset: seq<seq<Datum>>, n: nat): nat
    requires n <= |dataset|
  {
    if n == 0 then 0 else TokensOf(dataset, n - 1) + TokenTotal(dataset[n - 1])
  }

  // ---------------------------------------------------------------- one run at a step boundary

  ghost predicate AtStep(s: State, id: string, n: nat) {
    && id in s.runs && id != ""
    && s.runs[id].status == Ready
    && s.runs[id].gradientVersion == s.runs[id].optimizerStep == s.runs[id].checkpointVersion == n
  }

  ghost predicate MidStep(s: State, id: string, n: nat) {
    && id in s.runs && id != ""
    && s.runs[id].status == GradientsPending
    && s.runs[id].gradientVersion == n + 1
    && s.runs[id].optimizerStep == s.runs[id].checkpointVersion == n
  }

  lemma CreateAt(s: State, call: Call, reply: Reply)
    requires call.Create?
    ensures var (after, answer) := Apply(s, call, reply);
      && (answer.Created? <==> CreateArgumentsValid(call) && !SomeRunActive(s.runs) && reply.Returns?)
      && (answer.Created? ==> AtStep(after, answer.runId, 0) && answer.version == 0)
      && (answer.Created? || answer.Rejected? || answer.Raised?)
  {
    assert |RunName(s.counter + 1)| >= 8;
  }

  lemma ForwardAt(s: State, id: string, n: nat, data: seq<Datum>, reply: Reply)
    requires AtStep(s, id, n)
    ensures var call := ForwardBackward(id, data, "cross_entropy");
      var (after, answer) := Apply(s, call, reply);
      && StatusFits(s, call)
      && (answer.Gradient? <==> Accepted(data, "cross_entropy") && reply.Returns?)
      && (answer.Gradient? ==>
            MidStep(after, id, n) && answer.inputTokens == TokenTotal(data) && answer.loss == reply.loss)
  {
    if Accepted(data, "cross_entropy") {
      TokenCountIsTotal(data, "cross_entropy");
    }
  }

  lemma OptimAt(s: State, id: string, n: nat, learningRate: real, reply: Reply)
    requires MidStep(s, id, n) && learningRate > 0.0
    ensures var call := OptimStep(id, learningRate);
      var (after, answer) := Apply(s, call, reply);
      && StatusFits(s, call)
      && (answer.Stepped? <==> reply.Returns?)
      && (answer.Stepped? ==> AtStep(after, id, n + 1) && answer == Stepped(n + 1, n + 1))
  {
  }

  lemma SaveAt(s: State, id: string, n: nat, kind: ArtifactKind, reply: Reply)
    requires AtStep(s, id, n)
    ensures var call := SaveWeights(id, kind);
      var (after, answer) := Apply(s, call, reply);
      && StatusFits(s, call)
      && (answer.Saved? <==> reply.Returns?)
      && AtStep(after, id, n)
      && (answer.Saved? ==> answer.artifact.runId == id && answer.artifact.checkpointVersion == n)
  {
  }

  // ---------------------------------------------------------------- counting saves

  /** The saves made in the loop up to step i. */
  function SavesBefore(i: nat, saveEvery: nat): nat {
    if i == 0 || saveEvery == 0 then 0
    else SavesBefore(i - 1, saveEvery) + (if i % saveEvery == 0 then 1 else 0)
  }

  /** The step of the last of them. */
  function LastSave(i: nat, saveEvery: nat): Option<nat> {
    if i == 0 || saveEvery == 0 then None
    else if i % saveEvery == 0 then Some(i) else LastSave(i - 1, saveEvery)
  }

  lemma {:induction false} SavesClosedForm(i: nat, saveEvery: nat)
    requires saveEvery > 0
    ensures SavesBefore(i, saveEvery) == i / saveEvery
    ensures LastSave(i, saveEvery) == if i < saveEvery then None else Some(saveEvery * (i / saveEvery))
  {
    if i == 0 {
      DivModUnique(0, saveEvery, 0, 0);
    } else {
      SavesClosedForm(i - 1, saveEvery);
      NextMultiple(i - 1, saveEvery);
    }
  }

  lemma NextSave(i: nat, saveEvery: nat)
    ensures var due := saveEvery != 0 && (i + 1) % saveEvery == 0;
      && SavesBefore(i + 1, saveEvery) == SavesBefore(i, saveEvery) + (if due then 1 else 0)
      && LastSave(i + 1, saveEvery) == if due then Some(i + 1) else LastSave(i, saveEvery)
  {
  }

  lemma {:induction false} SavesBeforeGrows(i: nat, n: nat, saveEvery: nat)
    requires i <= n
    ensures SavesBefore(i, saveEvery) <= SavesBefore(n, saveEvery)
    decreases n - i
  {
    if i < n {
      SavesBeforeGrows(i, n - 1, saveEvery);
    }
  }

  lemma SavesTotal(i: nat, n: nat, saveEvery: nat)
    requires i <= n
    ensures SavesBefore(i, saveEvery) <= SavesBefore(n, saveEvery) <= SavesMade(n, saveEvery)
    ensures LastSave(n, saveEvery) == None ==>
        SavesBefore(n, saveEvery) == 0 && SavesMade(n, saveEvery) == 1 && FinalVersion(n, saveEvery) == n
    ensures LastSave(n, saveEvery) != None ==>
        SavesMade(n, saveEvery) == SavesBefore(n, saveEvery)
        && FinalVersion(n, saveEvery) == LastSave(n, saveEvery).value
  {
    SavesBeforeGrows(i, n, saveEvery);
    if saveEvery > 0 {
      SavesClosedForm(n, saveEvery);
      if n < saveEvery {
        DivModUnique(n, saveEvery, 0, n);
      }
    }
  }

  /** The artifact kept after i steps is the one saved last. */
  ghost predicate KeptAfter(saved: Option<WeightArtifact>, id: string, i: nat, saveEvery: nat) {
    match LastSave(i, saveEvery)
    case None => saved == None
    case Some(v) => saved.Some? && saved.value.runId == id && saved.value.checkpointVersion == v
  }

  /** Everything the driver needs from the outside for n steps. */
  ghost predicate AllGoesWell(dataset: seq<seq<Datum>>, n: nat, saveEvery: nat, replies: nat -> Reply)
    requires n <= |dataset|
  {
    && AllAccepted(dataset, n)
    && AllReturn(replies, 1 + 2 * n + SavesMade(n, saveEvery))
  }

  ghost predicate AllAccepted(dataset: seq<seq<Datum>>, n: nat)
    requires n <= |dataset|
  {
    n == 0 || (AllAccepted(dataset, n - 1) && Accepted(dataset[n - 1], "cross_entropy"))
  }

  lemma {:induction false} RejectedBatch(dataset: seq<seq<Datum>>, i: nat, n: nat)
    requires i < n <= |dataset| && !Accepted(dataset[i], "cross_entropy")
    ensures !AllAccepted(dataset, n)
    decreases n
  {
    if i < n - 1 { RejectedBatch(dataset, i, n - 1); }
  }

  // The service as the driver sees it: its state, and the calls made so far with their answers.
  datatype Client = Client(s: State, h: History)

  ghost predicate Recorded(s0: State, c: Client) {
    InOrder(s0, c.h) && ReplayFrom(s0, c.h) == c.s
  }

  /** One call; reply is what the runtime does if the call gets that far. */
  function Issue(c: Client, call: Call, reply: Reply): (Client, Answer) {
    var (after, answer) := Apply(c.s, call, reply);
    (Client(after, c.h + [Entry(call, reply, answer)]), answer)
  }

  lemma Issued(s0: State, c: Client, call: Call, reply: Reply)
    requires Recorded(s0, c) && StatusFits(c.s, call)
    ensures Recorded(s0, Issue(c, call, reply).0)
    ensures CountSaves(Issue(c, call, reply).0.h) == CountSaves(c.h) + (if Issue(c, call, reply).1.Saved? then 1 else 0)
  {
    var e := Entry(call, reply, Apply(c.s, call, reply).1);
    InOrderSnoc(s0, c.h, e);
    ReplayFromSnoc(s0, c.h, e);
    CountSavesSnoc(c.h, e);
  }

  /** A set of clients that no call issued in a fitting status leaves. */
  ghost predicate ClosedUnderCalls(known: iset<Client>) {
    forall c, call, reply :: c in known && StatusFits(c.s, call) ==> Issue(c, call, reply).0 in known
  }

  lemma RecordedIsClosed(s0: State)
    ensures ClosedUnderCalls(iset c | Recorded(s0, c))
  {
    forall c, call, reply | Recorded(s0, c) && StatusFits(c.s, call)
      ensures Recorded(s0, Issue(c, call, reply).0)
    {
      Issued(s0, c, call, reply);
    }
  }

  /** The state of the loop before batch i. */
  ghost predicate LoopState(known: iset<Client>, c: Client, id: string, i: nat, saveEvery: nat,
                            saved: Option<WeightArtifact>, replies: nat -> Reply)
  {
    && c in known
    && AtStep(c.s, id, i)
    && KeptAfter(saved, id, i, saveEvery)
    && |c.h| == 1 + 2 * i + SavesBefore(i, saveEvery)
    && CountSaves(c.h) == SavesBefore(i, saveEvery)
    && AllReturn(replies, |c.h|)
  }

  ghost predicate AllReturn(replies: nat -> Reply, to: nat) {
    forall k: nat :: k < to ==> replies(k).Returns?
  }

  lemma OneMoreReturn(replies: nat -> Reply, k: nat)
    requires AllReturn(replies, k) && replies(k).Returns?
    ensures AllReturn(replies, k + 1)
  {
  }

  function ErrorOf(answer: Answer): Error {
    if answer.Rejected? then answer.error else RuntimeRaised
  }

  /** Why n steps cannot be made: reply bad, or batch i. */
  ghost predicate Spoiled(replies: nat -> Reply, bad: nat, to: nat) {
    bad < to && !replies(bad).Returns?
  }

  lemma SpoiledRun(dataset: seq<seq<Datum>>, n: nat, saveEvery: nat, replies: nat -> Reply, bad: nat, to: nat)
    requires n <= |dataset| && Spoiled(replies, bad, to) && to <= 1 + 2 * n + SavesMade(n, saveEvery)
    ensures !AllGoesWell(dataset, n, saveEvery, replies)
  {
  }

  /** The call of step i that forward_backward is, counting from the run's creation. */
  function ForwardCall(i: nat, saveEvery: nat): nat {
    1 + 2 * i + SavesBefore(i, saveEvery)
  }

  /** losses[i] is what the runtime reported for the i-th forward_backward. */
  ghost predicate LossesReported(losses: seq<real>, saveEvery: nat, replies: nat -> Reply) {
    forall i :: 0 <= i < |losses| ==>
      replies(ForwardCall(i, saveEvery)).Returns? && losses[i] == replies(ForwardCall(i, saveEvery)).loss
  }

  lemma LossesGrow(losses: seq<real>, saveEvery: nat, replies: nat -> Reply, loss: real)
    requires LossesReported(losses, saveEvery, replies)
    requires var call := ForwardCall(|losses|, saveEvery); replies(call).Returns? && loss == replies(call).loss
    ensures LossesReported(losses + [loss], saveEvery, replies)
  {
  }

  /** A turn that fails tells why the whole run cannot go well. */
  lemma FailedTurn(dataset: seq<seq<Datum>>, i: nat, n: nat, saveEvery: nat, replies: nat -> Reply, bad: nat)
    requires i < n <= |dataset|
    requires Accepted(dataset[i], "cross_entropy") ==>
      Spoiled(replies, bad, 1 + 2 * (i + 1) + SavesBefore(i + 1, saveEvery))
    ensures !AllGoesWell(dataset, n, saveEvery, replies)
  {
    SavesTotal(i + 1, n, saveEvery);
    if Accepted(dataset[i], "cross_entropy") {
      SpoiledRun(dataset, n, saveEvery, replies, bad, 1 + 2 * (i + 1) + SavesBefore(i + 1, saveEvery));
    } else {
      RejectedBatch(dataset, i, n);
    }
  }

  /** The calls of one turn, from place at on: the gradient of this batch, a step at this rate, and a save
      of this kind when one is due. */
  ghost predicate TurnIn(h: History, at: nat, id: string, batch: seq<Datum>, learningRate: real, kind: ArtifactKind,
                         due: bool)
  {
    && at + 1 < |h|
    && h[at].call == ForwardBackward(id, batch, "cross_entropy")
    && h[at + 1].call == OptimStep(id, learningRate)
    && (due ==> at + 2 < |h| && h[at + 2].call == SaveWeights(id, kind))
  }

  /** A save at the end of a turn, when one is due, completes it. */
  lemma DueTurn(mid: History, h: History, at: nat, id: string, batch: seq<Datum>, learningRate: real,
                kind: ArtifactKind, due: bool)
    requires TurnIn(mid, at, id, batch, learningRate, FullWeights, false) && |mid| == at + 2 && mid <= h
    requires due ==> |mid| < |h| && h[|mid|].call == SaveWeights(id, kind)
    ensures TurnIn(h, at, id, batch, learningRate, kind, due)
  {
  }

  /** The first call, then those of n turns. */
  ghost predicate TurnsIn(h: History, first: Call, id: string, dataset: seq<seq<Datum>>, learningRate: real,
                          kind: ArtifactKind, saveEvery: nat, n: nat)
    requires n <= |dataset|
  {
    if n == 0 then h != [] && h[0].call == first
    else
      && TurnsIn(h, first, id, dataset, learningRate, kind, saveEvery, n - 1)
      && TurnIn(h, ForwardCall(n - 1, saveEvery), id, dataset[n - 1], learningRate, kind,
                saveEvery != 0 && n % saveEvery == 0)
  }

  /** All calls: the first, the turns and, when no turn made a save, one at the end. */
  ghost predicate CallsMade(h: History, first: Call, id: string, dataset: seq<seq<Datum>>, learningRate: real,
                            kind: ArtifactKind, saveEvery: nat, n: nat)
    requires n <= |dataset|
  {
    && TurnsIn(h, first, id, dataset, learningRate, kind, saveEvery, n)
    && |h| == 1 + 2 * n + (if saveEvery == 0 || n < saveEvery then 1 else n / saveEvery)
    && (saveEvery == 0 || n < saveEvery ==> h[1 + 2 * n].call == SaveWeights(id, kind))
  }

  lemma {:induction false} TurnsStay(h: History, later: History, first: Call, id: string, dataset: seq<seq<Datum>>,
                                     learningRate: real, kind: ArtifactKind, saveEvery: nat, n: nat)
    requires n <= |dataset| && h <= later && TurnsIn(h, first, id, dataset, learningRate, kind, saveEvery, n)
    ensures TurnsIn(later, first, id, dataset, learningRate, kind, saveEvery, n)
  {
    if n > 0 {
      TurnsStay(h, later, first, id, dataset, learningRate, kind, saveEvery, n - 1);
    }
  }

  lemma OneMoreTurn(h: History, later: History, first: Call, id: string, dataset: seq<seq<Datum>>, learningRate: real,
                    kind: ArtifactKind, saveEvery: nat, i: nat)
    requires i < |dataset| && h <= later && TurnsIn(h, first, id, dataset, learningRate, kind, saveEvery, i)
    requires |h| == ForwardCall(i, saveEvery)
    requires TurnIn(later, |h|, id, dataset[i], learningRate, kind, saveEvery != 0 && (i + 1) % saveEvery == 0)
    ensures TurnsIn(later, first, id, dataset, learningRate, kind, saveEvery, i + 1)
  {
    TurnsStay(h, later, first, id, dataset, learningRate, kind, saveEvery, i);
  }

  lemma AllCalls(h: History, later: History, first: Call, id: string, dataset: seq<seq<Datum>>, learningRate: real,
                 kind: ArtifactKind, saveEvery: nat, n: nat)
    requires n <= |dataset| && h <= later && TurnsIn(h, first, id, dataset, learningRate, kind, saveEvery, n)
    requires |h| == ForwardCall(n, saveEvery)
    requires |later| == |h| + (if LastSave(n, saveEvery) == None then 1 else 0)
    requires LastSave(n, saveEvery) == None ==> later[|h|].call == SaveWeights(id, kind)
    ensures CallsMade(later, first, id, dataset, learningRate, kind, saveEvery, n)
  {
    TurnsStay(h, later, first, id, dataset, learningRate, kind, saveEvery, n);
    SavesTotal(n, n, saveEvery);
    if saveEvery > 0 { SavesClosedForm(n, saveEvery); }
  }

  // ---------------------------------------------------------------- progress

  datatype Turn = Turn(loss: real, inputTokens: nat, optimizerStep: nat, checkpointVersion: nat,
                       saved: Option<WeightArtifact>)

  datatype Progress = Progress(losses: seq<real>, inputTokens: nat, trainingSteps: nat, optimizerStep: nat,
                               checkpointVersion: nat, saved: Option<WeightArtifact>)

  /** Batch i was accepted, trained on and counted, and what the runtime reported is its loss. */
  ghost predicate TurnTaken(known: iset<Client>, before: Client, after: Client, id: string, batch: seq<Datum>,
                            learningRate: real, kind: ArtifactKind, saveEvery: nat, replies: nat -> Reply, i: nat,
                            turn: Turn)
  {
    && Accepted(batch, "cross_entropy")
    && turn.optimizerStep == turn.checkpointVersion == i + 1
    && turn.inputTokens == TokenTotal(batch)
    && replies(ForwardCall(i, saveEvery)).Returns? && turn.loss == replies(ForwardCall(i, saveEvery)).loss
    && LoopState(known, after, id, i + 1, saveEvery, turn.saved, replies)
    && before.h <= after.h
    && TurnIn(after.h, |before.h|, id, batch, learningRate, kind, saveEvery != 0 && (i + 1) % saveEvery == 0)
  }

  /** What the loop has after n batches. */
  ghost predicate Progressed(known: iset<Client>, first: Call, c: Client, id: string, dataset: seq<seq<Datum>>,
                             learningRate: real, kind: ArtifactKind, saveEvery: nat, replies: nat -> Reply, n: nat,
                             p: Progress)
  {
    && n <= |dataset| && AllAccepted(dataset, n)
    && |p.losses| == p.trainingSteps == p.optimizerStep == p.checkpointVersion == n
    && LossesReported(p.losses, saveEvery, replies)
    && p.inputTokens == TokensOf(dataset, n)
    && LoopState(known, c, id, n, saveEvery, p.saved, replies)
    && TurnsIn(c.h, first, id, dataset, learningRate, kind, saveEvery, n)
  }

  lemma TurnProgresses(known: iset<Client>, first: Call, before: Client, after: Client, id: string,
                       dataset: seq<seq<Datum>>, learningRate: real, kind: ArtifactKind, saveEvery: nat,
                       replies: nat -> Reply, i: nat, p: Progress, turn: Turn)
    requires i < |dataset|
    requires Progressed(known, first, before, id, dataset, learningRate, kind, saveEvery, replies, i, p)
    requires TurnTaken(known, before, after, id, dataset[i], learningRate, kind, saveEvery, replies, i, turn)
    ensures Progressed(known, first, after, id, dataset, learningRate, kind, saveEvery, replies, i + 1,
                       Progress(p.losses + [turn.loss], p.inputTokens + turn.inputTokens, p.trainingSteps + 1,
                                turn.optimizerStep, turn.checkpointVersion, turn.saved))
  {
    OneMoreTurn(before.h, after.h, first, id, dataset, learningRate, kind, saveEvery, i);
    LossesGrow(p.losses, saveEvery, replies, turn.loss);
  }

  // ---------------------------------------------------------------- the driver

  /** forward_backward and optim_step on one batch. */
  method TrainBatch(c: Client, runId: string, batch: seq<Datum>, learningRate: real, first: Reply, second: Reply,
                    ghost known: iset<Client>, ghost i: nat)
    returns (after: Client, gradient: Answer, step: Answer)
    requires ClosedUnderCalls(known) && c in known && AtStep(c.s, runId, i) && learningRate > 0.0
    ensures after in known && CountSaves(after.h) == CountSaves(c.h)
    ensures gradient.Gradient? <==> Accepted(batch, "cross_entropy") && first.Returns?
    ensures gradient.Gradient? ==>
        && gradient.inputTokens == TokenTotal(batch) && gradient.loss == first.loss
        && (step.Stepped? <==> second.Returns?)
    ensures gradient.Gradient? && step.Stepped? ==>
        AtStep(after.s, runId, i + 1) && step == Stepped(i + 1, i + 1) && |after.h| == |c.h| + 2
    ensures c.h <= after.h
    ensures gradient.Gradient? && step.Stepped? ==>
        TurnIn(after.h, |c.h|, runId, batch, learningRate, FullWeights, false)
  {
    ForwardAt(c.s, runId, i, batch, first);
    var forward := ForwardBackward(runId, batch, "cross_entropy");
    CountSavesSnoc(c.h, Entry(forward, first, Apply(c.s, forward, first).1));
    var issued := Issue(c, forward, first);
    after, gradient, step := issued.0, issued.1, Raised;
    if gradient.Gradient? {
      OptimAt(after.s, runId, i, learningRate, second);
      var optim := OptimStep(runId, learningRate);
      CountSavesSnoc(after.h, Entry(optim, second, Apply(after.s, optim, second).1));
      issued := Issue(after, optim, second);
      after, step := issued.0, issued.1;
    }
  }

  method Save(c: Client, runId: string, kind: ArtifactKind, reply: Reply, ghost known: iset<Client>, ghost i: nat)
    returns (after: Client, answer: Answer)
    requires ClosedUnderCalls(known) && c in known && AtStep(c.s, runId, i)
    ensures after in known && AtStep(after.s, runId, i) && |after.h| == |c.h| + 1
    ensures c.h <= after.h && after.h[|c.h|].call == SaveWeights(runId, kind)
    ensures CountSaves(after.h) == CountSaves(c.h) + (if answer.Saved? then 1 else 0)
    ensures answer.Saved? <==> reply.Returns?
    ensures answer.Saved? ==> answer.artifact.runId == runId && answer.artifact.checkpointVersion == i
  {
    SaveAt(c.s, runId, i, kind, reply);
    CountSavesSnoc(c.h, Entry(SaveWeights(runId, kind), reply, Apply(c.s, SaveWeights(runId, kind), reply).1));
    var issued := Issue(c, SaveWeights(runId, kind), reply);
    after, answer := issued.0, issued.1;
  }

  /** The end of the loop's body: a save when one is due. */
  method SaveIfDue(c: Client, runId: string, kind: ArtifactKind, optimizerStep: nat, saveEvery: nat,
                   saved: Option<WeightArtifact>, reply: Reply, ghost known: iset<Client>, ghost i: nat)
    returns (after: Client, kept: Option<WeightArtifact>, failed: Option<Error>)
    requires ClosedUnderCalls(known) && c in known && AtStep(c.s, runId, i + 1) && optimizerStep == i + 1
    requires KeptAfter(saved, runId, i, saveEvery)
    ensures var due := saveEvery != 0 && (i + 1) % saveEvery == 0;
      && after in known && AtStep(after.s, runId, i + 1) && c.h <= after.h
      && (due ==> |c.h| < |after.h| && after.h[|c.h|].call == SaveWeights(runId, kind))
      && (failed.Some? <==> due && !reply.Returns?)
      && (failed.None? ==>
            && |after.h| == |c.h| + (if due then 1 else 0)
            && CountSaves(after.h) == CountSaves(c.h) + (if due then 1 else 0)
            && KeptAfter(kept, runId, i + 1, saveEvery))
  {
    NextSave(i, saveEvery);
    after, kept, failed := c, saved, None;
    if saveEvery != 0 && optimizerStep % saveEvery == 0 {
      var answer;
      after, answer := Save(c, runId, kind, reply, known, i + 1);
      if answer.Saved? {
        kept := Some(answer.artifact);
      } else {
        failed := Some(ErrorOf(answer));
      }
    }
  }

  /** Any call of turn i that does not return spoils the run by the end of the turn. */
  lemma TurnCalls(replies: nat -> Reply, call: nat, i: nat, saveEvery: nat)
    requires call == ForwardCall(i, saveEvery)
    ensures var to, due := ForwardCall(i + 1, saveEvery), saveEvery != 0 && (i + 1) % saveEvery == 0;
      && (!replies(call).Returns? ==> Spoiled(replies, call, to))
      && (!replies(call + 1).Returns? ==> Spoiled(replies, call + 1, to))
      && (due && !replies(call + 2).Returns? ==> Spoiled(replies, call + 2, to))
  {
    NextSave(i, saveEvery);
  }

  lemma TurnEnds(known: iset<Client>, c: Client, id: string, i: nat, saveEvery: nat,
                 kept: Option<WeightArtifact>, replies: nat -> Reply, call: nat)
    requires c in known && AtStep(c.s, id, i + 1) && KeptAfter(kept, id, i + 1, saveEvery)
    requires call == ForwardCall(i, saveEvery) && AllReturn(replies, call + 2)
    requires var due := saveEvery != 0 && (i + 1) % saveEvery == 0;
      && |c.h| == call + (if due then 3 else 2)
      && CountSaves(c.h) == SavesBefore(i, saveEvery) + (if due then 1 else 0)
      && (due ==> replies(call + 2).Returns?)
    ensures LoopState(known, c, id, i + 1, saveEvery, kept, replies)
  {
    NextSave(i, saveEvery);
    if saveEvery != 0 && (i + 1) % saveEvery == 0 {
      OneMoreReturn(replies, call + 2);
    }
  }

  /** The body of the driver's loop for one batch. */
  method TakeTurn(c: Client, runId: string, batch: seq<Datum>, learningRate: real, kind: ArtifactKind, saveEvery: nat,
                  saved: Option<WeightArtifact>, replies: nat -> Reply, ghost known: iset<Client>, ghost i: nat)
    returns (after: Client, r: Result<Turn, Error>, ghost bad: nat)
    requires learningRate > 0.0 && ClosedUnderCalls(known) && LoopState(known, c, runId, i, saveEvery, saved, replies)
    ensures after in known
    ensures r.Ok? ==> TurnTaken(known, c, after, runId, batch, learningRate, kind, saveEvery, replies, i, r.value)
    ensures r.Err? && Accepted(batch, "cross_entropy") ==>
        Spoiled(replies, bad, 1 + 2 * (i + 1) + SavesBefore(i + 1, saveEvery))
  {
    var call := |c.h|;
    TurnCalls(replies, call, i, saveEvery);
    bad := call;
    var gradient, step;
    after, gradient, step := TrainBatch(c, runId, batch, learningRate, replies(call), replies(call + 1), known, i);
    if !gradient.Gradient? {
      return after, Err(ErrorOf(gradient)), bad;
    }
    OneMoreReturn(replies, call);
    bad := call + 1;
    if !step.Stepped? {
      return after, Err(ErrorOf(step)), bad;
    }
    OneMoreReturn(replies, call + 1);
    bad := call + 2;
    var kept, failed;
    ghost var mid := after.h;
    after, kept, failed := SaveIfDue(after, runId, kind, step.optimizerStep, saveEvery, saved, replies(call + 2),
                                     known, i);
    if failed.Some? {
      return after, Err(failed.value), bad;
    }
    DueTurn(mid, after.h, call, runId, batch, learningRate, kind, saveEvery != 0 && (i + 1) % saveEvery == 0);
    TurnEnds(known, after, runId, i, saveEvery, kept, replies, call);
    r := Ok(Turn(gradient.loss, gradient.inputTokens, step.optimizerStep, step.checkpointVersion, kept));
  }

  lemma LoopStart(known: iset<Client>, c: Client, id: string, saveEvery: nat, replies: nat -> Reply)
    requires c in known && AtStep(c.s, id, 0) && |c.h| == 1 && CountSaves(c.h) == 0 && replies(0).Returns?
    ensures LoopState(known, c, id, 0, saveEvery, None, replies)
  {
  }

  /** The loop over the batches. */
  method TrainLoop(c: Client, runId: string, dataset: seq<seq<Datum>>, learningRate: real, kind: ArtifactKind,
                   maxSteps: nat, saveEvery: nat, replies: nat -> Reply, ghost known: iset<Client>)
    returns (after: Client, r: Result<Progress, Error>)
    requires learningRate > 0.0 && ClosedUnderCalls(known) && LoopState(known, c, runId, 0, saveEvery, None, replies)
    ensures after in known
    ensures var n := Least(maxSteps, |dataset|);
      && (r.Err? ==> !AllGoesWell(dataset, n, saveEvery, replies))
      && (r.Ok? ==> Progressed(known, c.h[0].call, after, runId, dataset, learningRate, kind, saveEvery, replies, n,
                               r.value))
  {
    ghost var n := Least(maxSteps, |dataset|);
    after := c;
    var p := Progress([], 0, 0, 0, 0, None);
    var i := 0;
    while i < |dataset|
      invariant 0 <= i <= n && after in known
      invariant Progressed(known, c.h[0].call, after, runId, dataset, learningRate, kind, saveEvery, replies, i, p)
    {
      if |p.losses| >= maxSteps {
        break;
      }
      var turn;
      ghost var bad, before := 0, after;
      after, turn, bad := TakeTurn(after, runId, dataset[i], learningRate, kind, saveEvery, p.saved, replies, known, i);
      if turn.Err? {
        FailedTurn(dataset, i, n, saveEvery, replies, bad);
        return after, Err(turn.error);
      }
      TurnProgresses(known, c.h[0].call, before, after, runId, dataset, learningRate, kind, saveEvery, replies, i, p,
                     turn.value);
      p := Progress(p.losses + [turn.value.loss], p.inputTokens + turn.value.inputTokens, p.trainingSteps + 1,
                    turn.value.optimizerStep, turn.value.checkpointVersion, turn.value.saved);
      i := i + 1;
    }
    r := Ok(p);
  }

  /** The save at the end, when none was made on the way. */
  method FinalSave(c: Client, runId: string, kind: ArtifactKind, saveEvery: nat, saved: Option<WeightArtifact>,
                   replies: nat -> Reply, ghost known: iset<Client>, ghost n: nat)
    returns (after: Client, r: Result<WeightArtifact, Error>)
    requires ClosedUnderCalls(known) && LoopState(known, c, runId, n, saveEvery, saved, replies)
    ensures after in known && AtStep(after.s, runId, n) && c.h <= after.h
    ensures r.Ok? ==> |after.h| == |c.h| + (if saved.Some? then 0 else 1)
    ensures r.Ok? && saved.None? ==> after.h[|c.h|].call == SaveWeights(runId, kind)
    ensures r.Err? ==> Spoiled(replies, 1 + 2 * n, 1 + 2 * n + SavesMade(n, saveEvery))
    ensures r.Ok? ==>
        && r.value.runId == runId && r.value.checkpointVersion == FinalVersion(n, saveEvery)
        && CountSaves(after.h) == SavesMade(n, saveEvery)
        && AllReturn(replies, 1 + 2 * n + SavesMade(n, saveEvery))
  {
    SavesTotal(n, n, saveEvery);
    after := c;
    if saved.Some? {
      return after, Ok(saved.value);
    }
    var answer;
    after, answer := Save(c, runId, kind, replies(|c.h|), known, n);
    if answer.Saved? {
      OneMoreReturn(replies, |c.h|);
      r := Ok(answer.artifact);
    } else {
      r := Err(ErrorOf(answer));
    }
  }

  /** The run once it is created: the loop, then a save if none was made. */
  method RunCreated(c: Client, runId: string, dataset: seq<seq<Datum>>, learningRate: real, kind: ArtifactKind,
                    maxSteps: nat, saveEvery: nat, replies: nat -> Reply, ghost known: iset<Client>)
    returns (after: Client, r: Result<Summary, Error>)
    requires learningRate > 0.0 && ClosedUnderCalls(known) && LoopState(known, c, runId, 0, saveEvery, None, replies)
    ensures after in known
    ensures var n := Least(maxSteps, |dataset|);
      && (r.Ok? ==> CallsMade(after.h, c.h[0].call, runId, dataset, learningRate, kind, saveEvery, n))
      && (r.Ok? <==> n >= 1 && AllGoesWell(dataset, n, saveEvery, replies))
      && (r.Ok? ==>
            && r.value.runId == runId
            && r.value.steps == |r.value.losses| == r.value.trainingSteps == n
            && LossesReported(r.value.losses, saveEvery, replies)
            && r.value.optimizerStep == r.value.checkpointVersion == n
            && r.value.inputTokens == TokensOf(dataset, n)
            && r.value.artifact.runId == runId
            && r.value.artifact.checkpointVersion == FinalVersion(n, saveEvery)
            && CountSaves(after.h) == SavesMade(n, saveEvery)
            && AtStep(after.s, runId, n))
  {
    ghost var n := Least(maxSteps, |dataset|);
    var trained;
    after, trained := TrainLoop(c, runId, dataset, learningRate, kind, maxSteps, saveEvery, replies, known);
    if trained.Err? {
      return after, Err(trained.error);
    }
    var p := trained.value;
    if p.losses == [] {
      return after, Err(ValueError);
    }
    var saved;
    ghost var looped := after.h;
    after, saved := FinalSave(after, runId, kind, saveEvery, p.saved, replies, known, n);
    if saved.Err? {
      SpoiledRun(dataset, n, saveEvery, replies, 1 + 2 * n, 1 + 2 * n + SavesMade(n, saveEvery));
      return after, Err(saved.error);
    }
    AllCalls(looped, after.h, c.h[0].call, runId, dataset, learningRate, kind, saveEvery, n);
    r := Ok(Summary(runId, |p.losses|, p.losses, p.optimizerStep, p.checkpointVersion, saved.value,
                    p.inputTokens, p.trainingSteps));
  }

  method RunSft(client: State, baseModel: string, dataset: seq<seq<Datum>>, tuning: TuningMode,
                loraRank: int, learningRate: real, maxSteps: int, saveEvery: int, replies: nat -> Reply)
    returns (after: Client, r: Result<Summary, Error>)
    // every call was issued in a fitting status, and after.h is what happened to the service
    ensures InOrder(client, after.h) && ReplayFrom(client, after.h) == after.s
    ensures maxSteps <= 0 || learningRate <= 0.0 || saveEvery < 0 ==> r == Err(ValueError) && after.h == []
    ensures maxSteps > 0 && learningRate > 0.0 && saveEvery >= 0 ==>
        var n := Least(maxSteps, |dataset|);
        // it succeeds exactly when there is a batch and the outside plays along
        && (r.Ok? <==> && n >= 1
                       && baseModel != "" && (tuning == Lora ==> loraRank > 0) && (tuning == Full ==> loraRank >= 0)
                       && (forall id :: id in client.runs ==>
                             client.runs[id].status == Failed || client.runs[id].status == Closed)
                       && AllGoesWell(dataset, n, saveEvery, replies))
        && (r.Ok? ==>
              && r.value.steps == |r.value.losses| == r.value.trainingSteps == n
              && LossesReported(r.value.losses, saveEvery, replies)
              && r.value.optimizerStep == r.value.checkpointVersion == n
              && r.value.inputTokens == TokensOf(dataset, n)
              && r.value.artifact.runId == r.value.runId
              && r.value.artifact.checkpointVersion == FinalVersion(n, saveEvery)
              && CountSaves(after.h) == SavesMade(n, saveEvery)
              && CallsMade(after.h, Create(baseModel, tuning, loraRank), r.value.runId, dataset, learningRate,
                           match tuning case Lora => DeltaWeights case Full => FullWeights, saveEvery, n)
              && AtStep(after.s, r.value.runId, n))
  {
    after := Client(client, []);
    if maxSteps <= 0 || learningRate <= 0.0 || saveEvery < 0 {
      return after, Err(ValueError);
    }
    ghost var n := Least(maxSteps, |dataset|);
    var create := Create(baseModel, tuning, loraRank);
    CreateAt(client, create, replies(0));
    Issued(client, after, create, replies(0));
    var issued := Issue(after, create, replies(0));
    after := issued.0;
    var created := issued.1;
    if !created.Created? {
      return after, Err(ErrorOf(created));
    }
    RecordedIsClosed(client);
    ghost var known := iset c | Recorded(client, c);
    LoopStart(known, after, created.runId, saveEvery, replies);
    var kind := if tuning == Lora then DeltaWeights else FullWeights;
    after, r := RunCreated(after, created.runId, dataset, learningRate, kind, maxSteps, saveEvery, replies, known);
  }
}
