/** The Megatron training backend as an atomic machine: one call, one transition. The interleaved
    machine and the backend object are both measured against it, and what the service promises about
    whole histories is proved here. */
module TrainingSpec {
  import opened Wrappers
  import opened Contracts
  import opened Text
  import opened Paths
  import opened Artifacts
  import opened TensorBatches

  datatype Status = Ready | GradientsPending | Checkpointing | Failed | Closed {
    predicate Active() {
      this != Failed && this != Closed
    }
  }

  datatype Run = Run(
    baseModel: string,
    tuning: TuningMode,
    loraRank: int,
    status: Status,
    gradientVersion: nat,
    optimizerStep: nat,
    checkpointVersion: nat)

  datatype State = State(root: Root, counter: nat, runs: map<string, Run>)

  // CloseRun is one turn of the loop in close.
  datatype Call =
    | Create(baseModel: string, tuning: TuningMode, loraRank: int)
    | ForwardBackward(runId: string, data: seq<Datum>, lossFn: string)
    | OptimStep(runId: string, learningRate: real)
    | SaveWeights(runId: string, kind: ArtifactKind)
    | CloseRun(runId: string)

  // What the outside did: the runtime call returned, it raised, or it returned and the artifact
  // store raised after some of its four steps.
  datatype Reply =
    | Returns(loss: real, extra: Payload)
    | Raises
    | StoreRaises(extra: Payload, written: nat)

  datatype Answer =
    | Created(runId: string, version: nat)
    | Gradient(gradientVersion: nat, inputTokens: nat, loss: real)
    | Stepped(optimizerStep: nat, checkpointVersion: nat)
    | Saved(artifact: WeightArtifact)
    | CloseDone
    | Rejected(error: Error)
    | Raised
  {
    predicate Success() {
      Created? || Gradient? || Stepped? || Saved?
    }
  }

  function Initial(root: Root): State {
    State(root, 0, map[])
  }

  function RunName(n: nat): string {
    "meg-run-" + Padded6(n)
  }

  lemma RunNameInjective(m: nat, n: nat)
    requires RunName(m) == RunName(n)
    ensures m == n
  {
    SameEnds("meg-run-", Padded6(m), "meg-run-", Padded6(n));
    PaddedInjective(m, n);
  }

  lemma {:induction false} DecimalShort(n: nat, k: nat)
    requires k > 0 && n < Ten(k)
    ensures |Decimal(n)| <= k
  {
    if n >= 10 { DecimalShort(n / 10, k - 1); }
  }

  function Ten(k: nat): nat {
    if k == 0 then 1 else 10 * Ten(k - 1)
  }

  /** A run name is "meg-run-" and the number, with zeros in front up to six digits. */
  lemma RunNameReads(n: nat)
    ensures var digits := RunName(n)[8..];
      && RunName(n) == "meg-run-" + digits && AllDigits(digits) && ParseDecimal(digits) == n
      && |digits| >= 6 && (n < 1000000 ==> |digits| == 6)
  {
    PaddedDigits(n);
    assert RunName(n)[8..] == Padded6(n);
    assert Ten(6) == 1000000;
    if n < 1000000 { DecimalShort(n, 6); }
  }

  /** A run name is one plain component of a path. */
  lemma RunNameIsPlain(n: nat)
    ensures Plain(RunName(n))
  {
    var name, digits := RunName(n), Padded6(n);
    PaddedDigits(n);
    assert name[0] == 'm';
    forall i | 0 <= i < |name| ensures name[i] != '/' {
      if i < 8 { assert name[i] == "meg-run-"[i]; } else { assert name[i] == digits[i - 8]; }
    }
  }

  predicate CreateArgumentsValid(call: Call)
    requires call.Create?
  {
    && call.baseModel != ""
    && (call.tuning == Lora ==> call.loraRank > 0)
    && (call.tuning == Full ==> call.loraRank >= 0)
  }

  predicate SomeRunActive(runs: map<string, Run>) {
    exists id :: id in runs && runs[id].status.Active()
  }

  function NewRun(call: Call): Run
    requires call.Create?
  {
    Run(call.baseModel, call.tuning, call.loraRank, Ready, 0, 0, 0)
  }

  /** What _get_run and the checks made before the run's lock is taken say. */
  function EntryError(runs: map<string, Run>, call: Call): Option<Error>
    requires !call.Create?
  {
    if call.runId == "" then Some(InvalidRequest)
    else if call.runId !in runs then Some(NotFound)
    else if call.OptimStep? && call.learningRate <= 0.0 then Some(InvalidRequest)
    else None
  }

  /** The status a call needs. */
  function RequiredStatus(call: Call): Status
    requires call.ForwardBackward? || call.OptimStep? || call.SaveWeights?
  {
    if call.OptimStep? then GradientsPending else Ready
  }

  /** What the checks made under the run's lock say. */
  function LockedError(run: Run, call: Call): Option<Error>
    requires !call.Create? && !call.CloseRun?
  {
    if run.status != RequiredStatus(call) then Some(InvalidRequest)
    else if call.ForwardBackward? && !Accepted(call.data, call.lossFn) then Some(InvalidRequest)
    else None
  }

  /** The run and the answer after a call that passed every check. */
  function Effect(root: Root, run: Run, call: Call, reply: Reply): (Run, Answer)
    requires !call.Create?
    requires call.ForwardBackward? ==> Accepted(call.data, call.lossFn)
  {
    match call
    case ForwardBackward(_, data, _) =>
      if !reply.Returns? then (run.(status := Failed), Raised)
      else
        var after := run.(gradientVersion := run.gradientVersion + 1, status := GradientsPending);
        (after, Gradient(after.gradientVersion, BatchOf(data).TokenCount(), reply.loss))
    case OptimStep(_, _) =>
      if !reply.Returns? then (run.(status := Failed), Raised)
      else
        var after := run.(optimizerStep := run.optimizerStep + 1,
                          checkpointVersion := run.checkpointVersion + 1, status := Ready);
        (after, Stepped(after.optimizerStep, after.checkpointVersion))
    case SaveWeights(runId, kind) =>
      if !reply.Returns? then (run, Raised)
      else (run, Saved(ArtifactOf(root, runId, run.checkpointVersion, kind)))
    case CloseRun(_) =>
      if run.status == Closed then (run, CloseDone)
      else if !reply.Returns? then (run.(status := Failed), CloseDone)
      else (run.(status := Closed), CloseDone)
  }

  function Apply(s: State, call: Call, reply: Reply): (State, Answer) {
    if call.Create? then
      if !CreateArgumentsValid(call) || SomeRunActive(s.runs) then (s, Rejected(InvalidRequest))
      else if !reply.Returns? then (s, Raised)
      else
        var id := RunName(s.counter + 1);
        (s.(counter := s.counter + 1, runs := s.runs[id := NewRun(call)]), Created(id, 0))
    else
      match EntryError(s.runs, call)
      case Some(e) => (s, Rejected(e))
      case None =>
        var run := s.runs[call.runId];
        if !call.CloseRun? && LockedError(run, call).Some? then (s, Rejected(LockedError(run, call).value))
        else
          var (after, answer) := Effect(s.root, run, call, reply);
          (s.(runs := s.runs[call.runId := after]), answer)
  }

  // ---------------------------------------------------------------- the cases of a call

  /** A request that is malformed, or finds a run active, is turned away without a trace. */
  lemma CreateTurnedAway(a: State, call: Call, reply: Reply)
    requires call.Create? && (!CreateArgumentsValid(call) || SomeRunActive(a.runs))
    ensures Apply(a, call, reply) == (a, Rejected(InvalidRequest))
  {
  }

  lemma CreateFails(a: State, call: Call, reply: Reply)
    requires call.Create? && CreateArgumentsValid(call) && !SomeRunActive(a.runs) && !reply.Returns?
    ensures Apply(a, call, reply) == (a, Raised)
  {
  }

  lemma CreateSucceeds(a: State, call: Call, reply: Reply)
    requires call.Create? && CreateArgumentsValid(call) && !SomeRunActive(a.runs) && reply.Returns?
    ensures var id := RunName(a.counter + 1);
      Apply(a, call, reply) == (a.(counter := a.counter + 1, runs := a.runs[id := NewRun(call)]), Created(id, 0))
  {
  }

  lemma CallTurnedAway(a: State, call: Call, reply: Reply)
    requires !call.Create? && EntryError(a.runs, call).Some?
    ensures Apply(a, call, reply) == (a, Rejected(EntryError(a.runs, call).value))
  {
  }

  /** The run is the only one that may have changed. */
  ghost predicate OnlyRun(before: State, after: State, id: string) {
    && id in before.runs
    && after.root == before.root && after.counter == before.counter
    && after.runs.Keys == before.runs.Keys
    && forall other :: other in before.runs && other != id ==> after.runs[other] == before.runs[other]
  }

  /** What create_training_run does: it refuses an empty model, a rank that does not suit the mode, and a
      second run beside one that is neither FAILED nor CLOSED. */
  ghost predicate CreateMeans(before: State, after: State, baseModel: string, tuning: TuningMode, loraRank: int,
                              reply: Reply, answer: Answer)
  {
    if || baseModel == "" || (tuning == Lora && loraRank <= 0) || (tuning == Full && loraRank < 0)
       || exists id :: id in before.runs && before.runs[id].status != Failed && before.runs[id].status != Closed
    then after == before && answer == Rejected(InvalidRequest)
    else if !reply.Returns? then after == before && answer == Raised
    else
      var id := RunName(before.counter + 1);
      && answer == Created(id, 0)
      && after.root == before.root && after.counter == before.counter + 1
      && after.runs == before.runs[id := Run(baseModel, tuning, loraRank, Ready, 0, 0, 0)]
  }

  /** That is the atomic machine's transition, and nothing else is. */
  lemma CreateIsApply(s: State, baseModel: string, tuning: TuningMode, loraRank: int, reply: Reply, after: State,
                      answer: Answer)
    ensures CreateMeans(s, after, baseModel, tuning, loraRank, reply, answer)
       <==> (after, answer) == Apply(s, Create(baseModel, tuning, loraRank), reply)
  {
    assert SomeRunActive(s.runs) <==>
      exists id :: id in s.runs && s.runs[id].status != Failed && s.runs[id].status != Closed;
  }

  /** One gradient more and every token counted, or FAILED when the runtime raised. */
  ghost predicate GaveGradient(was: Run, now: Run, data: seq<Datum>, reply: Reply, answer: Answer) {
    if reply.Returns? then
      && now == was.(gradientVersion := was.gradientVersion + 1, status := GradientsPending)
      && answer == Gradient(was.gradientVersion + 1, TokenTotal(data), reply.loss)
    else now == was.(status := Failed) && answer == Raised
  }

  /** One step and one version more, or FAILED when the runtime raised. */
  ghost predicate TookStep(was: Run, now: Run, reply: Reply, answer: Answer) {
    if reply.Returns? then
      && now == was.(optimizerStep := was.optimizerStep + 1, checkpointVersion := was.checkpointVersion + 1,
                     status := Ready)
      && answer == Stepped(was.optimizerStep + 1, was.checkpointVersion + 1)
    else now == was.(status := Failed) && answer == Raised
  }

  /** What forward_backward does: it needs a READY run and data it accepts, counts one gradient more and
      every token sent, and leaves the run FAILED when the runtime raises. */
  ghost predicate ForwardMeans(before: State, after: State, id: string, data: seq<Datum>, lossFn: string,
                               reply: Reply, answer: Answer)
  {
    if id == "" then after == before && answer == Rejected(InvalidRequest)
    else if id !in before.runs then after == before && answer == Rejected(NotFound)
    else if before.runs[id].status != Ready || !Accepted(data, lossFn) then
      after == before && answer == Rejected(InvalidRequest)
    else
      && OnlyRun(before, after, id)
      && GaveGradient(before.runs[id], after.runs[id], data, reply, answer)
  }

  lemma OnlyRunIs(before: State, after: State, id: string)
    requires id in before.runs
    ensures OnlyRun(before, after, id)
       <==> id in after.runs && after == before.(runs := before.runs[id := after.runs[id]])
  {
    if OnlyRun(before, after, id) {
      assert after.runs == before.runs[id := after.runs[id]];
    }
  }

  lemma GradientIsEffect(root: Root, run: Run, id: string, data: seq<Datum>, lossFn: string, reply: Reply, now: Run,
                         answer: Answer)
    requires Accepted(data, lossFn)
    ensures GaveGradient(run, now, data, reply, answer)
       <==> (now, answer) == Effect(root, run, ForwardBackward(id, data, lossFn), reply)
  {
    TokenCountIsTotal(data, lossFn);
  }

  lemma ForwardIsApply(s: State, id: string, data: seq<Datum>, lossFn: string, reply: Reply, after: State,
                       answer: Answer)
    ensures ForwardMeans(s, after, id, data, lossFn, reply, answer)
       <==> (after, answer) == Apply(s, ForwardBackward(id, data, lossFn), reply)
  {
    if id in s.runs {
      OnlyRunIs(s, after, id);
      if Accepted(data, lossFn) && id in after.runs {
        GradientIsEffect(s.root, s.runs[id], id, data, lossFn, reply, after.runs[id], answer);
      }
    }
  }

  /** What optim_step does: it needs gradients and a positive rate, counts one step and one version more,
      and leaves the run FAILED when the runtime raises. */
  ghost predicate OptimMeans(before: State, after: State, id: string, learningRate: real, reply: Reply,
                             answer: Answer)
  {
    if id == "" then after == before && answer == Rejected(InvalidRequest)
    else if id !in before.runs then after == before && answer == Rejected(NotFound)
    else if before.runs[id].status != GradientsPending || learningRate <= 0.0 then
      after == before && answer == Rejected(InvalidRequest)
    else OnlyRun(before, after, id) && TookStep(before.runs[id], after.runs[id], reply, answer)
  }

  lemma OptimIsApply(s: State, id: string, learningRate: real, reply: Reply, after: State, answer: Answer)
    ensures OptimMeans(s, after, id, learningRate, reply, answer)
       <==> (after, answer) == Apply(s, OptimStep(id, learningRate), reply)
  {
    if id in s.runs { OnlyRunIs(s, after, id); }
  }

  /** What save_weights does to the runs: nothing, whatever raises; it needs a READY run and names its
      version. */
  ghost predicate SaveMeans(before: State, after: State, id: string, kind: ArtifactKind, reply: Reply,
                            answer: Answer)
  {
    && after == before
    && answer == (
       if id == "" then Rejected(InvalidRequest)
       else if id !in before.runs then Rejected(NotFound)
       else if before.runs[id].status != Ready then Rejected(InvalidRequest)
       else if reply.Returns? then Saved(ArtifactOf(before.root, id, before.runs[id].checkpointVersion, kind))
       else Raised)
    && (answer.Saved? ==>
          && answer.artifact.runId == id && answer.artifact.kind == kind
          && answer.artifact.checkpointVersion == before.runs[id].checkpointVersion)
  }

  lemma SaveIsApply(s: State, id: string, kind: ArtifactKind, reply: Reply, after: State, answer: Answer)
    ensures SaveMeans(s, after, id, kind, reply, answer)
       <==> (after, answer) == Apply(s, SaveWeights(id, kind), reply)
  {
    if id in s.runs { assert s.runs[id := s.runs[id]] == s.runs; }
  }

  /** What one turn of close does: a run that is not CLOSED becomes so when its shutdown returns, and
      FAILED when it raises. */
  ghost predicate ShutdownMeans(before: Run, after: Run, reply: Reply) {
    after == if before.status == Closed then before
             else if reply.Returns? then before.(status := Closed)
             else before.(status := Failed)
  }

  lemma ShutdownIsApply(s: State, id: string, reply: Reply, run: Run)
    requires id != "" && id in s.runs
    ensures ShutdownMeans(s.runs[id], run, reply)
       <==> (s.(runs := s.runs[id := run]), CloseDone) == Apply(s, CloseRun(id), reply)
  {
    assert s.runs[id := run][id] == run;
  }

  // ---------------------------------------------------------------- histories

  datatype Entry = Entry(call: Call, reply: Reply, answer: Answer)

  type History = seq<Entry>

  function Replay(root: Root, h: History): State {
    if h == [] then Initial(root)
    else Apply(Replay(root, h[..|h| - 1]), h[|h| - 1].call, h[|h| - 1].reply).0
  }

  /** Every answer in the history is the one the machine gives at that point. */
  ghost predicate Legal(root: Root, h: History) {
    h == [] ||
    var before, e := h[..|h| - 1], h[|h| - 1];
    Legal(root, before) && e.answer == Apply(Replay(root, before), e.call, e.reply).1
  }

  lemma {:induction false} LegalPrefix(root: Root, h: History, k: nat)
    requires Legal(root, h) && k <= |h|
    ensures Legal(root, h[..k])
  {
    if k == |h| {
      assert h[..k] == h;
    } else {
      LegalPrefix(root, h[..|h| - 1], k);
      assert h[..|h| - 1][..k] == h[..k];
    }
  }

  lemma LegalEntry(root: Root, h: History, k: nat)
    requires Legal(root, h) && k < |h|
    ensures Legal(root, h[..k])
    ensures h[k].answer == Apply(Replay(root, h[..k]), h[k].call, h[k].reply).1
  {
    LegalPrefix(root, h, k + 1);
    assert h[..k + 1][..k] == h[..k] && h[..k + 1][k] == h[k];
    LegalPrefix(root, h, k);
  }

  lemma LegalSnoc(root: Root, h: History, e: Entry)
    ensures Legal(root, h + [e]) <==> Legal(root, h) && e.answer == Apply(Replay(root, h), e.call, e.reply).1
    ensures Replay(root, h + [e]) == Apply(Replay(root, h), e.call, e.reply).0
  {
    assert (h + [e])[..|h|] == h;
  }

  /** Being turned away is not being remembered. */
  lemma RejectedKeepsState(s: State, call: Call, reply: Reply)
    ensures Apply(s, call, reply).1.Rejected? ==> Apply(s, call, reply).0 == s
  {
  }

  function WithoutCall(h: History, k: nat): History
    requires k < |h|
  {
    h[..k] + h[k + 1..]
  }

  lemma WithoutCallSnoc(h: History, k: nat)
    requires k < |h|
    ensures var before, last := h[..|h| - 1], h[|h| - 1];
      && h == before + [last]
      && WithoutCall(h, k) == if k == |before| then before else WithoutCall(before, k) + [last]
  {
  }

  /** Both are histories, end in the same state and made the same runtime calls. */
  ghost predicate SameRun(root: Root, g: History, h: History) {
    && Legal(root, g) && Legal(root, h)
    && Replay(root, g) == Replay(root, h)
    && forall id :: RuntimeTrace(g, id) == RuntimeTrace(h, id)
  }

  lemma SameRunSnoc(root: Root, g: History, h: History, e: Entry)
    requires SameRun(root, g, h) && Legal(root, h + [e])
    ensures SameRun(root, g + [e], h + [e])
  {
    LegalSnoc(root, g, e);
    LegalSnoc(root, h, e);
    forall id ensures RuntimeTrace(g + [e], id) == RuntimeTrace(h + [e], id) {
      TraceSnoc(g, e, id);
      TraceSnoc(h, e, id);
    }
  }

  lemma RejectedLast(root: Root, h: History, e: Entry)
    requires Legal(root, h + [e]) && e.answer.Rejected?
    ensures SameRun(root, h, h + [e])
  {
    LegalSnoc(root, h, e);
    RejectedKeepsState(Replay(root, h), e.call, e.reply);
    forall id ensures RuntimeTrace(h, id) == RuntimeTrace(h + [e], id) {
      TraceSnoc(h, e, id);
    }
  }

  /** A rejected call can be struck from a history: what is left is a history, every other call got the
      same answer, and it ends in the same state with the same runtime calls. */
  lemma {:induction false} RejectedLeavesNoTrace(root: Root, h: History, k: nat)
    requires Legal(root, h) && k < |h| && h[k].answer.Rejected?
    ensures SameRun(root, WithoutCall(h, k), h)
  {
    var before, last := h[..|h| - 1], h[|h| - 1];
    WithoutCallSnoc(h, k);
    if k == |h| - 1 {
      RejectedLast(root, before, last);
    } else {
      LegalSnoc(root, before, last);
      RejectedLeavesNoTrace(root, before, k);
      SameRunSnoc(root, WithoutCall(before, k), before, last);
    }
  }

  // ---------------------------------------------------------------- the calls that reached the runtime

  datatype RuntimeCall = SaveOk | GradientOk | StepOk

  /** The training calls of one run that the runtime completed, in order. */
  function RuntimeTrace(h: History, id: string): seq<RuntimeCall> {
    if h == [] then []
    else
      var e := h[|h| - 1];
      RuntimeTrace(h[..|h| - 1], id) +
      (if e.call.Create? || e.call.CloseRun? || e.call.runId != id then []
       else CompletedCalls(e.call, e.reply, e.answer))
  }

  function CompletedCalls(call: Call, reply: Reply, answer: Answer): seq<RuntimeCall> {
    match call
    case ForwardBackward(_, _, _) => if answer.Gradient? then [GradientOk] else []
    case OptimStep(_, _) => if answer.Stepped? then [StepOk] else []
    case SaveWeights(_, _) => if answer.Saved? || (answer.Raised? && reply.StoreRaises?) then [SaveOk] else []
    case _ => []
  }

  lemma TraceSnoc(h: History, e: Entry, id: string)
    ensures RuntimeTrace(h + [e], id) == RuntimeTrace(h, id) +
      (if e.call.Create? || e.call.CloseRun? || e.call.runId != id then []
       else CompletedCalls(e.call, e.reply, e.answer))
  {
    assert (h + [e])[..|h + [e]| - 1] == h;
  }

  function Saves(n: nat): seq<RuntimeCall> {
    seq(n, _ => SaveOk)
  }

  /** (save* fb step) once per element, saves[i] saves in round i. */
  function Rounds(saves: seq<nat>): seq<RuntimeCall> {
    if saves == [] then []
    else Rounds(saves[..|saves| - 1]) + Saves(saves[|saves| - 1]) + [GradientOk, StepOk]
  }

  function Word(rounds: seq<nat>, saves: nat, pending: bool): seq<RuntimeCall> {
    Rounds(rounds) + Saves(saves) + (if pending then [GradientOk] else [])
  }

  function Count(t: seq<RuntimeCall>, c: RuntimeCall): nat {
    if t == [] then 0 else Count(t[..|t| - 1], c) + (if t[|t| - 1] == c then 1 else 0)
  }

  lemma CountSnoc(t: seq<RuntimeCall>, x: RuntimeCall, c: RuntimeCall)
    ensures Count(t + [x], c) == Count(t, c) + (if x == c then 1 else 0)
  {
    assert (t + [x])[..|t|] == t;
  }

  /** The trace is a word of the given shape with the given counts. */
  ghost predicate Shape(t: seq<RuntimeCall>, steps: nat, pending: bool) {
    && (exists rounds: seq<nat>, saves: nat :: |rounds| == steps && t == Word(rounds, saves, pending))
    && Count(t, StepOk) == steps
    && Count(t, GradientOk) == steps + (if pending then 1 else 0)
  }

  lemma ShapeEmpty()
    ensures Shape([], 0, false)
  {
    assert [] == Word([], 0, false);
  }

  lemma ShapeSave(t: seq<RuntimeCall>, steps: nat)
    requires Shape(t, steps, false)
    ensures Shape(t + [SaveOk], steps, false)
  {
    var rounds: seq<nat>, saves: nat :| |rounds| == steps && t == Word(rounds, saves, false);
    assert Saves(saves + 1) == Saves(saves) + [SaveOk];
    assert t + [SaveOk] == Word(rounds, saves + 1, false);
    CountSnoc(t, SaveOk, StepOk);
    CountSnoc(t, SaveOk, GradientOk);
  }

  lemma ShapeGradient(t: seq<RuntimeCall>, steps: nat)
    requires Shape(t, steps, false)
    ensures Shape(t + [GradientOk], steps, true)
  {
    var rounds: seq<nat>, saves: nat :| |rounds| == steps && t == Word(rounds, saves, false);
    assert t + [GradientOk] == Word(rounds, saves, true);
    CountSnoc(t, GradientOk, StepOk);
    CountSnoc(t, GradientOk, GradientOk);
  }

  lemma RoundsSnoc(rounds: seq<nat>, saves: nat)
    ensures Rounds(rounds + [saves]) == Rounds(rounds) + Saves(saves) + [GradientOk, StepOk]
  {
    assert (rounds + [saves])[..|rounds|] == rounds;
  }

  /** A step ends the round its gradient belongs to. */
  lemma WordStep(rounds: seq<nat>, saves: nat)
    ensures Word(rounds, saves, true) + [StepOk] == Word(rounds + [saves], 0, false)
  {
    RoundsSnoc(rounds, saves);
    var done := Rounds(rounds) + Saves(saves);
    assert done + [GradientOk] + [StepOk] == done + [GradientOk, StepOk];
    assert done + [GradientOk, StepOk] + Saves(0) + [] == done + [GradientOk, StepOk];
  }

  lemma ShapeStep(t: seq<RuntimeCall>, steps: nat)
    requires Shape(t, steps, true)
    ensures Shape(t + [StepOk], steps + 1, false)
  {
    var rounds: seq<nat>, saves: nat :| |rounds| == steps && t == Word(rounds, saves, true);
    WordStep(rounds, saves);
    CountSnoc(t, StepOk, StepOk);
    CountSnoc(t, StepOk, GradientOk);
  }

  /** The trace is an initial part of (save* fb step)*. */
  ghost predicate InLanguage(t: seq<RuntimeCall>) {
    exists rounds: seq<nat> :: t <= Rounds(rounds)
  }

  lemma ShapeIsPrefix(t: seq<RuntimeCall>, steps: nat, pending: bool)
    requires Shape(t, steps, pending)
    ensures InLanguage(t)
  {
    var rounds: seq<nat>, saves: nat :| |rounds| == steps && t == Word(rounds, saves, pending);
    RoundsSnoc(rounds, saves);
    assert t <= Rounds(rounds + [saves]);
  }

  // ---------------------------------------------------------------- what every history keeps

  /** Counters and status of a run agree with the calls its runtime completed. */
  ghost predicate RunAgrees(run: Run, t: seq<RuntimeCall>) {
    && run.status != Checkpointing
    && run.checkpointVersion == run.optimizerStep
    && (run.status == Ready ==> run.gradientVersion == run.optimizerStep)
    && (run.status == GradientsPending ==> run.gradientVersion == run.optimizerStep + 1)
    && (run.gradientVersion == run.optimizerStep || run.gradientVersion == run.optimizerStep + 1)
    && Shape(t, run.optimizerStep, run.gradientVersion == run.optimizerStep + 1)
  }

  /** The first n run names handed out. */
  ghost function Names(n: nat): set<string> {
    if n == 0 then {} else Names(n - 1) + {RunName(n)}
  }

  ghost predicate NamesBelow(s: State) {
    s.runs.Keys == Names(s.counter)
  }

  lemma {:induction false} NamesAreOld(n: nat, k: nat)
    requires n < k
    ensures RunName(k) !in Names(n) && "" !in Names(n)
  {
    if n > 0 {
      NamesAreOld(n - 1, k);
      if RunName(k) == RunName(n) {
        RunNameInjective(k, n);
        assert false;
      }
      assert |RunName(n)| >= 8;
    }
  }

  ghost predicate AtMostOneActive(runs: map<string, Run>) {
    forall a, b :: a in runs && b in runs && runs[a].status.Active() && runs[b].status.Active() ==> a == b
  }

  ghost predicate TraceAgrees(s: State, h: History, id: string) {
    if id in s.runs then RunAgrees(s.runs[id], RuntimeTrace(h, id)) else RuntimeTrace(h, id) == []
  }

  ghost predicate Coherent(s: State, h: History) {
    && NamesBelow(s)
    && AtMostOneActive(s.runs)
    && forall id :: TraceAgrees(s, h, id)
  }

  lemma FreshName(s: State)
    requires NamesBelow(s)
    ensures RunName(s.counter + 1) !in s.runs
    ensures "" !in s.runs
  {
    NamesAreOld(s.counter, s.counter + 1);
  }

  lemma ApplyKeepsNames(s: State, call: Call, reply: Reply)
    requires NamesBelow(s)
    ensures NamesBelow(Apply(s, call, reply).0)
  {
  }

  /** A failed or closed run never becomes active again, and no run disappears. */
  lemma ApplyNeverRevives(s: State, call: Call, reply: Reply, id: string)
    requires NamesBelow(s) && id in s.runs
    ensures id in Apply(s, call, reply).0.runs
    ensures !s.runs[id].status.Active() ==> !Apply(s, call, reply).0.runs[id].status.Active()
  {
    FreshName(s);
  }

  lemma ApplyKeepsOneActive(s: State, call: Call, reply: Reply)
    requires NamesBelow(s) && AtMostOneActive(s.runs)
    ensures AtMostOneActive(Apply(s, call, reply).0.runs)
  {
    var after := Apply(s, call, reply).0;
    forall a, b | a in after.runs && b in after.runs && after.runs[a].status.Active() && after.runs[b].status.Active()
      ensures a == b
    {
      if a in s.runs { ApplyNeverRevives(s, call, reply, a); }
      if b in s.runs { ApplyNeverRevives(s, call, reply, b); }
    }
  }

  lemma EffectAgrees(root: Root, run: Run, t: seq<RuntimeCall>, call: Call, reply: Reply)
    requires !call.Create? && RunAgrees(run, t)
    requires call.ForwardBackward? ==> Accepted(call.data, call.lossFn)
    requires call.CloseRun? || run.status == RequiredStatus(call)
    ensures var (after, answer) := Effect(root, run, call, reply);
        RunAgrees(after, t + CompletedCalls(call, reply, answer))
  {
    var (after, answer) := Effect(root, run, call, reply);
    assert t + [] == t;
    if CompletedCalls(call, reply, answer) != [] {
      match call
      case ForwardBackward(_, _, _) => ShapeGradient(t, run.optimizerStep);
      case OptimStep(_, _) => ShapeStep(t, run.optimizerStep);
      case SaveWeights(_, _) => ShapeSave(t, run.optimizerStep);
    }
  }

  /** The call got past every check of its target run. */
  predicate Passed(s: State, call: Call) {
    && !call.Create?
    && EntryError(s.runs, call) == None
    && (call.CloseRun? || LockedError(s.runs[call.runId], call) == None)
  }

  /** A call changes no run but its target, and that one only by Effect. */
  lemma ApplyByTarget(s: State, call: Call, reply: Reply, id: string)
    requires RunName(s.counter + 1) !in s.runs
    ensures var (after, answer) := Apply(s, call, reply);
      && (Passed(s, call) && call.runId == id ==>
            id in after.runs && (after.runs[id], answer) == Effect(s.root, s.runs[id], call, reply))
      && (!(Passed(s, call) && call.runId == id) ==>
            && (call.Create? || call.runId != id || answer.Rejected?)
            && (id in s.runs ==> id in after.runs && after.runs[id] == s.runs[id])
            && (id !in s.runs && id in after.runs ==> call.Create? && after.runs[id] == NewRun(call)))
  {
  }

  lemma TraceOther(h: History, e: Entry, id: string)
    requires e.call.Create? || e.call.runId != id || e.answer.Rejected?
    ensures RuntimeTrace(h + [e], id) == RuntimeTrace(h, id)
  {
    TraceSnoc(h, e, id);
    assert RuntimeTrace(h, id) + [] == RuntimeTrace(h, id);
  }

  lemma TraceTarget(h: History, e: Entry, id: string)
    requires !e.call.Create? && e.call.runId == id
    ensures RuntimeTrace(h + [e], id) == RuntimeTrace(h, id) + CompletedCalls(e.call, e.reply, e.answer)
  {
    TraceSnoc(h, e, id);
  }

  lemma ApplyKeepsTrace(s: State, h: History, call: Call, reply: Reply, id: string)
    requires TraceAgrees(s, h, id) && RunName(s.counter + 1) !in s.runs
    ensures var (after, answer) := Apply(s, call, reply);
        TraceAgrees(after, h + [Entry(call, reply, answer)], id)
  {
    var (after, answer) := Apply(s, call, reply);
    ApplyByTarget(s, call, reply, id);
    if Passed(s, call) && call.runId == id {
      TraceTarget(h, Entry(call, reply, answer), id);
      EffectAgrees(s.root, s.runs[id], RuntimeTrace(h, id), call, reply);
    } else {
      TraceOther(h, Entry(call, reply, answer), id);
      ShapeEmpty();
    }
  }

  lemma ApplyKeepsCoherent(s: State, h: History, call: Call, reply: Reply)
    requires Coherent(s, h)
    ensures var (after, answer) := Apply(s, call, reply);
        Coherent(after, h + [Entry(call, reply, answer)])
  {
    var (after, answer) := Apply(s, call, reply);
    ApplyKeepsNames(s, call, reply);
    ApplyKeepsOneActive(s, call, reply);
    FreshName(s);
    forall id ensures TraceAgrees(after, h + [Entry(call, reply, answer)], id) {
      ApplyKeepsTrace(s, h, call, reply, id);
    }
  }

  lemma {:induction false} LegalIsCoherent(root: Root, h: History)
    requires Legal(root, h)
    ensures Coherent(Replay(root, h), h)
  {
    if h != [] {
      var before, e := h[..|h| - 1], h[|h| - 1];
      assert h == before + [e];
      LegalSnoc(root, before, e);
      LegalIsCoherent(root, before);
      CoherentNext(root, before, e);
    }
  }

  lemma CoherentNext(root: Root, h: History, e: Entry)
    requires Coherent(Replay(root, h), h) && e.answer == Apply(Replay(root, h), e.call, e.reply).1
    ensures Coherent(Replay(root, h + [e]), h + [e])
  {
    LegalSnoc(root, h, e);
    ApplyKeepsCoherent(Replay(root, h), h, e.call, e.reply);
    assert e == Entry(e.call, e.reply, e.answer);
  }

  // ---------------------------------------------------------------- the promises

  ghost predicate CountersMatch(run: Run, t: seq<RuntimeCall>) {
    && InLanguage(t)
    && run.optimizerStep == run.checkpointVersion == Count(t, StepOk)
    && run.gradientVersion == Count(t, GradientOk)
    && (run.status == Ready ==> run.gradientVersion == run.optimizerStep)
    && (run.status == GradientsPending ==> run.gradientVersion == run.optimizerStep + 1)
  }

  lemma AgreesMatches(run: Run, t: seq<RuntimeCall>)
    requires RunAgrees(run, t)
    ensures CountersMatch(run, t)
  {
    ShapeIsPrefix(t, run.optimizerStep, run.gradientVersion == run.optimizerStep + 1);
  }

  /** After any history: at most one run is active, and every run's completed runtime calls are an
      initial part of (save* fb step)*, with the counters its status announces. */
  lemma HistorySafety(root: Root, h: History)
    requires Legal(root, h)
    ensures AtMostOneActive(Replay(root, h).runs)
    ensures forall id :: id in Replay(root, h).runs ==> CountersMatch(Replay(root, h).runs[id], RuntimeTrace(h, id))
  {
    LegalIsCoherent(root, h);
    var s := Replay(root, h);
    forall id | id in s.runs ensures CountersMatch(s.runs[id], RuntimeTrace(h, id)) {
      assert TraceAgrees(s, h, id);
      AgreesMatches(s.runs[id], RuntimeTrace(h, id));
    }
  }

  lemma ApplySaved(s: State, call: Call, reply: Reply)
    requires Apply(s, call, reply).1.Saved?
    ensures call.SaveWeights? && call.runId in s.runs && s.runs[call.runId].status == Ready
    ensures var a := Apply(s, call, reply).1.artifact;
        a.runId == call.runId && a.checkpointVersion == s.runs[call.runId].checkpointVersion
  {
  }

  lemma ReadyCounts(run: Run, t: seq<RuntimeCall>)
    requires RunAgrees(run, t) && run.status == Ready
    ensures run.checkpointVersion == Count(t, StepOk) == Count(t, GradientOk)
  {
  }

  /** An artifact of version v was saved after exactly v optimizer steps, none of its gradients pending. */
  lemma SavedVersionCountsSteps(root: Root, h: History, k: nat)
    requires Legal(root, h) && k < |h| && h[k].answer.Saved?
    ensures h[k].call.SaveWeights?
    ensures var id, a, t := h[k].call.runId, h[k].answer.artifact, RuntimeTrace(h[..k], h[k].call.runId);
      && a.runId == id
      && a.checkpointVersion == Count(t, StepOk) == Count(t, GradientOk)
  {
    var before, id := Replay(root, h[..k]), h[k].call.runId;
    LegalEntry(root, h, k);
    ApplySaved(before, h[k].call, h[k].reply);
    LegalIsCoherent(root, h[..k]);
    assert TraceAgrees(before, h[..k], id);
    ReadyCounts(before.runs[id], RuntimeTrace(h[..k], id));
  }

  /** The versions of the artifacts returned for one run, in order. */
  function Published(h: History, id: string): seq<int> {
    if h == [] then []
    else
      var e := h[|h| - 1];
      Published(h[..|h| - 1], id) +
      (if e.answer.Saved? && e.answer.artifact.runId == id then [e.answer.artifact.checkpointVersion] else [])
  }

  lemma PublishedSnoc(h: History, e: Entry, id: string)
    ensures Published(h + [e], id) == Published(h, id) +
      (if e.answer.Saved? && e.answer.artifact.runId == id then [e.answer.artifact.checkpointVersion] else [])
  {
    assert (h + [e])[..|h + [e]| - 1] == h;
  }

  lemma ApplyVersionGrows(s: State, call: Call, reply: Reply, id: string)
    requires NamesBelow(s) && id in s.runs
    ensures id in Apply(s, call, reply).0.runs
    ensures s.runs[id].checkpointVersion <= Apply(s, call, reply).0.runs[id].checkpointVersion
  {
    FreshName(s);
  }

  ghost predicate Nondecreasing(vs: seq<int>) {
    forall i, j :: 0 <= i <= j < |vs| ==> vs[i] <= vs[j]
  }

  lemma SnocNondecreasing(vs: seq<int>, v: int)
    requires Nondecreasing(vs) && forall w :: w in vs ==> w <= v
    ensures Nondecreasing(vs + [v])
  {
    var all := vs + [v];
    forall i, j | 0 <= i <= j < |all| ensures all[i] <= all[j] {
      if i < |vs| {
        assert all[i] == vs[i] && vs[i] in vs;
      }
    }
  }

  /** The versions never decrease, and none exceeds the run's current version. */
  ghost predicate PublishedBelow(s: State, vs: seq<int>, id: string) {
    && Nondecreasing(vs)
    && forall v :: v in vs ==> id in s.runs && 0 <= v <= s.runs[id].checkpointVersion
  }

  lemma GrowthKeepsBelow(s: State, call: Call, reply: Reply, vs: seq<int>, id: string)
    requires NamesBelow(s) && PublishedBelow(s, vs, id)
    ensures PublishedBelow(Apply(s, call, reply).0, vs, id)
  {
    if id in s.runs {
      ApplyVersionGrows(s, call, reply, id);
    }
  }

  lemma CurrentIsBelow(s: State, vs: seq<int>, id: string)
    requires PublishedBelow(s, vs, id) && id in s.runs
    ensures PublishedBelow(s, vs + [s.runs[id].checkpointVersion], id)
  {
    SnocNondecreasing(vs, s.runs[id].checkpointVersion);
  }

  lemma SaveKeepsBelow(s: State, call: Call, reply: Reply, vs: seq<int>)
    requires NamesBelow(s) && Apply(s, call, reply).1.Saved? && PublishedBelow(s, vs, call.runId)
    ensures var (after, answer) := Apply(s, call, reply);
      PublishedBelow(after, vs + [answer.artifact.checkpointVersion], call.runId)
  {
    ApplySaved(s, call, reply);
    CurrentIsBelow(s, vs, call.runId);
    GrowthKeepsBelow(s, call, reply, vs + [s.runs[call.runId].checkpointVersion], call.runId);
  }

  /** Returned versions of a run never decrease, so the last one returned is the greatest; none
      exceeds the run's current version. */
  lemma {:induction false} PublishedNeverDecreases(root: Root, h: History, id: string)
    requires Legal(root, h)
    ensures PublishedBelow(Replay(root, h), Published(h, id), id)
  {
    if h != [] {
      var n := |h| - 1;
      var s, e, vs := Replay(root, h[..n]), h[n], Published(h[..n], id);
      PublishedNeverDecreases(root, h[..n], id);
      LegalIsCoherent(root, h[..n]);
      if e.answer.Saved? && e.answer.artifact.runId == id {
        ApplySaved(s, e.call, e.reply);
        SaveKeepsBelow(s, e.call, e.reply, vs);
      } else {
        GrowthKeepsBelow(s, e.call, e.reply, vs, id);
        assert vs + [] == vs;
      }
    }
  }
}
