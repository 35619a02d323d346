/** The deterministic training backend used for development: no status, no runtime, no failures. It
    simulates the Megatron backend: whatever that one accepted, this one accepts with the same numbers. */
module FakeBackend {
  import opened Wrappers
  import opened Contracts
  import opened Text
  import opened Artifacts
  import opened TensorBatches
  import opened TrainingSpec

  datatype FakeRun = FakeRun(
    baseModel: string,
    tuning: TuningMode,
    loraRank: int,
    gradientVersion: nat,
    optimizerStep: nat,
    checkpointVersion: nat)

  datatype FakeState = FakeState(root: Root, counter: nat, runs: map<string, FakeRun>)

  datatype FakeAnswer =
    | FakeCreated(runId: string, version: nat)
    | FakeGradient(gradientVersion: nat, inputTokens: nat)
    | FakeStepped(optimizerStep: nat, checkpointVersion: nat)
    | FakeSaved(artifact: WeightArtifact)
    | FakeRejected(error: Error)

  function FakeName(n: nat): string {
    "run-" + Padded6(n)
  }

  function LookupError(s: FakeState, runId: string): Option<Error> {
    if runId == "" then Some(InvalidRequest) else if runId !in s.runs then Some(NotFound) else None
  }

  predicate FakeAccepts(data: seq<Datum>, lossFn: string) {
    data != [] && lossFn != "" && forall i :: 0 <= i < |data| ==> data[i].tokenIds != []
  }

  /** One call of create_training_run, forward_backward, optim_step or save_weights. */
  function FakeApply(s: FakeState, call: Call): (FakeState, FakeAnswer)
    requires !call.CloseRun?
  {
    if call.Create? then
      if !CreateArgumentsValid(call) then (s, FakeRejected(InvalidRequest))
      else
        var id := FakeName(s.counter + 1);
        (FakeState(s.root, s.counter + 1, s.runs[id := FakeRun(call.baseModel, call.tuning, call.loraRank, 0, 0, 0)]),
         FakeCreated(id, 0))
    else if LookupError(s, call.runId).Some? then (s, FakeRejected(LookupError(s, call.runId).value))
    else
      var id, run := call.runId, s.runs[call.runId];
      match call
      case ForwardBackward(_, data, lossFn) =>
        if !FakeAccepts(data, lossFn) then (s, FakeRejected(InvalidRequest))
        else (s.(runs := s.runs[id := run.(gradientVersion := run.gradientVersion + 1)]),
              FakeGradient(run.gradientVersion + 1, TokenTotal(data)))
      case OptimStep(_, learningRate) =>
        if learningRate <= 0.0 then (s, FakeRejected(InvalidRequest))
        else (s.(runs := s.runs[id := run.(optimizerStep := run.optimizerStep + 1,
                                          checkpointVersion := run.checkpointVersion + 1)]),
              FakeStepped(run.optimizerStep + 1, run.checkpointVersion + 1))
      case SaveWeights(_, kind) =>
        (s, FakeSaved(ArtifactOf(s.root, id, run.checkpointVersion, kind)))
  }

  // ---------------------------------------------------------------- the object

  class FakeTrainingBackend {
    const root: Root
    var runCounter: nat
    var runs: map<string, FakeRun>

    constructor (root: Root)
      ensures View() == FakeState(root, 0, map[])
    {
      this.root := root;
      runCounter := 0;
      runs := map[];
    }

    function View(): FakeState
      reads this
    {
      FakeState(root, runCounter, runs)
    }

    method CreateTrainingRun(baseModel: string, tuning: TuningMode, loraRank: int) returns (answer: FakeAnswer)
      modifies this
      ensures (View(), answer) == FakeApply(old(View()), Create(baseModel, tuning, loraRank))
      ensures if baseModel == "" || (tuning == Lora && loraRank <= 0) || (tuning == Full && loraRank < 0)
              then answer == FakeRejected(InvalidRequest) && runs == old(runs) && runCounter == old(runCounter)
              else
                && runCounter == old(runCounter) + 1 && answer == FakeCreated(FakeName(runCounter), 0)
                && runs == old(runs)[FakeName(runCounter) := FakeRun(baseModel, tuning, loraRank, 0, 0, 0)]
    {
      if baseModel == "" || (tuning == Lora && loraRank <= 0) || (tuning == Full && loraRank < 0) {
        return FakeRejected(InvalidRequest);
      }
      runCounter := runCounter + 1;
      var runId := FakeName(runCounter);
      runs := runs[runId := FakeRun(baseModel, tuning, loraRank, 0, 0, 0)];
      answer := FakeCreated(runId, runs[runId].checkpointVersion);
    }

    /** The tokens of the data, unless some datum has none. */
    method CountTokens(data: seq<Datum>) returns (count: Option<nat>)
      ensures count == if forall i :: 0 <= i < |data| ==> data[i].tokenIds != [] then Some(TokenTotal(data)) else None
    {
      var tokens := 0;
      for i := 0 to |data|
        invariant forall j :: 0 <= j < i ==> data[j].tokenIds != []
        invariant tokens + TokenTotal(data[i..]) == TokenTotal(data)
      {
        if data[i].tokenIds == [] {
          return None;
        }
        assert data[i..][1..] == data[i + 1..];
        tokens := tokens + |data[i].tokenIds|;
      }
      count := Some(tokens);
    }

    method ForwardBackward(runId: string, data: seq<Datum>, lossFn: string) returns (answer: FakeAnswer)
      modifies this
      ensures (View(), answer) == FakeApply(old(View()), TrainingSpec.ForwardBackward(runId, data, lossFn))
      ensures if || runId == "" || runId !in runs || data == [] || lossFn == ""
                 || exists i :: 0 <= i < |data| && data[i].tokenIds == []
              then
                && answer == FakeRejected(if runId != "" && runId !in runs then NotFound else InvalidRequest)
                && runs == old(runs)
              else
                var version := old(runs)[runId].gradientVersion + 1;
                && answer == FakeGradient(version, TokenTotal(data))
                && runs == old(runs)[runId := old(runs)[runId].(gradientVersion := version)]
    {
      if runId == "" {
        return FakeRejected(InvalidRequest);
      }
      if runId !in runs {
        return FakeRejected(NotFound);
      }
      if data == [] || lossFn == "" {
        return FakeRejected(InvalidRequest);
      }
      var count := CountTokens(data);
      if count == None {
        return FakeRejected(InvalidRequest);
      }
      var run := runs[runId];
      runs := runs[runId := run.(gradientVersion := run.gradientVersion + 1)];
      answer := FakeGradient(runs[runId].gradientVersion, count.value);
    }

    method OptimStep(runId: string, learningRate: real) returns (answer: FakeAnswer)
      modifies this
      ensures (View(), answer) == FakeApply(old(View()), TrainingSpec.OptimStep(runId, learningRate))
      ensures if runId == "" || runId !in runs || learningRate <= 0.0
              then
                && answer == FakeRejected(if runId != "" && runId !in runs then NotFound else InvalidRequest)
                && runs == old(runs)
              else
                var run := old(runs)[runId];
                && answer == FakeStepped(run.optimizerStep + 1, run.checkpointVersion + 1)
                && runs == old(runs)[runId := run.(optimizerStep := run.optimizerStep + 1,
                                                   checkpointVersion := run.checkpointVersion + 1)]
    {
      if runId == "" {
        return FakeRejected(InvalidRequest);
      }
      if runId !in runs {
        return FakeRejected(NotFound);
      }
      if learningRate <= 0.0 {
        return FakeRejected(InvalidRequest);
      }
      var run := runs[runId];
      runs := runs[runId := run.(optimizerStep := run.optimizerStep + 1,
                                 checkpointVersion := run.checkpointVersion + 1)];
      answer := FakeStepped(runs[runId].optimizerStep, runs[runId].checkpointVersion);
    }

    method SaveWeights(runId: string, kind: ArtifactKind) returns (answer: FakeAnswer)
      ensures (View(), answer) == FakeApply(View(), TrainingSpec.SaveWeights(runId, kind))
      ensures answer == if runId == "" then FakeRejected(InvalidRequest)
                        else if runId !in runs then FakeRejected(NotFound)
                        else FakeSaved(ArtifactOf(root, runId, runs[runId].checkpointVersion, kind))
    {
      if runId == "" {
        return FakeRejected(InvalidRequest);
      }
      if runId !in runs {
        return FakeRejected(NotFound);
      }
      answer := FakeSaved(ArtifactOf(root, runId, runs[runId].checkpointVersion, kind));
    }
  }

  // ---------------------------------------------------------------- simulation

  /** The fake backend's name for a Megatron run: the same number, "run-" for "meg-run-". */
  function ToFake(id: string): string {
    if |id| >= 4 then id[4..] else id
  }

  function FakeCall(call: Call): Call {
    match call
    case Create(_, _, _) => call
    case ForwardBackward(id, data, lossFn) => ForwardBackward(ToFake(id), data, lossFn)
    case OptimStep(id, learningRate) => OptimStep(ToFake(id), learningRate)
    case SaveWeights(id, kind) => SaveWeights(ToFake(id), kind)
    case CloseRun(id) => CloseRun(ToFake(id))
  }

  /** The fake backend fed, in order, the calls the Megatron backend accepted. */
  function FakeReplay(root: Root, h: History): FakeState {
    if h == [] then FakeState(root, 0, map[])
    else
      var before, e := FakeReplay(root, h[..|h| - 1]), h[|h| - 1];
      if e.answer.Success() && !e.call.CloseRun? then FakeApply(before, FakeCall(e.call)).0 else before
  }

  ghost predicate SameNumbers(a: Answer, f: FakeAnswer) {
    match a
    case Created(id, version) => f == FakeCreated(ToFake(id), version)
    case Gradient(g, tokens, _) => f == FakeGradient(g, tokens)
    case Stepped(o, c) => f == FakeStepped(o, c)
    case Saved(artifact) =>
      && f.FakeSaved?
      && f.artifact.runId == ToFake(artifact.runId)
      && f.artifact.checkpointVersion == artifact.checkpointVersion
      && f.artifact.kind == artifact.kind
    case _ => false
  }

  ghost predicate Prefixed(ids: set<string>) {
    forall id :: id in ids ==> |id| > 4 && id[..4] == "meg-"
  }

  lemma {:induction false} NamesPrefixed(n: nat)
    ensures Prefixed(Names(n))
  {
    if n > 0 {
      NamesPrefixed(n - 1);
      assert RunName(n)[..4] == "meg-";
    }
  }

  lemma ToFakeInjective(a: string, b: string)
    requires |a| > 4 && |b| > 4 && a[..4] == b[..4] && ToFake(a) == ToFake(b)
    ensures a == b
  {
    assert a == a[..4] + a[4..] && b == b[..4] + b[4..];
  }

  lemma FakeNameOf(n: nat)
    ensures ToFake(RunName(n)) == FakeName(n)
  {
    assert RunName(n)[4..] == "run-" + Padded6(n);
  }

  ghost predicate SameCounters(run: Run, fake: FakeRun) {
    && fake.gradientVersion == run.gradientVersion
    && fake.optimizerStep == run.optimizerStep
    && fake.checkpointVersion == run.checkpointVersion
  }

  ghost predicate Simulates(s: State, f: FakeState) {
    && f.counter == s.counter
    && Prefixed(s.runs.Keys)
    && forall id :: id in s.runs ==> ToFake(id) in f.runs && SameCounters(s.runs[id], f.runs[ToFake(id)])
  }

  lemma MegatronIsStricter(data: seq<Datum>, lossFn: string)
    requires Accepted(data, lossFn)
    ensures FakeAccepts(data, lossFn)
    ensures BatchOf(data).TokenCount() == TokenTotal(data)
  {
    TokenCountIsTotal(data, lossFn);
    forall i | 0 <= i < |data| ensures data[i].tokenIds != [] {
      assert RowAccepted(data[i]);
    }
  }

  /** A call that changes one run of each side keeps the sides together. */
  lemma OneRunEach(s: State, f: FakeState, id: string, run: Run, fake: FakeRun)
    requires Simulates(s, f) && id in s.runs && SameCounters(run, fake)
    ensures Simulates(s.(runs := s.runs[id := run]), f.(runs := f.runs[ToFake(id) := fake]))
  {
    forall other | other in s.runs && other != id ensures ToFake(other) != ToFake(id) {
      if ToFake(other) == ToFake(id) { ToFakeInjective(other, id); assert false; }
    }
    assert s.runs[id := run].Keys == s.runs.Keys;
  }

  lemma SimulateCreate(s: State, f: FakeState, call: Call, reply: Reply)
    requires Simulates(s, f) && NamesBelow(s) && call.Create? && Apply(s, call, reply).1.Success()
    ensures SameNumbers(Apply(s, call, reply).1, FakeApply(f, FakeCall(call)).1)
    ensures Simulates(Apply(s, call, reply).0, FakeApply(f, FakeCall(call)).0)
  {
    var id := RunName(s.counter + 1);
    FakeNameOf(s.counter + 1);
    NamesPrefixed(s.counter + 1);
    FreshName(s);
    forall other | other in s.runs ensures ToFake(other) != ToFake(id) {
      if ToFake(other) == ToFake(id) {
        assert id in Names(s.counter + 1);
        ToFakeInjective(other, id);
        assert false;
      }
    }
    assert s.runs[id := NewRun(call)].Keys == Names(s.counter + 1);
  }

  /** The fake answers the call with the same numbers and changes its run alike. */
  ghost predicate AnswersAlike(root: Root, run: Run, f: FakeState, call: Call, reply: Reply)
    requires !call.Create? && !call.CloseRun? && (call.ForwardBackward? ==> Accepted(call.data, call.lossFn))
  {
    var (after, answer) := FakeApply(f, FakeCall(call));
    && SameNumbers(Effect(root, run, call, reply).1, answer)
    && ToFake(call.runId) in after.runs
    && after == f.(runs := f.runs[ToFake(call.runId) := after.runs[ToFake(call.runId)]])
    && SameCounters(Effect(root, run, call, reply).0, after.runs[ToFake(call.runId)])
  }

  lemma GradientAlike(root: Root, run: Run, f: FakeState, call: Call, reply: Reply)
    requires call.ForwardBackward? && Accepted(call.data, call.lossFn) && reply.Returns?
    requires ToFake(call.runId) in f.runs && ToFake(call.runId) != "" && SameCounters(run, f.runs[ToFake(call.runId)])
    ensures AnswersAlike(root, run, f, call, reply)
  {
    MegatronIsStricter(call.data, call.lossFn);
  }

  lemma StepAlike(root: Root, run: Run, f: FakeState, call: Call, reply: Reply)
    requires call.OptimStep? && reply.Returns? && call.learningRate > 0.0
    requires ToFake(call.runId) in f.runs && ToFake(call.runId) != "" && SameCounters(run, f.runs[ToFake(call.runId)])
    ensures AnswersAlike(root, run, f, call, reply)
  {
  }

  lemma SaveAlike(root: Root, run: Run, f: FakeState, call: Call, reply: Reply)
    requires call.SaveWeights? && reply.Returns?
    requires ToFake(call.runId) in f.runs && ToFake(call.runId) != "" && SameCounters(run, f.runs[ToFake(call.runId)])
    ensures AnswersAlike(root, run, f, call, reply)
  {
    var id := ToFake(call.runId);
    assert f.runs[id := f.runs[id]] == f.runs;
  }

  lemma SimulateRunCall(s: State, f: FakeState, call: Call, reply: Reply)
    requires Simulates(s, f) && Passed(s, call) && !call.CloseRun?
    requires Effect(s.root, s.runs[call.runId], call, reply).1.Success()
    ensures AnswersAlike(s.root, s.runs[call.runId], f, call, reply)
  {
    assert call.runId in s.runs.Keys && ToFake(call.runId) != "";
    match call
    case ForwardBackward(_, _, _) => GradientAlike(s.root, s.runs[call.runId], f, call, reply);
    case OptimStep(_, _) => StepAlike(s.root, s.runs[call.runId], f, call, reply);
    case SaveWeights(_, _) => SaveAlike(s.root, s.runs[call.runId], f, call, reply);
  }

  lemma SimulateOnRun(s: State, f: FakeState, call: Call, reply: Reply)
    requires Simulates(s, f) && Passed(s, call) && !call.CloseRun?
    requires Effect(s.root, s.runs[call.runId], call, reply).1.Success()
    ensures SameNumbers(Effect(s.root, s.runs[call.runId], call, reply).1, FakeApply(f, FakeCall(call)).1)
    ensures Simulates(s.(runs := s.runs[call.runId := Effect(s.root, s.runs[call.runId], call, reply).0]),
                      FakeApply(f, FakeCall(call)).0)
  {
    SimulateRunCall(s, f, call, reply);
    OneRunEach(s, f, call.runId, Effect(s.root, s.runs[call.runId], call, reply).0,
               FakeApply(f, FakeCall(call)).0.runs[ToFake(call.runId)]);
  }

  lemma SuccessPassed(s: State, call: Call, reply: Reply)
    requires !call.Create? && Apply(s, call, reply).1.Success()
    ensures Passed(s, call) && !call.CloseRun?
    ensures var (after, answer) := Effect(s.root, s.runs[call.runId], call, reply);
      Apply(s, call, reply) == (s.(runs := s.runs[call.runId := after]), answer)
  {
  }

  lemma SimulateCall(s: State, f: FakeState, call: Call, reply: Reply)
    requires Simulates(s, f) && NamesBelow(s) && Apply(s, call, reply).1.Success()
    ensures !call.CloseRun?
    ensures SameNumbers(Apply(s, call, reply).1, FakeApply(f, FakeCall(call)).1)
    ensures Simulates(Apply(s, call, reply).0, FakeApply(f, FakeCall(call)).0)
  {
    if call.Create? {
      SimulateCreate(s, f, call, reply);
    } else {
      SuccessPassed(s, call, reply);
      SimulateOnRun(s, f, call, reply);
    }
  }

  lemma SimulateNothing(s: State, f: FakeState, call: Call, reply: Reply)
    requires Simulates(s, f) && !Apply(s, call, reply).1.Success()
    ensures Simulates(Apply(s, call, reply).0, f)
  {
    var after := Apply(s, call, reply).0;
    assert after.runs.Keys == s.runs.Keys;
    forall id | id in after.runs ensures ToFake(id) in f.runs && SameCounters(after.runs[id], f.runs[ToFake(id)]) {
      assert id in s.runs;
    }
  }

  lemma {:induction false} ReplaysSimulate(root: Root, h: History)
    requires Legal(root, h)
    ensures Simulates(Replay(root, h), FakeReplay(root, h))
  {
    if h != [] {
      var before, e := h[..|h| - 1], h[|h| - 1];
      ReplaysSimulate(root, before);
      LegalIsCoherent(root, before);
      if e.answer.Success() {
        SimulateCall(Replay(root, before), FakeReplay(root, before), e.call, e.reply);
      } else {
        SimulateNothing(Replay(root, before), FakeReplay(root, before), e.call, e.reply);
      }
    }
  }

  /** Every call the Megatron backend accepted in a history with failures of any kind is accepted by
      the fake backend, fed the accepted ones only, with the same versions and token count. */
  lemma FakeSimulatesMegatron(root: Root, h: History, k: nat)
    requires Legal(root, h) && k < |h| && h[k].answer.Success()
    ensures !h[k].call.CloseRun?
    ensures SameNumbers(h[k].answer, FakeApply(FakeReplay(root, h[..k]), FakeCall(h[k].call)).1)
  {
    LegalEntry(root, h, k);
    ReplaysSimulate(root, h[..k]);
    LegalIsCoherent(root, h[..k]);
    SimulateCall(Replay(root, h[..k]), FakeReplay(root, h[..k]), h[k].call, h[k].reply);
  }
}
