/** The Megatron training backend object, driven by one thread at a time: every method does to the
    object what the atomic machine does to its state, and answers the same. */
module TrainingBackend {
  import opened Wrappers
  import opened Contracts
  import opened Text
  import opened Paths
  import opened Artifacts
  import opened Disks
  import opened TensorBatches
  import opened TrainingSpec
  import T = TrainingThreads

  class RunState {
    const runId: string
    const baseModel: string
    const tuning: TuningMode
    const loraRank: int
    var status: Status
    var gradientVersion: nat
    var optimizerStep: nat
    var checkpointVersion: nat

    constructor (runId: string, baseModel: string, tuning: TuningMode, loraRank: int)
      ensures this.runId == runId
      ensures View() == Run(baseModel, tuning, loraRank, Ready, 0, 0, 0)
    {
      this.runId := runId;
      this.baseModel := baseModel;
      this.tuning := tuning;
      this.loraRank := loraRank;
      status := Ready;
      gradientVersion := 0;
      optimizerStep := 0;
      checkpointVersion := 0;
    }

    function View(): Run
      reads this
    {
      Run(baseModel, tuning, loraRank, status, gradientVersion, optimizerStep, checkpointVersion)
    }
  }

  class MegatronTrainingBackend {
    const store: FilesystemArtifactStore
    var runCounter: nat
    var runs: map<string, RunState>

    constructor (store: FilesystemArtifactStore)
      ensures this.store == store && Valid() && runs == map[]
      ensures View() == Initial(store.root)
    {
      this.store := store;
      runCounter := 0;
      runs := map[];
    }

    ghost predicate Valid()
      reads this, runs.Values
    {
      && (forall id :: id in runs ==> runs[id].runId == id && id != "")
      && (forall a, b :: a in runs && b in runs && a != b ==> runs[a] != runs[b])
      && NamesBelow(View())
    }

    ghost function RunViews(): map<string, Run>
      reads this, runs.Values
    {
      map id | id in runs :: runs[id].View()
    }

    ghost function View(): State
      reads this, runs.Values
    {
      State(store.root, runCounter, RunViews())
    }

    /** The first active run, if any. */
    method FindActiveRun() returns (active: Option<string>)
      ensures active.None? <==> !SomeRunActive(RunViews())
      ensures active.None? <==> forall id :: id in runs ==> runs[id].status == Failed || runs[id].status == Closed
      ensures active.Some? ==> active.value in runs && runs[active.value].status.Active()
    {
      var left := runs.Keys;
      while left != {}
        invariant left <= runs.Keys
        invariant forall id :: id in runs && id !in left ==> !runs[id].status.Active()
        decreases left
      {
        var id :| id in left;
        if runs[id].status.Active() {
          assert RunViews()[id].status.Active();
          return Some(id);
        }
        left := left - {id};
      }
      active := None;
    }

    /** Takes the next run number and registers a fresh run under it. */
    method Register(baseModel: string, tuning: TuningMode, loraRank: int) returns (runId: string)
      requires Valid()
      modifies this
      ensures Valid() && runId == RunName(old(runCounter) + 1) && runId !in old(runs)
      ensures runId in runs && runs == old(runs)[runId := runs[runId]] && fresh(runs[runId])
      ensures runs[runId].checkpointVersion == 0
      ensures var was, run := old(View()), NewRun(Create(baseModel, tuning, loraRank));
        View() == was.(counter := was.counter + 1, runs := was.runs[runId := run])
    {
      FreshName(View());
      runCounter := runCounter + 1;
      runId := RunName(runCounter);
      var state := new RunState(runId, baseModel, tuning, loraRank);
      runs := runs[runId := state];
      OneRunAdded(runId);
      AddedIsValid(runId);
    }

    /** The map of objects is the old one and one new object, named as the counter says. */
    twostate predicate OneJoined(runId: string)
      reads this, runs.Values
    {
      && runId !in old(runs) && runId in runs && runs == old(runs)[runId := runs[runId]]
      && runCounter == old(runCounter) + 1 && runId == RunName(runCounter)
      && forall id :: id in old(runs) ==> runs[id].View() == old(runs[id].View())
    }

    /** Registering a new object adds one entry to the view. */
    twostate lemma OneRunAdded(runId: string)
      requires OneJoined(runId)
      ensures var was := old(View());
        View() == was.(counter := was.counter + 1, runs := was.runs[runId := runs[runId].View()])
    {
      assert RunViews() == old(RunViews())[runId := runs[runId].View()];
    }

    twostate lemma AddedIsValid(runId: string)
      requires old(Valid()) && OneJoined(runId) && fresh(runs[runId]) && runs[runId].runId == runId
      ensures Valid()
    {
      OneRunAdded(runId);
      NamesAreOld(runCounter, runCounter + 1);
      assert View().runs.Keys == Names(runCounter);
      assert runId != "" by { assert |runId| >= 8; }
    }

    /** A request is refused when its arguments are malformed or a run is active. */
    method CheckCreate(baseModel: string, tuning: TuningMode, loraRank: int) returns (refused: bool)
      ensures refused <==>
          !CreateArgumentsValid(Create(baseModel, tuning, loraRank)) || SomeRunActive(RunViews())
    {
      if baseModel == "" || (tuning == Lora && loraRank <= 0) || (tuning == Full && loraRank < 0) {
        return true;
      }
      var active := FindActiveRun();
      refused := active.Some?;
    }

    method CreateTrainingRun(baseModel: string, tuning: TuningMode, loraRank: int, reply: Reply)
      returns (answer: Answer)
      requires Valid()
      modifies this
      ensures Valid() && (!answer.Created? ==> runs == old(runs))
      ensures answer.Created? ==>
          && answer.runId in runs && fresh(runs[answer.runId])
          && runs == old(runs)[answer.runId := runs[answer.runId]]
      ensures CreateMeans(old(View()), View(), baseModel, tuning, loraRank, reply, answer)
    {
      var refused := CheckCreate(baseModel, tuning, loraRank);
      if refused {
        return Rejected(InvalidRequest);
      }
      if !reply.Returns? {
        return Raised;
      }
      var runId := Register(baseModel, tuning, loraRank);
      answer := Created(runId, runs[runId].checkpointVersion);
    }

    /** The run object for a call on a run, or why there is none. */
    method GetRun(runId: string) returns (r: Result<RunState, Error>)
      ensures r == if runId == "" then Err(InvalidRequest)
                   else if runId !in runs then Err(NotFound) else Ok(runs[runId])
    {
      if runId == "" {
        return Err(InvalidRequest);
      }
      if runId !in runs {
        return Err(NotFound);
      }
      r := Ok(runs[runId]);
    }

    /** Changing one run object changes the view at its name only. */
    twostate lemma OneRunChanged(runId: string)
      requires old(Valid()) && runs == old(runs) && runCounter == old(runCounter) && runId in runs
      requires forall id :: id in runs && id != runId ==> runs[id].View() == old(runs[id].View())
      ensures Valid()
      ensures View() == old(View()).(runs := old(View()).runs[runId := runs[runId].View()])
      ensures OnlyRun(old(View()), View(), runId)
    {
      assert RunViews() == old(RunViews())[runId := runs[runId].View()];
      assert View().counter == old(View()).counter && View().runs.Keys == old(View()).runs.Keys;
    }

    method ForwardBackward(runId: string, data: seq<Datum>, lossFn: string, reply: Reply)
      returns (answer: Answer)
      requires Valid()
      modifies runs.Values
      ensures Valid() && runs == old(runs)
      ensures ForwardMeans(old(View()), View(), runId, data, lossFn, reply, answer)
    {
      var found := GetRun(runId);
      if found.Err? {
        return Rejected(found.error);
      }
      var state := found.value;
      if state.status != Ready {
        return Rejected(InvalidRequest);
      }
      var batch := DatumsToTensorBatch(data, lossFn);
      if batch.Err? {
        return Rejected(InvalidRequest);
      }
      answer := AddGradient(state, data, reply);
      OneRunChanged(runId);
    }

    /** The part of forward_backward that follows its checks. */
    method AddGradient(state: RunState, data: seq<Datum>, reply: Reply) returns (answer: Answer)
      requires Accepted(data, "cross_entropy")
      modifies state
      ensures GaveGradient(old(state.View()), state.View(), data, reply, answer)
    {
      if !reply.Returns? {
        state.status := Failed;
        return Raised;
      }
      TokenCountIsTotal(data, "cross_entropy");
      state.gradientVersion := state.gradientVersion + 1;
      state.status := GradientsPending;
      answer := Gradient(state.gradientVersion, BatchOf(data).TokenCount(), reply.loss);
    }

    method OptimStep(runId: string, learningRate: real, reply: Reply) returns (answer: Answer)
      requires Valid()
      modifies runs.Values
      ensures Valid() && runs == old(runs)
      ensures OptimMeans(old(View()), View(), runId, learningRate, reply, answer)
    {
      var found := GetRun(runId);
      if found.Err? {
        return Rejected(found.error);
      }
      var state := found.value;
      if learningRate <= 0.0 {
        return Rejected(InvalidRequest);
      }
      if state.status != GradientsPending {
        return Rejected(InvalidRequest);
      }
      answer := TakeStep(state, reply);
      OneRunChanged(runId);
    }

    /** The part of optim_step that follows its checks. */
    method TakeStep(state: RunState, reply: Reply) returns (answer: Answer)
      modifies state
      ensures TookStep(old(state.View()), state.View(), reply, answer)
    {
      if !reply.Returns? {
        state.status := Failed;
        return Raised;
      }
      state.optimizerStep := state.optimizerStep + 1;
      state.checkpointVersion := state.checkpointVersion + 1;
      state.status := Ready;
      answer := Stepped(state.optimizerStep, state.checkpointVersion);
    }

    /** How many of the store's steps the outside lets through. */
    static function StepsAllowed(reply: Reply): nat {
      match reply
      case Returns(_, _) => 4
      case Raises => 0
      case StoreRaises(_, written) => if written < 4 then written else 3
    }

    static function ExtraPayload(reply: Reply): Payload {
      match reply
      case Returns(_, extra) => extra
      case Raises => map[]
      case StoreRaises(extra, _) => extra
    }

    /** What the outside did, a file or a directory in the store's way included. */
    static function StoreReply(files: Files, root: Root, job: Job, reply: Reply): Reply {
      if reply.Raises? then reply
      else
        var k := Survived(files, root, job, StepsAllowed(reply));
        if k == 4 then reply else StoreRaises(ExtraPayload(reply), k)
    }

    method SaveWeights(runId: string, kind: ArtifactKind, reply: Reply, made: nat) returns (answer: Answer)
      requires Valid()
      modifies runs.Values, store`files
      ensures Valid() && runs == old(runs)
      ensures answer.Rejected? <==> runId == "" || runId !in runs || old(runs[runId].status) != Ready
      ensures answer.Rejected? ==>
          && store.files == old(store.files)
          && SaveMeans(old(View()), View(), runId, kind, reply, answer)
      ensures !answer.Rejected? ==>
          && runId in old(View()).runs
          && var job := JobOf(runId, old(View()).runs[runId], kind, reply);
          && SaveMeans(old(View()), View(), runId, kind, StoreReply(old(store.files), store.root, job, reply), answer)
          && store.files == if reply.Raises? then old(store.files)
                            else Left(old(store.files), store.root, job, StepsAllowed(reply), made)
      // once it returned, what latest finds leads to a file with everything the runtime returned in it
      ensures answer.Saved? && WellFormed(old(store.files), store.root) ==>
          FindsTold(store.files, store.root, answer.artifact, old(View()).runs[runId], reply)
    {
      var found := GetRun(runId);
      if found.Err? {
        return Rejected(found.error);
      }
      var state := found.value;
      if state.status != Ready {
        return Rejected(InvalidRequest);
      }
      ghost var files := store.files;
      answer := SaveRun(state, kind, reply, made);
      OneRunChanged(runId);
      assert View().runs == old(View()).runs;
      if answer.Saved? && WellFormed(files, store.root) {
        SavedIsFound(files, store.root, runId, old(View()).runs[runId], kind, reply, made);
      }
    }

    static function JobOf(runId: string, run: Run, kind: ArtifactKind, reply: Reply): Job {
      T.SaveJob(TrainingSpec.SaveWeights(runId, kind), run, ExtraPayload(reply))
    }

    /** latest finds the artifact, and the payload file it names tells of the run and of what the runtime
        returned. */
    static ghost predicate FindsTold(files: Files, root: Root, artifact: WeightArtifact, run: Run, reply: Reply) {
      && reply.Returns?
      && Latest(files, root, artifact.runId) == Ok(artifact)
      && var found := Lookup(files, root, Parse(artifact.payloadPath));
         found.Some? && found.value.PayloadFile?
         && T.TellsOf(found.value.payload, artifact.runId, run, reply.extra)
    }

    static lemma SavedIsFound(files: Files, root: Root, runId: string, run: Run, kind: ArtifactKind, reply: Reply,
                              made: nat)
      requires WellFormed(files, root) && runId != ""
      requires StoreReply(files, root, JobOf(runId, run, kind, reply), reply).Returns?
      ensures var after := Left(files, root, JobOf(runId, run, kind, reply), StepsAllowed(reply), made);
        FindsTold(after, root, ArtifactOf(root, runId, run.checkpointVersion, kind), run, reply)
    {
      var job := JobOf(runId, run, kind, reply);
      SurvivedWrites(files, root, job, StepsAllowed(reply));
      SaveIsFound(files, root, job);
      T.SavePayloadTells(runId, run, reply.extra);
    }

    /** The part of save_weights that follows its checks. */
    method SaveRun(state: RunState, kind: ArtifactKind, reply: Reply, made: nat) returns (answer: Answer)
      requires state.status == Ready && state.runId != ""
      modifies state, store`files
      ensures state.View() == old(state.View())
      ensures
        var job := JobOf(state.runId, old(state.View()), kind, reply);
        && answer == (if StoreReply(old(store.files), store.root, job, reply).Returns?
                      then Saved(ArtifactOf(store.root, state.runId, old(state.checkpointVersion), kind)) else Raised)
        && store.files == if reply.Raises? then old(store.files)
                          else Left(old(store.files), store.root, job, StepsAllowed(reply), made)
    {
      state.status := Checkpointing;
      if reply.Raises? {
        state.status := Ready;
        return Raised;
      }
      var payload := T.SavePayload(state.runId, state.View(), ExtraPayload(reply));
      var written := store.Write(state.runId, state.checkpointVersion, kind, payload, StepsAllowed(reply), made);
      state.status := Ready;
      if written.Err? {
        return Raised;
      }
      answer := Saved(written.value);
    }

    /** One turn of the loop in close. */
    method CloseOne(state: RunState, reply: Reply)
      modifies state
      ensures ShutdownMeans(old(state.View()), state.View(), reply)
    {
      if state.status != Closed {
        if reply.Returns? {
          state.status := Closed;
        } else {
          state.status := Failed;
        }
      }
    }

    /** Closes every run; replies says what each shutdown call does. */
    method Close(replies: string -> Reply)
      requires Valid()
      modifies runs.Values
      ensures Valid() && runs == old(runs) && runCounter == old(runCounter)
      ensures forall id :: id in runs && old(runs[id].status) == Closed ==> runs[id].View() == old(runs[id].View())
      ensures forall id :: id in runs && old(runs[id].status) != Closed ==>
          && (runs[id].status == Closed <==> replies(id).Returns?)
          && (runs[id].status == Failed <==> !replies(id).Returns?)
          && runs[id].View() == old(runs[id].View()).(status := runs[id].status)
      ensures forall id :: id in runs ==> ShutdownMeans(old(runs[id].View()), runs[id].View(), replies(id))
      ensures !SomeRunActive(RunViews())
    {
      CloseEach(replies);
      assert View().counter == old(View()).counter && View().runs.Keys == old(View()).runs.Keys;
    }

    /** The loop of close, over the runs in any order. */
    method CloseEach(replies: string -> Reply)
      requires forall id :: id in runs ==> runs[id].runId == id
      modifies runs.Values
      ensures runs == old(runs) && runCounter == old(runCounter)
      ensures forall id :: id in runs ==> ShutdownMeans(old(runs[id].View()), runs[id].View(), replies(id))
    {
      var left := runs.Keys;
      while left != {}
        invariant left <= runs.Keys
        invariant runs == old(runs) && runCounter == old(runCounter)
        invariant forall id :: id in runs && id in left ==> runs[id].View() == old(runs[id].View())
        invariant forall id :: id in runs && id !in left ==>
            ShutdownMeans(old(runs[id].View()), runs[id].View(), replies(id))
        decreases left
      {
        var id :| id in left;
        CloseOne(runs[id], replies(id));
        left := left - {id};
      }
    }
  }
}
