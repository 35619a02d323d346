/** The Megatron training backend as its threads really run it: every shared read and write of the
    backend is a step of its own, runtime calls and file writes may raise, and the threads interleave
    in any order. Run locks are held by at most one thread, the backend lock by at most one thread. */
module TrainingThreads {
  import opened Wrappers
  import opened Contracts
  import opened Text
  import opened Artifacts
  import opened Disks
  import opened TensorBatches
  import opened TrainingSpec

  type Tid = nat

  // Where a thread is inside one of the backend's methods; a thread that is in none has no entry.
  // rest is what the loop of close still has to visit. before is the run as it was when the thread
  // got past its checks: no step reads it, only the proofs do.
  datatype Pc =
    | Scanning(call: Call, seen: set<string>)
    | Creating(call: Call)
    | Waiting(call: Call, rest: seq<string>)
    | Entered(call: Call, rest: seq<string>)
    | InRuntime(call: Call, before: Run, rest: seq<string>)
    | Working(call: Call, before: Run, reply: Reply, done: nat, rest: seq<string>)
    | Failing(call: Call, before: Run, reply: Reply, done: nat, rest: seq<string>)
    | Releasing(runId: string, rest: seq<string>)
    | Closing(rest: seq<string>)
  {
    predicate HoldsGate() {
      Scanning? || Creating?
    }

    /** Past the checks, before the assignment that settles the run's status. */
    predicate Unsettled() {
      InRuntime? || Working? || Failing?
    }

    function Holds(): Option<string> {
      match this
      case Entered(call, _) => Target(call)
      case InRuntime(call, _, _) => Target(call)
      case Working(call, _, _, _, _) => Target(call)
      case Failing(call, _, _, _, _) => Target(call)
      case Releasing(id, _) => Some(id)
      case _ => None
    }
  }

  function Target(call: Call): Option<string> {
    if call.Create? then None else Some(call.runId)
  }

  // gate is self._lock, locks the run locks; completed logs the training calls the runtime completed
  // per run, history every finished call with the answer the caller gets.
  datatype Machine = Machine(
    s: State,
    files: Files,
    gate: Option<Tid>,
    locks: map<string, Tid>,
    pcs: map<Tid, Pc>,
    completed: map<string, seq<RuntimeCall>>,
    history: History)

  /** A backend that begins over the files an earlier process may have left. */
  function Start(root: Root, files: Files): Machine {
    Machine(Initial(root), files, None, map[], map[], map[], [])
  }

  datatype Action =
    | StartCreate(t: Tid, call: Call)
    | ScanOne(t: Tid, id: string)
    | ScanDone(t: Tid)
    | CreateReply(t: Tid, reply: Reply)
    | StartCall(t: Tid, call: Call)
    | Acquire(t: Tid)
    | Check(t: Tid)
    | RuntimeReply(t: Tid, reply: Reply)
    | Work(t: Tid)
    | WriteRaises(t: Tid, made: nat)
    | Settle(t: Tid)
    | Release(t: Tid)
    | StartClose(t: Tid, order: seq<string>)
    | NextClose(t: Tid)

  /** The assignments, or steps of the artifact store, between a runtime call's return and the status
      assignment. */
  function WorkSteps(call: Call): nat {
    match call
    case ForwardBackward(_, _, _) => 1
    case OptimStep(_, _) => 2
    case SaveWeights(_, _) => 4
    case _ => 0
  }

  function RuntimeCallOf(call: Call): seq<RuntimeCall> {
    match call
    case ForwardBackward(_, _, _) => [GradientOk]
    case OptimStep(_, _) => [StepOk]
    case SaveWeights(_, _) => [SaveOk]
    case _ => []
  }

  /** The payload save_weights writes; what the runtime returned overrides it key by key. */
  function SavePayload(runId: string, run: Run, extra: Payload): Payload {
    map["artifact_format" := "megatron", "backend" := "megatron-bridge", "base_model" := run.baseModel,
        "checkpoint_version" := Decimal(run.checkpointVersion), "gradient_version" := Decimal(run.gradientVersion),
        "lora_rank" := Signed(run.loraRank), "optimizer_step" := Decimal(run.optimizerStep), "run_id" := runId,
        "run_status" := "ready", "tuning_mode" := if run.tuning == Lora then "LORA" else "FULL"] + extra
  }

  const OWN_KEYS := ["artifact_format", "backend", "base_model", "checkpoint_version", "gradient_version", "lora_rank",
                     "optimizer_step", "run_id", "run_status", "tuning_mode"]

  /** The payload has this value of its own for the key, unless the runtime returned one. */
  ghost predicate Own(payload: Payload, extra: Payload, key: string, value: string) {
    key !in extra ==> key in payload && payload[key] == value
  }

  /** Key by key: everything the runtime returned, and beside it what the backend knows of the run. */
  ghost predicate TellsOf(payload: Payload, runId: string, run: Run, extra: Payload) {
    && (forall key :: key in extra ==> key in payload && payload[key] == extra[key])
    && Own(payload, extra, "artifact_format", "megatron")
    && Own(payload, extra, "backend", "megatron-bridge")
    && Own(payload, extra, "base_model", run.baseModel)
    && Own(payload, extra, "checkpoint_version", Decimal(run.checkpointVersion))
    && Own(payload, extra, "gradient_version", Decimal(run.gradientVersion))
    && Own(payload, extra, "lora_rank", Signed(run.loraRank))
    && Own(payload, extra, "optimizer_step", Decimal(run.optimizerStep))
    && Own(payload, extra, "run_id", runId)
    && Own(payload, extra, "run_status", "ready")
    && Own(payload, extra, "tuning_mode", match run.tuning case Lora => "LORA" case Full => "FULL")
    && (forall key :: key in payload ==> key in extra || key in OWN_KEYS)
  }

  lemma SavePayloadTells(runId: string, run: Run, extra: Payload)
    ensures TellsOf(SavePayload(runId, run, extra), runId, run, extra)
  {
  }

  function SaveJob(call: Call, run: Run, extra: Payload): Job
    requires call.SaveWeights?
  {
    Job(call.runId, run.checkpointVersion, call.kind, SavePayload(call.runId, run, extra))
  }

  function CompletedOf(m: Machine, id: string): seq<RuntimeCall> {
    if id in m.completed then m.completed[id] else []
  }

  function Finish(m: Machine, call: Call, reply: Reply, answer: Answer): Machine {
    m.(history := m.history + [Entry(call, reply, answer)])
  }

  function Goto(m: Machine, t: Tid, pc: Pc): Machine {
    m.(pcs := m.pcs[t := pc])
  }

  function Leave(m: Machine, t: Tid): Machine {
    m.(pcs := m.pcs - {t})
  }

  function SetRun(m: Machine, id: string, run: Run): Machine {
    m.(s := m.s.(runs := m.s.runs[id := run]))
  }

  // ---------------------------------------------------------------- create_training_run

  predicate CanStartCreate(m: Machine, t: Tid, call: Call) {
    t !in m.pcs && call.Create? && (CreateArgumentsValid(call) ==> m.gate == None)
  }

  function DoStartCreate(m: Machine, t: Tid, call: Call): Machine
    requires CanStartCreate(m, t, call)
  {
    if !CreateArgumentsValid(call) then Finish(m, call, Raises, Rejected(InvalidRequest))
    else Goto(m.(gate := Some(t)), t, Scanning(call, {}))
  }

  /** _ensure_no_active_run looks at one more run; the others may be changing meanwhile. */
  predicate CanScan(m: Machine, t: Tid, id: string) {
    t in m.pcs && m.pcs[t].Scanning? && id in m.s.runs && id !in m.pcs[t].seen
  }

  function DoScan(m: Machine, t: Tid, id: string): Machine
    requires CanScan(m, t, id)
  {
    var pc := m.pcs[t];
    if m.s.runs[id].status.Active()
    then Finish(Leave(m.(gate := None), t), pc.call, Raises, Rejected(InvalidRequest))
    else Goto(m, t, Scanning(pc.call, pc.seen + {id}))
  }

  predicate CanScanDone(m: Machine, t: Tid) {
    t in m.pcs && m.pcs[t].Scanning? && m.pcs[t].seen == m.s.runs.Keys
  }

  function DoScanDone(m: Machine, t: Tid): Machine
    requires CanScanDone(m, t)
  {
    Goto(m, t, Creating(m.pcs[t].call))
  }

  predicate CanCreateReply(m: Machine, t: Tid) {
    t in m.pcs && m.pcs[t].Creating? && m.pcs[t].call.Create?
  }

  function DoCreateReply(m: Machine, t: Tid, reply: Reply): Machine
    requires CanCreateReply(m, t)
  {
    var call := m.pcs[t].call;
    var out := Leave(m.(gate := None), t);
    if !reply.Returns? then Finish(out, call, reply, Raised)
    else
      var id := RunName(m.s.counter + 1);
      Finish(SetRun(out.(s := m.s.(counter := m.s.counter + 1)), id, NewRun(call)), call, reply, Created(id, 0))
  }

  // ---------------------------------------------------------------- calls on a run

  predicate CanStartCall(m: Machine, t: Tid, call: Call) {
    t !in m.pcs && !call.Create? && !call.CloseRun?
  }

  function DoStartCall(m: Machine, t: Tid, call: Call): Machine
    requires CanStartCall(m, t, call)
  {
    match EntryError(m.s.runs, call)
    case Some(e) => Finish(m, call, Raises, Rejected(e))
    case None => Goto(m, t, Waiting(call, []))
  }

  predicate CanAcquire(m: Machine, t: Tid) {
    t in m.pcs && m.pcs[t].Waiting? && !m.pcs[t].call.Create? && m.pcs[t].call.runId !in m.locks
  }

  function DoAcquire(m: Machine, t: Tid): Machine
    requires CanAcquire(m, t)
  {
    var pc := m.pcs[t];
    Goto(m.(locks := m.locks[pc.call.runId := t]), t, Entered(pc.call, pc.rest))
  }

  predicate CanCheck(m: Machine, t: Tid) {
    t in m.pcs && m.pcs[t].Entered? && !m.pcs[t].call.Create? && m.pcs[t].call.runId in m.s.runs
  }

  /** The check made under the run's lock, and the transition it leads to. */
  function DoCheck(m: Machine, t: Tid): Machine
    requires CanCheck(m, t)
  {
    var call, rest := m.pcs[t].call, m.pcs[t].rest;
    var run := m.s.runs[call.runId];
    if call.CloseRun? then
      if run.status == Closed then Finish(Goto(m, t, Releasing(call.runId, rest)), call, Raises, CloseDone)
      else Goto(m, t, InRuntime(call, run, rest))
    else match LockedError(run, call)
      case Some(e) => Finish(Goto(m, t, Releasing(call.runId, rest)), call, Raises, Rejected(e))
      case None =>
        var entered := Goto(m, t, InRuntime(call, run, rest));
        if call.SaveWeights? then SetRun(entered, call.runId, run.(status := Checkpointing)) else entered
  }

  predicate CanReply(m: Machine, t: Tid, reply: Reply) {
    t in m.pcs && m.pcs[t].InRuntime? && !m.pcs[t].call.Create? && !reply.StoreRaises?
  }

  function DoReply(m: Machine, t: Tid, reply: Reply): Machine
    requires CanReply(m, t, reply)
  {
    var pc := m.pcs[t];
    if reply.Raises? then Goto(m, t, Failing(pc.call, pc.before, reply, 0, pc.rest))
    else
      var id := pc.call.runId;
      Goto(m, t, Working(pc.call, pc.before, reply, 0, pc.rest))
        .(completed := m.completed[id := CompletedOf(m, id) + RuntimeCallOf(pc.call)])
  }

  predicate CanWork(m: Machine, t: Tid) {
    && t in m.pcs && m.pcs[t].Working? && m.pcs[t].done < WorkSteps(m.pcs[t].call)
    && m.pcs[t].call.runId in m.s.runs && m.pcs[t].reply.Returns?
    && (m.pcs[t].call.SaveWeights? ==>
          Succeeds(m.files, m.s.root, SaveJob(m.pcs[t].call, m.s.runs[m.pcs[t].call.runId], m.pcs[t].reply.extra),
                   m.pcs[t].done))
  }

  /** One counter increment; a step of the store leaves the run alone. */
  function Worked(run: Run, call: Call, done: nat): Run {
    match call
    case ForwardBackward(_, _, _) => run.(gradientVersion := run.gradientVersion + 1)
    case OptimStep(_, _) =>
      if done == 0 then run.(optimizerStep := run.optimizerStep + 1)
      else run.(checkpointVersion := run.checkpointVersion + 1)
    case _ => run
  }

  function DoWork(m: Machine, t: Tid): Machine
    requires CanWork(m, t)
  {
    var pc := m.pcs[t];
    var id := pc.call.runId;
    var run := m.s.runs[id];
    SetRun(Goto(m, t, Working(pc.call, pc.before, pc.reply, pc.done + 1, pc.rest)), id, Worked(run, pc.call, pc.done))
      .(files := if pc.call.SaveWeights?
                 then WriteStage(m.files, m.s.root, SaveJob(pc.call, run, pc.reply.extra), pc.done)
                 else m.files)
  }

  predicate CanWriteRaise(m: Machine, t: Tid) {
    t in m.pcs && m.pcs[t].Working? && m.pcs[t].call.SaveWeights? && m.pcs[t].done < 4 && m.pcs[t].reply.Returns?
  }

  /** The store raises, at its first step perhaps with some of the directories made. */
  function DoWriteRaise(m: Machine, t: Tid, made: nat): Machine
    requires CanWriteRaise(m, t)
  {
    var pc := m.pcs[t];
    Goto(m, t, Failing(pc.call, pc.before, StoreRaises(pc.reply.extra, pc.done), pc.done, pc.rest))
      .(files := if pc.done == 0 then Mkdir(m.files, m.s.root, pc.call.runId, made) else m.files)
  }

  predicate CanSettle(m: Machine, t: Tid) {
    && t in m.pcs && (m.pcs[t].Working? || m.pcs[t].Failing?)
    && !m.pcs[t].call.Create? && m.pcs[t].call.runId in m.s.runs
    && (m.pcs[t].Working? ==>
          && m.pcs[t].done == WorkSteps(m.pcs[t].call) && m.pcs[t].reply.Returns?
          && (m.pcs[t].call.ForwardBackward? ==> Accepted(m.pcs[t].call.data, m.pcs[t].call.lossFn)))
  }

  /** The status assignment that ends a call. */
  function SettledStatus(pc: Pc): Status
    requires (pc.Working? || pc.Failing?) && !pc.call.Create?
  {
    if pc.Failing? then (if pc.call.SaveWeights? then Ready else Failed)
    else match pc.call
      case ForwardBackward(_, _, _) => GradientsPending
      case OptimStep(_, _) => Ready
      case SaveWeights(_, _) => Ready
      case CloseRun(_) => Closed
  }

  /** The answer, read from the run's counters as they are now. */
  function SettledAnswer(root: Root, run: Run, pc: Pc): Answer
    requires (pc.Working? && pc.reply.Returns?) || pc.Failing?
    requires !pc.call.Create?
    requires pc.Working? && pc.call.ForwardBackward? ==> Accepted(pc.call.data, pc.call.lossFn)
  {
    if pc.call.CloseRun? then CloseDone
    else if pc.Failing? then Raised
    else match pc.call
      case ForwardBackward(_, data, _) =>
        Gradient(run.gradientVersion, BatchOf(data).TokenCount(), pc.reply.loss)
      case OptimStep(_, _) => Stepped(run.optimizerStep, run.checkpointVersion)
      case SaveWeights(id, kind) => Saved(ArtifactOf(root, id, run.checkpointVersion, kind))
  }

  function DoSettle(m: Machine, t: Tid): Machine
    requires CanSettle(m, t)
  {
    var pc := m.pcs[t];
    var id := pc.call.runId;
    var run := m.s.runs[id];
    Finish(SetRun(Goto(m, t, Releasing(id, pc.rest)), id, run.(status := SettledStatus(pc))),
           pc.call, pc.reply, SettledAnswer(m.s.root, run, pc))
  }

  predicate CanRelease(m: Machine, t: Tid) {
    t in m.pcs && m.pcs[t].Releasing?
  }

  function DoRelease(m: Machine, t: Tid): Machine
    requires CanRelease(m, t)
  {
    var pc := m.pcs[t];
    var unlocked := m.(locks := m.locks - {pc.runId});
    if pc.rest == [] then Leave(unlocked, t) else Goto(unlocked, t, Closing(pc.rest))
  }

  // ---------------------------------------------------------------- close

  /** close copies the list of runs under the backend lock, in some order. */
  predicate CanStartClose(m: Machine, t: Tid, order: seq<string>) {
    t !in m.pcs && m.gate == None && multiset(order) == multiset(m.s.runs.Keys)
  }

  function DoStartClose(m: Machine, t: Tid, order: seq<string>): Machine
    requires CanStartClose(m, t, order)
  {
    Goto(m, t, Closing(order))
  }

  predicate CanNextClose(m: Machine, t: Tid) {
    t in m.pcs && m.pcs[t].Closing?
  }

  function DoNextClose(m: Machine, t: Tid): Machine
    requires CanNextClose(m, t)
  {
    var rest := m.pcs[t].rest;
    if rest == [] then Leave(m, t) else Goto(m, t, Waiting(CloseRun(rest[0]), rest[1..]))
  }

  // ---------------------------------------------------------------- interleavings

  predicate Enabled(m: Machine, a: Action) {
    match a
    case StartCreate(t, call) => CanStartCreate(m, t, call)
    case ScanOne(t, id) => CanScan(m, t, id)
    case ScanDone(t) => CanScanDone(m, t)
    case CreateReply(t, _) => CanCreateReply(m, t)
    case StartCall(t, call) => CanStartCall(m, t, call)
    case Acquire(t) => CanAcquire(m, t)
    case Check(t) => CanCheck(m, t)
    case RuntimeReply(t, reply) => CanReply(m, t, reply)
    case Work(t) => CanWork(m, t)
    case WriteRaises(t, _) => CanWriteRaise(m, t)
    case Settle(t) => CanSettle(m, t)
    case Release(t) => CanRelease(m, t)
    case StartClose(t, order) => CanStartClose(m, t, order)
    case NextClose(t) => CanNextClose(m, t)
  }

  function Do(m: Machine, a: Action): Machine
    requires Enabled(m, a)
  {
    match a
    case StartCreate(t, call) => DoStartCreate(m, t, call)
    case ScanOne(t, id) => DoScan(m, t, id)
    case ScanDone(t) => DoScanDone(m, t)
    case CreateReply(t, reply) => DoCreateReply(m, t, reply)
    case StartCall(t, call) => DoStartCall(m, t, call)
    case Acquire(t) => DoAcquire(m, t)
    case Check(t) => DoCheck(m, t)
    case RuntimeReply(t, reply) => DoReply(m, t, reply)
    case Work(t) => DoWork(m, t)
    case WriteRaises(t, made) => DoWriteRaise(m, t, made)
    case Settle(t) => DoSettle(m, t)
    case Release(t) => DoRelease(m, t)
    case StartClose(t, order) => DoStartClose(m, t, order)
    case NextClose(t) => DoNextClose(m, t)
  }

  ghost predicate Execution(root: Root, ms: seq<Machine>, actions: seq<Action>) {
    && |ms| == |actions| + 1
    && ms[0] == Start(root, ms[0].files)
    && forall i {:trigger actions[i]} :: 0 <= i < |actions| ==>
         Enabled(ms[i], actions[i]) && ms[i + 1] == Do(ms[i], actions[i])
  }

  lemma StepOf(root: Root, ms: seq<Machine>, actions: seq<Action>, i: nat)
    requires Execution(root, ms, actions) && i < |actions|
    ensures Enabled(ms[i], actions[i]) && ms[i + 1] == Do(ms[i], actions[i])
  {
  }
}
