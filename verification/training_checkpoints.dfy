/** The checkpoint files while the training backend's threads interleave, over whatever an earlier
    process left: what latest finds for a run is what was stored until this backend publishes for the
    run, and from then on the artifact it published last. */
module TrainingCheckpoints {
  import opened Wrappers
  import opened Contracts
  import opened Text
  import opened Paths
  import opened Seqs
  import opened Artifacts
  import opened Disks
  import opened TensorBatches
  import opened TrainingSpec
  import opened TrainingThreads
  import opened Linearization
  import opened TrainingSafety

  /** A save whose pointer is written but whose answer is still to come. */
  function Landing(holder: Option<Pc>): seq<int> {
    match holder
    case Some(Working(call, before, _, done, _)) =>
      if call.SaveWeights? && done == 4 then [before.checkpointVersion] else []
    case _ => []
  }

  function PublishedNow(m: Machine, id: string): seq<int> {
    Published(m.history, id) + Landing(Holder(m, id))
  }

  /** The run's pointer is the one found at the start. */
  ghost predicate StillStored(start: Files, files: Files, root: Root, id: string) {
    && (LatestPlace(root, id) in files <==> LatestPlace(root, id) in start)
    && (LatestPlace(root, id) in start ==> files[LatestPlace(root, id)] == start[LatestPlace(root, id)])
  }

  ghost predicate PointerMatches(start: Files, files: Files, root: Root, id: string, versions: seq<int>) {
    if versions == [] then StillStored(start, files, root, id)
    else
      var last := versions[|versions| - 1];
      last >= 0 && PointsTo(files, root, id, last) && OwnManifest(files, root, id, last)
  }

  /** The manifest of a version was written under this very id. */
  ghost predicate OwnManifest(files: Files, root: Root, id: string, version: nat) {
    var place := ManifestPlace(root, id, version);
    place in files && files[place].ManifestFile? && files[place].artifact.runId == id
  }

  ghost predicate SaveReady(files: Files, root: Root, pc: Pc) {
    pc.Working? && pc.call.SaveWeights? && pc.reply.Returns? && pc.done <= 3 ==>
      && StageReady(files, root, SaveJob(pc.call, pc.before, pc.reply.extra), pc.done)
      && (pc.done == 3 ==> OwnManifest(files, root, pc.call.runId, pc.before.checkpointVersion))
  }

  ghost predicate FilesOk(start: Files, m: Machine) {
    && WellFormed(m.files, m.s.root)
    && (forall t :: t in m.pcs ==> SaveReady(m.files, m.s.root, m.pcs[t]))
    && (forall id :: Plain(id) ==> PointerMatches(start, m.files, m.s.root, id, PublishedNow(m, id)))
  }

  /** Nothing is published, or one version more. */
  ghost predicate OneMore(before: seq<int>, after: seq<int>) {
    after == before || (|after| == |before| + 1 && after[..|before|] == before)
  }

  /** A step that leaves the files right and publishes at most once per run. */
  ghost predicate FilesStep(start: Files, m: Machine, n: Machine) {
    FilesOk(start, n) && forall id :: OneMore(PublishedNow(m, id), PublishedNow(n, id))
  }

  lemma FilesFrame(start: Files, m: Machine, n: Machine)
    requires FilesOk(start, m) && n.files == m.files && n.s.root == m.s.root
    requires forall t :: t in n.pcs ==> SaveReady(n.files, n.s.root, n.pcs[t])
    requires forall id :: PublishedNow(n, id) == PublishedNow(m, id)
    ensures FilesStep(start, m, n)
  {
    forall id | Plain(id) ensures PointerMatches(start, n.files, n.s.root, id, PublishedNow(n, id)) {
      assert PointerMatches(start, m.files, m.s.root, id, PublishedNow(m, id));
    }
  }

  // ---------------------------------------------------------------- steps that write no file

  lemma QuietPublishes(m: Machine, n: Machine, t: Tid, id: string, other: string)
    requires LocksOk(m) && PcsOk(m) && Quiet(m, n, t, id)
    requires Landing(Some(n.pcs[t])) == Landing(Some(m.pcs[t]))
    ensures PublishedNow(n, other) == PublishedNow(m, other)
  {
    WorksOnLocal(m, n, t, id);
  }

  lemma FilesQuiet(start: Files, m: Machine, n: Machine, t: Tid, id: string)
    requires LocksOk(m) && PcsOk(m) && FilesOk(start, m) && Quiet(m, n, t, id)
    requires n.files == m.files && SaveReady(m.files, m.s.root, n.pcs[t])
    requires Landing(Some(n.pcs[t])) == Landing(Some(m.pcs[t]))
    ensures FilesStep(start, m, n)
  {
    forall other ensures PublishedNow(n, other) == PublishedNow(m, other) {
      QuietPublishes(m, n, t, id, other);
    }
    forall u | u in n.pcs ensures SaveReady(n.files, n.s.root, n.pcs[u]) {
      if u != t { assert SaveReady(m.files, m.s.root, m.pcs[u]); }
    }
    FilesFrame(start, m, n);
  }

  /** The version a save publishes by its answer was there when its pointer was written. */
  lemma SettlingPublishes(m: Machine, n: Machine, t: Tid, id: string, e: Entry, other: string)
    requires LocksOk(m) && PcsOk(m) && Settling(m, n, t, id, e) && n.pcs[t].Releasing?
    requires e.answer.Saved? ==> e.answer.artifact.runId == id
    requires Landing(Some(m.pcs[t])) == if e.answer.Saved? then [e.answer.artifact.checkpointVersion] else []
    ensures PublishedNow(n, other) == PublishedNow(m, other)
  {
    WorksOnLocal(m, n, t, id);
    PublishedSnoc(m.history, e, other);
    assert Published(m.history, other) + [] == Published(m.history, other);
  }

  lemma FilesSettling(start: Files, m: Machine, n: Machine, t: Tid, id: string, e: Entry)
    requires LocksOk(m) && PcsOk(m) && FilesOk(start, m) && Settling(m, n, t, id, e)
    requires n.files == m.files && n.pcs[t].Releasing?
    requires e.answer.Saved? ==> e.answer.artifact.runId == id
    requires Landing(Some(m.pcs[t])) == if e.answer.Saved? then [e.answer.artifact.checkpointVersion] else []
    ensures FilesStep(start, m, n)
  {
    forall other ensures PublishedNow(n, other) == PublishedNow(m, other) {
      SettlingPublishes(m, n, t, id, e, other);
    }
    forall u | u in n.pcs ensures SaveReady(n.files, n.s.root, n.pcs[u]) {
      if u != t { assert SaveReady(m.files, m.s.root, m.pcs[u]); }
    }
    FilesFrame(start, m, n);
  }

  lemma FilesCheck(start: Files, m: Machine, t: Tid)
    requires LocksOk(m) && PcsOk(m) && FilesOk(start, m) && CanCheck(m, t)
    ensures FilesStep(start, m, DoCheck(m, t))
  {
    var call := m.pcs[t].call;
    var run := m.s.runs[call.runId];
    assert PcOk(m.s, m.pcs[t]);
    if CheckIsFinal(run, call) {
      CheckFinalShape(m, t);
      FilesSettling(start, m, DoCheck(m, t), t, call.runId, Entry(call, Raises, CheckAnswer(run, call)));
    } else {
      CheckPassShape(m, t);
      FilesQuiet(start, m, DoCheck(m, t), t, call.runId);
    }
  }

  lemma FilesReply(start: Files, m: Machine, t: Tid, reply: Reply)
    requires LocksOk(m) && PcsOk(m) && FilesOk(start, m) && CanReply(m, t, reply)
    ensures FilesStep(start, m, DoReply(m, t, reply))
  {
    assert PcOk(m.s, m.pcs[t]);
    ReplyShape(m, t, reply);
    FilesQuiet(start, m, DoReply(m, t, reply), t, m.pcs[t].call.runId);
  }

  /** A store that raises leaves a save whose pointer is not written. */
  lemma WriteRaiseLands(m: Machine, t: Tid, made: nat)
    requires CanWriteRaise(m, t)
    ensures var n := DoWriteRaise(m, t, made);
      && SaveReady(n.files, n.s.root, n.pcs[t])
      && Landing(Some(n.pcs[t])) == Landing(Some(m.pcs[t]))
      && n.files == if m.pcs[t].done == 0 then Mkdir(m.files, m.s.root, m.pcs[t].call.runId, made) else m.files
  {
  }

  lemma FilesWriteRaise(start: Files, m: Machine, t: Tid, made: nat)
    requires LocksOk(m) && PcsOk(m) && FilesOk(start, m) && CanWriteRaise(m, t) && OrdinaryRuns(m.s)
    ensures FilesStep(start, m, DoWriteRaise(m, t, made))
  {
    assert PcOk(m.s, m.pcs[t]);
    WriteRaiseLands(m, t, made);
    WriteRaiseShape(m, t, made);
    if m.pcs[t].done == 0 {
      FilesMkdir(start, m, DoWriteRaise(m, t, made), t, m.pcs[t].call.runId, made);
    } else {
      FilesQuiet(start, m, DoWriteRaise(m, t, made), t, m.pcs[t].call.runId);
    }
  }

  // ---------------------------------------------------------------- a directory is made

  /** An id of one plain component that is not named like the pointer. */
  predicate Ordinary(id: string) {
    Plain(id) && id != LATEST_NAME
  }

  ghost predicate OrdinaryRuns(s: State) {
    forall id :: id in s.runs ==> Ordinary(id)
  }

  lemma OrdinaryIs(id: string)
    requires Ordinary(id)
    ensures NotPointer(id)
  {
    PlainIsItself(id);
  }

  lemma MkdirKeepsPointer(start: Files, files: Files, root: Root, runId: string, made: nat, id: string,
                          versions: seq<int>)
    requires WellFormed(files, root) && Ordinary(runId) && PointerMatches(start, files, root, id, versions)
    ensures PointerMatches(start, Mkdir(files, root, runId, made), root, id, versions)
  {
    var after := Mkdir(files, root, runId, made);
    OrdinaryIs(runId);
    MkdirAdds(files, root, runId, made);
    if versions == [] {
      NoFolderForPointer(files, root, runId, made, id);
    } else {
      AddsKeepFacts(files, after, root, id, versions[|versions| - 1]);
    }
  }

  lemma MkdirKeepsReady(files: Files, root: Root, runId: string, made: nat, pc: Pc)
    requires Tree(files) && SaveReady(files, root, pc)
    ensures SaveReady(Mkdir(files, root, runId, made), root, pc)
  {
    var after := Mkdir(files, root, runId, made);
    MkdirAdds(files, root, runId, made);
    if pc.Working? && pc.call.SaveWeights? && pc.reply.Returns? && pc.done <= 3 {
      var job := SaveJob(pc.call, pc.before, pc.reply.extra);
      AddsKeepFacts(files, after, root, job.runId, job.version);
      ReadyStays(files, after, root, job, pc.done);
    }
  }

  lemma FilesMkdir(start: Files, m: Machine, n: Machine, t: Tid, id: string, made: nat)
    requires LocksOk(m) && PcsOk(m) && FilesOk(start, m) && Quiet(m, n, t, id) && Ordinary(id)
    requires n.files == Mkdir(m.files, m.s.root, id, made) && SaveReady(n.files, m.s.root, n.pcs[t])
    requires Landing(Some(n.pcs[t])) == Landing(Some(m.pcs[t]))
    ensures FilesStep(start, m, n)
  {
    MkdirKeepsWellFormed(m.files, m.s.root, id, made);
    forall other ensures PublishedNow(n, other) == PublishedNow(m, other) {
      QuietPublishes(m, n, t, id, other);
    }
    forall u | u in n.pcs ensures SaveReady(n.files, n.s.root, n.pcs[u]) {
      if u != t {
        MkdirKeepsReady(m.files, m.s.root, id, made, m.pcs[u]);
      }
    }
    forall other | Plain(other) ensures PointerMatches(start, n.files, n.s.root, other, PublishedNow(n, other)) {
      MkdirKeepsPointer(start, m.files, m.s.root, id, made, other, PublishedNow(m, other));
    }
  }

  /** A save that settles with an artifact has its pointer written, and names the version written. */
  lemma SettleLands(m: Machine, t: Tid)
    requires CanSettle(m, t) && PcOk(m.s, m.pcs[t])
    ensures var pc := m.pcs[t];
      var answer := SettledAnswer(m.s.root, m.s.runs[pc.call.runId], pc);
      && (answer.Saved? ==> answer.artifact.runId == pc.call.runId)
      && Landing(Some(pc)) == if answer.Saved? then [answer.artifact.checkpointVersion] else []
  {
  }

  lemma FilesSettle(start: Files, m: Machine, t: Tid)
    requires LocksOk(m) && PcsOk(m) && FilesOk(start, m) && CanSettle(m, t)
    ensures FilesStep(start, m, DoSettle(m, t))
  {
    var pc := m.pcs[t];
    assert PcOk(m.s, pc);
    SettleLands(m, t);
    SettleShape(m, t);
    FilesSettling(start, m, DoSettle(m, t), t, pc.call.runId,
                  Entry(pc.call, pc.reply, SettledAnswer(m.s.root, m.s.runs[pc.call.runId], pc)));
  }

  ghost predicate PublishesNothing(before: History, after: History) {
    forall id :: Published(after, id) == Published(before, id)
  }

  lemma OtherAnswer(h: History, e: Entry)
    requires !e.answer.Saved?
    ensures PublishesNothing(h, h + [e])
  {
    forall id ensures Published(h + [e], id) == Published(h, id) {
      PublishedSnoc(h, e, id);
      assert Published(h, id) + [] == Published(h, id);
    }
  }

  lemma FilesSameHolders(start: Files, m: Machine, n: Machine)
    requires FilesOk(start, m) && n.files == m.files && n.s.root == m.s.root
    requires PublishesNothing(m.history, n.history)
    requires forall t :: t in n.pcs ==> (t in m.pcs && n.pcs[t] == m.pcs[t]) || !n.pcs[t].Working?
    requires forall id :: Landing(Holder(n, id)) == Landing(Holder(m, id))
    ensures FilesStep(start, m, n)
  {
    forall t | t in n.pcs ensures SaveReady(n.files, n.s.root, n.pcs[t]) {
      if t in m.pcs { assert SaveReady(m.files, m.s.root, m.pcs[t]); }
    }
    FilesFrame(start, m, n);
  }

  lemma FilesAside(start: Files, m: Machine, n: Machine, t: Tid)
    requires LocksOk(m) && PcsOk(m) && FilesOk(start, m) && Aside(m, n, t)
    requires n.files == m.files && (t in n.pcs ==> !n.pcs[t].Working?)
    requires PublishesNothing(m.history, n.history)
    ensures FilesStep(start, m, n)
  {
    AsideLocal(m, n, t);
    AsideOthers(m, n, t);
    FilesSameHolders(start, m, n);
  }

  // ---------------------------------------------------------------- a counter increment or a file write

  lemma FilesCount(start: Files, m: Machine, t: Tid)
    requires LocksOk(m) && PcsOk(m) && FilesOk(start, m) && CanWork(m, t) && !m.pcs[t].call.SaveWeights?
    ensures FilesStep(start, m, DoWork(m, t))
  {
    assert PcOk(m.s, m.pcs[t]);
    WorkShape(m, t);
    FilesQuiet(start, m, DoWork(m, t), t, m.pcs[t].call.runId);
  }

  /** What a file write adds to the versions published for a run. */
  function Landed(job: Job, stage: nat, id: string): seq<int> {
    if stage == 3 && id == job.runId then [job.version] else []
  }

  lemma StageKeepsOwn(files: Files, root: Root, job: Job, stage: nat, id: string, version: nat)
    requires 1 <= stage < 4 && Plain(job.runId) && Plain(id)
    ensures OwnManifest(files, root, id, version) ==>
      OwnManifest(WriteStage(files, root, job, stage), root, id, version)
    ensures stage == 2 ==> OwnManifest(WriteStage(files, root, job, stage), root, job.runId, job.version)
  {
    PlacesCoincideIff(root, id, version, job.runId, job.version);
    PlacesCoincideIff(root, job.runId, job.version, id, version);
    PlainDirs(root, id, job.runId);
  }

  lemma PointerAfterStage(start: Files, files: Files, root: Root, job: Job, stage: nat, id: string,
                          versions: seq<int>)
    requires 1 <= stage < 4 && Tree(files) && StageReady(files, root, job, stage) && Succeeds(files, root, job, stage)
    requires Plain(job.runId) && Plain(id) && (stage == 3 ==> OwnManifest(files, root, job.runId, job.version))
    requires PointerMatches(start, files, root, id, versions)
    ensures PointerMatches(start, WriteStage(files, root, job, stage), root, id, versions + Landed(job, stage, id))
  {
    PlainDirs(root, id, job.runId);
    assert versions + [] == versions;
    if stage == 3 && id == job.runId {
      StageEstablishes(files, root, job, stage);
      StageKeepsOwn(files, root, job, stage, id, job.version);
    } else if versions != [] {
      StageKeepsFacts(files, root, job, stage, id, versions[|versions| - 1]);
      StageKeepsOwn(files, root, job, stage, id, versions[|versions| - 1]);
    } else {
      NotThatPointer(root, job, stage, id);
      StageElsewhere(files, root, job, stage, LatestPlace(root, id));
    }
  }

  /** n is m after t's next file write. */
  ghost predicate Writes(m: Machine, n: Machine, t: Tid, job: Job) {
    && Quiet(m, n, t, job.runId)
    && m.pcs[t].Working? && m.pcs[t].call.SaveWeights? && m.pcs[t].reply.Returns? && m.pcs[t].done < 4
    && job == SaveJob(m.pcs[t].call, m.pcs[t].before, m.pcs[t].reply.extra)
    && n.pcs[t] == Working(m.pcs[t].call, m.pcs[t].before, m.pcs[t].reply, m.pcs[t].done + 1, m.pcs[t].rest)
    && Succeeds(m.files, m.s.root, job, m.pcs[t].done)
    && n.files == WriteStage(m.files, m.s.root, job, m.pcs[t].done)
  }

  lemma WriteLands(m: Machine, n: Machine, t: Tid, job: Job, id: string)
    requires LocksOk(m) && PcsOk(m) && Writes(m, n, t, job)
    ensures PublishedNow(n, id) == PublishedNow(m, id) + Landed(job, m.pcs[t].done, id)
  {
    WorksOnLocal(m, n, t, job.runId);
    assert PublishedNow(m, id) + [] == PublishedNow(m, id);
    assert Published(m.history, id) + [] == Published(m.history, id);
  }

  lemma WritePointers(start: Files, m: Machine, n: Machine, t: Tid, job: Job)
    requires LocksOk(m) && PcsOk(m) && FilesOk(start, m) && Writes(m, n, t, job) && Plain(job.runId)
    requires m.pcs[t].done >= 1
    ensures forall id :: Plain(id) ==> PointerMatches(start, n.files, m.s.root, id, PublishedNow(n, id))
    ensures forall id :: OneMore(PublishedNow(m, id), PublishedNow(n, id))
  {
    assert SaveReady(m.files, m.s.root, m.pcs[t]);
    forall id
      ensures OneMore(PublishedNow(m, id), PublishedNow(n, id))
      ensures Plain(id) ==> PointerMatches(start, n.files, m.s.root, id, PublishedNow(n, id))
    {
      WriteLands(m, n, t, job, id);
      if Plain(id) {
        PointerAfterStage(start, m.files, m.s.root, job, m.pcs[t].done, id, PublishedNow(m, id));
      }
    }
  }

  lemma WriteReadiness(start: Files, m: Machine, n: Machine, t: Tid, job: Job)
    requires LocksOk(m) && PcsOk(m) && FilesOk(start, m) && Writes(m, n, t, job) && OrdinaryRuns(m.s)
    requires m.pcs[t].done >= 1
    ensures WellFormed(n.files, m.s.root)
    ensures forall u :: u in n.pcs ==> SaveReady(n.files, m.s.root, n.pcs[u])
  {
    var root, done := m.s.root, m.pcs[t].done;
    assert SaveReady(m.files, root, m.pcs[t]) && PcOk(m.s, m.pcs[t]);
    StageKeepsWellFormed(m.files, root, job, done);
    StageEstablishes(m.files, root, job, done);
    StageKeepsOwn(m.files, root, job, done, job.runId, job.version);
    forall u | u in n.pcs ensures SaveReady(n.files, root, n.pcs[u]) {
      if u != t {
        assert PcOk(m.s, m.pcs[u]);
        WriteKeepsReady(m.files, root, job, done, m.s, m.pcs[u]);
      }
    }
  }

  lemma FirstWriteIsStep(start: Files, m: Machine, n: Machine, t: Tid, job: Job)
    requires LocksOk(m) && PcsOk(m) && FilesOk(start, m) && Writes(m, n, t, job) && Ordinary(job.runId)
    requires m.pcs[t].done == 0
    ensures FilesStep(start, m, n)
  {
    FirstWriteIsReady(m.files, m.s.root, n.pcs[t], job);
    FilesMkdir(start, m, n, t, job.runId, |RunPath(m.s.root, job.runId).parts|);
  }

  lemma FirstWriteIsReady(files: Files, root: Root, after: Pc, job: Job)
    requires Succeeds(files, root, job, 0) && after.Working? && after.done == 1
    requires after.reply.Returns? && after.call.SaveWeights?
    requires job == SaveJob(after.call, after.before, after.reply.extra)
    ensures SaveReady(WriteStage(files, root, job, 0), root, after)
  {
  }

  lemma WriteIsStep(start: Files, m: Machine, n: Machine, t: Tid, job: Job)
    requires LocksOk(m) && PcsOk(m) && FilesOk(start, m) && Writes(m, n, t, job) && OrdinaryRuns(m.s)
    ensures FilesStep(start, m, n)
  {
    assert PcOk(m.s, m.pcs[t]);
    if m.pcs[t].done == 0 {
      FirstWriteIsStep(start, m, n, t, job);
    } else {
      WritePointers(start, m, n, t, job);
      WriteReadiness(start, m, n, t, job);
    }
  }

  lemma FilesWrite(start: Files, m: Machine, t: Tid)
    requires LocksOk(m) && PcsOk(m) && FilesOk(start, m) && CanWork(m, t) && m.pcs[t].call.SaveWeights?
    requires OrdinaryRuns(m.s)
    ensures FilesStep(start, m, DoWork(m, t))
  {
    assert PcOk(m.s, m.pcs[t]);
    WorkWrites(m, t);
    WriteIsStep(start, m, DoWork(m, t), t, SaveJob(m.pcs[t].call, m.pcs[t].before, m.pcs[t].reply.extra));
  }

  /** Taking the status CHECKPOINTING changes nothing that is written. */
  lemma JobOfBefore(call: Call, before: Run, done: nat, extra: Payload)
    requires call.SaveWeights?
    ensures SaveJob(call, Middle(call, before, done), extra) == SaveJob(call, before, extra)
  {
  }

  lemma WorkWrites(m: Machine, t: Tid)
    requires LocksOk(m) && CanWork(m, t) && m.pcs[t].call.SaveWeights? && PcOk(m.s, m.pcs[t])
    ensures Writes(m, DoWork(m, t), t, SaveJob(m.pcs[t].call, m.pcs[t].before, m.pcs[t].reply.extra))
  {
    WorkShape(m, t);
    SameJob(m, t);
  }

  lemma SameJob(m: Machine, t: Tid)
    requires CanWork(m, t) && m.pcs[t].call.SaveWeights? && PcOk(m.s, m.pcs[t])
    ensures SaveJob(m.pcs[t].call, m.s.runs[m.pcs[t].call.runId], m.pcs[t].reply.extra)
         == SaveJob(m.pcs[t].call, m.pcs[t].before, m.pcs[t].reply.extra)
  {
    JobOfBefore(m.pcs[t].call, m.pcs[t].before, m.pcs[t].done, m.pcs[t].reply.extra);
  }

  lemma WriteKeepsReady(files: Files, root: Root, job: Job, stage: nat, s: State, other: Pc)
    requires 1 <= stage < 4 && Tree(files) && Succeeds(files, root, job, stage) && SaveReady(files, root, other)
    requires Plain(job.runId) && PcOk(s, other) && OrdinaryRuns(s)
    ensures SaveReady(WriteStage(files, root, job, stage), root, other)
  {
    if other.Working? && other.call.SaveWeights? && other.reply.Returns? && other.done <= 3 {
      var its := SaveJob(other.call, other.before, other.reply.extra);
      StageKeepsFacts(files, root, job, stage, its.runId, its.version);
      ReadyStays(files, WriteStage(files, root, job, stage), root, its, other.done);
      StageKeepsFacts(files, root, job, stage, other.call.runId, other.before.checkpointVersion);
      StageKeepsOwn(files, root, job, stage, other.call.runId, other.before.checkpointVersion);
    }
  }

  // ---------------------------------------------------------------- every execution

  lemma AcquireLandsNothing(m: Machine, t: Tid, id: string)
    requires LocksOk(m) && CanAcquire(m, t)
    ensures Landing(Holder(DoAcquire(m, t), id)) == Landing(Holder(m, id))
  {
    HoldsNone(m, t);
  }

  lemma FilesAcquire(start: Files, m: Machine, t: Tid)
    requires LocksOk(m) && PcsOk(m) && FilesOk(start, m) && CanAcquire(m, t)
    ensures FilesStep(start, m, DoAcquire(m, t))
  {
    var n := DoAcquire(m, t);
    forall id ensures Landing(Holder(n, id)) == Landing(Holder(m, id)) {
      AcquireLandsNothing(m, t, id);
    }
    FilesSameHolders(start, m, n);
  }

  lemma ReleaseLandsNothing(m: Machine, t: Tid, id: string)
    requires LocksOk(m) && CanRelease(m, t)
    ensures Landing(Holder(DoRelease(m, t), id)) == Landing(Holder(m, id))
  {
    var n := DoRelease(m, t);
    assert n.pcs - {t} == m.pcs - {t};
    Unlocked(m, n, t, m.pcs[t].runId);
  }

  lemma FilesRelease(start: Files, m: Machine, t: Tid)
    requires LocksOk(m) && PcsOk(m) && FilesOk(start, m) && CanRelease(m, t)
    ensures FilesStep(start, m, DoRelease(m, t))
  {
    var n := DoRelease(m, t);
    forall id ensures Landing(Holder(n, id)) == Landing(Holder(m, id)) {
      ReleaseLandsNothing(m, t, id);
    }
    FilesSameHolders(start, m, n);
  }

  lemma CreateLandsNothing(m: Machine, t: Tid, reply: Reply, id: string)
    requires LocksOk(m) && CanCreateReply(m, t)
    ensures Landing(Holder(DoCreateReply(m, t, reply), id)) == Landing(Holder(m, id))
  {
    HoldsNone(m, t);
  }

  lemma FilesCreateReply(start: Files, m: Machine, t: Tid, reply: Reply)
    requires LocksOk(m) && PcsOk(m) && FilesOk(start, m) && CanCreateReply(m, t)
    ensures FilesStep(start, m, DoCreateReply(m, t, reply))
  {
    var n := DoCreateReply(m, t, reply);
    OtherAnswer(m.history, n.history[|m.history|]);
    forall id ensures Landing(Holder(n, id)) == Landing(Holder(m, id)) {
      CreateLandsNothing(m, t, reply, id);
    }
    FilesSameHolders(start, m, n);
  }

  lemma FilesStartCreate(start: Files, m: Machine, t: Tid, call: Call)
    requires LocksOk(m) && PcsOk(m) && FilesOk(start, m) && CanStartCreate(m, t, call)
    ensures FilesStep(start, m, DoStartCreate(m, t, call))
  {
    StartCreateShape(m, t, call);
    OtherAnswer(m.history, Entry(call, Raises, Rejected(InvalidRequest)));
    FilesAside(start, m, DoStartCreate(m, t, call), t);
  }

  lemma FilesScan(start: Files, m: Machine, t: Tid, id: string)
    requires LocksOk(m) && PcsOk(m) && FilesOk(start, m) && CanScan(m, t, id)
    ensures FilesStep(start, m, DoScan(m, t, id))
  {
    assert PcOk(m.s, m.pcs[t]);
    ScanShape(m, t, id);
    OtherAnswer(m.history, Entry(m.pcs[t].call, Raises, Rejected(InvalidRequest)));
    FilesAside(start, m, DoScan(m, t, id), t);
  }

  lemma FilesScanDone(start: Files, m: Machine, t: Tid)
    requires LocksOk(m) && PcsOk(m) && FilesOk(start, m) && CanScanDone(m, t)
    ensures FilesStep(start, m, DoScanDone(m, t))
  {
    assert PcOk(m.s, m.pcs[t]);
    ScanDoneShape(m, t);
    FilesAside(start, m, DoScanDone(m, t), t);
  }

  lemma FilesStartCall(start: Files, m: Machine, t: Tid, call: Call)
    requires LocksOk(m) && PcsOk(m) && FilesOk(start, m) && CanStartCall(m, t, call)
    ensures FilesStep(start, m, DoStartCall(m, t, call))
  {
    StartCallShape(m, t, call);
    if EntryError(m.s.runs, call).Some? {
      OtherAnswer(m.history, Entry(call, Raises, Rejected(EntryError(m.s.runs, call).value)));
    }
    FilesAside(start, m, DoStartCall(m, t, call), t);
  }

  lemma FilesStartClose(start: Files, m: Machine, t: Tid, order: seq<string>)
    requires LocksOk(m) && PcsOk(m) && FilesOk(start, m) && CanStartClose(m, t, order) && OrdinaryRuns(m.s)
    ensures FilesStep(start, m, DoStartClose(m, t, order))
  {
    StartCloseShape(m, t, order);
    FilesAside(start, m, DoStartClose(m, t, order), t);
  }

  lemma NextCloseWritesNothing(m: Machine, t: Tid)
    requires CanNextClose(m, t)
    ensures var n := DoNextClose(m, t);
      n.files == m.files && n.history == m.history && (t in n.pcs ==> !n.pcs[t].Working?)
  {
  }

  lemma FilesNextClose(start: Files, m: Machine, t: Tid)
    requires LocksOk(m) && PcsOk(m) && FilesOk(start, m) && CanNextClose(m, t)
    ensures FilesStep(start, m, DoNextClose(m, t))
  {
    assert PcOk(m.s, m.pcs[t]);
    NextCloseShape(m, t);
    NextCloseWritesNothing(m, t);
    FilesAside(start, m, DoNextClose(m, t), t);
  }

  lemma StepKeepsFiles(start: Files, m: Machine, a: Action)
    requires LocksOk(m) && PcsOk(m) && FilesOk(start, m) && Enabled(m, a) && OrdinaryRuns(m.s)
    ensures FilesStep(start, m, Do(m, a))
  {
    match a
    case StartCreate(t, call) => FilesStartCreate(start, m, t, call);
    case ScanOne(t, id) => FilesScan(start, m, t, id);
    case ScanDone(t) => FilesScanDone(start, m, t);
    case CreateReply(t, reply) => FilesCreateReply(start, m, t, reply);
    case StartCall(t, call) => FilesStartCall(start, m, t, call);
    case Acquire(t) => FilesAcquire(start, m, t);
    case Check(t) => FilesCheck(start, m, t);
    case RuntimeReply(t, reply) => FilesReply(start, m, t, reply);
    case Work(t) =>
      if m.pcs[t].call.SaveWeights? { FilesWrite(start, m, t); } else { FilesCount(start, m, t); }
    case WriteRaises(t, made) => FilesWriteRaise(start, m, t, made);
    case Settle(t) => FilesSettle(start, m, t);
    case Release(t) => FilesRelease(start, m, t);
    case StartClose(t, order) => FilesStartClose(start, m, t, order);
    case NextClose(t) => FilesNextClose(start, m, t);
  }

  lemma {:induction false} NamesAreOrdinary(n: nat)
    ensures forall id :: id in Names(n) ==> Ordinary(id)
  {
    if n > 0 {
      NamesAreOrdinary(n - 1);
      RunNameIsPlain(n);
      assert RunName(n)[0] == 'm';
    }
  }

  lemma RunsAreOrdinary(m: Machine)
    requires HistoryOk(m)
    ensures OrdinaryRuns(m.s)
  {
    LegalIsCoherent(m.s.root, m.history);
    NamesAreOrdinary(m.s.counter);
    assert forall id :: id in m.s.runs ==> id in Abstract(m).runs;
  }

  lemma FilesAfterStep(root: Root, ms: seq<Machine>, actions: seq<Action>, i: nat)
    requires Execution(root, ms, actions) && i < |actions| && FilesOk(ms[0].files, ms[i])
    ensures FilesStep(ms[0].files, ms[i], ms[i + 1])
  {
    ExecutionSound(root, ms, actions, i);
    StepOf(root, ms, actions, i);
    StepFiles(ms[0].files, ms[i], actions[i]);
  }

  lemma FilesOkAfterStep(root: Root, ms: seq<Machine>, actions: seq<Action>, i: nat, j: nat)
    requires Execution(root, ms, actions) && j == i + 1 <= |actions| && FilesOk(ms[0].files, ms[i])
    ensures FilesOk(ms[0].files, ms[j])
  {
    FilesAfterStep(root, ms, actions, i);
  }

  /** Whether the files are right, moment by moment. */
  ghost function FilesOkAt(start: Files, ms: seq<Machine>): (ok: seq<bool>)
    ensures |ok| == |ms|
  {
    seq(|ms|, i requires 0 <= i < |ms| => FilesOk(start, ms[i]))
  }

  lemma OkMeans(start: Files, ms: seq<Machine>, i: nat)
    requires i < |ms| && FilesOkAt(start, ms)[i]
    ensures FilesOk(start, ms[i])
  {
  }

  lemma MeansOk(start: Files, ms: seq<Machine>, i: nat)
    requires i < |ms| && FilesOk(start, ms[i])
    ensures FilesOkAt(start, ms)[i]
  {
  }

  lemma FilesOkNext(root: Root, ms: seq<Machine>, actions: seq<Action>, i: nat, j: nat)
    requires Execution(root, ms, actions) && j == i + 1 <= |actions| && FilesOkAt(ms[0].files, ms)[i]
    ensures FilesOkAt(ms[0].files, ms)[j]
  {
    OkMeans(ms[0].files, ms, i);
    FilesOkAfterStep(root, ms, actions, i, j);
    MeansOk(ms[0].files, ms, j);
  }

  lemma FilesStayOk(root: Root, ms: seq<Machine>, actions: seq<Action>, i: nat)
    requires Execution(root, ms, actions) && FilesOkAt(ms[0].files, ms)[0] && i <= |actions|
    ensures FilesOkAt(ms[0].files, ms)[i]
  {
    var ok := FilesOkAt(ms[0].files, ms);
    forall k | 0 < k < |ok| && ok[k - 1] ensures ok[k] {
      FilesOkNext(root, ms, actions, k - 1, k);
    }
    OnceThenAlways(ok, 0, i);
  }

  lemma ExecutionFiles(root: Root, ms: seq<Machine>, actions: seq<Action>, i: nat)
    requires Execution(root, ms, actions) && WellFormed(ms[0].files, root) && i <= |actions|
    ensures FilesOk(ms[0].files, ms[i])
  {
    StartFiles(root, ms[0].files);
    MeansOk(ms[0].files, ms, 0);
    FilesStayOk(root, ms, actions, i);
    OkMeans(ms[0].files, ms, i);
  }

  lemma StartFiles(root: Root, files: Files)
    requires WellFormed(files, root)
    ensures FilesOk(files, Start(root, files))
  {
    var m := Start(root, files);
    forall id | Plain(id) ensures PointerMatches(files, m.files, root, id, PublishedNow(m, id)) {
      assert PublishedNow(m, id) == [];
    }
  }

  lemma StepFiles(start: Files, m: Machine, a: Action)
    requires Sound(m) && FilesOk(start, m) && Enabled(m, a)
    ensures FilesStep(start, m, Do(m, a))
  {
    RunsAreOrdinary(m);
    StepKeepsFiles(start, m, a);
  }

  /** What an execution leaves is a store the next process can begin over. */
  lemma StoreStaysWellFormed(root: Root, ms: seq<Machine>, actions: seq<Action>, i: nat)
    requires Execution(root, ms, actions) && WellFormed(ms[0].files, root) && i <= |actions|
    ensures WellFormed(ms[i].files, root)
  {
    ExecutionFiles(root, ms, actions, i);
    ExecutionSound(root, ms, actions, i);
  }

  lemma LandingIsCurrent(m: Machine, id: string)
    requires Sound(m) && Landing(Holder(m, id)) != []
    ensures id in Abstract(m).runs && Landing(Holder(m, id)) == [Abstract(m).runs[id].checkpointVersion]
  {
    assert PcOk(m.s, m.pcs[m.locks[id]]);
  }

  lemma NewestIsLast(m: Machine, id: string)
    requires Sound(m)
    ensures Nondecreasing(PublishedNow(m, id))
  {
    PublishedNeverDecreases(m.s.root, m.history, id);
    if Landing(Holder(m, id)) != [] {
      LandingIsCurrent(m, id);
      SnocNondecreasing(Published(m.history, id), Abstract(m).runs[id].checkpointVersion);
    } else {
      assert Published(m.history, id) + [] == Published(m.history, id);
    }
  }

  lemma SamePointer(start: Files, files: Files, root: Root, id: string, v: nat)
    requires PointsTo(start, root, id, v) && WellFormed(files, root) && StillStored(start, files, root, id)
    ensures PointsTo(files, root, id, v)
  {
    var w :| PointsTo(files, root, id, w);
    PlacesCoincideIff(root, id, v, id, w);
  }

  /** What latest says about a plain id, given what was stored before and what was published since. */
  ghost predicate LatestFits(files: Files, root: Root, id: string, before: Result<WeightArtifact, Error>,
                             versions: seq<int>)
  {
    match Latest(files, root, id)
    case Err(e) => versions == [] && before == Err(e)
    case Ok(a) =>
      && a.checkpointVersion >= 0 && HasPayload(files, root, id, a.checkpointVersion)
      && Leads(files, root, a.payloadPath, PayloadPlace(root, id, a.checkpointVersion))
      && (versions == [] ==>
            && before.Ok? && a.checkpointVersion == before.value.checkpointVersion
            && (a.runId == before.value.runId ==> a == before.value.(kind := a.kind)))
      && (versions != [] ==>
            && a.runId == id && a.checkpointVersion == versions[|versions| - 1]
            && forall v :: v in versions ==> v <= a.checkpointVersion)
  }

  lemma StoredFits(start: Files, files: Files, root: Root, id: string)
    requires WellFormed(start, root) && WellFormed(files, root) && StillStored(start, files, root, id) && Plain(id)
    ensures LatestFits(files, root, id, Latest(start, root, id), [])
  {
    PlainDirs(root, id, id);
    PointerIfThere(start, root, id);
    PointerIfThere(files, root, id);
    LatestCases(start, root, id);
    LatestCases(files, root, id);
    if Latest(start, root, id).Ok? {
      var v :| PointsTo(start, root, id, v);
      SamePointer(start, files, root, id, v);
      PointerIsLatest(start, root, id, v);
      PointerIsLatest(files, root, id, v);
      PayloadLeads(files, root, id, v);
    }
  }

  /** The artifact found names the payload by a path that leads to it. */
  lemma PayloadLeads(files: Files, root: Root, id: string, v: nat)
    requires PointsTo(files, root, id, v) && Open(files, root, id) && id != ""
    ensures Latest(files, root, id).Ok?
    ensures Leads(files, root, Latest(files, root, id).value.payloadPath, PayloadPlace(root, id, v))
  {
    PointerIsLatest(files, root, id, v);
    var r := Latest(files, root, id).value.runId;
    StoreNames(v);
    FileReadsBack(root, r, PayloadName(v));
    LookupFile(files, root, r, PayloadName(v));
    WalkSnoc(files, Anchor(root, RunPath(root, r)), RunPath(root, r).parts, PayloadName(v));
  }

  lemma PublishedFits(files: Files, root: Root, id: string, before: Result<WeightArtifact, Error>, versions: seq<int>)
    requires WellFormed(files, root) && versions != [] && Nondecreasing(versions) && Plain(id)
    requires var last := versions[|versions| - 1];
      last >= 0 && PointsTo(files, root, id, last) && OwnManifest(files, root, id, last)
    ensures LatestFits(files, root, id, before, versions)
  {
    var last := versions[|versions| - 1];
    PlainDirs(root, id, id);
    UpFromDir(root, id, LATEST_NAME);
    OpenIfThere(files, root, id);
    PointerIsLatest(files, root, id, last);
    PayloadLeads(files, root, id, last);
  }

  lemma LatestOfMachine(start: Files, m: Machine, id: string)
    requires WellFormed(start, m.s.root) && Sound(m) && FilesOk(start, m) && Plain(id)
    ensures LatestFits(m.files, m.s.root, id, Latest(start, m.s.root, id), PublishedNow(m, id))
  {
    var versions := PublishedNow(m, id);
    assert PointerMatches(start, m.files, m.s.root, id, versions);
    if versions == [] {
      StoredFits(start, m.files, m.s.root, id);
    } else {
      NewestIsLast(m, id);
      PublishedFits(m.files, m.s.root, id, Latest(start, m.s.root, id), versions);
    }
  }

  /** At every moment of every execution over a well-formed store, and for every plain id: latest finds
      nothing exactly when nothing was stored for the run and nothing was published; until this backend
      publishes for the run, the stored version at its stored paths; and from then on the artifact this
      backend published last, which is the newest it published. */
  lemma LatestIsNewest(root: Root, ms: seq<Machine>, actions: seq<Action>, i: nat, id: string)
    requires Execution(root, ms, actions) && WellFormed(ms[0].files, root) && i <= |actions| && Plain(id)
    ensures LatestFits(ms[i].files, root, id, Latest(ms[0].files, root, id), PublishedNow(ms[i], id))
  {
    ExecutionSound(root, ms, actions, i);
    ExecutionFiles(root, ms, actions, i);
    LatestOfMachine(ms[0].files, ms[i], id);
  }

  // ---------------------------------------------------------------- what was saved is what is found

  lemma OtherWorkKeepsPayload(m: Machine, u: Tid, t: Tid, job: Job)
    requires Sound(m) && Tree(m.files) && CanWork(m, u) && m.pcs[u].call.SaveWeights? && u != t
    requires job.runId in m.s.runs && job.runId in m.locks && m.locks[job.runId] == t
    requires PayloadIs(m.files, m.s.root, job)
    ensures PayloadIs(DoWork(m, u).files, m.s.root, job)
  {
    OtherRunLocked(m, u, t, job.runId);
    var other := SaveJob(m.pcs[u].call, m.s.runs[m.pcs[u].call.runId], m.pcs[u].reply.extra);
    StageKeepsPayload(m.files, m.s.root, other, m.pcs[u].done, job);
  }

  lemma MkdirKeepsPayload(files: Files, root: Root, runId: string, made: nat, job: Job)
    requires Tree(files) && PayloadIs(files, root, job)
    ensures PayloadIs(Mkdir(files, root, runId, made), root, job)
  {
    MkdirAdds(files, root, runId, made);
  }

  /** A step of another thread leaves the payload of a save in a locked run alone. */
  lemma OthersKeepPayload(m: Machine, a: Action, t: Tid, job: Job)
    requires Sound(m) && Tree(m.files) && Enabled(m, a) && a.t != t
    requires job.runId in m.s.runs && job.runId in m.locks && m.locks[job.runId] == t
    requires PayloadIs(m.files, m.s.root, job)
    ensures PayloadIs(Do(m, a).files, m.s.root, job)
  {
    if a.WriteRaises? {
      assert Do(m, a) == DoWriteRaise(m, a.t, a.made);
      MkdirKeepsPayload(m.files, m.s.root, m.pcs[a.t].call.runId, a.made, job);
    } else if a.Work? && m.pcs[a.t].call.SaveWeights? {
      assert Do(m, a) == DoWork(m, a.t);
      OtherWorkKeepsPayload(m, a.t, t, job);
    } else {
      StepKeepsRoot(m, a);
    }
  }

  lemma OtherRunLocked(m: Machine, u: Tid, t: Tid, id: string)
    requires Sound(m) && u != t && id in m.s.runs && id in m.locks && m.locks[id] == t
    requires u in m.pcs && m.pcs[u].Working? && m.pcs[u].call.SaveWeights?
    ensures m.pcs[u].call.runId != id && Ordinary(m.pcs[u].call.runId) && Ordinary(id)
  {
    assert PcOk(m.s, m.pcs[u]);
    assert m.pcs[u].Holds() == Some(m.pcs[u].call.runId);
    RunsAreOrdinary(m);
  }

  lemma StageKeepsPayload(files: Files, root: Root, other: Job, stage: nat, job: Job)
    requires stage < 4 && Tree(files) && Ordinary(other.runId) && Ordinary(job.runId) && other.runId != job.runId
    requires PayloadIs(files, root, job)
    ensures PayloadIs(WriteStage(files, root, other, stage), root, job)
  {
    if stage == 0 {
      MkdirAdds(files, root, other.runId, |RunPath(root, other.runId).parts|);
    } else {
      PlainDirs(root, other.runId, job.runId);
      PlacesCoincideIff(root, other.runId, other.version, job.runId, job.version);
      PlacesCoincideIff(root, job.runId, job.version, other.runId, other.version);
    }
  }

  /** The save is past the write of its payload, and the payload is there; or it is not so far yet. */
  ghost predicate PayloadOnItsWay(m: Machine, t: Tid, call: Call, before: Run, reply: Reply) {
    && call.SaveWeights? && reply.Returns? && OnItsWay(m, t, call, before, reply)
    && (m.pcs[t].Working? && m.pcs[t].done >= 2 ==>
          PayloadIs(m.files, m.s.root, SaveJob(call, before, reply.extra)))
  }

  lemma OwnStepKeepsPayload(m: Machine, a: Action, t: Tid, call: Call, before: Run, reply: Reply)
    requires Sound(m) && Enabled(m, a) && a.t == t && a != Settle(t) && PayloadOnItsWay(m, t, call, before, reply)
    ensures PayloadOnItsWay(Do(m, a), t, call, before, reply)
  {
    assert PcOk(m.s, m.pcs[t]);
    StepKeepsRoot(m, a);
    WayGoesOn(m, a, t, call, before, reply);
    if a.Work? {
      assert Do(m, a) == DoWork(m, t);
      OwnWorkKeepsPayload(m, t, call, before, reply);
    } else if a.WriteRaises? {
      assert Do(m, a) == DoWriteRaise(m, t, a.made);
    }
  }

  lemma OwnWorkKeepsPayload(m: Machine, t: Tid, call: Call, before: Run, reply: Reply)
    requires CanWork(m, t) && PcOk(m.s, m.pcs[t]) && PayloadOnItsWay(m, t, call, before, reply)
    ensures m.pcs[t].done >= 1 ==> PayloadIs(DoWork(m, t).files, m.s.root, SaveJob(call, before, reply.extra))
  {
    var job := SaveJob(call, before, reply.extra);
    assert m.s.runs[call.runId] == before.(status := Checkpointing);
    assert SaveJob(call, m.s.runs[call.runId], reply.extra) == job;
    if m.pcs[t].done >= 2 {
      LaterStageKeepsPayload(m.files, m.s.root, job, m.pcs[t].done);
    }
  }

  lemma PayloadGoesOn(m: Machine, a: Action, t: Tid, call: Call, before: Run, reply: Reply)
    requires Sound(m) && Tree(m.files) && Enabled(m, a) && a != Settle(t)
    requires PayloadOnItsWay(m, t, call, before, reply)
    ensures PayloadOnItsWay(Do(m, a), t, call, before, reply)
  {
    if a.t == t {
      OwnStepKeepsPayload(m, a, t, call, before, reply);
    } else {
      OthersStay(m, a, t);
      StepKeepsRoot(m, a);
      assert PcOk(m.s, m.pcs[t]) && m.pcs[t].Holds() == Some(call.runId);
      if m.pcs[t].Working? && m.pcs[t].done >= 2 {
        OthersKeepPayload(m, a, t, SaveJob(call, before, reply.extra));
      }
    }
  }

  lemma {:induction false} PayloadStays(root: Root, ms: seq<Machine>, actions: seq<Action>, i: nat, j: nat, t: Tid,
                                        call: Call, before: Run, reply: Reply)
    requires Execution(root, ms, actions) && WellFormed(ms[0].files, root) && i <= j <= |actions|
    requires PayloadOnItsWay(ms[i], t, call, before, reply)
    requires forall k :: i <= k < j ==> actions[k] != Settle(t)
    ensures PayloadOnItsWay(ms[j], t, call, before, reply)
    decreases j - i
  {
    if i < j {
      PayloadStays(root, ms, actions, i, j - 1, t, call, before, reply);
      StepOf(root, ms, actions, j - 1);
      ExecutionSound(root, ms, actions, j - 1);
      ExecutionFiles(root, ms, actions, j - 1);
      PayloadGoesOn(ms[j - 1], actions[j - 1], t, call, before, reply);
    }
  }

  /** What latest finds for the id leads to a payload that tells of this run and this runtime reply. */
  ghost predicate FindsSaved(files: Files, root: Root, id: string, run: Run, extra: Payload) {
    var found := Latest(files, root, id);
    && found.Ok? && found.value.runId == id && found.value.checkpointVersion == run.checkpointVersion
    && var payload := Lookup(files, root, Parse(found.value.payloadPath));
       payload.Some? && payload.value.PayloadFile? && TellsOf(payload.value.payload, id, run, extra)
  }

  lemma PublishedAsSaved(m: Machine, start: Files, id: string, run: Run, job: Job, extra: Payload)
    requires Sound(m) && WellFormed(start, m.s.root) && FilesOk(start, m) && Plain(id)
    requires PublishedNow(m, id) != [] && PublishedNow(m, id)[|PublishedNow(m, id)| - 1] == run.checkpointVersion
    requires job.runId == id && job.version == run.checkpointVersion && job.payload == SavePayload(id, run, extra)
    requires PayloadIs(m.files, m.s.root, job)
    ensures FindsSaved(m.files, m.s.root, id, run, extra)
  {
    LatestOfMachine(start, m, id);
    assert PointerMatches(start, m.files, m.s.root, id, PublishedNow(m, id));
    PlainDirs(m.s.root, id, id);
    UpFromDir(m.s.root, id, LATEST_NAME);
    OpenIfThere(m.files, m.s.root, id);
    PointerIsLatest(m.files, m.s.root, id, run.checkpointVersion);
    TextsLead(m.files, m.s.root, id, run.checkpointVersion);
    SavePayloadTells(id, run, extra);
  }

  /** When a save settles with an artifact, its payload is there and its version is the last published. */
  lemma SettleOfSave(m: Machine, t: Tid, call: Call, before: Run, reply: Reply)
    requires Sound(m) && CanSettle(m, t) && PayloadOnItsWay(m, t, call, before, reply) && m.pcs[t].Working?
    ensures var n, id := DoSettle(m, t), call.runId;
      && n.files == m.files && PayloadIs(n.files, m.s.root, SaveJob(call, before, reply.extra))
      && PublishedNow(n, id) == Published(m.history, id) + [before.checkpointVersion]
  {
    var n, id := DoSettle(m, t), call.runId;
    assert PcOk(m.s, m.pcs[t]);
    assert m.pcs[t].Holds() == Some(id) && id in m.locks && m.locks[id] == t;
    PublishedSnoc(m.history, n.history[|m.history|], id);
    assert Landing(Holder(n, id)) == [];
    assert Published(n.history, id) + [] == Published(n.history, id);
  }

  lemma SavedStarts(root: Root, ms: seq<Machine>, actions: seq<Action>, i: nat, t: Tid, reply: Reply)
    requires Execution(root, ms, actions) && i < |actions| && actions[i] == RuntimeReply(t, reply)
    requires CanReply(ms[i], t, reply) && ms[i].pcs[t].call.SaveWeights? && reply.Returns?
    ensures PayloadOnItsWay(ms[i + 1], t, ms[i].pcs[t].call, ms[i].pcs[t].before, reply)
  {
    ReplyFinds(root, ms, actions, i, t, reply);
    StepOf(root, ms, actions, i);
    assert Do(ms[i], actions[i]) == DoReply(ms[i], t, reply);
  }

  lemma SettledIsFound(start: Files, m: Machine, t: Tid, call: Call, before: Run, reply: Reply)
    requires Sound(m) && CanSettle(m, t) && PayloadOnItsWay(m, t, call, before, reply) && m.pcs[t].Working?
    requires var n := DoSettle(m, t); Sound(n) && FilesOk(start, n) && WellFormed(start, n.s.root)
    requires Plain(call.runId)
    ensures FindsSaved(DoSettle(m, t).files, m.s.root, call.runId, before, reply.extra)
  {
    SettleOfSave(m, t, call, before, reply);
    PublishedAsSaved(DoSettle(m, t), start, call.runId, before, SaveJob(call, before, reply.extra), reply.extra);
  }

  /** The run may be told of as it was at the runtime's reply: only its status differs. */
  lemma SameTold(files: Files, root: Root, id: string, before: Run, extra: Payload)
    requires FindsSaved(files, root, id, before, extra)
    ensures FindsSaved(files, root, id, before.(status := Checkpointing), extra)
  {
  }

  lemma SavedEnds(root: Root, ms: seq<Machine>, actions: seq<Action>, j: nat, t: Tid, call: Call, before: Run,
                  reply: Reply)
    requires Execution(root, ms, actions) && WellFormed(ms[0].files, root) && j < |actions| && actions[j] == Settle(t)
    requires PayloadOnItsWay(ms[j], t, call, before, reply) && ms[j].pcs[t].Working?
    ensures FindsSaved(ms[j + 1].files, root, call.runId, before, reply.extra)
  {
    StepOf(root, ms, actions, j);
    ExecutionSound(root, ms, actions, j);
    ExecutionSound(root, ms, actions, j + 1);
    ExecutionFiles(root, ms, actions, j + 1);
    assert Do(ms[j], actions[j]) == DoSettle(ms[j], t);
    SavesOrdinary(ms[j], t);
    SettledIsFound(ms[0].files, ms[j], t, call, before, reply);
  }

  lemma SavesOrdinary(m: Machine, t: Tid)
    requires Sound(m) && t in m.pcs && m.pcs[t].Working?
    ensures !m.pcs[t].call.Create? && Plain(m.pcs[t].call.runId)
  {
    assert PcOk(m.s, m.pcs[t]);
    RunsAreOrdinary(m);
  }

  /** The last call answered, was answered with an artifact. */
  ghost predicate JustSaved(m: Machine) {
    m.history != [] && m.history[|m.history| - 1].answer.Saved?
  }

  lemma SavedMeansWorking(root: Root, ms: seq<Machine>, actions: seq<Action>, j: nat, t: Tid)
    requires Execution(root, ms, actions) && j < |actions| && actions[j] == Settle(t) && JustSaved(ms[j + 1])
    ensures t in ms[j].pcs && ms[j].pcs[t].Working?
  {
    StepOf(root, ms, actions, j);
    assert Do(ms[j], actions[j]) == DoSettle(ms[j], t);
  }

  lemma WorkingReturned(m: Machine, t: Tid, call: Call, before: Run, reply: Reply)
    requires OnItsWay(m, t, call, before, reply) && m.pcs[t].Working?
    ensures reply.Returns?
  {
  }

  /** In every interleaving over a well-formed store: when a save is answered with an artifact, what latest
      finds for its run leads to a file with everything the runtime returned for this save in it. */
  lemma SaveIsFoundByThreads(root: Root, ms: seq<Machine>, actions: seq<Action>, i: nat, j: nat, t: Tid, reply: Reply)
    requires Execution(root, ms, actions) && WellFormed(ms[0].files, root) && i < j < |actions|
    requires actions[i] == RuntimeReply(t, reply) && actions[j] == Settle(t) && JustSaved(ms[j + 1])
    requires forall k :: i < k < j ==> actions[k] != Settle(t)
    requires t in ms[i].pcs && ms[i].pcs[t].InRuntime? && ms[i].pcs[t].call.SaveWeights?
    ensures var id := ms[i].pcs[t].call.runId;
      reply.Returns? && id in ms[i].s.runs && FindsSaved(ms[j + 1].files, root, id, ms[i].s.runs[id], reply.extra)
  {
    var call, before := ms[i].pcs[t].call, ms[i].pcs[t].before;
    ReplyFinds(root, ms, actions, i, t, reply);
    StillOnItsWay(root, ms, actions, i + 1, j, t, call, before, reply);
    SavedMeansWorking(root, ms, actions, j, t);
    WorkingReturned(ms[j], t, call, before, reply);
    SavedStarts(root, ms, actions, i, t, reply);
    PayloadStays(root, ms, actions, i + 1, j, t, call, before, reply);
    SavedEnds(root, ms, actions, j, t, call, before, reply);
    SameTold(ms[j + 1].files, root, call.runId, before, reply.extra);
  }

  // ---------------------------------------------------------------- the newest of all

  /** Whatever latest finds for the run at some moment after this backend first published for it is at
      least as new as what was stored before. */
  ghost predicate AlwaysNewest(root: Root, ms: seq<Machine>, i: nat, id: string)
    requires i < |ms|
  {
    var before := Latest(ms[0].files, root, id);
    forall j :: 0 <= j <= i && PublishedNow(ms[j], id) != [] && before.Ok? ==>
      Latest(ms[j].files, root, id).Ok?
      && Latest(ms[j].files, root, id).value.checkpointVersion >= before.value.checkpointVersion
  }

  lemma PublishedOneMore(root: Root, ms: seq<Machine>, actions: seq<Action>, i: nat, id: string)
    requires Execution(root, ms, actions) && WellFormed(ms[0].files, root) && i < |actions|
    ensures OneMore(PublishedNow(ms[i], id), PublishedNow(ms[i + 1], id))
  {
    ExecutionFiles(root, ms, actions, i);
    FilesAfterStep(root, ms, actions, i);
  }

  /** What is published for the run, moment by moment. */
  ghost function PublishedAt(ms: seq<Machine>, id: string): (all: seq<seq<int>>)
    ensures |all| == |ms| && forall i :: 0 <= i < |ms| ==> all[i] == PublishedNow(ms[i], id)
  {
    seq(|ms|, i requires 0 <= i < |ms| => PublishedNow(ms[i], id))
  }

  /** Each entry of a list is the one before it, or one element more. */
  ghost predicate GrowsByOne(all: seq<seq<int>>) {
    forall k {:trigger all[k]} :: 0 < k < |all| ==> OneMore(all[k - 1], all[k])
  }

  lemma NothingPublishedYet(root: Root, ms: seq<Machine>, actions: seq<Action>, id: string)
    requires Execution(root, ms, actions)
    ensures PublishedAt(ms, id)[0] == []
  {
  }

  lemma GrowsAtEachMoment(ms: seq<Machine>, id: string)
    requires forall k {:trigger ms[k]} :: 0 < k < |ms| ==> OneMore(PublishedNow(ms[k - 1], id), PublishedNow(ms[k], id))
    ensures GrowsByOne(PublishedAt(ms, id))
  {
  }

  lemma PublishedGrowsByOne(root: Root, ms: seq<Machine>, actions: seq<Action>, id: string)
    requires Execution(root, ms, actions) && WellFormed(ms[0].files, root)
    ensures GrowsByOne(PublishedAt(ms, id))
  {
    forall k | 0 < k < |ms| ensures OneMore(PublishedNow(ms[k - 1], id), PublishedNow(ms[k], id)) {
      PublishedOneMore(root, ms, actions, k - 1, id);
    }
    GrowsAtEachMoment(ms, id);
  }

  lemma {:induction false} GrownIsLonger(all: seq<seq<int>>, j: nat, i: nat)
    requires GrowsByOne(all) && j <= i < |all|
    ensures all[j] <= all[i]
  {
    if j < i {
      GrownIsLonger(all, j, i - 1);
    }
  }

  lemma {:induction false} FirstGrown(all: seq<seq<int>>, i: nat) returns (j: nat)
    requires GrowsByOne(all) && i < |all| && all[0] == [] && all[i] != []
    ensures j <= i && all[j] == all[i][..1]
  {
    if all[i - 1] == [] {
      j := i;
    } else {
      j := FirstGrown(all, i - 1);
    }
  }

  /** The first version published is found at some moment. */
  lemma FirstIsFound(root: Root, ms: seq<Machine>, actions: seq<Action>, i: nat, id: string) returns (j: nat)
    requires Execution(root, ms, actions) && WellFormed(ms[0].files, root) && i <= |actions| && Plain(id)
    requires PublishedNow(ms[i], id) != []
    ensures j <= i && PublishedNow(ms[j], id) != []
    ensures Latest(ms[j].files, root, id).Ok?
    ensures Latest(ms[j].files, root, id).value.checkpointVersion == PublishedNow(ms[i], id)[0]
  {
    PublishedGrowsByOne(root, ms, actions, id);
    NothingPublishedYet(root, ms, actions, id);
    j := FirstGrown(PublishedAt(ms, id), i);
    LatestIsNewest(root, ms, actions, j, id);
  }

  /** What is found later is at least as new as the first version published. */
  lemma FoundIsNewer(root: Root, ms: seq<Machine>, actions: seq<Action>, j: nat, i: nat, id: string)
    requires Execution(root, ms, actions) && WellFormed(ms[0].files, root) && j <= i <= |actions| && Plain(id)
    requires PublishedNow(ms[j], id) != []
    ensures PublishedNow(ms[i], id) != [] && Latest(ms[j].files, root, id).Ok?
    ensures Latest(ms[j].files, root, id).value.checkpointVersion >= PublishedNow(ms[i], id)[0]
  {
    PublishedGrowsByOne(root, ms, actions, id);
    GrownIsLonger(PublishedAt(ms, id), j, i);
    LatestIsNewest(root, ms, actions, j, id);
    assert PublishedNow(ms[j], id)[0] in PublishedNow(ms[j], id);
  }

  /** Latest is the newest of all, from the first version this backend publishes for the run on, exactly
      when the version stored before is at most that first one. A restart counts versions from 0 again. */
  lemma NewestOfAllIff(root: Root, ms: seq<Machine>, actions: seq<Action>, i: nat, id: string)
    requires Execution(root, ms, actions) && WellFormed(ms[0].files, root) && i <= |actions| && Plain(id)
    requires PublishedNow(ms[i], id) != []
    ensures AlwaysNewest(root, ms, i, id) <==>
      (Latest(ms[0].files, root, id).Ok? ==>
         Latest(ms[0].files, root, id).value.checkpointVersion <= PublishedNow(ms[i], id)[0])
  {
    var first := FirstIsFound(root, ms, actions, i, id);
    forall j | 0 <= j <= i && PublishedNow(ms[j], id) != []
      ensures Latest(ms[j].files, root, id).Ok?
      ensures Latest(ms[j].files, root, id).value.checkpointVersion >= PublishedNow(ms[i], id)[0]
    {
      FoundIsNewer(root, ms, actions, j, i, id);
    }
  }

  /** The step of a save in the artifact store. */
  predicate IsStoreStep(m: Machine, a: Action)
    requires Enabled(m, a)
  {
    (a.Work? && m.pcs[a.t].call.SaveWeights?) || a.WriteRaises?
  }

  /** What may change what latest finds for an id: a save in the id's directory, or, for an id with ".."
      under which nothing was found, the directory a save makes. */
  ghost predicate MayChange(m: Machine, a: Action, id: string)
    requires Enabled(m, a)
  {
    && IsStoreStep(m, a)
    && (SameDir(m.s.root, id, m.pcs[a.t].call.runId) ||
        (Latest(m.files, m.s.root, id) == Err(NotFound) && !NoDots(id)))
  }

  lemma StoreStepKeepsLatest(m: Machine, a: Action, id: string)
    requires LocksOk(m) && PcsOk(m) && WellFormed(m.files, m.s.root) && OrdinaryRuns(m.s)
    requires Enabled(m, a) && IsStoreStep(m, a)
    ensures Latest(Do(m, a).files, m.s.root, id) == Latest(m.files, m.s.root, id) || MayChange(m, a, id)
  {
    var pc, root := m.pcs[a.t], m.s.root;
    assert PcOk(m.s, pc);
    OrdinaryIs(pc.call.runId);
    if a.Work? {
      assert Do(m, a) == DoWork(m, a.t);
      StageKeepsOtherRuns(m.files, root, SaveJob(pc.call, m.s.runs[pc.call.runId], pc.reply.extra), pc.done, id);
    } else {
      assert Do(m, a) == DoWriteRaise(m, a.t, a.made);
      MkdirKeepsLatest(m.files, root, pc.call.runId, a.made, id);
    }
  }

  /** Only a save in the same directory can change what latest finds for an id, save that the directory a
      save makes may open the way for an id with ".." under which nothing was found. */
  lemma OthersKeepLatest(root: Root, ms: seq<Machine>, actions: seq<Action>, i: nat, id: string)
    requires Execution(root, ms, actions) && WellFormed(ms[0].files, root) && i < |actions|
    ensures Enabled(ms[i], actions[i])
    ensures Latest(ms[i + 1].files, root, id) == Latest(ms[i].files, root, id) || MayChange(ms[i], actions[i], id)
  {
    ExecutionFiles(root, ms, actions, i);
    ExecutionSound(root, ms, actions, i);
    StepOf(root, ms, actions, i);
    if IsStoreStep(ms[i], actions[i]) {
      RunsAreOrdinary(ms[i]);
      StoreStepKeepsLatest(ms[i], actions[i], id);
    } else {
      StepKeepsRoot(ms[i], actions[i]);
    }
  }
}
