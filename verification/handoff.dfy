/** From training to sampling: what a save puts into the store is what the sampling server is brought up
    with. */
module Handoff {
  import opened Wrappers
  import opened Contracts
  import opened Paths
  import opened Disks
  import opened Artifacts
  import opened AdapterNames
  import opened SGLangCaches
  import opened SGLangSampling
  import Training = TrainingSpec
  import Threads = TrainingThreads
  import S = SGLangSpec

  /** What the Megatron Bridge runtime returns from a save: the kind of export, where it is, and what the
      exporter adds. */
  function BridgeReturns(tuning: TuningMode, path: string, exported: Payload): Payload {
    map["backend" := "megatron-bridge", "runtime" := "megatron-bridge",
        "artifact_format" := match tuning case Lora => "hf-lora-adapter" case Full => "hf-full-safetensors",
        "checkpoint_path" := path] + exported
  }

  /** The exporter names the same directory, under the key of its kind, and leaves the other keys alone. */
  ghost predicate Exported(tuning: TuningMode, path: string, exported: Payload) {
    && path != ""
    && "artifact_format" !in exported && "base_model" !in exported
    && match tuning
       case Lora => "hf_adapter_path" in exported && exported["hf_adapter_path"] == path
       case Full => "hf_checkpoint_path" in exported && exported["hf_checkpoint_path"] == path
  }

  /** The full checkpoint is served from where it was exported to; an adapter is loaded from there, onto
      the configured model or the one the run started from. */
  ghost predicate ServesExport(c: S.Config, runId: string, run: Training.Run, path: string, l: S.Loaded) {
    match run.tuning
    case Full => l.modelPath == path && l.adapter == None
    case Lora =>
      && l.modelPath == (if c.modelPath != "" then c.modelPath else run.baseModel)
      && l.adapter == Some(S.Adapter(AdapterName(runId, l.artifact.checkpointVersion), path))
  }

  lemma AdapterResolves(c: S.Config, runId: string, artifact: WeightArtifact, payload: Payload, run: Training.Run,
                        path: string)
    requires run.tuning == Lora && run.baseModel != "" && path != ""
    requires S.Field(payload, "artifact_format") == "hf-lora-adapter"
    requires S.Field(payload, "hf_adapter_path") == path && S.Field(payload, "base_model") == run.baseModel
    ensures var r := S.Resolve(c, runId, artifact, payload);
      r.Ok? && r.value.artifact == artifact && r.value.payload == payload && ServesExport(c, runId, run, path, r.value)
  {
  }

  lemma CheckpointResolves(c: S.Config, runId: string, artifact: WeightArtifact, payload: Payload, run: Training.Run,
                           path: string)
    requires run.tuning == Full && path != ""
    requires S.Field(payload, "artifact_format") == "hf-full-safetensors"
    requires S.Field(payload, "hf_checkpoint_path") == path
    ensures var r := S.Resolve(c, runId, artifact, payload);
      r.Ok? && r.value.artifact == artifact && r.value.payload == payload && ServesExport(c, runId, run, path, r.value)
  {
  }

  /** Every payload that tells of such a save can be served, and is. */
  lemma ExportResolves(c: S.Config, runId: string, artifact: WeightArtifact, payload: Payload, run: Training.Run,
                       path: string, exported: Payload)
    requires run.baseModel != "" && Exported(run.tuning, path, exported)
    requires Threads.TellsOf(payload, runId, run, BridgeReturns(run.tuning, path, exported))
    ensures var r := S.Resolve(c, runId, artifact, payload);
      r.Ok? && r.value.artifact == artifact && r.value.payload == payload && ServesExport(c, runId, run, path, r.value)
  {
    var extra := BridgeReturns(run.tuning, path, exported);
    assert "artifact_format" in extra && "base_model" !in extra;
    match run.tuning
    case Lora =>
      assert "hf_adapter_path" in extra;
      AdapterResolves(c, runId, artifact, payload, run, path);
    case Full =>
      assert "hf_checkpoint_path" in extra;
      CheckpointResolves(c, runId, artifact, payload, run, path);
  }

  /** A runtime that returns no format of its own saves something that is not served: the backend's own
      format is refused. */
  lemma OwnFormatRefused(c: S.Config, runId: string, artifact: WeightArtifact, payload: Payload, run: Training.Run,
                         extra: Payload)
    requires "artifact_format" !in extra && Threads.TellsOf(payload, runId, run, extra)
    ensures S.Resolve(c, runId, artifact, payload) == Err(InvalidRequest)
  {
  }

  /** _read_artifact_payload: the payload file an artifact names. */
  function ReadPayload(files: Files, root: Root, artifact: WeightArtifact): Result<Payload, Error> {
    match Artifacts.Lookup(files, root, Parse(artifact.payloadPath))
    case Some(PayloadFile(payload)) => Ok(payload)
    case Some(Folder) => Err(OsError)
    case _ => Err(InvalidRequest)
  }

  lemma BroughtUp(c: S.Config, rt: S.Runtime, wanted: S.Loaded, w: S.World)
    requires c.launchServer && CacheTrue(c, rt) && w.launch.Healthy? && w.post.PostOk?
    requires wanted.adapter.Some? ==> c.enableLora
    ensures var (after, error) := S.Bring(c, rt, wanted, w);
      error.None? && Runs(after, wanted.modelPath) && (wanted.adapter.Some? ==> S.Cached(after, wanted.adapter.value))
  {
    PolledGrows(c, rt);
    EnsuredRuns(c, rt, wanted.modelPath, w.launch);
  }

  lemma RefreshBrings(c: S.Config, s: S.Sampler, runId: string, w: S.World, wanted: S.Loaded)
    requires runId != "" && w.latest.Ok? && w.payload.Ok?
    requires S.Resolve(c, runId, w.latest.value, w.payload.value) == Ok(wanted)
    requires S.Bring(c, s.runtime, wanted, w).1.None?
    ensures var (after, r) := S.RefreshWeights(c, s, runId, None, w);
      && r == Ok(wanted) && after.runtime == S.Bring(c, s.runtime, wanted, w).0
      && runId in after.loaded && after.loaded[runId] == wanted
  {
  }

  // What the sampler's surroundings answer, all going well: the store as it is, a healthy launch, an
  // acknowledged post.
  ghost predicate AnswersFrom(w: S.World, files: Files, root: Root, runId: string) {
    && w.latest == Latest(files, root, runId)
    && (w.latest.Ok? ==> w.payload == ReadPayload(files, root, w.latest.value))
    && w.launch.Healthy? && w.post.PostOk?
  }

  function ExportJob(runId: string, run: Training.Run, kind: ArtifactKind, path: string, exported: Payload): Job {
    Threads.SaveJob(Training.SaveWeights(runId, kind), run, BridgeReturns(run.tuning, path, exported))
  }

  /** The whole way: a save of what the Bridge runtime exported, then, after any history of the sampler, a
      refresh from the store. It loads the artifact just saved, on a running server launched with the model
      it asks for. */
  lemma SaveIsServed(files: Files, root: Root, runId: string, run: Training.Run, kind: ArtifactKind, path: string,
                     exported: Payload, c: S.Config, actions: seq<S.Action>, w: S.World)
    requires WellFormed(files, root) && runId != "" && run.baseModel != "" && Exported(run.tuning, path, exported)
    requires c.launchServer && (run.tuning == Lora ==> c.enableLora)
    requires var job := ExportJob(runId, run, kind, path, exported);
      WritesThrough(files, root, job, 4) && AnswersFrom(w, WriteStages(files, root, job, 4), root, runId)
    ensures var (after, r) := S.RefreshWeights(c, S.After(c, actions), runId, None, w);
      && r.Ok? && r.value.artifact == ArtifactOf(root, runId, run.checkpointVersion, kind)
      && ServesExport(c, runId, run, path, r.value)
      && runId in after.loaded && after.loaded[runId] == r.value
      && Runs(after.runtime, r.value.modelPath)
      && (r.value.adapter.Some? ==> S.Cached(after.runtime, r.value.adapter.value))
  {
    var job, s := ExportJob(runId, run, kind, path, exported), S.After(c, actions);
    SaveIsFound(files, root, job);
    Threads.SavePayloadTells(runId, run, BridgeReturns(run.tuning, path, exported));
    ExportResolves(c, runId, w.latest.value, job.payload, run, path, exported);
    var wanted := S.Resolve(c, runId, w.latest.value, job.payload).value;
    HistoryKeepsCache(c, actions);
    BroughtUp(c, s.runtime, wanted, w);
    RefreshBrings(c, s, runId, w, wanted);
  }
}
