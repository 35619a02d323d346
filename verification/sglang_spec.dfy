/** Sampling through an SGLang server: the server processes, the runtime that launches one and
    loads adapters into it, and the backend that remembers what each run loaded last. Processes,
    launches and HTTP answers are chosen by the environment; every function says what one call
    does under one choice. */
module SGLangSpec {
  import opened Wrappers
  import opened Contracts
  import opened AdapterNames

  const BASE_MODEL_FORMAT := "base-model"
  const HF_FULL_FORMAT := "hf-full-safetensors"
  const HF_LORA_FORMAT := "hf-lora-adapter"

  datatype Config = Config(launchServer: bool, enableLora: bool, modelPath: string)

  // One incarnation of the server: the model it was launched with, the adapter posts that were
  // acknowledged, and the adapters it holds (a post may take effect and its answer be lost).
  datatype Server = Server(model: string, alive: bool, posted: map<string, string>, bound: map<string, string>)

  // The runtime's own fields, beside every server there has been.
  datatype Runtime = Runtime(
    process: Option<nat>,
    activeModelPath: string,
    loadedLoras: map<string, string>,
    servers: seq<Server>)

  datatype Adapter = Adapter(name: string, path: string)

  datatype Loaded = Loaded(
    artifact: WeightArtifact,
    format: string,
    modelPath: string,
    adapter: Option<Adapter>,
    payload: Payload)

  datatype LaunchReply = PopenFails | ExitsDuringStartup | HealthTimeout | Healthy
  datatype PostReply = PostOk | PostRefused | PostLost

  // What the surroundings answer during one call: the artifact store, the payload file, the launch
  // and the adapter post.
  datatype World = World(
    latest: Result<WeightArtifact, Error>,
    payload: Result<Payload, Error>,
    launch: LaunchReply,
    post: PostReply)

  datatype SampleRequest = SampleRequest(
    tokenIds: seq<int>, text: string, maxTokens: int, temperature: real, topP: real, numSamples: int)
  {
    predicate Valid() {
      && (tokenIds != [] || text != "") && (tokenIds == [] || text == "")
      && maxTokens > 0 && temperature >= 0.0 && 0.0 < topP <= 1.0 && numSamples > 0
    }
  }

  // ---------------------------------------------------------------- the runtime

  /** The server that requests reach: the process held, or the one configured from outside. */
  function Target(c: Config, rt: Runtime): Option<nat> {
    if c.launchServer then rt.process else Some(0)
  }

  predicate Up(c: Config, rt: Runtime) {
    var target := Target(c, rt);
    target.Some? && target.value < |rt.servers| && rt.servers[target.value].alive
  }

  /** A server process ends: killed, or on its own. */
  function Ended(rt: Runtime, k: nat): Runtime {
    if k < |rt.servers| then rt.(servers := rt.servers[k := rt.servers[k].(alive := false)]) else rt
  }

  /** Forget a process that has exited. */
  function Polled(rt: Runtime): Runtime {
    if rt.process.Some? && rt.process.value < |rt.servers| && !rt.servers[rt.process.value].alive
    then rt.(process := None, activeModelPath := "", loadedLoras := map[]) else rt
  }

  /** close: the process held is terminated and stays held. */
  function Closed(rt: Runtime): Runtime {
    if rt.process.Some? then Ended(rt, rt.process.value) else rt
  }

  function Launched(rt: Runtime, model: string, alive: bool): Runtime {
    Runtime(Some(|rt.servers|), model, rt.loadedLoras, rt.servers + [Server(model, alive, map[], map[])])
  }

  /** Replace the server; the adapter cache is dropped before the launch is tried. */
  function Relaunch(rt: Runtime, modelPath: string, reply: LaunchReply): (Runtime, Option<Error>) {
    var stopped := Closed(rt).(loadedLoras := map[]);
    match reply
    case PopenFails => (stopped, Some(RuntimeRaised))
    case ExitsDuringStartup => (Launched(stopped, modelPath, false), Some(BackendUnavailable))
    case HealthTimeout => (Launched(stopped, modelPath, true), Some(BackendUnavailable))
    case Healthy => (Launched(stopped, modelPath, true), None)
  }

  function EnsureServer(c: Config, rt: Runtime, modelPath: string, reply: LaunchReply): (Runtime, Option<Error>) {
    if !c.launchServer then (rt, None)
    else
      var polled := Polled(rt);
      if polled.process.Some? && polled.activeModelPath == modelPath then (polled, None)
      else Relaunch(polled, modelPath, reply)
  }

  function Post(c: Config, rt: Runtime, adapter: Adapter, reply: PostReply): (Runtime, Option<Error>) {
    if !Up(c, rt) || reply.PostRefused? then (rt, Some(BackendUnavailable))
    else
      var k := Target(c, rt).value;
      var held := rt.servers[k].(bound := rt.servers[k].bound[adapter.name := adapter.path]);
      if reply.PostLost? then (rt.(servers := rt.servers[k := held]), Some(BackendUnavailable))
      else (rt.(servers := rt.servers[k := held.(posted := held.posted[adapter.name := adapter.path])]), None)
  }

  predicate Cached(rt: Runtime, adapter: Adapter) {
    adapter.name in rt.loadedLoras && rt.loadedLoras[adapter.name] == adapter.path
  }

  function LoadLora(c: Config, rt: Runtime, adapter: Adapter, reply: PostReply): (Runtime, Option<Error>) {
    if !c.enableLora then (rt, Some(InvalidRequest))
    else if Cached(rt, adapter) then (rt, None)
    else
      var (posted, error) := Post(c, rt, adapter, reply);
      if error.Some? then (posted, error)
      else (posted.(loadedLoras := posted.loadedLoras[adapter.name := adapter.path]), None)
  }

  /** A payload value, with a missing key read as the empty text. */
  function Field(payload: Payload, key: string): string {
    if key in payload then payload[key] else ""
  }

  function Required(payload: Payload, key: string): Result<string, Error> {
    if Field(payload, key) != "" then Ok(Field(payload, key)) else Err(InvalidRequest)
  }

  function Format(payload: Payload): string {
    if Field(payload, "artifact_format") == "" && Field(payload, "base_model") != "" then BASE_MODEL_FORMAT
    else Field(payload, "artifact_format")
  }

  function LoraBaseModelPath(c: Config, payload: Payload): Result<string, Error> {
    if c.modelPath != "" then Ok(c.modelPath) else Required(payload, "base_model")
  }

  function FullModelPath(c: Config, payload: Payload): Result<string, Error> {
    if Field(payload, "hf_checkpoint_path") != "" then Ok(Field(payload, "hf_checkpoint_path"))
    else if Field(payload, "checkpoint_path") != "" then Ok(Field(payload, "checkpoint_path"))
    else LoraBaseModelPath(c, payload)
  }

  /** What an artifact's payload asks to be loaded, or why it cannot be. */
  function Resolve(c: Config, runId: string, artifact: WeightArtifact, payload: Payload): Result<Loaded, Error> {
    var format := Format(payload);
    if format == BASE_MODEL_FORMAT || format == HF_FULL_FORMAT then
      match FullModelPath(c, payload)
      case Err(e) => Err(e)
      case Ok(model) => Ok(Loaded(artifact, format, model, None, payload))
    else if format == HF_LORA_FORMAT then
      match (LoraBaseModelPath(c, payload), Required(payload, "hf_adapter_path"))
      case (Err(e), _) => Err(e)
      case (_, Err(e)) => Err(e)
      case (Ok(model), Ok(path)) =>
        Ok(Loaded(artifact, format, model, Some(Adapter(AdapterName(runId, artifact.checkpointVersion), path)),
                  payload))
    else Err(InvalidRequest)
  }

  /** The first of the texts that is not empty. */
  ghost predicate IsFirstSet(texts: seq<string>, first: Option<string>) {
    match first
    case None => forall i :: 0 <= i < |texts| ==> texts[i] == ""
    case Some(text) =>
      text != "" && exists i :: 0 <= i < |texts| && texts[i] == text && forall j :: 0 <= j < i ==> texts[j] == ""
  }

  function ModelPathOf(r: Result<Loaded, Error>): Option<string> {
    if r.Ok? then Some(r.value.modelPath) else None
  }

  /** What the keys of a payload say is to be loaded. A full checkpoint is served from its own path and
      from the configured one or the base model only if it names none; an adapter on the configured model
      or its base model. Nothing else is accepted. */
  ghost predicate AsThePayloadSays(c: Config, runId: string, artifact: WeightArtifact, payload: Payload,
                                   r: Result<Loaded, Error>)
  {
    var text := (key: string) => if key in payload then payload[key] else "";
    var format := text("artifact_format");
    var base := format == "base-model" || (format == "" && text("base_model") != "");
    && (base || format == "hf-full-safetensors" ==>
          && IsFirstSet([text("hf_checkpoint_path"), text("checkpoint_path"), c.modelPath, text("base_model")],
                        ModelPathOf(r))
          && (r.Ok? ==> r.value.adapter == None))
    && (format == "hf-lora-adapter" ==>
          && (r.Ok? <==> (c.modelPath != "" || text("base_model") != "") && text("hf_adapter_path") != "")
          && (r.Ok? ==>
                && IsFirstSet([c.modelPath, text("base_model")], ModelPathOf(r))
                && r.value.adapter
                     == Some(Adapter(AdapterName(runId, artifact.checkpointVersion), text("hf_adapter_path")))))
    && (!base && format != "hf-full-safetensors" && format != "hf-lora-adapter" ==> r.Err?)
    && (r.Err? ==> r.error == InvalidRequest)
    && (r.Ok? ==> r.value.artifact == artifact && r.value.payload == payload)
    && (r.Ok? ==> r.value.format == if base then "base-model" else format)
  }

  lemma ResolveMeans(c: Config, runId: string, artifact: WeightArtifact, payload: Payload)
    ensures AsThePayloadSays(c, runId, artifact, payload, Resolve(c, runId, artifact, payload))
  {
    var text := (key: string) => if key in payload then payload[key] else "";
    var full := [text("hf_checkpoint_path"), text("checkpoint_path"), c.modelPath, text("base_model")];
    var lora := [c.modelPath, text("base_model")];
    assert full[0] == Field(payload, "hf_checkpoint_path") && full[1] == Field(payload, "checkpoint_path");
    assert full[2] == lora[0] == c.modelPath && full[3] == lora[1] == Field(payload, "base_model");
  }

  function Bring(c: Config, rt: Runtime, wanted: Loaded, w: World): (Runtime, Option<Error>) {
    var (ensured, error) := EnsureServer(c, rt, wanted.modelPath, w.launch);
    if error.Some? || wanted.adapter.None? then (ensured, error)
    else LoadLora(c, ensured, wanted.adapter.value, w.post)
  }

  // ---------------------------------------------------------------- the backend

  // since and log are history: how many servers there had been when a run's artifact was loaded,
  // and every successful load in order.
  datatype Sampler = Sampler(
    runtime: Runtime,
    loaded: map<string, Loaded>,
    since: map<string, nat>,
    log: seq<(string, Loaded)>)

  function Initial(c: Config): Sampler {
    Sampler(Runtime(None, "", map[], if c.launchServer then [] else [Server("", true, map[], map[])]), map[], map[], [])
  }

  function LoadArtifact(c: Config, s: Sampler, runId: string, artifact: Result<WeightArtifact, Error>, w: World)
    : (Sampler, Result<Loaded, Error>)
  {
    match (artifact, w.payload)
    case (Err(e), _) => (s, Err(e))
    case (_, Err(e)) => (s, Err(e))
    case (Ok(selected), Ok(payload)) =>
      match Resolve(c, runId, selected, payload)
      case Err(e) => (s, Err(e))
      case Ok(wanted) =>
        var (rt, error) := Bring(c, s.runtime, wanted, w);
        if error.Some? then (s.(runtime := rt), Err(error.value))
        else (Sampler(rt, s.loaded[runId := wanted], s.since[runId := |rt.servers|], s.log + [(runId, wanted)]),
              Ok(wanted))
  }

  function RefreshWeights(c: Config, s: Sampler, runId: string, artifact: Option<WeightArtifact>, w: World)
    : (Sampler, Result<Loaded, Error>)
  {
    if runId == "" then (s, Err(InvalidRequest))
    else if artifact.Some? && artifact.value.runId != "" && artifact.value.runId != runId then (s, Err(InvalidRequest))
    else LoadArtifact(c, s, runId, if artifact.Some? then Ok(artifact.value) else w.latest, w)
  }

  /** Sampling names the artifact last loaded for the run, loading the newest one if there is none. */
  function Sample(c: Config, s: Sampler, runId: string, request: SampleRequest, w: World, answers: bool)
    : (Sampler, Result<Loaded, Error>)
  {
    if runId == "" || !request.Valid() then (s, Err(InvalidRequest))
    else
      var (after, found) :=
        if runId in s.loaded then (s, Ok(s.loaded[runId])) else LoadArtifact(c, s, runId, w.latest, w);
      if found.Ok? && !(Up(c, after.runtime) && answers) then (after, Err(BackendUnavailable)) else (after, found)
  }

  datatype Action =
    | ARefresh(runId: string, artifact: Option<WeightArtifact>, w: World)
    | ASample(runId: string, request: SampleRequest, w: World, answers: bool)
    | AExit(server: nat)
    | AClose

  function Step(c: Config, s: Sampler, a: Action): Sampler {
    match a
    case ARefresh(runId, artifact, w) => RefreshWeights(c, s, runId, artifact, w).0
    case ASample(runId, request, w, answers) => Sample(c, s, runId, request, w, answers).0
    case AExit(k) => if c.launchServer then s.(runtime := Ended(s.runtime, k)) else s
    case AClose => s.(runtime := Closed(s.runtime))
  }

  /** The state after a whole history. */
  function After(c: Config, actions: seq<Action>): Sampler {
    if actions == [] then Initial(c)
    else Step(c, After(c, actions[..|actions| - 1]), actions[|actions| - 1])
  }
}
