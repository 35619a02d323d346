/** The SGLang runtime and inference backend as objects, each method tied to the function of
    SGLangSpec that says what it does. */
module SGLangBackend {
  import opened Wrappers
  import opened Contracts
  import opened SGLangSpec

  /** The machine the server processes run on: it starts, polls and kills them and carries posts. */
  class ServerHost {
    var servers: seq<Server>

    constructor (external: bool)
      ensures servers == if external then [Server("", true, map[], map[])] else []
    {
      servers := if external then [Server("", true, map[], map[])] else [];
    }

    method Poll(pid: nat) returns (exited: bool)
      requires pid < |servers|
      ensures exited == !servers[pid].alive
    {
      exited := !servers[pid].alive;
    }

    method Kill(pid: nat)
      requires pid < |servers|
      modifies this
      ensures servers == old(servers)[pid := old(servers)[pid].(alive := false)]
    {
      servers := servers[pid := servers[pid].(alive := false)];
    }

    method Popen(model: string, reply: LaunchReply) returns (pid: Option<nat>)
      modifies this
      ensures reply.PopenFails? ==> pid == None && servers == old(servers)
      ensures !reply.PopenFails? ==> pid == Some(|old(servers)|)
      ensures !reply.PopenFails? ==> servers == old(servers) + [Server(model, !reply.ExitsDuringStartup?, map[], map[])]
    {
      if reply.PopenFails? {
        return None;
      }
      pid := Some(|servers|);
      servers := servers + [Server(model, !reply.ExitsDuringStartup?, map[], map[])];
    }

    method PostLora(target: nat, adapter: Adapter, reply: PostReply) returns (ok: bool)
      requires target < |servers|
      modifies this
      ensures ok <==> old(servers)[target].alive && reply.PostOk?
      ensures !old(servers)[target].alive || reply.PostRefused? ==> servers == old(servers)
      ensures old(servers)[target].alive && !reply.PostRefused? ==>
                var before := old(servers)[target];
                var held := before.(bound := before.bound[adapter.name := adapter.path]);
                servers == old(servers)[target :=
                  if ok then held.(posted := before.posted[adapter.name := adapter.path]) else held]
    {
      if !servers[target].alive || reply.PostRefused? {
        return false;
      }
      var before := servers[target];
      ok := reply.PostOk?;
      servers := servers[target := Server(before.model, before.alive,
          if ok then before.posted[adapter.name := adapter.path] else before.posted,
          before.bound[adapter.name := adapter.path])];
    }
  }

  class SGLangHTTPRuntime {
    const config: Config
    const host: ServerHost
    var process: Option<nat>
    var activeModelPath: string
    var loadedLoras: map<string, string>

    ghost function View(): Runtime
      reads this, host
    {
      Runtime(process, activeModelPath, loadedLoras, host.servers)
    }

    ghost predicate Valid()
      reads this, host
    {
      && (process.Some? ==> process.value < |host.servers| && host.servers[process.value].model == activeModelPath)
      && (!config.launchServer ==> host.servers != [])
    }

    /** The process held was killed, whatever happens next, and one was started for the model unless the
        launch itself failed. */
    static ghost predicate OneStarted(process: Option<nat>, before: seq<Server>, after: seq<Server>, modelPath: string,
                                      reply: LaunchReply)
      requires process.Some? ==> process.value < |before|
    {
      var stopped := if process.None? then before
                     else before[process.value := before[process.value].(alive := false)];
      after == if reply.PopenFails? then stopped
               else stopped + [Server(modelPath, !reply.ExitsDuringStartup?, map[], map[])]
    }

    /** The process held runs and was launched with this model. */
    ghost predicate Serves(modelPath: string)
      reads this, host
    {
      && process.Some? && process.value < |host.servers|
      && host.servers[process.value].alive && host.servers[process.value].model == modelPath
    }

    constructor (config: Config, host: ServerHost)
      requires !config.launchServer ==> host.servers != []
      ensures Valid() && this.config == config && this.host == host
      ensures View() == Runtime(None, "", map[], host.servers)
    {
      this.config := config;
      this.host := host;
      process := None;
      activeModelPath := "";
      loadedLoras := map[];
    }

    method Close()
      requires Valid()
      modifies this, host
      ensures Valid() && View() == Closed(old(View()))
    {
      if process.None? {
        return;
      }
      var exited := host.Poll(process.value);
      if exited {
        assert host.servers[process.value := host.servers[process.value].(alive := false)] == host.servers;
        return;
      }
      host.Kill(process.value);
    }

    method EnsureServer(modelPath: string, reply: LaunchReply) returns (error: Option<Error>)
      requires Valid()
      modifies this, host
      ensures Valid() && (View(), error) == SGLangSpec.EnsureServer(config, old(View()), modelPath, reply)
      ensures error.None? && config.launchServer ==> Serves(modelPath)
      ensures config.launchServer ==>
                if old(Serves(modelPath)) then error == None && View() == old(View())
                else loadedLoras == map[] && OneStarted(old(process), old(host.servers), host.servers, modelPath, reply)
      ensures config.launchServer && !old(Serves(modelPath)) ==>
                error == match reply
                         case Healthy => None
                         case PopenFails => Some(RuntimeRaised)
                         case ExitsDuringStartup => Some(BackendUnavailable)
                         case HealthTimeout => Some(BackendUnavailable)
      ensures !config.launchServer ==> error == None && View() == old(View())
    {
      if !config.launchServer {
        return None;
      }
      if process.Some? {
        var exited := host.Poll(process.value);
        if exited {
          process := None;
          activeModelPath := "";
          loadedLoras := map[];
        }
      }
      if process.Some? && activeModelPath == modelPath {
        return None;
      }
      ghost var polled := View();
      Close();
      loadedLoras := map[];
      assert View() == Closed(polled).(loadedLoras := map[]);
      var pid := host.Popen(modelPath, reply);
      if pid.None? {
        return Some(RuntimeRaised);
      }
      process := pid;
      activeModelPath := modelPath;
      error := if reply.Healthy? then None else Some(BackendUnavailable);
    }

    method LoadLoraAdapter(adapter: Adapter, reply: PostReply) returns (error: Option<Error>)
      requires Valid() && (config.launchServer ==> process.Some?)
      modifies this, host
      ensures Valid() && (View(), error) == LoadLora(config, old(View()), adapter, reply)
      ensures forall modelPath :: old(Serves(modelPath)) ==> Serves(modelPath)
      ensures !config.enableLora ==> error == Some(InvalidRequest) && View() == old(View())
      ensures config.enableLora && adapter.name in old(loadedLoras)
              && old(loadedLoras)[adapter.name] == adapter.path ==>
                error == None && View() == old(View())
      ensures config.enableLora && !(adapter.name in old(loadedLoras)
                                     && old(loadedLoras)[adapter.name] == adapter.path) ==>
                var target := if config.launchServer then process.value else 0;
                && (error.None? <==> old(host.servers)[target].alive && reply.PostOk?)
                && (error.Some? ==> error.value == BackendUnavailable && loadedLoras == old(loadedLoras))
                && (error.None? ==> adapter.name in host.servers[target].bound
                                    && host.servers[target].bound[adapter.name] == adapter.path)
      ensures error.None? ==> adapter.name in loadedLoras && loadedLoras[adapter.name] == adapter.path
    {
      if !config.enableLora {
        return Some(InvalidRequest);
      }
      if adapter.name in loadedLoras && loadedLoras[adapter.name] == adapter.path {
        return None;
      }
      var ok := host.PostLora(if config.launchServer then process.value else 0, adapter, reply);
      if !ok {
        return Some(BackendUnavailable);
      }
      loadedLoras := loadedLoras[adapter.name := adapter.path];
      error := None;
    }

    method RefreshWeights(runId: string, artifact: WeightArtifact, payload: Payload, w: World)
      returns (r: Result<Loaded, Error>)
      requires Valid()
      modifies this, host
      ensures Valid()
      ensures AsThePayloadSays(config, runId, artifact, payload, Resolve(config, runId, artifact, payload))
      ensures r.Ok? ==> AsThePayloadSays(config, runId, artifact, payload, r)
      ensures r.Ok? && config.launchServer ==> Serves(r.value.modelPath)
      ensures r.Ok? && r.value.adapter.Some? ==>
                var adapter := r.value.adapter.value;
                adapter.name in loadedLoras && loadedLoras[adapter.name] == adapter.path
      ensures match Resolve(config, runId, artifact, payload)
              case Err(e) => View() == old(View()) && r == Err(e)
              case Ok(wanted) =>
                (View(), r) == (var (rt, error) := Bring(config, old(View()), wanted, w);
                                (rt, if error.Some? then Err(error.value) else Ok(wanted)))
    {
      ResolveMeans(config, runId, artifact, payload);
      var resolved := Resolve(config, runId, artifact, payload);
      if resolved.Err? {
        return resolved;
      }
      var wanted := resolved.value;
      var error := EnsureServer(wanted.modelPath, w.launch);
      if error.None? && wanted.adapter.Some? {
        error := LoadLoraAdapter(wanted.adapter.value, w.post);
      }
      r := if error.Some? then Err(error.value) else Ok(wanted);
    }
  }

  class SGLangInferenceBackend {
    const runtime: SGLangHTTPRuntime
    var loadedArtifacts: map<string, Loaded>
    ghost var since: map<string, nat>
    ghost var log: seq<(string, Loaded)>

    ghost function View(): Sampler
      reads this, runtime, runtime.host
    {
      Sampler(runtime.View(), loadedArtifacts, since, log)
    }

    ghost predicate Valid()
      reads this, runtime, runtime.host
    {
      runtime.Valid()
    }

    constructor (config: Config)
      ensures Valid() && fresh(runtime) && fresh(runtime.host) && runtime.config == config
      ensures View() == Initial(config)
    {
      var host := new ServerHost(!config.launchServer);
      runtime := new SGLangHTTPRuntime(config, host);
      loadedArtifacts, since, log := map[], map[], [];
    }

    method LoadArtifact(runId: string, artifact: Result<WeightArtifact, Error>, w: World)
      returns (r: Result<Loaded, Error>)
      requires Valid()
      modifies this, runtime, runtime.host
      ensures Valid() && (View(), r) == SGLangSpec.LoadArtifact(runtime.config, old(View()), runId, artifact, w)
      ensures loadedArtifacts == if r.Ok? then old(loadedArtifacts)[runId := r.value] else old(loadedArtifacts)
      ensures r.Ok? ==>
                && artifact.Ok? && w.payload.Ok?
                && AsThePayloadSays(runtime.config, runId, artifact.value, w.payload.value, r)
                && (runtime.config.launchServer ==> runtime.Serves(r.value.modelPath))
    {
      if artifact.Err? {
        return Err(artifact.error);
      }
      if w.payload.Err? {
        return Err(w.payload.error);
      }
      r := runtime.RefreshWeights(runId, artifact.value, w.payload.value, w);
      if r.Ok? {
        loadedArtifacts := loadedArtifacts[runId := r.value];
        since := since[runId := |runtime.host.servers|];
        log := log + [(runId, r.value)];
      }
    }

    method RefreshWeights(runId: string, artifact: Option<WeightArtifact>, w: World)
      returns (r: Result<Loaded, Error>)
      requires Valid()
      modifies this, runtime, runtime.host
      ensures Valid() && (View(), r) == SGLangSpec.RefreshWeights(runtime.config, old(View()), runId, artifact, w)
      ensures runId == "" || (artifact.Some? && artifact.value.runId != "" && artifact.value.runId != runId) ==>
                r == Err(InvalidRequest) && View() == old(View())
      ensures loadedArtifacts == if r.Ok? then old(loadedArtifacts)[runId := r.value] else old(loadedArtifacts)
      ensures r.Ok? ==>
                var selected := if artifact.Some? then Ok(artifact.value) else w.latest;
                && selected.Ok? && w.payload.Ok?
                && AsThePayloadSays(runtime.config, runId, selected.value, w.payload.value, r)
                && (runtime.config.launchServer ==> runtime.Serves(r.value.modelPath))
    {
      if runId == "" {
        return Err(InvalidRequest);
      }
      if artifact.Some? && artifact.value.runId != "" && artifact.value.runId != runId {
        return Err(InvalidRequest);
      }
      r := LoadArtifact(runId, if artifact.Some? then Ok(artifact.value) else w.latest, w);
    }

    method Sample(runId: string, request: SampleRequest, w: World, answers: bool)
      returns (r: Result<Loaded, Error>)
      requires Valid()
      modifies this, runtime, runtime.host
      ensures Valid() && (View(), r) == SGLangSpec.Sample(runtime.config, old(View()), runId, request, w, answers)
      ensures runId == "" || (request.tokenIds == [] && request.text == "")
              || (request.tokenIds != [] && request.text != "") || request.maxTokens <= 0
              || request.temperature < 0.0 || request.topP <= 0.0 || request.topP > 1.0 || request.numSamples <= 0 ==>
                r == Err(InvalidRequest) && View() == old(View())
      ensures runId in old(loadedArtifacts) ==> View() == old(View()) && (r.Ok? ==> r.value == loadedArtifacts[runId])
      ensures r.Ok? && runId !in old(loadedArtifacts) ==>
                && loadedArtifacts == old(loadedArtifacts)[runId := r.value]
                && w.latest.Ok? && w.payload.Ok?
                && AsThePayloadSays(runtime.config, runId, w.latest.value, w.payload.value, r)
                && (runtime.config.launchServer ==> runtime.Serves(r.value.modelPath))
    {
      if runId == "" || !request.Valid() {
        return Err(InvalidRequest);
      }
      if runId in loadedArtifacts {
        r := Ok(loadedArtifacts[runId]);
      } else {
        r := LoadArtifact(runId, w.latest, w);
        if r.Err? {
          return;
        }
      }
      // The post to /generate reaches whatever listens there; nothing else looks at the process here.
      var up := false;
      if !runtime.config.launchServer {
        var exited := runtime.host.Poll(0);
        up := !exited;
      } else if runtime.process.Some? {
        var exited := runtime.host.Poll(runtime.process.value);
        up := !exited;
      }
      if !up || !answers {
        r := Err(BackendUnavailable);
      }
    }

    method Close()
      requires Valid()
      modifies this, runtime, runtime.host
      ensures Valid() && View() == old(View()).(runtime := Closed(old(View()).runtime))
    {
      runtime.Close();
    }
  }
}
