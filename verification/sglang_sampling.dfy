/** What a sample may rely on: the caches tell the truth about the server, a sample names the
    artifact its run loaded last, and that artifact is still served exactly when no server was
    launched in between. */
module SGLangSampling {
  import opened Wrappers
  import opened Contracts
  import opened AdapterNames
  import opened SGLangSpec
  import opened SGLangCaches

  ghost predicate AllNamed(actions: seq<Action>, runs: set<string>) {
    forall a :: a in actions ==> Names(a, runs)
  }

  lemma {:induction false} HistoryKeepsCache(c: Config, actions: seq<Action>)
    ensures CacheTrue(c, After(c, actions).runtime)
  {
    if actions != [] {
      HistoryKeepsCache(c, actions[..|actions| - 1]);
      var last := actions[|actions| - 1];
      StepKeepsOwned(c, After(c, actions[..|actions| - 1]), last,
                     if last.ARefresh? || last.ASample? then {last.runId} else {});
    }
  }

  lemma {:induction false} HistoryKeepsOwned(c: Config, actions: seq<Action>, runs: set<string>)
    requires Distinct(runs) && AllNamed(actions, runs)
    ensures Owned(c, After(c, actions), runs)
  {
    if actions != [] {
      var before, last := actions[..|actions| - 1], actions[|actions| - 1];
      assert forall a :: a in before ==> a in actions;
      assert last in actions;
      HistoryKeepsOwned(c, before, runs);
      HistoryKeepsCache(c, before);
      StepKeepsOwned(c, After(c, before), last, runs);
    }
  }

  ghost predicate CacheMatches(c: Config, rt: Runtime) {
    && (rt.loadedLoras != map[] ==> Target(c, rt).Some?)
    && (Target(c, rt).Some? ==>
          (var k := Target(c, rt).value;
           && k < |rt.servers|
           && (forall name :: name in rt.loadedLoras ==>
                 name in rt.servers[k].posted && rt.servers[k].posted[name] == rt.loadedLoras[name])
           && (rt.servers[k].alive ==> rt.loadedLoras == rt.servers[k].posted)))
  }

  lemma TrueCacheMatches(c: Config, rt: Runtime)
    requires CacheTrue(c, rt)
    ensures CacheMatches(c, rt)
  {
  }

  /** Whatever exits, failed launches and failed posts there were, every cached adapter is the last
      one acknowledged under its name by the server now held; while that server lives the cache is
      complete. */
  lemma CacheTruth(c: Config, actions: seq<Action>)
    ensures CacheMatches(c, After(c, actions).runtime)
  {
    HistoryKeepsCache(c, actions);
    TrueCacheMatches(c, After(c, actions).runtime);
  }

  ghost predicate Runs(rt: Runtime, modelPath: string) {
    && rt.process.Some? && rt.process.value < |rt.servers|
    && rt.servers[rt.process.value].model == modelPath && rt.servers[rt.process.value].alive
  }

  lemma RelaunchRuns(rt: Runtime, modelPath: string, reply: LaunchReply)
    ensures var (after, error) := Relaunch(rt, modelPath, reply);
      error.None? ==> Runs(after, modelPath) && |after.servers| == |rt.servers| + 1
  {
  }

  lemma EnsuredRuns(c: Config, rt: Runtime, modelPath: string, reply: LaunchReply)
    requires c.launchServer && CacheTrue(c, rt)
    ensures var (after, error) := EnsureServer(c, rt, modelPath, reply);
      error.None? ==> Runs(after, modelPath) && (|after.servers| == |rt.servers| ==> after == rt)
  {
    PolledGrows(c, rt);
    RelaunchRuns(Polled(rt), modelPath, reply);
  }

  /** In launch mode a server that is used, found running or just started, was launched with the
      model asked for; found running, nothing was launched and nothing forgotten. */
  lemma ServerAskedFor(c: Config, actions: seq<Action>, modelPath: string, reply: LaunchReply)
    requires c.launchServer
    ensures var rt := After(c, actions).runtime;
      var (after, error) := EnsureServer(c, rt, modelPath, reply);
      error.None? ==> Runs(after, modelPath) && (|after.servers| == |rt.servers| ==> after == rt)
  {
    HistoryKeepsCache(c, actions);
    EnsuredRuns(c, After(c, actions).runtime, modelPath, reply);
  }

  // ---------------------------------------------------------------- the last load

  function LastFor(log: seq<(string, Loaded)>, r: string): Option<Loaded> {
    if log == [] then None
    else if log[|log| - 1].0 == r then Some(log[|log| - 1].1)
    else LastFor(log[..|log| - 1], r)
  }

  function Lookup(loaded: map<string, Loaded>, r: string): Option<Loaded> {
    if r in loaded then Some(loaded[r]) else None
  }

  lemma {:induction false} LoadedIsLast(c: Config, actions: seq<Action>, r: string)
    ensures Lookup(After(c, actions).loaded, r) == LastFor(After(c, actions).log, r)
  {
    if actions != [] {
      var s := After(c, actions[..|actions| - 1]);
      LoadedIsLast(c, actions[..|actions| - 1], r);
      match actions[|actions| - 1]
      case ARefresh(r', artifact, w) =>
        LoadLogs(c, s, r', if artifact.Some? then Ok(artifact.value) else w.latest, w, r);
      case ASample(r', _, w, _) => LoadLogs(c, s, r', w.latest, w, r);
      case AExit(_) =>
      case AClose =>
    }
  }

  lemma LoadLogs(c: Config, s: Sampler, r': string, artifact: Result<WeightArtifact, Error>, w: World, r: string)
    requires Lookup(s.loaded, r) == LastFor(s.log, r)
    ensures var (after, answer) := LoadArtifact(c, s, r', artifact, w);
      && Lookup(after.loaded, r) == LastFor(after.log, r)
      && (answer.Ok? ==> LastFor(after.log, r') == Some(answer.value))
      && (answer.Err? ==> after.log == s.log)
  {
    var (after, answer) := LoadArtifact(c, s, r', artifact, w);
    if answer.Ok? { assert after.log[..|after.log| - 1] == s.log; }
  }

  /** A sample that is answered names the artifact of its run's latest successful load. */
  lemma SampleNamesLatest(c: Config, actions: seq<Action>, r: string, request: SampleRequest, w: World, answers: bool)
    ensures var (after, answer) := Sample(c, After(c, actions), r, request, w, answers);
      answer.Ok? ==> LastFor(after.log, r) == Some(answer.value) && r in after.loaded && after.loaded[r] == answer.value
  {
    LoadedIsLast(c, actions, r);
    LoadLogs(c, After(c, actions), r, w.latest, w, r);
  }

  // ---------------------------------------------------------------- coherence

  lemma OwnedServes(c: Config, s: Sampler, runs: set<string>, r: string)
    requires Owned(c, s, runs) && r in s.loaded
    ensures r in s.since && 1 <= s.since[r] <= |s.runtime.servers|
    ensures s.since[r] == |s.runtime.servers| ==> Serves(c, s.runtime, s.loaded[r])
    ensures s.loaded[r].adapter.Some? && Serves(c, s.runtime, s.loaded[r]) ==> s.since[r] == |s.runtime.servers|
  {
    assert r in runs && LoadedThere(c, s, r);
    var k := |s.runtime.servers| - 1;
    if s.since[r] <= k && s.loaded[r].adapter.Some? {
      assert Unnamed(r, s.runtime.servers[k].posted);
      NotServed(c, s.runtime.servers[k], r, s.loaded[r]);
    }
  }

  lemma NotServed(c: Config, server: Server, r: string, l: Loaded)
    requires Unnamed(r, server.posted) && l.adapter.Some?
    requires l.adapter.value.name == AdapterName(r, l.artifact.checkpointVersion)
    ensures !ServedBy(c, server, l)
  {
    assert AdapterName(r, l.artifact.checkpointVersion) !in server.posted;
  }

  /** For runs with names of their own: what a run loaded is served whenever no server was launched
      since, and, if it loaded an adapter, only then. */
  lemma ServedIffNotRelaunched(c: Config, actions: seq<Action>, runs: set<string>, r: string)
    requires Distinct(runs) && AllNamed(actions, runs)
    requires r in After(c, actions).loaded
    ensures var s := After(c, actions);
      && r in s.since
      && (s.since[r] == |s.runtime.servers| ==> Serves(c, s.runtime, s.loaded[r]))
      && (s.loaded[r].adapter.Some? && Serves(c, s.runtime, s.loaded[r]) ==> s.since[r] == |s.runtime.servers|)
  {
    HistoryKeepsOwned(c, actions, runs);
    OwnedServes(c, After(c, actions), runs, r);
  }

  lemma SafeIdsDistinct(runs: set<string>)
    requires forall r :: r in runs ==> SafeId(r)
    ensures Distinct(runs)
  {
    forall r, r' | r in runs && r' in runs && AdapterRun(r) == AdapterRun(r') ensures r == r' {
      SafeIdKept(r);
      SafeIdKept(r');
    }
  }

  // ---------------------------------------------------------------- lost answers

  ghost predicate Acknowledged(rt: Runtime) {
    forall k :: 0 <= k < |rt.servers| ==> rt.servers[k].bound == rt.servers[k].posted
  }

  predicate NoLostPost(a: Action) {
    a.ARefresh? || a.ASample? ==> !a.w.post.PostLost?
  }

  lemma EnsureAcknowledges(c: Config, rt: Runtime, modelPath: string, reply: LaunchReply)
    requires Acknowledged(rt)
    ensures Acknowledged(EnsureServer(c, rt, modelPath, reply).0)
  {
  }

  lemma PostAcknowledges(c: Config, rt: Runtime, adapter: Adapter, reply: PostReply)
    requires Acknowledged(rt) && !reply.PostLost?
    ensures Acknowledged(LoadLora(c, rt, adapter, reply).0)
  {
  }

  lemma BringAcknowledges(c: Config, rt: Runtime, wanted: Loaded, w: World)
    requires Acknowledged(rt) && !w.post.PostLost?
    ensures Acknowledged(Bring(c, rt, wanted, w).0)
  {
    var ensured := EnsureServer(c, rt, wanted.modelPath, w.launch).0;
    EnsureAcknowledges(c, rt, wanted.modelPath, w.launch);
    if wanted.adapter.Some? {
      PostAcknowledges(c, ensured, wanted.adapter.value, w.post);
    }
  }

  lemma LoadAcknowledges(c: Config, s: Sampler, r: string, artifact: Result<WeightArtifact, Error>, w: World)
    requires Acknowledged(s.runtime) && !w.post.PostLost?
    ensures Acknowledged(LoadArtifact(c, s, r, artifact, w).0.runtime)
  {
    LoadIsBrought(c, s, r, artifact, w);
    if artifact.Ok? && w.payload.Ok? && Resolve(c, r, artifact.value, w.payload.value).Ok? {
      BringAcknowledges(c, s.runtime, Resolve(c, r, artifact.value, w.payload.value).value, w);
    }
  }

  lemma StepAcknowledges(c: Config, s: Sampler, a: Action)
    requires Acknowledged(s.runtime) && NoLostPost(a)
    ensures Acknowledged(Step(c, s, a).runtime)
  {
    match a
    case ARefresh(r, artifact, w) =>
      CallsLoad(c, s, r, artifact, SampleRequest([], "", 0, 0.0, 0.0, 0), w, true);
      LoadAcknowledges(c, s, r, if artifact.Some? then Ok(artifact.value) else w.latest, w);
    case ASample(r, request, w, answers) =>
      CallsLoad(c, s, r, None, request, w, answers);
      LoadAcknowledges(c, s, r, w.latest, w);
    case _ =>
  }

  /** When no post was carried out without its answer arriving, servers hold what they acknowledged. */
  lemma {:induction false} BoundIsPosted(c: Config, actions: seq<Action>)
    requires forall a :: a in actions ==> NoLostPost(a)
    ensures Acknowledged(After(c, actions).runtime)
  {
    if actions != [] {
      var before, last := actions[..|actions| - 1], actions[|actions| - 1];
      var s := After(c, before);
      assert forall a :: a in before ==> a in actions;
      BoundIsPosted(c, before);
      assert last in actions;
      StepAcknowledges(c, s, last);
    }
  }

  // ---------------------------------------------------------------- one model, no exits

  predicate Exits(a: Action) {
    a.AExit? || a.AClose?
  }

  /** Whatever this call loads runs on the one model. */
  predicate OnModel(c: Config, a: Action, model: string) {
    a.ARefresh? || a.ASample? ==>
      var artifact := if a.ARefresh? && a.artifact.Some? then Ok(a.artifact.value) else a.w.latest;
      artifact.Ok? && a.w.payload.Ok? ==>
        var wanted := Resolve(c, a.runId, artifact.value, a.w.payload.value);
        wanted.Ok? ==> wanted.value.modelPath == model
  }

  /** Once anything is loaded, the one server is up and everything was loaded into it. */
  ghost predicate Settled(c: Config, s: Sampler, model: string) {
    && (forall r :: r in s.loaded ==> r in s.since && s.since[r] == |s.runtime.servers|)
    && (s.loaded != map[] && c.launchServer ==>
          && s.runtime.process.Some? && s.runtime.activeModelPath == model
          && s.runtime.servers != [] && Newest(s.runtime).alive)
  }

  lemma LoadLoraStays(c: Config, rt: Runtime, adapter: Adapter, reply: PostReply)
    ensures var after := LoadLora(c, rt, adapter, reply).0;
      && after.process == rt.process && after.activeModelPath == rt.activeModelPath && |after.servers| == |rt.servers|
      && forall k :: 0 <= k < |rt.servers| ==> after.servers[k].alive == rt.servers[k].alive
  {
  }

  lemma BringSettles(c: Config, s: Sampler, wanted: Loaded, w: World, model: string)
    requires CacheTrue(c, s.runtime) && Settled(c, s, model) && wanted.modelPath == model
    ensures var (rt, error) := Bring(c, s.runtime, wanted, w);
      && (s.loaded != map[] ==> |rt.servers| == |s.runtime.servers|)
      && ((s.loaded != map[] || error.None?) && c.launchServer ==>
            rt.process.Some? && rt.activeModelPath == model && rt.servers != [] && Newest(rt).alive)
      && (!c.launchServer ==> |rt.servers| == 1)
  {
    var (ensured, error) := EnsureServer(c, s.runtime, model, w.launch);
    EnsureServerGrows(c, s.runtime, model, w.launch);
    if error.None? && wanted.adapter.Some? {
      LoadLoraStays(c, ensured, wanted.adapter.value, w.post);
    }
  }

  lemma BroughtSettles(c: Config, s: Sampler, r: string, wanted: Loaded, w: World, model: string)
    requires CacheTrue(c, s.runtime) && Settled(c, s, model) && wanted.modelPath == model
    ensures Settled(c, Brought(c, s, r, wanted, w), model)
  {
    BringSettles(c, s, wanted, w, model);
  }

  lemma LoadSettles(c: Config, s: Sampler, r: string, artifact: Result<WeightArtifact, Error>, w: World, model: string)
    requires CacheTrue(c, s.runtime) && Settled(c, s, model)
    requires artifact.Ok? && w.payload.Ok? && Resolve(c, r, artifact.value, w.payload.value).Ok? ==>
               Resolve(c, r, artifact.value, w.payload.value).value.modelPath == model
    ensures Settled(c, LoadArtifact(c, s, r, artifact, w).0, model)
  {
    LoadIsBrought(c, s, r, artifact, w);
    if artifact.Ok? && w.payload.Ok? && Resolve(c, r, artifact.value, w.payload.value).Ok? {
      BroughtSettles(c, s, r, Resolve(c, r, artifact.value, w.payload.value).value, w, model);
    }
  }

  lemma {:induction false} OneModelSettles(c: Config, actions: seq<Action>, model: string)
    requires forall a :: a in actions ==> !Exits(a) && OnModel(c, a, model)
    ensures Settled(c, After(c, actions), model)
  {
    if actions != [] {
      var before, last := actions[..|actions| - 1], actions[|actions| - 1];
      assert forall a :: a in before ==> a in actions;
      OneModelSettles(c, before, model);
      HistoryKeepsCache(c, before);
      var s := After(c, before);
      assert last in actions && OnModel(c, last, model) && !Exits(last);
      match last
      case ARefresh(r, artifact, w) =>
        LoadSettles(c, s, r, if artifact.Some? then Ok(artifact.value) else w.latest, w, model);
      case ASample(r, _, w, _) =>
        if r !in s.loaded { LoadSettles(c, s, r, w.latest, w, model); }
    }
  }

  /** The server that samples reach holds what was loaded. */
  ghost predicate Coherent(c: Config, rt: Runtime, l: Loaded) {
    && Up(c, rt)
    && (var server := rt.servers[Target(c, rt).value];
        && (c.launchServer ==> server.model == l.modelPath)
        && (l.adapter.Some? ==>
              l.adapter.value.name in server.bound && server.bound[l.adapter.value.name] == l.adapter.value.path))
  }

  lemma ServedIsCoherent(c: Config, s: Sampler, runs: set<string>, r: string, model: string)
    requires CacheTrue(c, s.runtime) && Owned(c, s, runs) && Settled(c, s, model) && Acknowledged(s.runtime)
    requires r in s.loaded && Up(c, s.runtime)
    ensures Coherent(c, s.runtime, s.loaded[r])
  {
    OwnedServes(c, s, runs, r);
    assert Newest(s.runtime).bound == Newest(s.runtime).posted;
  }

  ghost predicate Calm(c: Config, a: Action, model: string) {
    && !Exits(a) && OnModel(c, a, model) && NoLostPost(a)
    && (a.ARefresh? || a.ASample? ==> SafeId(a.runId))
  }

  function RunsNamed(actions: seq<Action>): set<string> {
    set a | a in actions && (a.ARefresh? || a.ASample?) :: a.runId
  }

  lemma CalmHistory(c: Config, actions: seq<Action>, model: string)
    requires forall a :: a in actions ==> Calm(c, a, model)
    ensures var s := After(c, actions);
      CacheTrue(c, s.runtime) && Owned(c, s, RunsNamed(actions)) && Settled(c, s, model) && Acknowledged(s.runtime)
  {
    SafeIdsDistinct(RunsNamed(actions));
    HistoryKeepsCache(c, actions);
    HistoryKeepsOwned(c, actions, RunsNamed(actions));
    OneModelSettles(c, actions, model);
    BoundIsPosted(c, actions);
  }

  /** With one model, no exits, no lost answers and safe run ids, every answered sample names what its
      run loaded last, and the server it reaches holds exactly that: the adapter's name is bound to the
      path of that load, failed launches and refused posts notwithstanding. */
  lemma OneModelIsCoherent(c: Config, actions: seq<Action>, model: string, r: string, request: SampleRequest, w: World)
    requires forall a :: a in actions + [ASample(r, request, w, true)] ==> Calm(c, a, model)
    ensures var (after, answer) := Sample(c, After(c, actions), r, request, w, true);
      answer.Ok? ==> LastFor(after.log, r) == Some(answer.value) && Coherent(c, after.runtime, answer.value)
  {
    var sampling := ASample(r, request, w, true);
    var all := actions + [sampling];
    assert all[..|all| - 1] == actions && all[|all| - 1] == sampling;
    SampleNamesLatest(c, actions, r, request, w, true);
    CalmHistory(c, all, model);
    if Sample(c, After(c, actions), r, request, w, true).1.Ok? {
      ServedIsCoherent(c, After(c, all), RunsNamed(all), r, model);
    }
  }

  // ---------------------------------------------------------------- where coherence ends

  function Artifact(runId: string): WeightArtifact {
    WeightArtifact(runId, 0, DeltaWeights, "m", "p")
  }

  function LoraPayload(model: string, path: string): Payload {
    map["artifact_format" := HF_LORA_FORMAT, "base_model" := model, "hf_adapter_path" := path]
  }

  function RefreshOf(runId: string, model: string, path: string, post: PostReply): Action {
    ARefresh(runId, Some(Artifact(runId)), World(Err(NotFound), Ok(LoraPayload(model, path)), Healthy, post))
  }

  const LAUNCHING := Config(true, true, "")

  function LoadedOf(runId: string, model: string, path: string): Loaded {
    Loaded(Artifact(runId), HF_LORA_FORMAT, model, Some(Adapter(AdapterName(runId, 0), path)), LoraPayload(model, path))
  }

  /** One refresh of these counterexamples, with its payload resolved. */
  lemma RefreshIs(s: Sampler, runId: string, model: string, path: string, post: PostReply)
    requires runId != "" && model != "" && path != ""
    ensures var a, l := RefreshOf(runId, model, path, post), LoadedOf(runId, model, path);
      var (rt, error) := Bring(LAUNCHING, s.runtime, l, a.w);
      var (after, answer) := RefreshWeights(LAUNCHING, s, runId, a.artifact, a.w);
      && after == Step(LAUNCHING, s, a) && after.runtime == rt
      && after.loaded == (if error.None? then s.loaded[runId := l] else s.loaded)
      && (answer.Ok? <==> error.None?)
  {
    assert Field(LoraPayload(model, path), "artifact_format") == HF_LORA_FORMAT;
    assert Resolve(LAUNCHING, runId, Artifact(runId), LoraPayload(model, path)) == Ok(LoadedOf(runId, model, path));
  }

  lemma Twice(c: Config, a: Action, b: Action)
    ensures After(c, [a]) == Step(c, Initial(c), a)
    ensures After(c, [a, b]) == Step(c, After(c, [a]), b)
  {
    assert [a][..0] == [] && [a, b][..1] == [a];
  }

  function OneServer(model: string, alive: bool, name: string, posted: string, bound: string): Server {
    Server(model, alive, map[name := posted], map[name := bound])
  }

  /** An adapter brought up on a server of its own. */
  lemma BringAlone(rt: Runtime, l: Loaded, w: World)
    requires l.adapter.Some? && w.launch.Healthy? && w.post.PostOk?
    requires rt.process.Some? ==> rt.process.value < |rt.servers| && rt.activeModelPath != l.modelPath
    ensures var held := map[l.adapter.value.name := l.adapter.value.path];
      Bring(LAUNCHING, rt, l, w) ==
      (Runtime(Some(|rt.servers|), l.modelPath, held,
               Closed(rt).servers + [Server(l.modelPath, true, held, held)]), None)
  {
    var stopped := Closed(Polled(rt)).(loadedLoras := map[]);
    assert stopped.servers == Closed(rt).servers;
    var started := Launched(stopped, l.modelPath, true);
    assert EnsureServer(LAUNCHING, rt, l.modelPath, w.launch) == (started, None);
    var held := map[l.adapter.value.name := l.adapter.value.path];
    assert started.servers[|rt.servers| := Server(l.modelPath, true, held, held)]
        == Closed(rt).servers + [Server(l.modelPath, true, held, held)];
  }

  lemma FirstRefresh(r: string, model: string, path: string)
    requires r != "" && model != "" && path != ""
    ensures var s := After(LAUNCHING, [RefreshOf(r, model, path, PostOk)]);
      var name := AdapterName(r, 0);
      && s.runtime == Runtime(Some(0), model, map[name := path], [OneServer(model, true, name, path, path)])
      && s.loaded == map[r := LoadedOf(r, model, path)]
  {
    var first := RefreshOf(r, model, path, PostOk);
    Twice(LAUNCHING, first, first);
    RefreshIs(Initial(LAUNCHING), r, model, path, PostOk);
    BringAlone(Initial(LAUNCHING).runtime, LoadedOf(r, model, path), first.w);
  }

  lemma SecondRefresh(r: string, r': string, x: string, y: string, p: string, q: string)
    requires r != "" && r' != "" && x != "" && y != "" && x != y && p != "" && q != ""
    ensures var s := After(LAUNCHING, [RefreshOf(r, x, p, PostOk), RefreshOf(r', y, q, PostOk)]);
      var held := map[AdapterName(r', 0) := q];
      && s.runtime == Runtime(Some(1), y, held,
                              [OneServer(x, false, AdapterName(r, 0), p, p), Server(y, true, held, held)])
      && s.loaded == map[r := LoadedOf(r, x, p)][r' := LoadedOf(r', y, q)]
  {
    var first, second := RefreshOf(r, x, p, PostOk), RefreshOf(r', y, q, PostOk);
    var before := After(LAUNCHING, [first]);
    FirstRefresh(r, x, p);
    Twice(LAUNCHING, first, second);
    RefreshIs(before, r', y, q, PostOk);
    BringAlone(before.runtime, LoadedOf(r', y, q), second.w);
  }

  /** Another run's refresh with another model restarts the server; the first run is then sampled
      under an adapter name the new server does not know. */
  lemma RestartMakesStale(r: string, r': string, x: string, y: string, p: string, q: string, request: SampleRequest)
    requires SafeId(r) && SafeId(r') && r != r' && x != "" && y != "" && x != y && p != "" && q != ""
    requires request.Valid()
    ensures var s := After(LAUNCHING, [RefreshOf(r, x, p, PostOk), RefreshOf(r', y, q, PostOk)]);
      var w := World(Err(NotFound), Err(NotFound), Healthy, PostOk);
      var (after, answer) := Sample(LAUNCHING, s, r, request, w, true);
      && after == s && answer == Ok(LoadedOf(r, x, p))
      && s.runtime.process == Some(1) && |s.runtime.servers| == 2
      && s.runtime.servers[1].alive && AdapterName(r, 0) !in s.runtime.servers[1].bound
  {
    SecondRefresh(r, r', x, y, p, q);
    SafeIdKept(r);
    SafeIdKept(r');
    AdapterNameInjective(r, 0, r', 0);
  }

  /** A post that took effect but whose answer was lost leaves the cache naming the old path. */
  lemma LostAnswer(r: string, model: string, p: string, q: string)
    requires r != "" && model != "" && p != "" && q != "" && p != q
    ensures var s := After(LAUNCHING, [RefreshOf(r, model, p, PostOk), RefreshOf(r, model, q, PostLost)]);
      var name := AdapterName(r, 0);
      && s.runtime == Runtime(Some(0), model, map[name := p], [OneServer(model, true, name, p, q)])
      && s.loaded == map[r := LoadedOf(r, model, p)]
  {
    var first, second := RefreshOf(r, model, p, PostOk), RefreshOf(r, model, q, PostLost);
    var before := After(LAUNCHING, [first]);
    FirstRefresh(r, model, p);
    Twice(LAUNCHING, first, second);
    RefreshIs(before, r, model, q, PostLost);
    LostBring(before.runtime, LoadedOf(r, model, q), second.w, model, AdapterName(r, 0), p, q);
  }

  lemma LostBring(rt: Runtime, l: Loaded, w: World, model: string, name: string, p: string, q: string)
    requires rt == Runtime(Some(0), model, map[name := p], [OneServer(model, true, name, p, p)])
    requires l.modelPath == model && l.adapter == Some(Adapter(name, q)) && p != q
    requires w.launch == Healthy && w.post == PostLost
    ensures var (after, error) := Bring(LAUNCHING, rt, l, w);
      error.Some? && after == Runtime(Some(0), model, map[name := p], [OneServer(model, true, name, p, q)])
  {
    assert EnsureServer(LAUNCHING, rt, model, Healthy) == (rt, None);
    assert map[name := p][name := q] == map[name := q];
    assert [OneServer(model, true, name, p, p)][0 := OneServer(model, true, name, p, q)]
        == [OneServer(model, true, name, p, q)];
  }

  /** Loading the old path again is then answered from the cache, and the server keeps the new one. */
  lemma LostAnswerMakesStale(r: string, model: string, p: string, q: string)
    requires r != "" && model != "" && p != "" && q != "" && p != q
    ensures var s := After(LAUNCHING, [RefreshOf(r, model, p, PostOk), RefreshOf(r, model, q, PostLost)]);
      var again := RefreshOf(r, model, p, PostOk);
      var (after, answer) := RefreshWeights(LAUNCHING, s, r, again.artifact, again.w);
      && answer.Ok? && after.loaded == map[r := LoadedOf(r, model, p)]
      && after.runtime.servers == [OneServer(model, true, AdapterName(r, 0), p, q)]
  {
    LostAnswer(r, model, p, q);
    var s := After(LAUNCHING, [RefreshOf(r, model, p, PostOk), RefreshOf(r, model, q, PostLost)]);
    var w := RefreshOf(r, model, p, PostOk).w;
    RefreshIs(s, r, model, p, PostOk);
    CachedBring(s.runtime, LoadedOf(r, model, p), w, model, AdapterName(r, 0), p, q);
  }

  lemma CachedBring(rt: Runtime, l: Loaded, w: World, model: string, name: string, p: string, q: string)
    requires rt == Runtime(Some(0), model, map[name := p], [OneServer(model, true, name, p, q)])
    requires l.modelPath == model && l.adapter == Some(Adapter(name, p)) && w.launch == Healthy
    ensures Bring(LAUNCHING, rt, l, w) == (rt, None)
  {
    assert EnsureServer(LAUNCHING, rt, model, Healthy) == (rt, None);
  }
}
