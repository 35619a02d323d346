/** What the two caches say about the server, over every history of refreshes, samples, exits,
    failed launches and failed posts. */
module SGLangCaches {
  import opened Wrappers
  import opened Contracts
  import opened AdapterNames
  import opened SGLangSpec

  /** The last acknowledged post under the adapter's name went to this path. */
  ghost predicate Holds(server: Server, adapter: Adapter) {
    adapter.name in server.posted && server.posted[adapter.name] == adapter.path
  }

  ghost predicate Submap(a: map<string, string>, b: map<string, string>) {
    forall name :: name in a ==> name in b && b[name] == a[name]
  }

  /** The runtime's fields are true of the newest server. */
  ghost predicate CacheTrue(c: Config, rt: Runtime) {
    && (if !c.launchServer then rt.process.None? && |rt.servers| == 1
        else if rt.process.None? then rt.loadedLoras == map[]
        else rt.process.value == |rt.servers| - 1 && Newest(rt).model == rt.activeModelPath)
    && (if rt.servers == [] then rt.loadedLoras == map[]
        else Submap(rt.loadedLoras, Newest(rt).posted) && (Newest(rt).alive ==> rt.loadedLoras == Newest(rt).posted))
  }

  ghost function Newest(rt: Runtime): Server
    requires rt.servers != []
  {
    rt.servers[|rt.servers| - 1]
  }

  /** Servers are only added, with nothing posted to them; those before keep model and posts. */
  ghost predicate Grows(before: Runtime, after: Runtime) {
    && |before.servers| <= |after.servers|
    && (forall k :: 0 <= k < |before.servers| ==>
          after.servers[k].model == before.servers[k].model && after.servers[k].posted == before.servers[k].posted)
    && (forall k :: |before.servers| <= k < |after.servers| ==> after.servers[k].posted == map[])
  }

  lemma EndedGrows(c: Config, rt: Runtime, k: nat)
    requires CacheTrue(c, rt)
    ensures Grows(rt, Ended(rt, k)) && CacheTrue(c, Ended(rt, k))
  {
  }

  lemma PolledGrows(c: Config, rt: Runtime)
    requires CacheTrue(c, rt)
    ensures Polled(rt).servers == rt.servers && CacheTrue(c, Polled(rt))
  {
  }

  lemma LaunchedGrows(c: Config, rt: Runtime, model: string, alive: bool)
    requires c.launchServer && rt.loadedLoras == map[]
    ensures var after := Launched(rt, model, alive);
      && CacheTrue(c, after) && Grows(rt, after) && Newest(after).model == model
  {
  }

  lemma GrowsTransitive(a: Runtime, b: Runtime, c: Runtime)
    requires Grows(a, b) && Grows(b, c)
    ensures Grows(a, c)
  {
    forall k | |a.servers| <= k < |c.servers| ensures c.servers[k].posted == map[] {
      if k < |b.servers| { assert b.servers[k].posted == map[]; }
    }
  }

  lemma RelaunchGrows(c: Config, rt: Runtime, modelPath: string, reply: LaunchReply)
    requires CacheTrue(c, rt) && c.launchServer
    ensures var (after, error) := Relaunch(rt, modelPath, reply);
      && CacheTrue(c, after) && Grows(rt, after)
      && (error.None? ==> after.process.Some? && after.servers != [] && Newest(after).model == modelPath)
  {
    var stopped := Closed(rt).(loadedLoras := map[]);
    assert Grows(rt, stopped) && CacheTrue(c, stopped) by {
      if rt.process.Some? { EndedGrows(c, rt, rt.process.value); }
    }
    LaunchedGrows(c, stopped, modelPath, false);
    LaunchedGrows(c, stopped, modelPath, true);
    GrowsTransitive(rt, stopped, Launched(stopped, modelPath, false));
    GrowsTransitive(rt, stopped, Launched(stopped, modelPath, true));
  }

  /** A server that is used, old or new, was launched with the model asked for. */
  lemma EnsureServerGrows(c: Config, rt: Runtime, modelPath: string, reply: LaunchReply)
    requires CacheTrue(c, rt)
    ensures var (after, error) := EnsureServer(c, rt, modelPath, reply);
      && CacheTrue(c, after) && Grows(rt, after)
      && (error.None? && c.launchServer ==>
            after.process.Some? && after.servers != [] && Newest(after).model == modelPath)
  {
    PolledGrows(c, rt);
    if c.launchServer {
      RelaunchGrows(c, Polled(rt), modelPath, reply);
    }
  }

  /** Only the newest server's entry for one name may change. */
  ghost predicate PostsOnly(before: Runtime, after: Runtime, adapter: Adapter) {
    && |before.servers| == |after.servers|
    && (forall k :: 0 <= k < |before.servers| - 1 ==> after.servers[k] == before.servers[k])
    && (before.servers != [] ==>
          (var b, a := Newest(before), Newest(after);
           a.model == b.model && (a.posted == b.posted || a.posted == b.posted[adapter.name := adapter.path])))
  }

  lemma LoadLoraPosts(c: Config, rt: Runtime, adapter: Adapter, reply: PostReply)
    requires CacheTrue(c, rt)
    requires c.launchServer ==> rt.process.Some?
    ensures var (after, error) := LoadLora(c, rt, adapter, reply);
      && CacheTrue(c, after) && PostsOnly(rt, after, adapter) && after.servers != []
      && (error.None? ==> Holds(Newest(after), adapter))
      && (error.Some? ==> Newest(after).posted == Newest(rt).posted)
  {
  }

  // ---------------------------------------------------------------- one load

  /** The newest server runs the artifact's model and has its adapter under the adapter's name. */
  ghost predicate ServedBy(c: Config, server: Server, l: Loaded) {
    && (c.launchServer ==> server.model == l.modelPath)
    && (l.adapter.Some? ==> Holds(server, l.adapter.value))
  }

  ghost predicate Serves(c: Config, rt: Runtime, l: Loaded) {
    rt.servers != [] && ServedBy(c, Newest(rt), l)
  }

  /** Bringing up an artifact: first the server may be replaced, then one adapter posted. */
  lemma BringEffect(c: Config, rt: Runtime, wanted: Loaded, w: World) returns (ensured: Runtime)
    requires CacheTrue(c, rt)
    ensures ensured == EnsureServer(c, rt, wanted.modelPath, w.launch).0
    ensures Grows(rt, ensured)
    ensures var (after, error) := Bring(c, rt, wanted, w);
      && CacheTrue(c, after)
      && (error.Some? ==> Grows(rt, after))
      && (error.None? ==> Serves(c, after, wanted))
      && (error.None? ==> after == ensured || (wanted.adapter.Some? && PostsOnly(ensured, after, wanted.adapter.value)))
  {
    EnsureServerGrows(c, rt, wanted.modelPath, w.launch);
    ensured := EnsureServer(c, rt, wanted.modelPath, w.launch).0;
    if EnsureServer(c, rt, wanted.modelPath, w.launch).1.None? && wanted.adapter.Some? {
      LoadLoraPosts(c, ensured, wanted.adapter.value, w.post);
      var (after, error) := LoadLora(c, ensured, wanted.adapter.value, w.post);
      if error.Some? {
        assert Grows(ensured, after);
        GrowsTransitive(rt, ensured, after);
      }
    }
  }

  // ---------------------------------------------------------------- whose adapters a server holds

  /** No two of these runs share the run part of an adapter name. */
  ghost predicate Distinct(runs: set<string>) {
    forall r, r' :: r in runs && r' in runs && AdapterRun(r) == AdapterRun(r') ==> r == r'
  }

  ghost predicate Unnamed(r: string, posted: map<string, string>) {
    forall v :: AdapterName(r, v) !in posted
  }

  ghost predicate LoadedThere(c: Config, s: Sampler, r: string)
    requires r in s.loaded
  {
    && r in s.since && 1 <= s.since[r] <= |s.runtime.servers|
    && ServedBy(c, s.runtime.servers[s.since[r] - 1], s.loaded[r])
    && (s.loaded[r].adapter.Some? ==>
          s.loaded[r].adapter.value.name == AdapterName(r, s.loaded[r].artifact.checkpointVersion))
  }

  ghost predicate OwnLoads(c: Config, s: Sampler, runs: set<string>) {
    && (forall r :: r in s.loaded ==> r in runs && LoadedThere(c, s, r))
    && (forall r :: r in s.since ==> r in s.loaded)
  }

  ghost predicate OwnNames(servers: seq<Server>, since: map<string, nat>, runs: set<string>) {
    forall r, k {:trigger Unnamed(r, servers[k].posted)} ::
      r in runs && 0 <= k < |servers| && (r in since ==> since[r] <= k) ==> Unnamed(r, servers[k].posted)
  }

  /** What a run loaded is still where it was loaded, and no later server has heard of the run. */
  ghost predicate Owned(c: Config, s: Sampler, runs: set<string>) {
    OwnLoads(c, s, runs) && OwnNames(s.runtime.servers, s.since, runs)
  }

  lemma GrowthKeepsLoaded(c: Config, s: Sampler, rt: Runtime, r: string)
    requires r in s.loaded && LoadedThere(c, s, r) && Grows(s.runtime, rt)
    ensures LoadedThere(c, s.(runtime := rt), r)
  {
    var k := s.since[r] - 1;
    assert rt.servers[k].model == s.runtime.servers[k].model && rt.servers[k].posted == s.runtime.servers[k].posted;
  }

  lemma GrowthKeepsLoads(c: Config, s: Sampler, rt: Runtime, runs: set<string>)
    requires OwnLoads(c, s, runs) && Grows(s.runtime, rt)
    ensures OwnLoads(c, s.(runtime := rt), runs)
  {
    forall r | r in s.loaded ensures LoadedThere(c, s.(runtime := rt), r) {
      GrowthKeepsLoaded(c, s, rt, r);
    }
  }

  lemma GrowthKeepsNames(before: Runtime, after: Runtime, since: map<string, nat>, runs: set<string>)
    requires OwnNames(before.servers, since, runs) && Grows(before, after)
    ensures OwnNames(after.servers, since, runs)
  {
    forall r, k | r in runs && 0 <= k < |after.servers| && (r in since ==> since[r] <= k)
      ensures Unnamed(r, after.servers[k].posted)
    {
      if k < |before.servers| { assert Unnamed(r, before.servers[k].posted); }
      GrowthKeepsUnnamed(before, after, r, k);
    }
  }

  lemma GrowthKeepsOwned(c: Config, s: Sampler, rt: Runtime, runs: set<string>)
    requires Owned(c, s, runs) && Grows(s.runtime, rt)
    ensures Owned(c, s.(runtime := rt), runs)
  {
    GrowthKeepsLoads(c, s, rt, runs);
    GrowthKeepsNames(s.runtime, rt, s.since, runs);
  }

  lemma GrowthKeepsUnnamed(before: Runtime, after: Runtime, r: string, k: nat)
    requires Grows(before, after) && k < |after.servers|
    requires k < |before.servers| ==> Unnamed(r, before.servers[k].posted)
    ensures Unnamed(r, after.servers[k].posted)
  {
  }

  lemma OtherNames(r: string, r': string, v: int, runs: set<string>)
    requires Distinct(runs) && r in runs && r' in runs && r != r'
    ensures forall v' :: AdapterName(r', v') != AdapterName(r, v)
  {
    forall v' ensures AdapterName(r', v') != AdapterName(r, v) { AdapterNameInjective(r', v', r, v); }
  }

  /** Away from a name, a post changes no server's entries. */
  lemma PostElsewhere(before: Runtime, after: Runtime, adapter: Option<Adapter>, k: nat, name: string)
    requires before == after || (adapter.Some? && PostsOnly(before, after, adapter.value))
    requires k < |before.servers| && (adapter.Some? ==> adapter.value.name != name)
    ensures |after.servers| == |before.servers| && after.servers[k].model == before.servers[k].model
    ensures name in after.servers[k].posted <==> name in before.servers[k].posted
    ensures name in before.servers[k].posted ==> after.servers[k].posted[name] == before.servers[k].posted[name]
  {
  }

  lemma PostKeepsLoaded(c: Config, s: Sampler, after: Sampler, adapter: Option<Adapter>, r: string)
    requires s.runtime == after.runtime || (adapter.Some? && PostsOnly(s.runtime, after.runtime, adapter.value))
    requires r in s.loaded && LoadedThere(c, s, r)
    requires r in after.loaded && after.loaded[r] == s.loaded[r] && r in after.since && after.since[r] == s.since[r]
    requires adapter.Some? ==> forall v :: AdapterName(r, v) != adapter.value.name
    ensures LoadedThere(c, after, r)
  {
    var name := AdapterName(r, s.loaded[r].artifact.checkpointVersion);
    PostElsewhere(s.runtime, after.runtime, adapter, s.since[r] - 1, name);
  }

  lemma PostKeepsLoads(c: Config, s: Sampler, rt: Runtime, r: string, l: Loaded, runs: set<string>)
    requires Distinct(runs) && r in runs && OwnLoads(c, s, runs) && Serves(c, rt, l)
    requires l.adapter.Some? ==> l.adapter.value.name == AdapterName(r, l.artifact.checkpointVersion)
    requires rt == s.runtime || (l.adapter.Some? && PostsOnly(s.runtime, rt, l.adapter.value))
    ensures OwnLoads(c, Sampler(rt, s.loaded[r := l], s.since[r := |rt.servers|], s.log + [(r, l)]), runs)
  {
    var after := Sampler(rt, s.loaded[r := l], s.since[r := |rt.servers|], s.log + [(r, l)]);
    forall r' | r' in after.loaded ensures r' in runs && LoadedThere(c, after, r') {
      if r' != r {
        OtherNames(r, r', l.artifact.checkpointVersion, runs);
        PostKeepsLoaded(c, s, after, l.adapter, r');
      }
    }
  }

  lemma PostKeepsNames(c: Config, s: Sampler, rt: Runtime, r: string, l: Loaded, runs: set<string>)
    requires Distinct(runs) && r in runs && OwnNames(s.runtime.servers, s.since, runs) && Serves(c, rt, l)
    requires l.adapter.Some? ==> l.adapter.value.name == AdapterName(r, l.artifact.checkpointVersion)
    requires rt == s.runtime || (l.adapter.Some? && PostsOnly(s.runtime, rt, l.adapter.value))
    ensures OwnNames(rt.servers, s.since[r := |rt.servers|], runs)
  {
    var since := s.since[r := |rt.servers|];
    forall r', k | r' in runs && 0 <= k < |rt.servers| && (r' in since ==> since[r'] <= k)
      ensures Unnamed(r', rt.servers[k].posted)
    {
      OtherNames(r, r', l.artifact.checkpointVersion, runs);
      assert Unnamed(r', s.runtime.servers[k].posted);
      forall v ensures AdapterName(r', v) !in rt.servers[k].posted {
        PostElsewhere(s.runtime, rt, l.adapter, k, AdapterName(r', v));
      }
    }
  }

  /** A post under a run's own name leaves every other run's adapters alone. */
  lemma PostKeepsOwned(c: Config, s: Sampler, rt: Runtime, r: string, l: Loaded, runs: set<string>)
    requires Distinct(runs) && r in runs && Owned(c, s, runs) && Serves(c, rt, l)
    requires l.adapter.Some? ==> l.adapter.value.name == AdapterName(r, l.artifact.checkpointVersion)
    requires rt == s.runtime || (l.adapter.Some? && PostsOnly(s.runtime, rt, l.adapter.value))
    ensures Owned(c, Sampler(rt, s.loaded[r := l], s.since[r := |rt.servers|], s.log + [(r, l)]), runs)
  {
    PostKeepsLoads(c, s, rt, r, l, runs);
    PostKeepsNames(c, s, rt, r, l, runs);
  }

  /** The state once the wanted artifact is served, or the attempt failed. */
  function Brought(c: Config, s: Sampler, r: string, wanted: Loaded, w: World): Sampler {
    var (rt, error) := Bring(c, s.runtime, wanted, w);
    if error.Some? then s.(runtime := rt)
    else Sampler(rt, s.loaded[r := wanted], s.since[r := |rt.servers|], s.log + [(r, wanted)])
  }

  lemma LoadIsBrought(c: Config, s: Sampler, r: string, artifact: Result<WeightArtifact, Error>, w: World)
    ensures LoadArtifact(c, s, r, artifact, w).0 ==
      if artifact.Ok? && w.payload.Ok? && Resolve(c, r, artifact.value, w.payload.value).Ok?
      then Brought(c, s, r, Resolve(c, r, artifact.value, w.payload.value).value, w) else s
  {
  }

  lemma BroughtKeepsOwned(c: Config, s: Sampler, r: string, wanted: Loaded, w: World, runs: set<string>)
    requires CacheTrue(c, s.runtime)
    requires wanted.adapter.Some? ==> wanted.adapter.value.name == AdapterName(r, wanted.artifact.checkpointVersion)
    ensures CacheTrue(c, Brought(c, s, r, wanted, w).runtime)
    ensures Distinct(runs) && r in runs && Owned(c, s, runs) ==> Owned(c, Brought(c, s, r, wanted, w), runs)
  {
    var ensured := BringEffect(c, s.runtime, wanted, w);
    var (rt, error) := Bring(c, s.runtime, wanted, w);
    if Distinct(runs) && r in runs && Owned(c, s, runs) {
      if error.Some? {
        GrowthKeepsOwned(c, s, rt, runs);
      } else {
        GrowthKeepsOwned(c, s, ensured, runs);
        PostKeepsOwned(c, s.(runtime := ensured), rt, r, wanted, runs);
      }
    }
  }

  lemma LoadKeepsOwned(c: Config, s: Sampler, r: string, artifact: Result<WeightArtifact, Error>, w: World,
                       runs: set<string>)
    requires CacheTrue(c, s.runtime)
    ensures CacheTrue(c, LoadArtifact(c, s, r, artifact, w).0.runtime)
    ensures Distinct(runs) && r in runs && Owned(c, s, runs) ==> Owned(c, LoadArtifact(c, s, r, artifact, w).0, runs)
  {
    LoadIsBrought(c, s, r, artifact, w);
    if artifact.Ok? && w.payload.Ok? && Resolve(c, r, artifact.value, w.payload.value).Ok? {
      BroughtKeepsOwned(c, s, r, Resolve(c, r, artifact.value, w.payload.value).value, w, runs);
    }
  }

  lemma EndKeepsOwned(c: Config, s: Sampler, k: nat, runs: set<string>)
    requires CacheTrue(c, s.runtime)
    ensures CacheTrue(c, Ended(s.runtime, k))
    ensures Owned(c, s, runs) ==> Owned(c, s.(runtime := Ended(s.runtime, k)), runs)
  {
    EndedGrows(c, s.runtime, k);
    if Owned(c, s, runs) { GrowthKeepsOwned(c, s, Ended(s.runtime, k), runs); }
  }

  ghost predicate Names(a: Action, runs: set<string>) {
    a.ARefresh? || a.ASample? ==> a.runId in runs
  }

  ghost predicate KeepsOwned(c: Config, before: Sampler, after: Sampler, runs: set<string>) {
    && (CacheTrue(c, before.runtime) ==> CacheTrue(c, after.runtime))
    && (CacheTrue(c, before.runtime) && Distinct(runs) && Owned(c, before, runs) ==> Owned(c, after, runs))
  }

  /** A refresh and a sample do nothing to the state, or load. */
  lemma CallsLoad(c: Config, s: Sampler, r: string, artifact: Option<WeightArtifact>, request: SampleRequest,
                  w: World, answers: bool)
    ensures var after := RefreshWeights(c, s, r, artifact, w).0;
      after == s || after == LoadArtifact(c, s, r, if artifact.Some? then Ok(artifact.value) else w.latest, w).0
    ensures var after := Sample(c, s, r, request, w, answers).0;
      after == s || after == LoadArtifact(c, s, r, w.latest, w).0
  {
  }

  lemma LoadKeeps(c: Config, s: Sampler, r: string, artifact: Result<WeightArtifact, Error>, w: World,
                  runs: set<string>)
    requires r in runs
    ensures KeepsOwned(c, s, LoadArtifact(c, s, r, artifact, w).0, runs)
  {
    if CacheTrue(c, s.runtime) { LoadKeepsOwned(c, s, r, artifact, w, runs); }
  }

  lemma EndKeeps(c: Config, s: Sampler, k: nat, runs: set<string>)
    ensures KeepsOwned(c, s, s.(runtime := Ended(s.runtime, k)), runs)
  {
    if CacheTrue(c, s.runtime) { EndKeepsOwned(c, s, k, runs); }
  }

  lemma StepKeepsOwned(c: Config, s: Sampler, a: Action, runs: set<string>)
    requires Names(a, runs)
    ensures KeepsOwned(c, s, Step(c, s, a), runs)
  {
    match a
    case ARefresh(r, artifact, w) =>
      CallsLoad(c, s, r, artifact, SampleRequest([], "", 0, 0.0, 0.0, 0), w, true);
      LoadKeeps(c, s, r, if artifact.Some? then Ok(artifact.value) else w.latest, w, runs);
    case ASample(r, request, w, answers) =>
      CallsLoad(c, s, r, None, request, w, answers);
      LoadKeeps(c, s, r, w.latest, w, runs);
    case AExit(k) => EndKeeps(c, s, k, runs);
    case AClose => if s.runtime.process.Some? { EndKeeps(c, s, s.runtime.process.value, runs); }
  }
}
