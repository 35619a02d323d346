/** Exactly when a sample gets what it names: the newest server was launched with the artifact's model,
    and the last adapter post it carried out under the adapter's name, acknowledged or not, had the
    artifact's path. */
module SGLangCoherence {
  import opened Wrappers
  import opened Contracts
  import opened Seqs
  import opened AdapterNames
  import opened SGLangSpec
  import opened SGLangCaches
  import opened SGLangSampling

  // What an action does to the servers: a process is started, or an adapter post takes effect.
  datatype ServerEvent = Launch(model: string) | Bind(name: string, path: string)

  /** A launch happens when the process held has exited, runs another model or was never there. */
  function LaunchEvents(c: Config, rt: Runtime, modelPath: string, reply: LaunchReply): seq<ServerEvent> {
    var polled := Polled(rt);
    if !c.launchServer || (polled.process.Some? && polled.activeModelPath == modelPath) || reply.PopenFails? then []
    else [Launch(modelPath)]
  }

  /** A post is made when the cache does not answer, and takes effect unless it is refused. */
  function BindEvents(c: Config, rt: Runtime, adapter: Adapter, reply: PostReply): seq<ServerEvent> {
    if !c.enableLora || Cached(rt, adapter) || !Up(c, rt) || reply.PostRefused? then []
    else [Bind(adapter.name, adapter.path)]
  }

  function BringEvents(c: Config, rt: Runtime, wanted: Loaded, w: World): seq<ServerEvent> {
    var (ensured, error) := EnsureServer(c, rt, wanted.modelPath, w.launch);
    LaunchEvents(c, rt, wanted.modelPath, w.launch) +
    (if error.Some? || wanted.adapter.None? then [] else BindEvents(c, ensured, wanted.adapter.value, w.post))
  }

  function LoadEvents(c: Config, s: Sampler, runId: string, artifact: Result<WeightArtifact, Error>, w: World)
    : seq<ServerEvent>
  {
    if artifact.Err? || w.payload.Err? || Resolve(c, runId, artifact.value, w.payload.value).Err? then []
    else BringEvents(c, s.runtime, Resolve(c, runId, artifact.value, w.payload.value).value, w)
  }

  function StepEvents(c: Config, s: Sampler, a: Action): seq<ServerEvent> {
    match a
    case ARefresh(runId, artifact, w) =>
      if runId == "" || (artifact.Some? && artifact.value.runId != "" && artifact.value.runId != runId) then []
      else LoadEvents(c, s, runId, if artifact.Some? then Ok(artifact.value) else w.latest, w)
    case ASample(runId, request, w, _) =>
      if runId == "" || !request.Valid() || runId in s.loaded then [] else LoadEvents(c, s, runId, w.latest, w)
    case _ => []
  }

  /** Everything a history did to the servers, in order. */
  function Events(c: Config, actions: seq<Action>): seq<ServerEvent> {
    if actions == [] then []
    else
      var before, last := actions[..|actions| - 1], actions[|actions| - 1];
      Events(c, before) + StepEvents(c, After(c, before), last)
  }

  /** The model of the newest launch. */
  function NewestModel(events: seq<ServerEvent>): Option<string> {
    if events == [] then None
    else
      var last := events[|events| - 1];
      if last.Launch? then Some(last.model) else NewestModel(events[..|events| - 1])
  }

  /** The path of the last post under a name that took effect since the newest launch. */
  function LastBound(events: seq<ServerEvent>, name: string): Option<string> {
    if events == [] then None
    else
      var last := events[|events| - 1];
      if last.Launch? then None
      else if last.name == name then Some(last.path)
      else LastBound(events[..|events| - 1], name)
  }

  lemma EventSnoc(events: seq<ServerEvent>, e: ServerEvent)
    ensures NewestModel(events + [e]) == if e.Launch? then Some(e.model) else NewestModel(events)
    ensures forall name ::
      LastBound(events + [e], name) ==
      (if e.Launch? then None else if e.name == name then Some(e.path) else LastBound(events, name))
  {
    assert (events + [e])[..|events|] == events;
  }

  function Entry(bound: map<string, string>, name: string): Option<string> {
    if name in bound then Some(bound[name]) else None
  }

  /** The newest server has the model and the adapters the events say. */
  ghost predicate Traced(c: Config, rt: Runtime, events: seq<ServerEvent>) {
    if rt.servers == [] then events == []
    else
      && (c.launchServer ==> NewestModel(events) == Some(Newest(rt).model))
      && forall name :: LastBound(events, name) == Entry(Newest(rt).bound, name)
  }

  /** Only whether processes live may differ. */
  ghost predicate SameHoldings(before: Runtime, after: Runtime) {
    && |before.servers| == |after.servers|
    && forall k :: 0 <= k < |before.servers| ==>
         after.servers[k].model == before.servers[k].model && after.servers[k].bound == before.servers[k].bound
  }

  lemma HoldingsStayTraced(c: Config, before: Runtime, after: Runtime, events: seq<ServerEvent>)
    requires Traced(c, before, events) && SameHoldings(before, after)
    ensures Traced(c, after, events)
  {
  }

  lemma LaunchIsTraced(c: Config, rt: Runtime, model: string, alive: bool, events: seq<ServerEvent>)
    ensures Traced(c, Launched(rt, model, alive), events + [Launch(model)])
  {
    EventSnoc(events, Launch(model));
  }

  lemma EnsureIsTraced(c: Config, rt: Runtime, modelPath: string, reply: LaunchReply, events: seq<ServerEvent>)
    requires Traced(c, rt, events)
    ensures Traced(c, EnsureServer(c, rt, modelPath, reply).0, events + LaunchEvents(c, rt, modelPath, reply))
  {
    var polled := Polled(rt);
    var stopped := Closed(polled).(loadedLoras := map[]);
    assert events + [] == events;
    HoldingsStayTraced(c, rt, polled, events);
    HoldingsStayTraced(c, rt, stopped, events);
    LaunchIsTraced(c, stopped, modelPath, true, events);
    LaunchIsTraced(c, stopped, modelPath, false, events);
  }

  lemma BindIsTraced(c: Config, rt: Runtime, adapter: Adapter, reply: PostReply, events: seq<ServerEvent>)
    requires Traced(c, rt, events) && CacheTrue(c, rt)
    ensures Traced(c, LoadLora(c, rt, adapter, reply).0, events + BindEvents(c, rt, adapter, reply))
  {
    assert events + [] == events;
    var after := LoadLora(c, rt, adapter, reply).0;
    if BindEvents(c, rt, adapter, reply) == [] {
      HoldingsStayTraced(c, rt, after, events);
    } else {
      EventSnoc(events, Bind(adapter.name, adapter.path));
      assert Target(c, rt).value == |rt.servers| - 1;
      assert Newest(after).bound == Newest(rt).bound[adapter.name := adapter.path];
    }
  }

  lemma BringIsTraced(c: Config, rt: Runtime, wanted: Loaded, w: World, events: seq<ServerEvent>)
    requires Traced(c, rt, events) && CacheTrue(c, rt)
    ensures Traced(c, Bring(c, rt, wanted, w).0, events + BringEvents(c, rt, wanted, w))
  {
    var (ensured, error) := EnsureServer(c, rt, wanted.modelPath, w.launch);
    var launched := events + LaunchEvents(c, rt, wanted.modelPath, w.launch);
    EnsureIsTraced(c, rt, wanted.modelPath, w.launch, events);
    EnsureServerGrows(c, rt, wanted.modelPath, w.launch);
    if error.None? && wanted.adapter.Some? {
      BindIsTraced(c, ensured, wanted.adapter.value, w.post, launched);
      assert launched + BindEvents(c, ensured, wanted.adapter.value, w.post) == events + BringEvents(c, rt, wanted, w);
    } else {
      assert launched == events + BringEvents(c, rt, wanted, w);
    }
  }

  lemma LoadIsTraced(c: Config, s: Sampler, r: string, artifact: Result<WeightArtifact, Error>, w: World,
                     events: seq<ServerEvent>)
    requires Traced(c, s.runtime, events) && CacheTrue(c, s.runtime)
    ensures Traced(c, LoadArtifact(c, s, r, artifact, w).0.runtime, events + LoadEvents(c, s, r, artifact, w))
  {
    assert events + [] == events;
    if artifact.Ok? && w.payload.Ok? && Resolve(c, r, artifact.value, w.payload.value).Ok? {
      BringIsTraced(c, s.runtime, Resolve(c, r, artifact.value, w.payload.value).value, w, events);
    }
  }

  lemma RefreshIsTraced(c: Config, s: Sampler, a: Action, events: seq<ServerEvent>)
    requires Traced(c, s.runtime, events) && CacheTrue(c, s.runtime) && a.ARefresh?
    ensures Traced(c, Step(c, s, a).runtime, events + StepEvents(c, s, a))
  {
    assert events + [] == events;
    LoadIsTraced(c, s, a.runId, if a.artifact.Some? then Ok(a.artifact.value) else a.w.latest, a.w, events);
  }

  lemma SampleIsTraced(c: Config, s: Sampler, a: Action, events: seq<ServerEvent>)
    requires Traced(c, s.runtime, events) && CacheTrue(c, s.runtime) && a.ASample?
    ensures Traced(c, Step(c, s, a).runtime, events + StepEvents(c, s, a))
  {
    assert events + [] == events;
    LoadIsTraced(c, s, a.runId, a.w.latest, a.w, events);
  }

  lemma StepIsTraced(c: Config, s: Sampler, a: Action, events: seq<ServerEvent>)
    requires Traced(c, s.runtime, events) && CacheTrue(c, s.runtime)
    ensures Traced(c, Step(c, s, a).runtime, events + StepEvents(c, s, a))
  {
    match a
    case ARefresh(_, _, _) => RefreshIsTraced(c, s, a, events);
    case ASample(_, _, _, _) => SampleIsTraced(c, s, a, events);
    case _ =>
      assert events + [] == events;
      HoldingsStayTraced(c, s.runtime, Step(c, s, a).runtime, events);
  }

  lemma {:induction false} HistoryIsTraced(c: Config, actions: seq<Action>)
    ensures Traced(c, After(c, actions).runtime, Events(c, actions))
  {
    if actions != [] {
      var before, last := actions[..|actions| - 1], actions[|actions| - 1];
      HistoryIsTraced(c, before);
      HistoryKeepsCache(c, before);
      StepIsTraced(c, After(c, before), last, Events(c, before));
    }
  }

  // ---------------------------------------------------------------- the exact condition

  /** Computed from a history: the newest launch was for the artifact's model, and the last post that
      took effect under its adapter's name since then carried its path. */
  predicate LastWordIs(c: Config, events: seq<ServerEvent>, l: Loaded) {
    && (c.launchServer ==> NewestModel(events) == Some(l.modelPath))
    && (l.adapter.Some? ==> LastBound(events, l.adapter.value.name) == Some(l.adapter.value.path))
  }

  lemma TracedIsCoherent(c: Config, rt: Runtime, events: seq<ServerEvent>, l: Loaded)
    requires Traced(c, rt, events) && CacheTrue(c, rt) && Up(c, rt)
    ensures Coherent(c, rt, l) <==> LastWordIs(c, events, l)
  {
    assert rt.servers[Target(c, rt).value] == Newest(rt);
  }

  /** For every history whatsoever, with the server up: it holds what a run loaded exactly when the
      history's last word on the model and on the adapter's name is the run's. */
  lemma CoherentIff(c: Config, actions: seq<Action>, r: string)
    requires r in After(c, actions).loaded && Up(c, After(c, actions).runtime)
    ensures var s := After(c, actions);
      Coherent(c, s.runtime, s.loaded[r]) <==> LastWordIs(c, Events(c, actions), s.loaded[r])
  {
    HistoryIsTraced(c, actions);
    HistoryKeepsCache(c, actions);
    TracedIsCoherent(c, After(c, actions).runtime, Events(c, actions), After(c, actions).loaded[r]);
  }

  /** Hence exactly when an answered sample was served what it names. */
  lemma AnsweredSampleIff(c: Config, actions: seq<Action>, r: string, request: SampleRequest, w: World)
    ensures var (after, answer) := Sample(c, After(c, actions), r, request, w, true);
      var events := Events(c, actions + [ASample(r, request, w, true)]);
      answer.Ok? ==> (Coherent(c, after.runtime, answer.value) <==> LastWordIs(c, events, answer.value))
  {
    var sampling := ASample(r, request, w, true);
    var all := actions + [sampling];
    assert all[..|all| - 1] == actions && all[|all| - 1] == sampling;
    SampleNamesLatest(c, actions, r, request, w, true);
    if Sample(c, After(c, actions), r, request, w, true).1.Ok? {
      CoherentIff(c, all, r);
    }
  }

  // ---------------------------------------------------------------- what takes the last word away

  /** The artifact a call sets out to bring up, unless it is refused or answered before. */
  function Wanted(c: Config, s: Sampler, a: Action): Option<Loaded> {
    if !(a.ARefresh? || a.ASample?) || a.runId == "" then None
    else if a.ASample? && (!a.request.Valid() || a.runId in s.loaded) then None
    else if a.ARefresh? && a.artifact.Some? && a.artifact.value.runId != "" && a.artifact.value.runId != a.runId
    then None
    else
      var artifact := if a.ARefresh? && a.artifact.Some? then Ok(a.artifact.value) else a.w.latest;
      if artifact.Err? || a.w.payload.Err? then None
      else
        match Resolve(c, a.runId, artifact.value, a.w.payload.value)
        case Ok(l) => Some(l)
        case Err(_) => None
  }

  lemma WantedEvents(c: Config, s: Sampler, a: Action)
    ensures StepEvents(c, s, a) ==
      if Wanted(c, s, a).Some? then BringEvents(c, s.runtime, Wanted(c, s, a).value, a.w) else []
  {
  }

  /** The process held runs the model and has not exited. */
  predicate Reused(c: Config, rt: Runtime, modelPath: string) {
    !c.launchServer || (Polled(rt).process.Some? && Polled(rt).activeModelPath == modelPath)
  }

  /** An adapter of the same name at another path. */
  predicate OtherPath(wanted: Loaded, l: Loaded) {
    && wanted.adapter.Some? && l.adapter.Some?
    && wanted.adapter.value.name == l.adapter.value.name && wanted.adapter.value.path != l.adapter.value.path
  }

  lemma BringKeepsWord(c: Config, rt: Runtime, wanted: Loaded, w: World, events: seq<ServerEvent>, l: Loaded)
    requires LastWordIs(c, events, l) && Reused(c, rt, wanted.modelPath) && !OtherPath(wanted, l)
    ensures LastWordIs(c, events + BringEvents(c, rt, wanted, w), l)
  {
    var ensured := EnsureServer(c, rt, wanted.modelPath, w.launch).0;
    assert LaunchEvents(c, rt, wanted.modelPath, w.launch) == [];
    var made := BringEvents(c, rt, wanted, w);
    if made == [] {
      assert events + made == events;
    } else {
      var bind := Bind(wanted.adapter.value.name, wanted.adapter.value.path);
      assert made == [bind];
      EventSnoc(events, bind);
    }
  }

  /** The call's artifact does not find its model running in the process held, because that runs another
      model, has exited or never came up, or it has the same adapter name at another path. */
  predicate TakesWord(c: Config, s: Sampler, a: Action, l: Loaded) {
    var wanted := Wanted(c, s, a);
    wanted.Some? && (!Reused(c, s.runtime, wanted.value.modelPath) || OtherPath(wanted.value, l))
  }

  lemma WordLostBy(c: Config, actions: seq<Action>, a: Action, l: Loaded)
    requires LastWordIs(c, Events(c, actions), l) && !LastWordIs(c, Events(c, actions + [a]), l)
    ensures TakesWord(c, After(c, actions), a, l)
  {
    var s, events := After(c, actions), Events(c, actions);
    assert (actions + [a])[..|actions|] == actions;
    WantedEvents(c, s, a);
    assert events + [] == events;
    if Wanted(c, s, a).Some? {
      var wanted := Wanted(c, s, a).value;
      if Reused(c, s.runtime, wanted.modelPath) && !OtherPath(wanted, l) {
        BringKeepsWord(c, s.runtime, wanted, a.w, events, l);
      }
    }
  }

  ghost function WordAt(c: Config, actions: seq<Action>, l: Loaded): (holds: seq<bool>)
    ensures |holds| == |actions| + 1
  {
    seq(|actions| + 1, i requires 0 <= i <= |actions| => LastWordIs(c, Events(c, actions[..i]), l))
  }

  /** Only a later load takes a run's last word away, and this is which. */
  lemma WordLostSince(c: Config, actions: seq<Action>, k: nat, l: Loaded) returns (j: nat)
    requires k <= |actions| && LastWordIs(c, Events(c, actions[..k]), l) && !LastWordIs(c, Events(c, actions), l)
    ensures k <= j < |actions| && TakesWord(c, After(c, actions[..j]), actions[j], l)
  {
    assert actions[..|actions|] == actions;
    j := FirstLoss(WordAt(c, actions, l), k);
    LostAt(c, actions, j, l);
  }

  lemma LostAt(c: Config, actions: seq<Action>, j: nat, l: Loaded)
    requires j < |actions| && WordAt(c, actions, l)[j] && !WordAt(c, actions, l)[j + 1]
    ensures TakesWord(c, After(c, actions[..j]), actions[j], l)
  {
    assert actions[..j + 1] == actions[..j] + [actions[j]];
    WordLostBy(c, actions[..j], actions[j], l);
  }

  // ---------------------------------------------------------------- runs that share a name

  lemma BringAgain(rt: Runtime, l: Loaded, w: World, k: nat)
    requires rt.process == Some(k) && k < |rt.servers| && rt.servers[k].alive && rt.activeModelPath == l.modelPath
    requires l.adapter.Some? && !Cached(rt, l.adapter.value) && w.post.PostOk?
    ensures var (after, error) := Bring(LAUNCHING, rt, l, w);
      && error.None? && after.process == Some(k) && |after.servers| == |rt.servers| && after.servers[k].alive
      && after.servers[k].bound == rt.servers[k].bound[l.adapter.value.name := l.adapter.value.path]
  {
    assert EnsureServer(LAUNCHING, rt, l.modelPath, w.launch) == (rt, None);
  }

  /** Two runs whose ids give one adapter name, on one model: after the second loads its adapter, the
      first is still sampled under the name, which now stands for the second's adapter. */
  lemma SharedNameServesOther(r: string, r': string, model: string, p: string, q: string, request: SampleRequest)
    requires r != "" && r' != "" && r != r' && AdapterName(r, 0) == AdapterName(r', 0)
    requires model != "" && p != "" && q != "" && p != q && request.Valid()
    ensures var s := After(LAUNCHING, [RefreshOf(r, model, p, PostOk), RefreshOf(r', model, q, PostOk)]);
      var w := World(Err(NotFound), Err(NotFound), Healthy, PostOk);
      var (after, answer) := Sample(LAUNCHING, s, r, request, w, true);
      && answer == Ok(LoadedOf(r, model, p))
      && s.runtime.process == Some(0) && |s.runtime.servers| == 1
      && AdapterName(r, 0) in s.runtime.servers[0].bound && s.runtime.servers[0].bound[AdapterName(r, 0)] == q
      && !Coherent(LAUNCHING, after.runtime, answer.value)
  {
    var first, second := RefreshOf(r, model, p, PostOk), RefreshOf(r', model, q, PostOk);
    var before := After(LAUNCHING, [first]);
    FirstRefresh(r, model, p);
    Twice(LAUNCHING, first, second);
    RefreshIs(before, r', model, q, PostOk);
    BringAgain(before.runtime, LoadedOf(r', model, q), second.w, 0);
  }

  /** There are such ids. */
  lemma BlankServesDash(model: string, p: string, q: string, request: SampleRequest)
    requires model != "" && p != "" && q != "" && p != q && request.Valid()
    ensures var s := After(LAUNCHING, [RefreshOf("a b", model, p, PostOk), RefreshOf("a-b", model, q, PostOk)]);
      var w := World(Err(NotFound), Err(NotFound), Healthy, PostOk);
      var (after, answer) := Sample(LAUNCHING, s, "a b", request, w, true);
      answer == Ok(LoadedOf("a b", model, p)) && !Coherent(LAUNCHING, after.runtime, answer.value)
  {
    UnsafeIdsCollide();
    SharedNameServesOther("a b", "a-b", model, p, q, request);
  }
}
