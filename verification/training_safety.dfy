/** What holds at every moment of every interleaving of the training backend's threads. */
module TrainingSafety {
  import opened Wrappers
  import opened Contracts
  import opened Text
  import opened Seqs
  import opened Artifacts
  import opened TensorBatches
  import opened TrainingSpec
  import opened TrainingThreads
  import opened Linearization

  /** The finished calls of any execution are a history of the atomic machine with the answers that
      were really given, and the threads' shared state is that history's state, give or take the calls
      still on their way. */
  lemma ThreadsAreLinearizable(root: Root, ms: seq<Machine>, actions: seq<Action>, i: nat)
    requires Execution(root, ms, actions) && i <= |actions|
    ensures Legal(root, ms[i].history)
    ensures Replay(root, ms[i].history) == Abstract(ms[i])
    ensures forall id :: id in ms[i].s.runs && id !in ms[i].locks ==>
              ms[i].s.runs[id] == Replay(root, ms[i].history).runs[id]
  {
    ExecutionSound(root, ms, actions, i);
  }

  lemma OneActiveNow(m: Machine)
    requires Sound(m)
    ensures AtMostOneActive(m.s.runs)
  {
    HistorySafety(m.s.root, m.history);
    forall a, b | a in m.s.runs && b in m.s.runs && m.s.runs[a].status.Active() && m.s.runs[b].status.Active()
      ensures a == b
    {
      ActiveMeansActive(m, a);
      ActiveMeansActive(m, b);
      assert Abstract(m).runs[a].status.Active() && Abstract(m).runs[b].status.Active();
    }
  }

  lemma UnlockedCounters(m: Machine, id: string)
    requires Sound(m) && id in m.s.runs && id !in m.locks
    ensures CountersMatch(m.s.runs[id], CompletedOf(m, id))
  {
    HistorySafety(m.s.root, m.history);
    assert Abstract(m).runs[id] == m.s.runs[id];
    assert CompletedOf(m, id) == RuntimeTrace(m.history, id) + InFlight(Holder(m, id));
    assert RuntimeTrace(m.history, id) + [] == RuntimeTrace(m.history, id);
  }

  lemma FlightKeepsShape(before: Run, t: seq<RuntimeCall>, s: State, pc: Pc)
    requires RunAgrees(before, t) && pc.Unsettled() && PcOk(s, pc) && pc.before == before
    ensures InLanguage(t + InFlight(Some(pc)))
  {
    var call := pc.call;
    assert t + [] == t;
    if InFlight(Some(pc)) == [] {
      ShapeIsPrefix(t, before.optimizerStep, before.gradientVersion == before.optimizerStep + 1);
    } else {
      match call
      case ForwardBackward(_, _, _) =>
        ShapeGradient(t, before.optimizerStep);
        ShapeIsPrefix(t + [GradientOk], before.optimizerStep, true);
      case OptimStep(_, _) =>
        ShapeStep(t, before.optimizerStep);
        ShapeIsPrefix(t + [StepOk], before.optimizerStep + 1, false);
      case SaveWeights(_, _) =>
        ShapeSave(t, before.optimizerStep);
        ShapeIsPrefix(t + [SaveOk], before.optimizerStep, false);
    }
  }

  lemma TraceLanguageNow(m: Machine, id: string)
    requires Sound(m)
    ensures InLanguage(CompletedOf(m, id))
  {
    LegalIsCoherent(m.s.root, m.history);
    var t := RuntimeTrace(m.history, id);
    assert TraceAgrees(Abstract(m), m.history, id);
    assert CompletedOf(m, id) == t + InFlight(Holder(m, id));
    if Holder(m, id).Some? && Holder(m, id).value.Unsettled() {
      LockedRunsExist(m);
      assert PcOk(m.s, m.pcs[m.locks[id]]);
      FlightKeepsShape(Abstract(m).runs[id], t, m.s, m.pcs[m.locks[id]]);
    } else {
      assert t + [] == t;
      if id in m.s.runs {
        var run := Abstract(m).runs[id];
        ShapeIsPrefix(t, run.optimizerStep, run.gradientVersion == run.optimizerStep + 1);
      } else {
        ShapeEmpty();
        ShapeIsPrefix([], 0, false);
      }
    }
  }

  /** At every moment: at most one run is active; the training calls the runtime has completed for a
      run are an initial part of (save* fb step)*; and a run nobody holds has the counters its status
      announces. */
  lemma ThreadSafety(root: Root, ms: seq<Machine>, actions: seq<Action>, i: nat)
    requires Execution(root, ms, actions) && i <= |actions|
    ensures AtMostOneActive(ms[i].s.runs)
    ensures forall id :: InLanguage(CompletedOf(ms[i], id))
    ensures forall id :: id in ms[i].s.runs && id !in ms[i].locks ==>
        CountersMatch(ms[i].s.runs[id], CompletedOf(ms[i], id))
  {
    ExecutionSound(root, ms, actions, i);
    OneActiveNow(ms[i]);
    forall id ensures InLanguage(CompletedOf(ms[i], id)) {
      TraceLanguageNow(ms[i], id);
    }
    forall id | id in ms[i].s.runs && id !in ms[i].locks
      ensures CountersMatch(ms[i].s.runs[id], CompletedOf(ms[i], id))
    {
      UnlockedCounters(ms[i], id);
    }
  }

  // ---------------------------------------------------------------- failed and closed are final

  ghost predicate Dead(m: Machine, id: string) {
    id in m.s.runs && !m.s.runs[id].status.Active()
  }

  lemma WorkedOnStaysDead(m: Machine, n: Machine, t: Tid, on: string, id: string)
    requires WorksOn(m, n, t, on) && Dead(m, id)
    ensures Dead(n, id)
  {
  }

  lemma CheckNeverRevives(m: Machine, t: Tid, id: string)
    requires LocksOk(m) && PcsOk(m) && CanCheck(m, t) && Dead(m, id)
    ensures Dead(DoCheck(m, t), id)
  {
    assert PcOk(m.s, m.pcs[t]);
    if CheckIsFinal(m.s.runs[m.pcs[t].call.runId], m.pcs[t].call) {
      CheckFinalShape(m, t);
    } else {
      CheckPassShape(m, t);
    }
    WorkedOnStaysDead(m, DoCheck(m, t), t, m.pcs[t].call.runId, id);
  }

  lemma WorkNeverRevives(m: Machine, t: Tid, id: string)
    requires LocksOk(m) && PcsOk(m) && CanWork(m, t) && Dead(m, id)
    ensures Dead(DoWork(m, t), id)
  {
    assert PcOk(m.s, m.pcs[t]);
    WorkShape(m, t);
    WorkedOnStaysDead(m, DoWork(m, t), t, m.pcs[t].call.runId, id);
  }

  lemma SettleNeverRevives(m: Machine, t: Tid, id: string)
    requires LocksOk(m) && PcsOk(m) && CanSettle(m, t) && Dead(m, id)
    ensures Dead(DoSettle(m, t), id)
  {
    assert PcOk(m.s, m.pcs[t]);
    SettleShape(m, t);
    WorkedOnStaysDead(m, DoSettle(m, t), t, m.pcs[t].call.runId, id);
  }

  lemma CreateNeverRevives(m: Machine, t: Tid, reply: Reply, id: string)
    requires RunName(m.s.counter + 1) !in m.s.runs && CanCreateReply(m, t) && Dead(m, id)
    ensures Dead(DoCreateReply(m, t, reply), id)
  {
  }

  /** The steps that write no run. */
  predicate LeavesRuns(a: Action) {
    !a.Check? && !a.Work? && !a.Settle? && !a.CreateReply?
  }

  lemma RunsLeft(m: Machine, a: Action)
    requires Enabled(m, a) && LeavesRuns(a)
    ensures Do(m, a).s == m.s
  {
    match a
    case StartCreate(t, call) => assert Do(m, a) == DoStartCreate(m, t, call);
    case ScanOne(t, id) => assert Do(m, a) == DoScan(m, t, id);
    case ScanDone(t) => assert Do(m, a) == DoScanDone(m, t);
    case StartCall(t, call) => assert Do(m, a) == DoStartCall(m, t, call);
    case Acquire(t) => assert Do(m, a) == DoAcquire(m, t);
    case RuntimeReply(t, reply) => assert Do(m, a) == DoReply(m, t, reply);
    case WriteRaises(t, made) => assert Do(m, a) == DoWriteRaise(m, t, made);
    case Release(t) => assert Do(m, a) == DoRelease(m, t);
    case StartClose(t, order) => assert Do(m, a) == DoStartClose(m, t, order);
    case NextClose(t) => assert Do(m, a) == DoNextClose(m, t);
  }

  lemma StepNeverRevives(m: Machine, a: Action, id: string)
    requires LocksOk(m) && PcsOk(m) && RunName(m.s.counter + 1) !in m.s.runs
    requires Enabled(m, a) && Dead(m, id)
    ensures Dead(Do(m, a), id)
  {
    if LeavesRuns(a) {
      RunsLeft(m, a);
    } else {
      match a
      case Check(t) => CheckNeverRevives(m, t, id);
      case Work(t) => WorkNeverRevives(m, t, id);
      case Settle(t) => SettleNeverRevives(m, t, id);
      case CreateReply(t, reply) => CreateNeverRevives(m, t, reply, id);
    }
  }

  lemma SoundStepKeepsDead(m: Machine, a: Action, id: string)
    requires Sound(m) && Enabled(m, a) && Dead(m, id)
    ensures Dead(Do(m, a), id)
  {
    NamesAreReal(m);
    StepNeverRevives(m, a, id);
  }

  lemma DeadAfterStep(root: Root, ms: seq<Machine>, actions: seq<Action>, i: nat, id: string)
    requires Execution(root, ms, actions) && i < |actions|
    ensures Dead(ms[i], id) ==> Dead(ms[i + 1], id)
  {
    ExecutionSound(root, ms, actions, i);
    StepOf(root, ms, actions, i);
    if Dead(ms[i], id) {
      SoundStepKeepsDead(ms[i], actions[i], id);
    }
  }

  /** Whether the run is dead, moment by moment. */
  ghost function DeadAt(ms: seq<Machine>, id: string): seq<bool> {
    seq(|ms|, i requires 0 <= i < |ms| => Dead(ms[i], id))
  }

  /** Once a run has failed or closed it is so for ever. */
  lemma DeadStaysDead(root: Root, ms: seq<Machine>, actions: seq<Action>, i: nat, j: nat, id: string)
    requires Execution(root, ms, actions) && i <= j <= |actions| && Dead(ms[i], id)
    ensures Dead(ms[j], id)
  {
    var dead := DeadAt(ms, id);
    forall k | 0 < k < |dead| && dead[k - 1] ensures dead[k] {
      DeadAfterStep(root, ms, actions, k - 1, id);
    }
    OnceThenAlways(dead, i, j);
  }

  // ---------------------------------------------------------------- what a call comes to

  lemma OthersStayWriting(m: Machine, a: Action, t: Tid)
    requires Enabled(m, a) && a.t != t && t in m.pcs && !LeavesRuns(a)
    ensures t in Do(m, a).pcs && Do(m, a).pcs[t] == m.pcs[t]
  {
    match a
    case Check(u) => assert Do(m, a) == DoCheck(m, u);
    case Work(u) => assert Do(m, a) == DoWork(m, u);
    case Settle(u) => assert Do(m, a) == DoSettle(m, u);
    case CreateReply(u, reply) => assert Do(m, a) == DoCreateReply(m, u, reply);
  }

  lemma OthersStayReading(m: Machine, a: Action, t: Tid)
    requires Enabled(m, a) && a.t != t && t in m.pcs && LeavesRuns(a)
    ensures t in Do(m, a).pcs && Do(m, a).pcs[t] == m.pcs[t]
  {
    match a
    case StartCreate(u, call) => assert Do(m, a) == DoStartCreate(m, u, call);
    case ScanOne(u, id) => assert Do(m, a) == DoScan(m, u, id);
    case ScanDone(u) => assert Do(m, a) == DoScanDone(m, u);
    case StartCall(u, call) => assert Do(m, a) == DoStartCall(m, u, call);
    case Acquire(u) => assert Do(m, a) == DoAcquire(m, u);
    case RuntimeReply(u, reply) => assert Do(m, a) == DoReply(m, u, reply);
    case WriteRaises(u, made) => assert Do(m, a) == DoWriteRaise(m, u, made);
    case Release(u) => assert Do(m, a) == DoRelease(m, u);
    case StartClose(u, order) => assert Do(m, a) == DoStartClose(m, u, order);
    case NextClose(u) => assert Do(m, a) == DoNextClose(m, u);
  }

  /** A step of one thread moves no other thread. */
  lemma OthersStay(m: Machine, a: Action, t: Tid)
    requires Enabled(m, a) && a.t != t && t in m.pcs
    ensures t in Do(m, a).pcs && Do(m, a).pcs[t] == m.pcs[t]
  {
    if LeavesRuns(a) { OthersStayReading(m, a, t); } else { OthersStayWriting(m, a, t); }
  }

  /** The thread is between its runtime call's reply and the assignment that settles the call. */
  ghost predicate OnItsWay(m: Machine, t: Tid, call: Call, before: Run, reply: Reply) {
    && t in m.pcs
    && match m.pcs[t]
       case Working(c, b, r, _, _) => c == call && b == before && r == reply && reply.Returns?
       case Failing(c, b, r, _, _) =>
         c == call && b == before && (r == reply == Raises || (reply.Returns? && call.SaveWeights? && r.StoreRaises?))
       case _ => false
  }

  lemma ReplyStarts(m: Machine, t: Tid, reply: Reply)
    requires CanReply(m, t, reply)
    ensures OnItsWay(DoReply(m, t, reply), t, m.pcs[t].call, m.pcs[t].before, reply)
  {
  }

  lemma WayGoesOn(m: Machine, a: Action, t: Tid, call: Call, before: Run, reply: Reply)
    requires Enabled(m, a) && a != Settle(t) && OnItsWay(m, t, call, before, reply)
    ensures OnItsWay(Do(m, a), t, call, before, reply)
  {
    if a.t != t {
      OthersStay(m, a, t);
    } else if a.Work? {
      assert Do(m, a) == DoWork(m, t);
    } else if a.WriteRaises? {
      assert Do(m, a) == DoWriteRaise(m, t, a.made);
    }
  }

  lemma {:induction false} StillOnItsWay(root: Root, ms: seq<Machine>, actions: seq<Action>, i: nat, j: nat, t: Tid,
                                         call: Call, before: Run, reply: Reply)
    requires Execution(root, ms, actions) && i <= j <= |actions| && OnItsWay(ms[i], t, call, before, reply)
    requires forall k :: i <= k < j ==> actions[k] != Settle(t)
    ensures OnItsWay(ms[j], t, call, before, reply)
    decreases j - i
  {
    if i < j {
      StillOnItsWay(root, ms, actions, i, j - 1, t, call, before, reply);
      StepOf(root, ms, actions, j - 1);
      WayGoesOn(ms[j - 1], actions[j - 1], t, call, before, reply);
    }
  }

  /** What a run becomes by a call, from how it was when the runtime answered. */
  ghost predicate Became(call: Call, run: Run, reply: Reply, after: Run) {
    match call
    case ForwardBackward(_, _, _) =>
      after == if reply.Returns? then run.(gradientVersion := run.gradientVersion + 1, status := GradientsPending)
               else run.(status := Failed)
    case OptimStep(_, _) =>
      after == if reply.Returns? then run.(optimizerStep := run.optimizerStep + 1,
                                           checkpointVersion := run.checkpointVersion + 1, status := Ready)
               else run.(status := Failed)
    case SaveWeights(_, _) => run.status == Checkpointing && after == run.(status := Ready)
    case CloseRun(_) => run.status != Closed && after == run.(status := if reply.Returns? then Closed else Failed)
    case Create(_, _, _) => false
  }

  /** What the caller is told. */
  ghost predicate Told(root: Root, call: Call, reply: Reply, after: Run, answer: Answer) {
    match call
    case ForwardBackward(_, data, _) =>
      answer == if reply.Returns? then Gradient(after.gradientVersion, TokenTotal(data), reply.loss) else Raised
    case OptimStep(_, _) =>
      answer == if reply.Returns? then Stepped(after.optimizerStep, after.checkpointVersion) else Raised
    case SaveWeights(id, kind) =>
      || answer == Raised
      || (reply.Returns? && answer == Saved(ArtifactOf(root, id, after.checkpointVersion, kind)))
    case CloseRun(_) => answer == CloseDone
    case Create(_, _, _) => false
  }

  /** The run as the runtime's reply finds it. */
  function AtReply(call: Call, before: Run): Run {
    if call.SaveWeights? then before.(status := Checkpointing) else before
  }

  /** The call is over: the run has become what the reply calls for, and the caller is told so. */
  ghost predicate EndsAs(after: Machine, call: Call, run: Run, reply: Reply) {
    && !call.Create? && call.runId in after.s.runs && after.history != []
    && Became(call, run, reply, after.s.runs[call.runId])
    && after.history[|after.history| - 1].call == call
    && Told(after.s.root, call, reply, after.s.runs[call.runId], after.history[|after.history| - 1].answer)
  }

  lemma SettleEnds(m: Machine, t: Tid, call: Call, before: Run, reply: Reply)
    requires PcsOk(m) && CanSettle(m, t) && OnItsWay(m, t, call, before, reply)
    ensures EndsAs(DoSettle(m, t), call, AtReply(call, before), reply)
  {
    assert PcOk(m.s, m.pcs[t]);
    if call.ForwardBackward? && Accepted(call.data, call.lossFn) {
      TokenCountIsTotal(call.data, call.lossFn);
    }
  }

  lemma ReplyFinds(root: Root, ms: seq<Machine>, actions: seq<Action>, i: nat, t: Tid, reply: Reply)
    requires Execution(root, ms, actions) && i < |actions| && actions[i] == RuntimeReply(t, reply)
    ensures CanReply(ms[i], t, reply) && ms[i].pcs[t].call.runId in ms[i].s.runs
    ensures var call, before := ms[i].pcs[t].call, ms[i].pcs[t].before;
      ms[i].s.runs[call.runId] == AtReply(call, before) && OnItsWay(ms[i + 1], t, call, before, reply)
  {
    StepOf(root, ms, actions, i);
    ExecutionSound(root, ms, actions, i);
    assert Do(ms[i], actions[i]) == DoReply(ms[i], t, reply);
    assert PcOk(ms[i].s, ms[i].pcs[t]);
    ReplyStarts(ms[i], t, reply);
  }

  lemma SettledAt(root: Root, ms: seq<Machine>, actions: seq<Action>, j: nat, t: Tid, call: Call, before: Run,
                  reply: Reply)
    requires Execution(root, ms, actions) && j < |actions| && actions[j] == Settle(t)
    requires OnItsWay(ms[j], t, call, before, reply)
    ensures EndsAs(ms[j + 1], call, AtReply(call, before), reply)
  {
    StepOf(root, ms, actions, j);
    ExecutionSound(root, ms, actions, j);
    assert Do(ms[j], actions[j]) == DoSettle(ms[j], t);
    SettleEnds(ms[j], t, call, before, reply);
  }

  /** In every interleaving, whatever the other threads do meanwhile, a call does to its run what the
      runtime's reply calls for: a gradient or a step is counted when the runtime returned, and the run is
      FAILED when it raised; a save leaves it READY in any case; a shutdown leaves it CLOSED when it
      returned and FAILED when it raised. */
  lemma CallBecomes(root: Root, ms: seq<Machine>, actions: seq<Action>, i: nat, j: nat, t: Tid, reply: Reply)
    requires Execution(root, ms, actions) && i < j < |actions|
    requires actions[i] == RuntimeReply(t, reply) && actions[j] == Settle(t)
    requires forall k :: i < k < j ==> actions[k] != Settle(t)
    ensures CanReply(ms[i], t, reply) && ms[i].pcs[t].call.runId in ms[i].s.runs
    ensures EndsAs(ms[j + 1], ms[i].pcs[t].call, ms[i].s.runs[ms[i].pcs[t].call.runId], reply)
  {
    ReplyFinds(root, ms, actions, i, t, reply);
    var call, before := ms[i].pcs[t].call, ms[i].pcs[t].before;
    StillOnItsWay(root, ms, actions, i + 1, j, t, call, before, reply);
    SettledAt(root, ms, actions, j, t, call, before, reply);
  }

  // ---------------------------------------------------------------- closed is left alone

  ghost predicate ClosedAs(m: Machine, id: string, run: Run) {
    id in m.s.runs && m.s.runs[id] == run && run.status == Closed
  }

  /** No thread works on a closed run. */
  lemma NobodyWorksOnClosed(m: Machine, id: string, t: Tid)
    requires PcsOk(m) && id in m.s.runs && m.s.runs[id].status == Closed && t in m.pcs && m.pcs[t].Unsettled()
    ensures !m.pcs[t].call.Create? && m.pcs[t].call.runId != id
  {
    assert PcOk(m.s, m.pcs[t]);
  }

  lemma CheckLeavesClosed(m: Machine, t: Tid, id: string, run: Run)
    requires CanCheck(m, t) && ClosedAs(m, id, run)
    ensures ClosedAs(DoCheck(m, t), id, run)
  {
  }

  lemma WriteLeavesClosed(m: Machine, a: Action, id: string, run: Run)
    requires PcsOk(m) && Enabled(m, a) && ClosedAs(m, id, run) && (a.Work? || a.Settle?)
    ensures ClosedAs(Do(m, a), id, run)
  {
    NobodyWorksOnClosed(m, id, a.t);
    match a
    case Work(t) => assert Do(m, a) == DoWork(m, t);
    case Settle(t) => assert Do(m, a) == DoSettle(m, t);
  }

  lemma CreateLeavesClosed(m: Machine, t: Tid, reply: Reply, id: string, run: Run)
    requires RunName(m.s.counter + 1) !in m.s.runs && CanCreateReply(m, t) && ClosedAs(m, id, run)
    ensures ClosedAs(DoCreateReply(m, t, reply), id, run)
  {
  }

  lemma StepLeavesClosed(m: Machine, a: Action, id: string, run: Run)
    requires PcsOk(m) && RunName(m.s.counter + 1) !in m.s.runs
    requires Enabled(m, a) && ClosedAs(m, id, run)
    ensures ClosedAs(Do(m, a), id, run)
  {
    if LeavesRuns(a) {
      RunsLeft(m, a);
    } else {
      match a
      case Check(t) => CheckLeavesClosed(m, t, id, run);
      case Work(t) => WriteLeavesClosed(m, a, id, run);
      case Settle(t) => WriteLeavesClosed(m, a, id, run);
      case CreateReply(t, reply) => CreateLeavesClosed(m, t, reply, id, run);
    }
  }

  /** A CLOSED run is never handed to the runtime again, and nothing about it changes. */
  lemma {:induction false} ClosedIsLeftAlone(root: Root, ms: seq<Machine>, actions: seq<Action>, i: nat, j: nat,
                                             id: string)
    requires Execution(root, ms, actions) && i <= j <= |actions|
    requires id in ms[i].s.runs && ms[i].s.runs[id].status == Closed
    ensures id in ms[j].s.runs && ms[j].s.runs[id] == ms[i].s.runs[id]
    ensures forall t :: t in ms[j].pcs && ms[j].pcs[t].InRuntime? ==> Target(ms[j].pcs[t].call) != Some(id)
    decreases j - i
  {
    if i < j {
      ClosedIsLeftAlone(root, ms, actions, i, j - 1, id);
      StepOf(root, ms, actions, j - 1);
      ExecutionSound(root, ms, actions, j - 1);
      NamesAreReal(ms[j - 1]);
      StepLeavesClosed(ms[j - 1], actions[j - 1], id, ms[i].s.runs[id]);
    }
    ExecutionSound(root, ms, actions, j);
    forall t | t in ms[j].pcs && ms[j].pcs[t].InRuntime? ensures Target(ms[j].pcs[t].call) != Some(id) {
      NobodyWorksOnClosed(ms[j], id, t);
    }
  }

  // ---------------------------------------------------------------- nobody waits for ever for nobody

  ghost predicate CanMove(m: Machine, t: Tid) {
    exists a :: ActorOf(a) == t && Enabled(m, a)
  }

  function ActorOf(a: Action): Tid {
    a.t
  }

  lemma Moves(m: Machine, a: Action)
    requires Enabled(m, a)
    ensures CanMove(m, a.t)
  {
    assert ActorOf(a) == a.t;
  }

  lemma ScannerMoves(m: Machine, t: Tid)
    requires t in m.pcs && m.pcs[t].Scanning? && PcOk(m.s, m.pcs[t])
    ensures CanMove(m, t)
  {
    var seen := m.pcs[t].seen;
    if id :| id in m.s.runs && id !in seen {
      Moves(m, ScanOne(t, id));
    } else {
      assert seen == m.s.runs.Keys by {
        assert forall id :: id in seen ==> id in m.s.runs.Keys;
      }
      Moves(m, ScanDone(t));
    }
  }

  lemma LockedMoves(m: Machine, t: Tid)
    requires t in m.pcs && PcOk(m.s, m.pcs[t])
    requires m.pcs[t].Entered? || m.pcs[t].Unsettled()
    ensures CanMove(m, t)
  {
    var pc := m.pcs[t];
    if pc.Entered? {
      Moves(m, Check(t));
    } else if pc.InRuntime? {
      Moves(m, RuntimeReply(t, Raises));
    } else if pc.Working? && pc.call.SaveWeights? && pc.done < 4 {
      Moves(m, WriteRaises(t, 0));
    } else if pc.Working? && pc.done < WorkSteps(pc.call) {
      Moves(m, Work(t));
    } else {
      Moves(m, Settle(t));
    }
  }

  /** A thread inside the backend can take its next step unless it waits for a run's lock. */
  lemma UnblockedMoves(m: Machine, t: Tid)
    requires t in m.pcs && PcOk(m.s, m.pcs[t])
    requires m.pcs[t].Waiting? ==> m.pcs[t].call.runId !in m.locks
    ensures CanMove(m, t)
  {
    var pc := m.pcs[t];
    if pc.Scanning? {
      ScannerMoves(m, t);
    } else if pc.Entered? || pc.Unsettled() {
      LockedMoves(m, t);
    } else if pc.Creating? {
      Moves(m, CreateReply(t, Raises));
    } else if pc.Waiting? {
      Moves(m, Acquire(t));
    } else if pc.Releasing? {
      Moves(m, Release(t));
    } else {
      Moves(m, NextClose(t));
    }
  }

  /** No deadlock: while some thread is inside the backend, some thread inside it can move. */
  lemma NoDeadlock(root: Root, ms: seq<Machine>, actions: seq<Action>, i: nat, t: Tid)
    requires Execution(root, ms, actions) && i <= |actions| && t in ms[i].pcs
    ensures exists u :: u in ms[i].pcs && CanMove(ms[i], u)
  {
    ExecutionSound(root, ms, actions, i);
    var m := ms[i];
    if m.pcs[t].Waiting? && m.pcs[t].call.runId in m.locks {
      var holder := m.locks[m.pcs[t].call.runId];
      assert m.pcs[holder].Holds() == Some(m.pcs[t].call.runId);
      assert PcOk(m.s, m.pcs[holder]);
      UnblockedMoves(m, holder);
    } else {
      assert PcOk(m.s, m.pcs[t]);
      UnblockedMoves(m, t);
    }
  }
}
