/** Whatever the threads of the training backend do, the finished calls are a history of the atomic
    machine: each call takes effect at one instant, the one where its answer is settled. */
module Linearization {
  import opened Wrappers
  import opened Contracts
  import opened Text
  import opened Artifacts
  import opened TensorBatches
  import opened TrainingSpec
  import opened TrainingThreads

  /** The thread step of the thread that holds a run's lock. */
  function Holder(m: Machine, id: string): Option<Pc> {
    if id in m.locks && m.locks[id] in m.pcs then Some(m.pcs[m.locks[id]]) else None
  }

  /** The run as the calls settled so far leave it. */
  function Settled(holder: Option<Pc>, run: Run): Run {
    if holder.Some? && holder.value.Unsettled() then holder.value.before else run
  }

  function SettledRuns(m: Machine): map<string, Run> {
    map id | id in m.s.runs :: Settled(Holder(m, id), m.s.runs[id])
  }

  /** The atomic machine's state that the threads' state stands for. */
  function Abstract(m: Machine): State {
    m.s.(runs := SettledRuns(m))
  }

  /** What the run looks like after the first done assignments of a call. */
  function Middle(call: Call, before: Run, done: nat): Run {
    match call
    case ForwardBackward(_, _, _) =>
      if done == 0 then before else before.(gradientVersion := before.gradientVersion + 1)
    case OptimStep(_, _) =>
      if done == 0 then before
      else if done == 1 then before.(optimizerStep := before.optimizerStep + 1)
      else before.(optimizerStep := before.optimizerStep + 1, checkpointVersion := before.checkpointVersion + 1)
    case SaveWeights(_, _) => before.(status := Checkpointing)
    case _ => before
  }

  // ---------------------------------------------------------------- the invariant

  ghost predicate LocksOk(m: Machine) {
    && (forall t :: m.gate == Some(t) <==> t in m.pcs && m.pcs[t].HoldsGate())
    && (forall t :: t in m.pcs && m.pcs[t].Holds().Some? ==>
          m.pcs[t].Holds().value in m.locks && m.locks[m.pcs[t].Holds().value] == t)
    && (forall id :: id in m.locks ==> m.locks[id] in m.pcs && m.pcs[m.locks[id]].Holds() == Some(id))
  }

  ghost predicate Admitted(s: State, call: Call) {
    !call.Create? && EntryError(s.runs, call) == None
  }

  ghost predicate Begun(s: State, call: Call, before: Run, done: nat) {
    && Admitted(s, call)
    && (if call.CloseRun? then before.status != Closed else LockedError(before, call) == None)
    && s.runs[call.runId] == Middle(call, before, done)
  }

  ghost predicate AllKnown(s: State, ids: seq<string>) {
    forall id :: id in ids ==> id in s.runs && id != ""
  }

  ghost predicate PcOk(s: State, pc: Pc) {
    match pc
    case Scanning(call, seen) =>
      && call.Create? && CreateArgumentsValid(call)
      && (forall id :: id in seen ==> id in s.runs && !s.runs[id].status.Active())
    case Creating(call) => call.Create? && CreateArgumentsValid(call) && !SomeRunActive(s.runs)
    case Waiting(call, rest) => Admitted(s, call) && AllKnown(s, rest)
    case Entered(call, rest) => Admitted(s, call) && AllKnown(s, rest)
    case InRuntime(call, before, rest) => Begun(s, call, before, 0) && AllKnown(s, rest)
    case Working(call, before, reply, done, rest) =>
      && Begun(s, call, before, done) && AllKnown(s, rest)
      && reply.Returns? && done <= WorkSteps(call)
    case Failing(call, before, reply, done, rest) =>
      && Begun(s, call, before, done) && AllKnown(s, rest)
      && (match reply
          case Returns(_, _) => false
          case Raises => done == 0
          case StoreRaises(_, written) => call.SaveWeights? && done == written <= 3)
    case Releasing(id, rest) => id in s.runs && AllKnown(s, rest)
    case Closing(rest) => AllKnown(s, rest)
  }

  ghost predicate PcsOk(m: Machine) {
    forall t :: t in m.pcs ==> PcOk(m.s, m.pcs[t])
  }

  ghost predicate HistoryOk(m: Machine) {
    Legal(m.s.root, m.history) && Replay(m.s.root, m.history) == Abstract(m)
  }

  /** The completed runtime call of a call that is not in the history yet. */
  function InFlight(holder: Option<Pc>): seq<RuntimeCall> {
    match holder
    case Some(Working(call, _, _, _, _)) => RuntimeCallOf(call)
    case Some(Failing(call, _, reply, _, _)) => if reply.StoreRaises? then RuntimeCallOf(call) else []
    case _ => []
  }

  ghost predicate TracesOk(m: Machine) {
    forall id :: CompletedOf(m, id) == RuntimeTrace(m.history, id) + InFlight(Holder(m, id))
  }

  ghost predicate Sound(m: Machine) {
    LocksOk(m) && PcsOk(m) && HistoryOk(m) && TracesOk(m)
  }

  // ---------------------------------------------------------------- what a step leaves alone

  /** A run may only change under its own lock, and an inactive one only to an inactive one. */
  lemma PcFrame(s: State, pc: Pc, id: string, run: Run)
    requires PcOk(s, pc) && id in s.runs && pc.Holds() != Some(id)
    requires !s.runs[id].status.Active() ==> !run.status.Active()
    ensures PcOk(s.(runs := s.runs[id := run]), pc)
  {
    var after := s.(runs := s.runs[id := run]);
    if pc.Creating? {
      forall other | other in after.runs ensures !after.runs[other].status.Active() {
        assert !s.runs[other].status.Active();
      }
    }
  }

  /** A new run disturbs no thread outside the backend lock. */
  lemma PcFrameNew(s: State, pc: Pc, id: string, run: Run, counter: nat)
    requires PcOk(s, pc) && id !in s.runs && !pc.HoldsGate()
    ensures PcOk(s.(counter := counter, runs := s.runs[id := run]), pc)
  {
  }

  lemma OnlyOneLock(m: Machine, t: Tid, id: string)
    requires LocksOk(m) && id in m.locks && m.locks[id] == t
    ensures forall other :: other in m.locks && other != id ==> m.locks[other] != t
  {
    forall other | other in m.locks && other != id ensures m.locks[other] != t {
      assert m.pcs[m.locks[other]].Holds() == Some(other);
    }
  }

  lemma HoldsNone(m: Machine, t: Tid)
    requires LocksOk(m) && (t !in m.pcs || m.pcs[t].Holds() == None)
    ensures forall id :: id in m.locks ==> m.locks[id] != t
  {
    forall id | id in m.locks ensures m.locks[id] != t {
      assert m.pcs[m.locks[id]].Holds() == Some(id);
    }
  }

  lemma SameAbstract(m: Machine, n: Machine)
    requires n.s.root == m.s.root && n.s.counter == m.s.counter && n.s.runs.Keys == m.s.runs.Keys
    requires forall id :: id in m.s.runs ==>
               Settled(Holder(n, id), n.s.runs[id]) == Settled(Holder(m, id), m.s.runs[id])
    ensures Abstract(n) == Abstract(m)
  {
    assert forall id :: id in m.s.runs <==> id in n.s.runs by {
      assert forall id :: id in m.s.runs.Keys <==> id in n.s.runs.Keys;
    }
    assert SettledRuns(n) == SettledRuns(m);
  }

  /** Bookkeeping common to every step: t moves from one place to another that holds the same locks. */
  ghost predicate Stays(m: Machine, n: Machine, t: Tid) {
    && t in m.pcs && t in n.pcs
    && n.pcs == m.pcs[t := n.pcs[t]]
    && n.gate == m.gate && n.locks == m.locks
    && n.pcs[t].Holds() == m.pcs[t].Holds()
    && n.pcs[t].HoldsGate() == m.pcs[t].HoldsGate()
  }

  lemma StaysLocks(m: Machine, n: Machine, t: Tid)
    requires LocksOk(m) && Stays(m, n, t)
    ensures LocksOk(n)
  {
    forall u ensures n.gate == Some(u) <==> u in n.pcs && n.pcs[u].HoldsGate() {
      assert m.gate == Some(u) <==> u in m.pcs && m.pcs[u].HoldsGate();
    }
  }

  /** t works on the run it has locked: nothing else moves. */
  ghost predicate WorksOn(m: Machine, n: Machine, t: Tid, id: string) {
    && Stays(m, n, t)
    && m.pcs[t].Holds() == Some(id)
    && id in m.s.runs && id in n.s.runs
    && n.s == m.s.(runs := m.s.runs[id := n.s.runs[id]])
    && (!m.s.runs[id].status.Active() ==> !n.s.runs[id].status.Active())
  }

  lemma WorksOnLocal(m: Machine, n: Machine, t: Tid, id: string)
    requires LocksOk(m) && PcsOk(m) && WorksOn(m, n, t, id)
    requires PcOk(n.s, n.pcs[t])
    ensures LocksOk(n) && PcsOk(n)
    ensures forall other :: other != id ==> Holder(n, other) == Holder(m, other)
    ensures Holder(m, id) == Some(m.pcs[t]) && Holder(n, id) == Some(n.pcs[t])
  {
    StaysLocks(m, n, t);
    OnlyOneLock(m, t, id);
    forall u | u in n.pcs ensures PcOk(n.s, n.pcs[u]) {
      if u != t {
        assert m.pcs[u].Holds() != Some(id);
        PcFrame(m.s, m.pcs[u], id, n.s.runs[id]);
      }
    }
  }

  /** A step that settles nothing. */
  ghost predicate Quiet(m: Machine, n: Machine, t: Tid, id: string) {
    && WorksOn(m, n, t, id)
    && PcOk(n.s, n.pcs[t])
    && n.history == m.history
    && Settled(Some(n.pcs[t]), n.s.runs[id]) == Settled(Some(m.pcs[t]), m.s.runs[id])
    && (forall other :: other != id ==> CompletedOf(n, other) == CompletedOf(m, other))
    && CompletedOf(n, id) + InFlight(Some(m.pcs[t])) == CompletedOf(m, id) + InFlight(Some(n.pcs[t]))
    && (CompletedOf(n, id) == CompletedOf(m, id) || InFlight(Some(m.pcs[t])) == [])
  }

  /** What a trace, its calls in flight and the completed calls before and after a quiet step share. */
  lemma QuietSum(before: seq<RuntimeCall>, after: seq<RuntimeCall>, trace: seq<RuntimeCall>,
                 was: seq<RuntimeCall>, now: seq<RuntimeCall>)
    requires before == trace + was && after + was == before + now
    requires after == before || was == []
    ensures after == trace + now
  {
    if was == [] {
      assert after + [] == after && trace + [] == trace;
    } else {
      SameTail(before, was, now);
    }
  }

  lemma QuietTraces(m: Machine, n: Machine, t: Tid, id: string)
    requires LocksOk(m) && PcsOk(m) && TracesOk(m) && Quiet(m, n, t, id)
    ensures TracesOk(n)
  {
    WorksOnLocal(m, n, t, id);
    forall other ensures CompletedOf(n, other) == RuntimeTrace(n.history, other) + InFlight(Holder(n, other)) {
      assert CompletedOf(m, other) == RuntimeTrace(m.history, other) + InFlight(Holder(m, other));
      if other == id {
        QuietSum(CompletedOf(m, id), CompletedOf(n, id), RuntimeTrace(m.history, id),
                 InFlight(Some(m.pcs[t])), InFlight(Some(n.pcs[t])));
      }
    }
  }

  lemma QuietAbstract(m: Machine, n: Machine, t: Tid, id: string)
    requires LocksOk(m) && PcsOk(m) && Quiet(m, n, t, id)
    ensures Abstract(n) == Abstract(m)
  {
    WorksOnLocal(m, n, t, id);
    SameAbstract(m, n);
  }

  lemma QuietWork(m: Machine, n: Machine, t: Tid, id: string)
    requires Sound(m) && Quiet(m, n, t, id)
    ensures Sound(n)
  {
    WorksOnLocal(m, n, t, id);
    QuietAbstract(m, n, t, id);
    QuietTraces(m, n, t, id);
  }

  lemma SameTail<T>(a: seq<T>, x: seq<T>, y: seq<T>)
    requires a + x == a + y
    ensures x == y
  {
    assert x == (a + x)[|a|..] && y == (a + y)[|a|..];
  }

  lemma SettlingTraces(m: Machine, n: Machine, t: Tid, id: string, e: Entry)
    requires LocksOk(m) && PcsOk(m) && TracesOk(m) && WorksOn(m, n, t, id)
    requires PcOk(n.s, n.pcs[t])
    requires n.history == m.history + [e] && n.completed == m.completed
    requires !e.call.Create? && e.call.runId == id
    requires InFlight(Some(n.pcs[t])) == []
    requires CompletedCalls(e.call, e.reply, e.answer) == InFlight(Some(m.pcs[t]))
    ensures TracesOk(n)
  {
    WorksOnLocal(m, n, t, id);
    forall other ensures CompletedOf(n, other) == RuntimeTrace(n.history, other) + InFlight(Holder(n, other)) {
      assert CompletedOf(m, other) == RuntimeTrace(m.history, other) + InFlight(Holder(m, other));
      if other == id {
        TraceTarget(m.history, e, id);
        assert CompletedOf(n, id) + [] == CompletedOf(n, id);
      } else {
        TraceOther(m.history, e, other);
      }
    }
  }

  lemma SettlingRun(m: Machine, n: Machine, t: Tid, id: string, other: string)
    requires LocksOk(m) && PcsOk(m) && WorksOn(m, n, t, id) && other in n.s.runs
    requires PcOk(n.s, n.pcs[t]) && !n.pcs[t].Unsettled()
    ensures Settled(Holder(n, other), n.s.runs[other])
         == if other == id then n.s.runs[id] else Settled(Holder(m, other), m.s.runs[other])
  {
    WorksOnLocal(m, n, t, id);
  }

  lemma SettlingRuns(m: Machine, n: Machine, t: Tid, id: string)
    requires LocksOk(m) && PcsOk(m) && WorksOn(m, n, t, id)
    requires PcOk(n.s, n.pcs[t]) && !n.pcs[t].Unsettled()
    ensures Abstract(n) == Abstract(m).(runs := Abstract(m).runs[id := n.s.runs[id]])
  {
    forall other | other in n.s.runs
      ensures Settled(Holder(n, other), n.s.runs[other])
           == if other == id then n.s.runs[id] else Settled(Holder(m, other), m.s.runs[other])
    {
      SettlingRun(m, n, t, id, other);
    }
    assert SettledRuns(n) == SettledRuns(m)[id := n.s.runs[id]];
  }

  /** A step that settles t's call on its run. */
  ghost predicate Settling(m: Machine, n: Machine, t: Tid, id: string, e: Entry) {
    && WorksOn(m, n, t, id)
    && PcOk(n.s, n.pcs[t])
    && n.history == m.history + [e] && n.completed == m.completed
    && !e.call.Create? && e.call.runId == id
    && !n.pcs[t].Unsettled() && InFlight(Some(n.pcs[t])) == []
    && CompletedCalls(e.call, e.reply, e.answer) == InFlight(Some(m.pcs[t]))
  }

  lemma SettlingWork(m: Machine, n: Machine, t: Tid, id: string, e: Entry)
    requires Sound(m) && Settling(m, n, t, id, e)
    requires Apply(Abstract(m), e.call, e.reply).1 == e.answer
    requires Apply(Abstract(m), e.call, e.reply).0
          == Abstract(m).(runs := Abstract(m).runs[id := n.s.runs[id]])
    ensures Sound(n)
  {
    WorksOnLocal(m, n, t, id);
    SettlingTraces(m, n, t, id, e);
    SettlingRuns(m, n, t, id);
    LegalSnoc(m.s.root, m.history, e);
  }

  // ---------------------------------------------------------------- one lemma per kind of step

  /** Under its lock and before its own call has begun, a run is as the settled calls left it. */
  lemma WhatTheCheckSees(m: Machine, t: Tid, id: string)
    requires LocksOk(m) && t in m.pcs && PcOk(m.s, m.pcs[t]) && m.pcs[t].Entered? && m.pcs[t].Holds() == Some(id)
    ensures id in m.s.runs && id in Abstract(m).runs && Abstract(m).runs[id] == m.s.runs[id]
    ensures EntryError(Abstract(m).runs, m.pcs[t].call) == None
  {
  }

  predicate CheckIsFinal(run: Run, call: Call) {
    !call.Create? && if call.CloseRun? then run.status == Closed else LockedError(run, call).Some?
  }

  function CheckAnswer(run: Run, call: Call): Answer
    requires CheckIsFinal(run, call)
  {
    if call.CloseRun? then CloseDone else Rejected(LockedError(run, call).value)
  }

  lemma CheckFinalShape(m: Machine, t: Tid)
    requires LocksOk(m) && CanCheck(m, t) && PcOk(m.s, m.pcs[t])
    requires CheckIsFinal(m.s.runs[m.pcs[t].call.runId], m.pcs[t].call)
    ensures var call, run := m.pcs[t].call, m.s.runs[m.pcs[t].call.runId];
      Settling(m, DoCheck(m, t), t, call.runId, Entry(call, Raises, CheckAnswer(run, call)))
    ensures DoCheck(m, t).s == m.s
  {
    var id := m.pcs[t].call.runId;
    assert m.s.runs[id := m.s.runs[id]] == m.s.runs;
  }

  lemma CheckFinalApply(a: State, call: Call)
    requires !call.Create? && EntryError(a.runs, call) == None && CheckIsFinal(a.runs[call.runId], call)
    ensures Apply(a, call, Raises) == (a, CheckAnswer(a.runs[call.runId], call))
    ensures a == a.(runs := a.runs[call.runId := a.runs[call.runId]])
  {
    assert a.runs[call.runId := a.runs[call.runId]] == a.runs;
  }

  lemma CheckPassWorksOn(m: Machine, t: Tid)
    requires LocksOk(m) && CanCheck(m, t) && PcOk(m.s, m.pcs[t])
    requires !CheckIsFinal(m.s.runs[m.pcs[t].call.runId], m.pcs[t].call)
    ensures WorksOn(m, DoCheck(m, t), t, m.pcs[t].call.runId)
  {
    var id := m.pcs[t].call.runId;
    assert m.s.runs[id := m.s.runs[id]] == m.s.runs;
  }

  lemma CheckPassShape(m: Machine, t: Tid)
    requires LocksOk(m) && CanCheck(m, t) && PcOk(m.s, m.pcs[t])
    requires !CheckIsFinal(m.s.runs[m.pcs[t].call.runId], m.pcs[t].call)
    ensures Quiet(m, DoCheck(m, t), t, m.pcs[t].call.runId)
  {
    CheckPassWorksOn(m, t);
  }

  lemma CheckStep(m: Machine, t: Tid)
    requires Sound(m) && CanCheck(m, t)
    ensures Sound(DoCheck(m, t))
  {
    var call := m.pcs[t].call;
    var run := m.s.runs[call.runId];
    assert PcOk(m.s, m.pcs[t]);
    if CheckIsFinal(run, call) {
      WhatTheCheckSees(m, t, call.runId);
      CheckFinalShape(m, t);
      CheckFinalApply(Abstract(m), call);
      SettlingWork(m, DoCheck(m, t), t, call.runId, Entry(call, Raises, CheckAnswer(run, call)));
    } else {
      CheckPassShape(m, t);
      QuietWork(m, DoCheck(m, t), t, call.runId);
    }
  }

  lemma ReplyWorksOn(m: Machine, t: Tid, reply: Reply)
    requires LocksOk(m) && CanReply(m, t, reply) && PcOk(m.s, m.pcs[t])
    ensures WorksOn(m, DoReply(m, t, reply), t, m.pcs[t].call.runId)
  {
    var id := m.pcs[t].call.runId;
    assert m.s.runs[id := m.s.runs[id]] == m.s.runs;
  }

  lemma ReplyShape(m: Machine, t: Tid, reply: Reply)
    requires LocksOk(m) && CanReply(m, t, reply) && PcOk(m.s, m.pcs[t])
    ensures Quiet(m, DoReply(m, t, reply), t, m.pcs[t].call.runId)
  {
    ReplyWorksOn(m, t, reply);
  }

  lemma ReplyStep(m: Machine, t: Tid, reply: Reply)
    requires Sound(m) && CanReply(m, t, reply)
    ensures Sound(DoReply(m, t, reply))
  {
    ReplyShape(m, t, reply);
    QuietWork(m, DoReply(m, t, reply), t, m.pcs[t].call.runId);
  }

  lemma WorkedIsMiddle(call: Call, before: Run, done: nat)
    requires done < WorkSteps(call)
    ensures Worked(Middle(call, before, done), call, done) == Middle(call, before, done + 1)
    ensures Middle(call, before, done + 1).status == Middle(call, before, done).status
  {
  }

  lemma WorkKeepsPc(m: Machine, t: Tid)
    requires CanWork(m, t) && PcOk(m.s, m.pcs[t])
    ensures t in DoWork(m, t).pcs && PcOk(DoWork(m, t).s, DoWork(m, t).pcs[t])
  {
    WorkedIsMiddle(m.pcs[t].call, m.pcs[t].before, m.pcs[t].done);
  }

  lemma WorkWorksOn(m: Machine, t: Tid)
    requires LocksOk(m) && CanWork(m, t) && PcOk(m.s, m.pcs[t])
    ensures WorksOn(m, DoWork(m, t), t, m.pcs[t].call.runId)
  {
    WorkedIsMiddle(m.pcs[t].call, m.pcs[t].before, m.pcs[t].done);
  }

  lemma WorkSettlesNothing(m: Machine, t: Tid)
    requires CanWork(m, t) && PcOk(m.s, m.pcs[t])
    ensures var id, n := m.pcs[t].call.runId, DoWork(m, t);
      && Settled(Some(n.pcs[t]), n.s.runs[id]) == Settled(Some(m.pcs[t]), m.s.runs[id])
      && InFlight(Some(n.pcs[t])) == InFlight(Some(m.pcs[t]))
      && n.completed == m.completed && n.history == m.history
  {
  }

  lemma WorkShape(m: Machine, t: Tid)
    requires LocksOk(m) && CanWork(m, t) && PcOk(m.s, m.pcs[t])
    ensures Quiet(m, DoWork(m, t), t, m.pcs[t].call.runId)
  {
    WorkKeepsPc(m, t);
    WorkWorksOn(m, t);
    WorkSettlesNothing(m, t);
  }

  lemma WorkStep(m: Machine, t: Tid)
    requires Sound(m) && CanWork(m, t)
    ensures Sound(DoWork(m, t))
  {
    WorkShape(m, t);
    QuietWork(m, DoWork(m, t), t, m.pcs[t].call.runId);
  }

  lemma WriteRaiseWorksOn(m: Machine, t: Tid, made: nat)
    requires LocksOk(m) && CanWriteRaise(m, t) && PcOk(m.s, m.pcs[t])
    ensures WorksOn(m, DoWriteRaise(m, t, made), t, m.pcs[t].call.runId)
  {
    var id := m.pcs[t].call.runId;
    assert m.s.runs[id := m.s.runs[id]] == m.s.runs;
  }

  lemma WriteRaiseShape(m: Machine, t: Tid, made: nat)
    requires LocksOk(m) && CanWriteRaise(m, t) && PcOk(m.s, m.pcs[t])
    ensures Quiet(m, DoWriteRaise(m, t, made), t, m.pcs[t].call.runId)
  {
    WriteRaiseWorksOn(m, t, made);
  }

  lemma WriteRaiseStep(m: Machine, t: Tid, made: nat)
    requires Sound(m) && CanWriteRaise(m, t)
    ensures Sound(DoWriteRaise(m, t, made))
  {
    WriteRaiseShape(m, t, made);
    QuietWork(m, DoWriteRaise(m, t, made), t, m.pcs[t].call.runId);
  }

  /** The settling assignment turns the half-done run into what the atomic call makes of it. */
  lemma SettleIsEffect(s: State, run: Run, pc: Pc)
    requires PcOk(s, pc) && (pc.Failing? || pc.Working?) && s.runs[pc.call.runId] == run
    requires pc.Working? ==> pc.done == WorkSteps(pc.call)
    ensures pc.call.CloseRun? || LockedError(pc.before, pc.call) == None
    ensures Effect(s.root, pc.before, pc.call, pc.reply)
         == (run.(status := SettledStatus(pc)), SettledAnswer(s.root, run, pc))
    ensures CompletedCalls(pc.call, pc.reply, SettledAnswer(s.root, run, pc)) == InFlight(Some(pc))
  {
  }

  lemma SettleWorksOn(m: Machine, t: Tid)
    requires LocksOk(m) && CanSettle(m, t) && PcOk(m.s, m.pcs[t])
    ensures WorksOn(m, DoSettle(m, t), t, m.pcs[t].call.runId)
  {
  }

  lemma SettleShape(m: Machine, t: Tid)
    requires LocksOk(m) && CanSettle(m, t) && PcOk(m.s, m.pcs[t])
    ensures var pc := m.pcs[t];
      Settling(m, DoSettle(m, t), t, pc.call.runId,
               Entry(pc.call, pc.reply, SettledAnswer(m.s.root, m.s.runs[pc.call.runId], pc)))
  {
    SettleWorksOn(m, t);
    SettleIsEffect(m.s, m.s.runs[m.pcs[t].call.runId], m.pcs[t]);
  }

  /** The atomic machine, asked the same at that instant, gives the same answer and the same run. */
  lemma SettleApply(a: State, pc: Pc)
    requires (pc.Failing? || pc.Working?) && Admitted(a, pc.call) && a.runs[pc.call.runId] == pc.before
    requires if pc.call.CloseRun? then pc.before.status != Closed else LockedError(pc.before, pc.call) == None
    ensures var (after, answer) := Effect(a.root, pc.before, pc.call, pc.reply);
      Apply(a, pc.call, pc.reply) == (a.(runs := a.runs[pc.call.runId := after]), answer)
  {
  }

  lemma SettleSeesBefore(m: Machine, t: Tid)
    requires LocksOk(m) && CanSettle(m, t) && PcOk(m.s, m.pcs[t])
    ensures var pc := m.pcs[t];
      pc.call.runId in Abstract(m).runs && Abstract(m).runs[pc.call.runId] == pc.before
      && EntryError(Abstract(m).runs, pc.call) == None
  {
    assert m.locks[m.pcs[t].call.runId] == t;
  }

  lemma SettleStep(m: Machine, t: Tid)
    requires Sound(m) && CanSettle(m, t)
    ensures Sound(DoSettle(m, t))
  {
    var pc := m.pcs[t];
    var id := pc.call.runId;
    var run := m.s.runs[id];
    assert PcOk(m.s, pc);
    SettleIsEffect(m.s, run, pc);
    SettleShape(m, t);
    SettleSeesBefore(m, t);
    SettleApply(Abstract(m), pc);
    SettlingWork(m, DoSettle(m, t), t, id, Entry(pc.call, pc.reply, SettledAnswer(m.s.root, run, pc)));
  }

  // ---------------------------------------------------------------- steps that hold no run lock

  /** t, holding no run lock before or after, moves on or leaves; no run changes. */
  ghost predicate Aside(m: Machine, n: Machine, t: Tid) {
    && (t in m.pcs ==> m.pcs[t].Holds() == None)
    && (t in n.pcs ==> n.pcs[t].Holds() == None && PcOk(m.s, n.pcs[t]))
    && n.pcs - {t} == m.pcs - {t}
    && n.s == m.s && n.locks == m.locks && n.completed == m.completed
    && (if t in n.pcs && n.pcs[t].HoldsGate() then n.gate == Some(t)
        else if t in m.pcs && m.pcs[t].HoldsGate() then n.gate == None
        else n.gate == m.gate)
    && (t in n.pcs && n.pcs[t].HoldsGate() && !(t in m.pcs && m.pcs[t].HoldsGate()) ==> m.gate == None)
  }

  lemma AsideOthers(m: Machine, n: Machine, t: Tid)
    requires n.pcs - {t} == m.pcs - {t}
    ensures forall u :: u != t ==> (u in n.pcs <==> u in m.pcs)
    ensures forall u :: u != t && u in m.pcs ==> n.pcs[u] == m.pcs[u]
  {
    forall u | u != t ensures u in n.pcs <==> u in m.pcs {
      assert u in n.pcs <==> u in n.pcs - {t};
      assert u in m.pcs <==> u in m.pcs - {t};
    }
    forall u | u != t && u in m.pcs ensures n.pcs[u] == m.pcs[u] {
      assert (n.pcs - {t})[u] == n.pcs[u] && (m.pcs - {t})[u] == m.pcs[u];
    }
  }

  lemma AsideLocks(m: Machine, n: Machine, t: Tid)
    requires LocksOk(m) && Aside(m, n, t)
    ensures LocksOk(n)
    ensures forall id :: Holder(n, id) == Holder(m, id)
  {
    AsideOthers(m, n, t);
    HoldsNone(m, t);
    forall u ensures n.gate == Some(u) <==> u in n.pcs && n.pcs[u].HoldsGate() {
      assert m.gate == Some(u) <==> u in m.pcs && m.pcs[u].HoldsGate();
      assert m.gate == Some(t) <==> t in m.pcs && m.pcs[t].HoldsGate();
    }
  }

  lemma AsideLocal(m: Machine, n: Machine, t: Tid)
    requires LocksOk(m) && PcsOk(m) && Aside(m, n, t)
    ensures LocksOk(n) && PcsOk(n)
    ensures forall id :: Holder(n, id) == Holder(m, id)
    ensures Abstract(n) == Abstract(m)
  {
    AsideOthers(m, n, t);
    AsideLocks(m, n, t);
    SameAbstract(m, n);
  }

  lemma AsideSilent(m: Machine, n: Machine, t: Tid)
    requires Sound(m) && Aside(m, n, t) && n.history == m.history
    ensures Sound(n)
  {
    AsideLocal(m, n, t);
    forall id ensures CompletedOf(n, id) == RuntimeTrace(n.history, id) + InFlight(Holder(n, id)) {
      assert CompletedOf(m, id) == RuntimeTrace(m.history, id) + InFlight(Holder(m, id));
    }
  }

  /** A call answered without touching anything. */
  lemma AsideAnswers(m: Machine, n: Machine, t: Tid, e: Entry)
    requires Sound(m) && Aside(m, n, t) && n.history == m.history + [e]
    requires e.call.Create? || e.answer.Rejected?
    requires Apply(Abstract(m), e.call, e.reply) == (Abstract(m), e.answer)
    ensures Sound(n)
  {
    AsideLocal(m, n, t);
    LegalSnoc(m.s.root, m.history, e);
    forall id ensures CompletedOf(n, id) == RuntimeTrace(n.history, id) + InFlight(Holder(n, id)) {
      assert CompletedOf(m, id) == RuntimeTrace(m.history, id) + InFlight(Holder(m, id));
      TraceOther(m.history, e, id);
    }
  }

  /** Half-done calls hide no activity: a run is active for the threads exactly when it is for the
      settled history, or its call is about to fail it. */
  lemma ActiveMeansActive(m: Machine, id: string)
    requires LocksOk(m) && PcsOk(m) && id in m.s.runs
    ensures m.s.runs[id].status.Active() <==> Settled(Holder(m, id), m.s.runs[id]).status.Active()
  {
    if id in m.locks {
      assert PcOk(m.s, m.pcs[m.locks[id]]);
    }
  }

  lemma SameActivity(m: Machine)
    requires LocksOk(m) && PcsOk(m)
    ensures SomeRunActive(Abstract(m).runs) <==> SomeRunActive(m.s.runs)
  {
    forall id | id in m.s.runs
      ensures m.s.runs[id].status.Active() <==> Abstract(m).runs[id].status.Active()
    {
      ActiveMeansActive(m, id);
    }
  }

  lemma StartCreateShape(m: Machine, t: Tid, call: Call)
    requires LocksOk(m) && PcsOk(m) && CanStartCreate(m, t, call)
    ensures Aside(m, DoStartCreate(m, t, call), t)
  {
  }

  lemma StartCreateStep(m: Machine, t: Tid, call: Call)
    requires Sound(m) && CanStartCreate(m, t, call)
    ensures Sound(DoStartCreate(m, t, call))
  {
    StartCreateShape(m, t, call);
    if CreateArgumentsValid(call) {
      AsideSilent(m, DoStartCreate(m, t, call), t);
    } else {
      CreateTurnedAway(Abstract(m), call, Raises);
      AsideAnswers(m, DoStartCreate(m, t, call), t, Entry(call, Raises, Rejected(InvalidRequest)));
    }
  }

  lemma ScanShape(m: Machine, t: Tid, id: string)
    requires LocksOk(m) && CanScan(m, t, id) && PcOk(m.s, m.pcs[t])
    ensures Aside(m, DoScan(m, t, id), t)
  {
    if m.s.runs[id].status.Active() {
      ScanStopsShape(m, t, id);
    } else {
      ScanGoesOnShape(m, t, id);
    }
  }

  lemma ScanStopsShape(m: Machine, t: Tid, id: string)
    requires LocksOk(m) && CanScan(m, t, id) && m.s.runs[id].status.Active()
    ensures Aside(m, DoScan(m, t, id), t)
  {
  }

  lemma ScanGoesOnShape(m: Machine, t: Tid, id: string)
    requires LocksOk(m) && CanScan(m, t, id) && PcOk(m.s, m.pcs[t]) && !m.s.runs[id].status.Active()
    ensures Aside(m, DoScan(m, t, id), t)
  {
  }

  lemma ScanStep(m: Machine, t: Tid, id: string)
    requires Sound(m) && CanScan(m, t, id)
    ensures Sound(DoScan(m, t, id))
  {
    assert PcOk(m.s, m.pcs[t]);
    ScanShape(m, t, id);
    if m.s.runs[id].status.Active() {
      SameActivity(m);
      CreateTurnedAway(Abstract(m), m.pcs[t].call, Raises);
      AsideAnswers(m, DoScan(m, t, id), t, Entry(m.pcs[t].call, Raises, Rejected(InvalidRequest)));
    } else {
      AsideSilent(m, DoScan(m, t, id), t);
    }
  }

  lemma ScanDoneShape(m: Machine, t: Tid)
    requires LocksOk(m) && CanScanDone(m, t) && PcOk(m.s, m.pcs[t])
    ensures Aside(m, DoScanDone(m, t), t)
  {
    assert forall id :: id in m.s.runs ==> id in m.pcs[t].seen;
  }

  lemma ScanDoneStep(m: Machine, t: Tid)
    requires Sound(m) && CanScanDone(m, t)
    ensures Sound(DoScanDone(m, t))
  {
    ScanDoneShape(m, t);
    AsideSilent(m, DoScanDone(m, t), t);
  }

  lemma StartCallShape(m: Machine, t: Tid, call: Call)
    requires LocksOk(m) && CanStartCall(m, t, call)
    ensures Aside(m, DoStartCall(m, t, call), t)
  {
  }

  lemma StartCallStep(m: Machine, t: Tid, call: Call)
    requires Sound(m) && CanStartCall(m, t, call)
    ensures Sound(DoStartCall(m, t, call))
  {
    StartCallShape(m, t, call);
    assert EntryError(Abstract(m).runs, call) == EntryError(m.s.runs, call);
    if EntryError(m.s.runs, call).Some? {
      CallTurnedAway(Abstract(m), call, Raises);
      AsideAnswers(m, DoStartCall(m, t, call), t, Entry(call, Raises, Rejected(EntryError(m.s.runs, call).value)));
    } else {
      AsideSilent(m, DoStartCall(m, t, call), t);
    }
  }

  lemma StartCloseShape(m: Machine, t: Tid, order: seq<string>)
    requires LocksOk(m) && CanStartClose(m, t, order) && "" !in m.s.runs
    ensures Aside(m, DoStartClose(m, t, order), t)
  {
    forall id | id in order ensures id in m.s.runs && id != "" {
      assert id in multiset(order);
    }
  }

  lemma StartCloseStep(m: Machine, t: Tid, order: seq<string>)
    requires Sound(m) && CanStartClose(m, t, order)
    requires "" !in m.s.runs
    ensures Sound(DoStartClose(m, t, order))
  {
    StartCloseShape(m, t, order);
    AsideSilent(m, DoStartClose(m, t, order), t);
  }

  lemma NextCloseShape(m: Machine, t: Tid)
    requires LocksOk(m) && CanNextClose(m, t) && PcOk(m.s, m.pcs[t])
    ensures Aside(m, DoNextClose(m, t), t)
  {
    var rest := m.pcs[t].rest;
    if rest != [] {
      assert rest[0] in rest && AllKnown(m.s, rest);
      forall id | id in rest[1..] ensures id in rest && id in m.s.runs && id != "" {
        var i :| 0 <= i < |rest[1..]| && rest[1..][i] == id;
        assert rest[i + 1] == id;
      }
      assert PcOk(m.s, Waiting(CloseRun(rest[0]), rest[1..]));
    }
  }

  lemma NextCloseStep(m: Machine, t: Tid)
    requires Sound(m) && CanNextClose(m, t)
    ensures Sound(DoNextClose(m, t))
  {
    NextCloseShape(m, t);
    AsideSilent(m, DoNextClose(m, t), t);
  }

  // ---------------------------------------------------------------- taking and giving back a lock

  lemma SameHolders(m: Machine, n: Machine)
    requires HistoryOk(m) && TracesOk(m) && LocksOk(n) && PcsOk(n)
    requires n.s == m.s && n.history == m.history && n.completed == m.completed
    requires forall id :: InFlight(Holder(n, id)) == InFlight(Holder(m, id))
    requires forall id :: id in m.s.runs ==>
               Settled(Holder(n, id), m.s.runs[id]) == Settled(Holder(m, id), m.s.runs[id])
    ensures Sound(n)
  {
    SameAbstract(m, n);
    forall id ensures CompletedOf(n, id) == RuntimeTrace(n.history, id) + InFlight(Holder(n, id)) {
      assert CompletedOf(m, id) == RuntimeTrace(m.history, id) + InFlight(Holder(m, id));
    }
  }

  lemma AcquireStep(m: Machine, t: Tid)
    requires Sound(m) && CanAcquire(m, t)
    ensures Sound(DoAcquire(m, t))
  {
    AcquireLocal(m, t);
    SameHolders(m, DoAcquire(m, t));
  }

  lemma AcquireLocal(m: Machine, t: Tid)
    requires LocksOk(m) && PcsOk(m) && CanAcquire(m, t)
    ensures var n := DoAcquire(m, t);
      && LocksOk(n) && PcsOk(n)
      && forall id :: InFlight(Holder(n, id)) == InFlight(Holder(m, id))
                   && (id in m.s.runs ==> Settled(Holder(n, id), m.s.runs[id]) == Settled(Holder(m, id), m.s.runs[id]))
  {
    AcquireLocks(m, t);
    AcquirePcs(m, t);
    forall id { AcquireHolder(m, t, id); }
  }

  lemma AcquireHolder(m: Machine, t: Tid, id: string)
    requires LocksOk(m) && CanAcquire(m, t)
    ensures var n := DoAcquire(m, t);
      && InFlight(Holder(n, id)) == InFlight(Holder(m, id))
      && (id in m.s.runs ==> Settled(Holder(n, id), m.s.runs[id]) == Settled(Holder(m, id), m.s.runs[id]))
  {
    HoldsNone(m, t);
  }

  lemma AcquirePcs(m: Machine, t: Tid)
    requires PcsOk(m) && CanAcquire(m, t)
    ensures PcsOk(DoAcquire(m, t))
  {
    assert PcOk(m.s, m.pcs[t]);
  }

  lemma AcquireLocks(m: Machine, t: Tid)
    requires LocksOk(m) && CanAcquire(m, t)
    ensures LocksOk(DoAcquire(m, t))
  {
    HoldsNone(m, t);
    var n := DoAcquire(m, t);
    forall u ensures n.gate == Some(u) <==> u in n.pcs && n.pcs[u].HoldsGate() {
      assert m.gate == Some(u) <==> u in m.pcs && m.pcs[u].HoldsGate();
    }
  }

  lemma Unlocked(m: Machine, n: Machine, t: Tid, id: string)
    requires LocksOk(m) && t in m.pcs && m.pcs[t].Holds() == Some(id) && !m.pcs[t].HoldsGate()
    requires n.gate == m.gate && n.locks == m.locks - {id} && n.pcs - {t} == m.pcs - {t}
    requires t in n.pcs ==> n.pcs[t].Closing?
    ensures LocksOk(n)
    ensures forall other :: other != id ==> Holder(n, other) == Holder(m, other)
    ensures Holder(n, id) == None && Holder(m, id) == Some(m.pcs[t])
  {
    AsideOthers(m, n, t);
    OnlyOneLock(m, t, id);
    forall u ensures n.gate == Some(u) <==> u in n.pcs && n.pcs[u].HoldsGate() {
      assert m.gate == Some(u) <==> u in m.pcs && m.pcs[u].HoldsGate();
    }
    forall u | u in n.pcs && n.pcs[u].Holds().Some?
      ensures n.pcs[u].Holds().value in n.locks && n.locks[n.pcs[u].Holds().value] == u
    {
      assert u != t && m.pcs[u].Holds().value in m.locks;
    }
  }

  lemma ReleaseHolder(m: Machine, t: Tid, id: string)
    requires LocksOk(m) && CanRelease(m, t)
    ensures var n := DoRelease(m, t);
      && LocksOk(n)
      && InFlight(Holder(n, id)) == InFlight(Holder(m, id))
      && (id in m.s.runs ==> Settled(Holder(n, id), m.s.runs[id]) == Settled(Holder(m, id), m.s.runs[id]))
  {
    var n := DoRelease(m, t);
    assert n.pcs - {t} == m.pcs - {t};
    Unlocked(m, n, t, m.pcs[t].runId);
  }

  lemma ReleasePcs(m: Machine, t: Tid)
    requires PcsOk(m) && CanRelease(m, t)
    ensures PcsOk(DoRelease(m, t))
  {
    assert PcOk(m.s, m.pcs[t]);
  }

  lemma ReleaseLocal(m: Machine, t: Tid)
    requires LocksOk(m) && PcsOk(m) && CanRelease(m, t)
    ensures var n := DoRelease(m, t);
      && LocksOk(n) && PcsOk(n)
      && forall id :: InFlight(Holder(n, id)) == InFlight(Holder(m, id))
                   && (id in m.s.runs ==> Settled(Holder(n, id), m.s.runs[id]) == Settled(Holder(m, id), m.s.runs[id]))
  {
    ReleasePcs(m, t);
    ReleaseHolder(m, t, "");
    forall id { ReleaseHolder(m, t, id); }
  }

  lemma ReleaseStep(m: Machine, t: Tid)
    requires Sound(m) && CanRelease(m, t)
    ensures Sound(DoRelease(m, t))
  {
    ReleaseLocal(m, t);
    SameHolders(m, DoRelease(m, t));
  }

  // ---------------------------------------------------------------- the runtime's answer to create_run

  lemma CreateRaisesStep(m: Machine, t: Tid, reply: Reply)
    requires Sound(m) && CanCreateReply(m, t) && !reply.Returns?
    ensures Sound(DoCreateReply(m, t, reply))
  {
    var call := m.pcs[t].call;
    assert PcOk(m.s, m.pcs[t]);
    SameActivity(m);
    CreateFails(Abstract(m), call, reply);
    assert Aside(m, DoCreateReply(m, t, reply), t);
    AsideAnswers(m, DoCreateReply(m, t, reply), t, Entry(call, reply, Raised));
  }

  /** A run joins: no thread can be holding its lock yet. */
  ghost predicate Joins(m: Machine, n: Machine, t: Tid, id: string, run: Run) {
    && t in m.pcs && m.pcs[t].Creating?
    && n.pcs == m.pcs - {t} && n.gate == None && n.locks == m.locks && n.completed == m.completed
    && id !in m.s.runs
    && n.s == m.s.(counter := m.s.counter + 1, runs := m.s.runs[id := run])
  }

  lemma JoinLocal(m: Machine, n: Machine, t: Tid, id: string, run: Run)
    requires LocksOk(m) && PcsOk(m) && Joins(m, n, t, id, run)
    ensures LocksOk(n) && PcsOk(n)
    ensures forall other :: Holder(n, other) == Holder(m, other)
    ensures Holder(m, id) == None
  {
    HoldsNone(m, t);
    forall u ensures n.gate == Some(u) <==> u in n.pcs && n.pcs[u].HoldsGate() {
      assert m.gate == Some(u) <==> u in m.pcs && m.pcs[u].HoldsGate();
      assert m.gate == Some(t);
    }
    forall u | u in n.pcs ensures PcOk(n.s, n.pcs[u]) {
      assert !m.pcs[u].HoldsGate();
      PcFrameNew(m.s, m.pcs[u], id, run, m.s.counter + 1);
    }
    LockedRunsExist(m);
  }

  lemma LockedRunsExist(m: Machine)
    requires LocksOk(m) && PcsOk(m)
    ensures forall id :: id in m.locks ==> id in m.s.runs
  {
    forall id | id in m.locks ensures id in m.s.runs {
      assert PcOk(m.s, m.pcs[m.locks[id]]);
    }
  }

  lemma JoinRun(m: Machine, n: Machine, t: Tid, id: string, run: Run, other: string)
    requires LocksOk(m) && PcsOk(m) && Joins(m, n, t, id, run) && other in n.s.runs
    ensures Settled(Holder(n, other), n.s.runs[other])
         == if other == id then run else Settled(Holder(m, other), m.s.runs[other])
  {
    JoinLocal(m, n, t, id, run);
  }

  lemma JoinRuns(m: Machine, n: Machine, t: Tid, id: string, run: Run)
    requires LocksOk(m) && PcsOk(m) && Joins(m, n, t, id, run)
    ensures Abstract(n) == Abstract(m).(counter := m.s.counter + 1, runs := Abstract(m).runs[id := run])
  {
    forall other | other in n.s.runs
      ensures Settled(Holder(n, other), n.s.runs[other])
           == if other == id then run else Settled(Holder(m, other), m.s.runs[other])
    {
      JoinRun(m, n, t, id, run, other);
    }
    assert SettledRuns(n) == SettledRuns(m)[id := run];
  }

  lemma JoinTraces(m: Machine, n: Machine, t: Tid, id: string, run: Run, e: Entry)
    requires LocksOk(m) && PcsOk(m) && TracesOk(m) && Joins(m, n, t, id, run)
    requires n.history == m.history + [e] && e.call.Create?
    ensures TracesOk(n)
  {
    JoinLocal(m, n, t, id, run);
    forall other ensures CompletedOf(n, other) == RuntimeTrace(n.history, other) + InFlight(Holder(n, other)) {
      assert CompletedOf(m, other) == RuntimeTrace(m.history, other) + InFlight(Holder(m, other));
      TraceOther(m.history, e, other);
    }
  }

  lemma CreateReturnsStep(m: Machine, t: Tid, reply: Reply)
    requires Sound(m) && CanCreateReply(m, t) && reply.Returns?
    requires RunName(m.s.counter + 1) !in m.s.runs
    ensures Sound(DoCreateReply(m, t, reply))
  {
    var call, n := m.pcs[t].call, DoCreateReply(m, t, reply);
    var id := RunName(m.s.counter + 1);
    var e := Entry(call, reply, Created(id, 0));
    assert PcOk(m.s, m.pcs[t]);
    SameActivity(m);
    CreateSucceeds(Abstract(m), call, reply);
    assert Joins(m, n, t, id, NewRun(call));
    JoinLocal(m, n, t, id, NewRun(call));
    JoinRuns(m, n, t, id, NewRun(call));
    JoinTraces(m, n, t, id, NewRun(call), e);
    LegalSnoc(m.s.root, m.history, e);
  }

  // ---------------------------------------------------------------- every execution

  lemma NamesAreReal(m: Machine)
    requires HistoryOk(m)
    ensures RunName(m.s.counter + 1) !in m.s.runs && "" !in m.s.runs
  {
    LegalIsCoherent(m.s.root, m.history);
    FreshName(Abstract(m));
  }

  lemma CreateActions(m: Machine, a: Action)
    requires Sound(m) && Enabled(m, a)
    requires a.StartCreate? || a.ScanOne? || a.ScanDone? || a.CreateReply?
    ensures Sound(Do(m, a))
  {
    match a
    case StartCreate(t, call) => StartCreateStep(m, t, call);
    case ScanOne(t, id) => ScanStep(m, t, id);
    case ScanDone(t) => ScanDoneStep(m, t);
    case CreateReply(t, reply) =>
      NamesAreReal(m);
      if reply.Returns? { CreateReturnsStep(m, t, reply); } else { CreateRaisesStep(m, t, reply); }
  }

  lemma RunActions(m: Machine, a: Action)
    requires Sound(m) && Enabled(m, a)
    requires a.Check? || a.RuntimeReply? || a.Work? || a.WriteRaises? || a.Settle?
    ensures Sound(Do(m, a))
  {
    match a
    case Check(t) => CheckStep(m, t);
    case RuntimeReply(t, reply) => ReplyStep(m, t, reply);
    case Work(t) => WorkStep(m, t);
    case WriteRaises(t, made) => WriteRaiseStep(m, t, made);
    case Settle(t) => SettleStep(m, t);
  }

  lemma LockActions(m: Machine, a: Action)
    requires Sound(m) && Enabled(m, a)
    requires a.StartCall? || a.Acquire? || a.Release? || a.StartClose? || a.NextClose?
    ensures Sound(Do(m, a))
  {
    match a
    case StartCall(t, call) => StartCallStep(m, t, call);
    case Acquire(t) => AcquireStep(m, t);
    case Release(t) => ReleaseStep(m, t);
    case StartClose(t, order) =>
      NamesAreReal(m);
      StartCloseStep(m, t, order);
    case NextClose(t) => NextCloseStep(m, t);
  }

  lemma StepKeepsSound(m: Machine, a: Action)
    requires Sound(m) && Enabled(m, a)
    ensures Sound(Do(m, a))
  {
    if a.StartCreate? || a.ScanOne? || a.ScanDone? || a.CreateReply? {
      CreateActions(m, a);
    } else if a.Check? || a.RuntimeReply? || a.Work? || a.WriteRaises? || a.Settle? {
      RunActions(m, a);
    } else {
      LockActions(m, a);
    }
  }

  /** The root never moves, and only a save writes files. */
  ghost predicate KeepsFiles(m: Machine, n: Machine) {
    n.s.root == m.s.root && n.files == m.files
  }

  lemma CreateKeepsFiles(m: Machine, t: Tid, reply: Reply)
    requires CanCreateReply(m, t)
    ensures KeepsFiles(m, DoCreateReply(m, t, reply))
  {
  }

  lemma StartCallKeepsFiles(m: Machine, t: Tid, call: Call)
    requires CanStartCall(m, t, call)
    ensures KeepsFiles(m, DoStartCall(m, t, call))
  {
  }

  lemma CheckKeepsFiles(m: Machine, t: Tid)
    requires CanCheck(m, t)
    ensures KeepsFiles(m, DoCheck(m, t))
  {
  }

  lemma WorkKeepsRoot(m: Machine, t: Tid)
    requires CanWork(m, t)
    ensures DoWork(m, t).s.root == m.s.root
    ensures !m.pcs[t].call.SaveWeights? ==> DoWork(m, t).files == m.files
  {
  }

  lemma SettleKeepsFiles(m: Machine, t: Tid)
    requires CanSettle(m, t)
    ensures KeepsFiles(m, DoSettle(m, t))
  {
  }

  lemma StepKeepsRoot(m: Machine, a: Action)
    requires Enabled(m, a)
    ensures Do(m, a).s.root == m.s.root
    ensures !(a.Work? && m.pcs[a.t].call.SaveWeights?) && !a.WriteRaises? ==> Do(m, a).files == m.files
  {
    match a
    case CreateReply(t, reply) => CreateKeepsFiles(m, t, reply);
    case StartCall(t, call) => StartCallKeepsFiles(m, t, call);
    case Check(t) => CheckKeepsFiles(m, t);
    case Work(t) => WorkKeepsRoot(m, t);
    case Settle(t) => SettleKeepsFiles(m, t);
    case StartCreate(t, call) => assert Do(m, a) == DoStartCreate(m, t, call);
    case ScanOne(t, id) => assert Do(m, a) == DoScan(m, t, id);
    case ScanDone(t) => assert Do(m, a) == DoScanDone(m, t);
    case Acquire(t) => assert Do(m, a) == DoAcquire(m, t);
    case RuntimeReply(t, reply) => assert Do(m, a) == DoReply(m, t, reply);
    case WriteRaises(t, made) => assert Do(m, a) == DoWriteRaise(m, t, made);
    case Release(t) => assert Do(m, a) == DoRelease(m, t);
    case StartClose(t, order) => assert Do(m, a) == DoStartClose(m, t, order);
    case NextClose(t) => assert Do(m, a) == DoNextClose(m, t);
  }

  lemma {:induction false} ExecutionSound(root: Root, ms: seq<Machine>, actions: seq<Action>, i: nat)
    requires Execution(root, ms, actions) && i <= |actions|
    ensures Sound(ms[i]) && ms[i].s.root == root
  {
    if i == 0 {
      assert SettledRuns(ms[0]) == map[];
    } else {
      ExecutionSound(root, ms, actions, i - 1);
      StepKeepsSound(ms[i - 1], actions[i - 1]);
      StepKeepsRoot(ms[i - 1], actions[i - 1]);
    }
  }
}
