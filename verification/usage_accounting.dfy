/** The controller's calls as they interleave at their awaits: each asks a backend, records the usage
    it reported and returns. Any number of controllers and proxies share one ledger. */
module UsageAccounting {
  import opened Wrappers
  import opened Contracts
  import opened Telemetry
  import opened TrainingSpec
  import SGLangSpec

  // The operations whose usage is recorded.
  datatype Operation = ForwardBackwardOp | OptimStepOp | SampleOp {
    function Source(): string {
      if SampleOp? then "rollout" else "trainer"
    }
  }

  // Where one call is: the backend has been asked; it has executed and its response is under way; the
  // event has been sent to the ledger (and the caller still waits, or has given up); the ledger has
  // recorded it; or the call is over.
  datatype Task =
    | Asking(op: Operation, requestId: string)
    | Executed(event: Event)
    | Sent(event: Event, waiting: bool)
    | Recorded(event: Event)
    | Returned(event: Event)
    | BackendRaised
    | LedgerRaised(event: Event)
    | GaveUp(event: Event, recorded: bool)

  // reported is history: the usage of every call a backend executed, with its run, in order.
  datatype Machine = Machine(tasks: seq<Task>, ledger: seq<Event>, reported: seq<Event>)

  datatype Action =
    | Ask(op: Operation, requestId: string, generated: string)
    | Execute(task: nat, runId: string, usage: Usage)
    | Raise(task: nat)
    | Resume(task: nat)
    | Deliver(task: nat)
    | Acknowledge(task: nat)
    | Lose(task: nat)
    | GiveUp(task: nat)

  const INITIAL := Machine([], [], [])

  /** Fresh request ids and the runs backends answer for are never empty. */
  predicate Possible(a: Action) {
    && (a.Ask? ==> a.generated != "")
    && (a.Execute? ==> a.runId != "")
  }

  function Set(m: Machine, i: nat, t: Task): Machine
    requires i < |m.tasks|
  {
    m.(tasks := m.tasks[i := t])
  }

  /** The event a controller builds from a response. */
  function BuiltEvent(t: Task, runId: string, usage: Usage): Event
    requires t.Asking?
  {
    Event(t.requestId, runId, t.op.Source(), usage)
  }

  function Next(m: Machine, a: Action): Machine {
    if a.Ask? then m.(tasks := m.tasks + [Asking(a.op, RequestIdFrom(a.requestId, a.generated))])
    else if a.task >= |m.tasks| then m
    else Advance(m, a, m.tasks[a.task])
  }

  function Advance(m: Machine, a: Action, t: Task): Machine
    requires !a.Ask? && a.task < |m.tasks|
  {
    match (a, t)
    case (Execute(i, runId, usage), Asking(_, _)) =>
      var e := BuiltEvent(t, runId, usage);
      Set(m, i, Executed(e)).(reported := m.reported + [e])
    case (Raise(i), Asking(_, _)) => Set(m, i, BackendRaised)
    case (Resume(i), Executed(e)) => Set(m, i, if e.usage.HasActivity() then Sent(e, true) else Returned(e))
    case (Deliver(i), Sent(e, waiting)) =>
      if !Recordable(e) then Set(m, i, LedgerRaised(e))
      else Set(m, i, if waiting then Recorded(e) else GaveUp(e, true)).(ledger := m.ledger + [e])
    case (Acknowledge(i), Recorded(e)) => Set(m, i, Returned(e))
    case (Lose(i), Sent(e, _)) => Set(m, i, GaveUp(e, false))
    case (GiveUp(i), Executed(e)) => Set(m, i, GaveUp(e, false))
    case (GiveUp(i), Sent(e, _)) => Set(m, i, Sent(e, false))
    case (GiveUp(i), Recorded(e)) => Set(m, i, GaveUp(e, true))
    case _ => m
  }

  function Run(actions: seq<Action>): Machine {
    if actions == [] then INITIAL else Next(Run(actions[..|actions| - 1]), actions[|actions| - 1])
  }

  // ---------------------------------------------------------------- what each task stands for

  /** The task's event is in the ledger. */
  predicate InLedger(t: Task) {
    t.Recorded? || (t.Returned? && t.event.usage.HasActivity()) || (t.GaveUp? && t.recorded)
  }

  /** The backend has executed the task, but the ledger does not have its event. */
  predicate Unrecorded(t: Task) {
    || t.Executed? || t.Sent? || t.LedgerRaised?
    || (t.Returned? && !t.event.usage.HasActivity())
    || (t.GaveUp? && !t.recorded)
  }

  /** A number each task contributes, added up. */
  function Sum(tasks: seq<Task>, f: Task -> int): int {
    if tasks == [] then 0 else Sum(tasks[..|tasks| - 1], f) + f(tasks[|tasks| - 1])
  }

  function SumEvents(events: seq<Event>, w: Event -> int): int {
    if events == [] then 0 else SumEvents(events[..|events| - 1], w) + w(events[|events| - 1])
  }

  function RecordedWeight(w: Event -> int): Task -> int {
    t => if InLedger(t) then w(t.event) else 0
  }

  function UnrecordedWeight(w: Event -> int): Task -> int {
    t => if Unrecorded(t) then w(t.event) else 0
  }

  lemma {:induction false} SumSet(tasks: seq<Task>, i: nat, t: Task, f: Task -> int)
    requires i < |tasks|
    ensures Sum(tasks[i := t], f) == Sum(tasks, f) - f(tasks[i]) + f(t)
  {
    var n := |tasks| - 1;
    if i == n {
      assert tasks[i := t][..n] == tasks[..n];
    } else {
      SumSet(tasks[..n], i, t, f);
      assert tasks[i := t][..n] == tasks[..n][i := t];
    }
  }

  lemma SumSnoc(tasks: seq<Task>, t: Task, f: Task -> int)
    ensures Sum(tasks + [t], f) == Sum(tasks, f) + f(t)
  {
    assert (tasks + [t])[..|tasks|] == tasks;
  }

  lemma SumEventsSnoc(events: seq<Event>, e: Event, w: Event -> int)
    ensures SumEvents(events + [e], w) == SumEvents(events, w) + w(e)
  {
    assert (events + [e])[..|events|] == events;
  }

  /** Events built by a controller can be recorded, and are sent only when there is something in them. */
  ghost predicate WellBuilt(t: Task) {
    && !t.LedgerRaised?
    && (t.Asking? ==> t.requestId != "")
    && (InLedger(t) || Unrecorded(t) ==> Recordable(t.event))
    && (t.Sent? || t.Recorded? ==> t.event.usage.HasActivity())
  }

  ghost predicate AllWellBuilt(tasks: seq<Task>) {
    forall i :: 0 <= i < |tasks| ==> WellBuilt(tasks[i])
  }

  /** Whatever is counted: the ledger has what the recorded tasks contribute, and with the unrecorded
      tasks that is everything the backends reported. */
  ghost predicate Accounted(m: Machine, w: Event -> int) {
    && SumEvents(m.ledger, w) == Sum(m.tasks, RecordedWeight(w))
    && SumEvents(m.reported, w) == Sum(m.tasks, RecordedWeight(w)) + Sum(m.tasks, UnrecordedWeight(w))
  }

  lemma Weights(t: Task, w: Event -> int)
    ensures RecordedWeight(w)(t) == if InLedger(t) then w(t.event) else 0
    ensures UnrecordedWeight(w)(t) == if Unrecorded(t) then w(t.event) else 0
  {
  }

  lemma SetKeepsAccounted(m: Machine, i: nat, t: Task, w: Event -> int)
    requires Accounted(m, w) && i < |m.tasks|
    requires InLedger(t) == InLedger(m.tasks[i]) && Unrecorded(t) == Unrecorded(m.tasks[i])
    requires InLedger(t) || Unrecorded(t) ==> t.event == m.tasks[i].event
    ensures Accounted(Set(m, i, t), w)
  {
    Weights(m.tasks[i], w);
    Weights(t, w);
    SumSet(m.tasks, i, t, RecordedWeight(w));
    SumSet(m.tasks, i, t, UnrecordedWeight(w));
  }

  lemma ExecuteKeepsAccounted(m: Machine, i: nat, e: Event, w: Event -> int)
    requires Accounted(m, w) && i < |m.tasks| && m.tasks[i].Asking?
    ensures Accounted(Set(m, i, Executed(e)).(reported := m.reported + [e]), w)
  {
    var t := Executed(e);
    Weights(m.tasks[i], w);
    Weights(t, w);
    SumSet(m.tasks, i, t, RecordedWeight(w));
    SumSet(m.tasks, i, t, UnrecordedWeight(w));
    SumEventsSnoc(m.reported, e, w);
  }

  lemma DeliverMoves(tasks: seq<Task>, i: nat, t: Task, e: Event, w: Event -> int)
    requires i < |tasks| && tasks[i].Sent? && tasks[i].event == e && InLedger(t) && t.event == e
    ensures Sum(tasks[i := t], RecordedWeight(w)) == Sum(tasks, RecordedWeight(w)) + w(e)
    ensures Sum(tasks[i := t], UnrecordedWeight(w)) == Sum(tasks, UnrecordedWeight(w)) - w(e)
  {
    Weights(tasks[i], w);
    Weights(t, w);
    SumSet(tasks, i, t, RecordedWeight(w));
    SumSet(tasks, i, t, UnrecordedWeight(w));
  }

  lemma DeliverKeepsAccounted(m: Machine, i: nat, t: Task, e: Event, w: Event -> int)
    requires Accounted(m, w) && i < |m.tasks| && m.tasks[i].Sent? && m.tasks[i].event == e
    requires InLedger(t) && t.event == e
    ensures Accounted(Set(m, i, t).(ledger := m.ledger + [e]), w)
  {
    DeliverMoves(m.tasks, i, t, e, w);
    SumEventsSnoc(m.ledger, e, w);
    var after := Set(m, i, t).(ledger := m.ledger + [e]);
    assert after.tasks == m.tasks[i := t] && after.reported == m.reported;
  }

  lemma AskKeepsAccounted(m: Machine, t: Task, w: Event -> int)
    requires Accounted(m, w) && t.Asking?
    ensures Accounted(m.(tasks := m.tasks + [t]), w)
  {
    Weights(t, w);
    SumSnoc(m.tasks, t, RecordedWeight(w));
    SumSnoc(m.tasks, t, UnrecordedWeight(w));
  }

  lemma NextKeepsAccounted(m: Machine, a: Action, w: Event -> int)
    requires Accounted(m, w) && AllWellBuilt(m.tasks)
    ensures Accounted(Next(m, a), w)
  {
    if a.Ask? {
      AskKeepsAccounted(m, Asking(a.op, RequestIdFrom(a.requestId, a.generated)), w);
    } else if a.task < |m.tasks| {
      var t := m.tasks[a.task];
      assert WellBuilt(t);
      match (a, t)
      case (Execute(i, runId, usage), Asking(_, _)) => ExecuteKeepsAccounted(m, i, BuiltEvent(t, runId, usage), w);
      case (Raise(i), Asking(_, _)) => SetKeepsAccounted(m, i, BackendRaised, w);
      case (Resume(i), Executed(e)) =>
        SetKeepsAccounted(m, i, if e.usage.HasActivity() then Sent(e, true) else Returned(e), w);
      case (Deliver(i), Sent(e, waiting)) =>
        DeliverKeepsAccounted(m, i, if waiting then Recorded(e) else GaveUp(e, true), e, w);
      case (Acknowledge(i), Recorded(e)) => SetKeepsAccounted(m, i, Returned(e), w);
      case (Lose(i), Sent(e, _)) => SetKeepsAccounted(m, i, GaveUp(e, false), w);
      case (GiveUp(i), Executed(e)) => SetKeepsAccounted(m, i, GaveUp(e, false), w);
      case (GiveUp(i), Sent(e, _)) => SetKeepsAccounted(m, i, Sent(e, false), w);
      case (GiveUp(i), Recorded(e)) => SetKeepsAccounted(m, i, GaveUp(e, true), w);
      case _ =>
    }
  }

  lemma NextKeepsWellBuilt(m: Machine, a: Action)
    requires AllWellBuilt(m.tasks) && Possible(a)
    ensures AllWellBuilt(Next(m, a).tasks)
  {
    if !a.Ask? && a.task < |m.tasks| {
      var t := m.tasks[a.task];
      assert WellBuilt(t);
      var after := Next(m, a).tasks;
      assert WellBuilt(after[a.task]);
      assert after == m.tasks[a.task := after[a.task]];
    }
  }

  ghost predicate AllPossible(actions: seq<Action>) {
    forall a :: a in actions ==> Possible(a)
  }

  lemma {:induction false} RunsAreAccounted(actions: seq<Action>, w: Event -> int)
    requires AllPossible(actions)
    ensures AllWellBuilt(Run(actions).tasks) && Accounted(Run(actions), w)
  {
    if actions != [] {
      var before, last := actions[..|actions| - 1], actions[|actions| - 1];
      assert forall a :: a in before ==> a in actions;
      assert last in actions;
      RunsAreAccounted(before, w);
      NextKeepsWellBuilt(Run(before), last);
      NextKeepsAccounted(Run(before), last, w);
    }
  }

  // ---------------------------------------------------------------- once each

  function IsEvent(e: Event): Event -> int {
    x => if x == e then 1 else 0
  }

  lemma {:induction false} SumCounts(events: seq<Event>, e: Event)
    ensures SumEvents(events, IsEvent(e)) == multiset(events)[e]
  {
    if events != [] {
      SumCounts(events[..|events| - 1], e);
      assert events == events[..|events| - 1] + [events[|events| - 1]];
    }
  }

  lemma {:induction false} SumAtLeast(tasks: seq<Task>, f: Task -> int, i: nat)
    requires forall t :: f(t) >= 0
    ensures Sum(tasks, f) >= 0 && (i < |tasks| ==> Sum(tasks, f) >= f(tasks[i]))
  {
    if tasks != [] { SumAtLeast(tasks[..|tasks| - 1], f, i); }
  }

  /** An event is in the ledger as many times as there are calls that recorded it. */
  lemma RecordedOnceEach(actions: seq<Action>, e: Event)
    requires AllPossible(actions)
    ensures multiset(Run(actions).ledger)[e] == Sum(Run(actions).tasks, RecordedWeight(IsEvent(e)))
  {
    RunsAreAccounted(actions, IsEvent(e));
    SumCounts(Run(actions).ledger, e);
  }

  /** A call that returned with activity has its event in the ledger, one that returned without had
      nothing to record, and the ledger has rejected nothing a controller built. */
  lemma ReturnedIsRecorded(actions: seq<Action>, i: nat)
    requires AllPossible(actions) && i < |Run(actions).tasks|
    ensures var m := Run(actions);
      var t := m.tasks[i];
      && (t.Returned? && t.event.usage.HasActivity() ==> t.event in m.ledger)
      && (t.Returned? && !t.event.usage.HasActivity() ==> t.event.usage == NO_USAGE)
      && !t.LedgerRaised?
  {
    var m := Run(actions);
    var t := m.tasks[i];
    RunsAreAccounted(actions, _ => 0);
    assert WellBuilt(t);
    if InLedger(t) {
      RecordedOnceEach(actions, t.event);
      SumAtLeast(m.tasks, RecordedWeight(IsEvent(t.event)), i);
      assert multiset(m.ledger)[t.event] >= 1;
    }
  }

  // ---------------------------------------------------------------- what an event tells

  /** The asks of a history, in order: the k-th is the k-th call. */
  function Asks(actions: seq<Action>): seq<Action> {
    if actions == [] then []
    else
      var before, last := Asks(actions[..|actions| - 1]), actions[|actions| - 1];
      if last.Ask? then before + [last] else before
  }

  /** A call carries its caller's request id or, if there is none, the generated one; its event says so,
      names the trainer or the rollout, and has the run and the usage its backend answered with. */
  ghost predicate Tells(actions: seq<Action>, i: nat, ask: Action, t: Task)
    requires ask.Ask?
  {
    var requestId := if ask.requestId != "" then ask.requestId else ask.generated;
    match t
    case Asking(op, id) => op == ask.op && id == requestId
    case BackendRaised => true
    case _ =>
      && t.event.requestId == requestId
      && t.event.source == (match ask.op
                            case SampleOp => "rollout"
                            case ForwardBackwardOp => "trainer"
                            case OptimStepOp => "trainer")
      && Execute(i, t.event.runId, t.event.usage) in actions
  }

  ghost predicate AllTell(actions: seq<Action>, tasks: seq<Task>) {
    && |tasks| == |Asks(actions)|
    && forall i :: 0 <= i < |tasks| ==> Asks(actions)[i].Ask? && Tells(actions, i, Asks(actions)[i], tasks[i])
  }

  /** An action changes one call at most, and keeps what its event tells. */
  lemma NextKeepsTelling(actions: seq<Action>, m: Machine, last: Action)
    requires AllTell(actions, m.tasks)
    ensures AllTell(actions + [last], Next(m, last).tasks)
  {
    var all, after := actions + [last], Next(m, last).tasks;
    AsksSnoc(actions, last);
    forall i | 0 <= i < |m.tasks| ensures Tells(all, i, Asks(all)[i], after[i]) {
      StepTells(m, last, i);
      TellsStill(actions, last, i, Asks(actions)[i], m.tasks[i], after[i]);
    }
  }

  lemma AsksSnoc(actions: seq<Action>, last: Action)
    ensures Asks(actions + [last]) == if last.Ask? then Asks(actions) + [last] else Asks(actions)
  {
    assert (actions + [last])[..|actions|] == actions;
  }

  /** The event of a call is built when its backend answers, and not changed. */
  ghost predicate Follows(a: Action, i: nat, t: Task, after: Task) {
    || after == t || (t.Asking? && after.BackendRaised?)
    || (t.Asking? && a.Execute? && a.task == i && after == Executed(BuiltEvent(t, a.runId, a.usage)))
    || (!t.Asking? && !t.BackendRaised? && !after.Asking? && !after.BackendRaised? && after.event == t.event)
  }

  lemma TellsStill(actions: seq<Action>, last: Action, i: nat, ask: Action, t: Task, after: Task)
    requires ask.Ask? && Tells(actions, i, ask, t) && Follows(last, i, t, after)
    ensures Tells(actions + [last], i, ask, after)
  {
    var all := actions + [last];
    assert all[|actions|] == last;
    assert forall a :: a in actions ==> a in all;
  }

  lemma StepTells(m: Machine, a: Action, i: nat)
    requires i < |m.tasks|
    ensures i < |Next(m, a).tasks| && Follows(a, i, m.tasks[i], Next(m, a).tasks[i])
  {
  }

  /** In every history, every event in a call tells who asked, for what, and what the backend answered. */
  lemma {:induction false} EventsTell(actions: seq<Action>)
    ensures AllTell(actions, Run(actions).tasks)
  {
    if actions != [] {
      var before, last := actions[..|actions| - 1], actions[|actions| - 1];
      assert actions == before + [last];
      EventsTell(before);
      NextKeepsTelling(before, Run(before), last);
    }
  }

  // ---------------------------------------------------------------- conservation of usage

  /** The four counters, of the events of one run. */
  function Part(runId: string, k: int): Event -> int {
    (e: Event) => if e.runId != runId then 0
         else if k == 0 then e.usage.inputTokens
         else if k == 1 then e.usage.outputTokens
         else if k == 2 then e.usage.trainingSteps
         else e.usage.samples
  }

  /** The usage of a run's calls that were executed but are not in the ledger. */
  function UnrecordedUsage(tasks: seq<Task>, runId: string): Usage {
    Usage(Sum(tasks, UnrecordedWeight(Part(runId, 0))), Sum(tasks, UnrecordedWeight(Part(runId, 1))),
          Sum(tasks, UnrecordedWeight(Part(runId, 2))), Sum(tasks, UnrecordedWeight(Part(runId, 3))))
  }

  lemma {:induction false} TotalParts(events: seq<Event>, runId: string)
    ensures Total(events, runId) == Usage(SumEvents(events, Part(runId, 0)), SumEvents(events, Part(runId, 1)),
                                          SumEvents(events, Part(runId, 2)), SumEvents(events, Part(runId, 3)))
  {
    if events != [] { TotalParts(events[..|events| - 1], runId); }
  }

  ghost predicate PartConserved(m: Machine, runId: string, k: int) {
    SumEvents(m.ledger, Part(runId, k)) + Sum(m.tasks, UnrecordedWeight(Part(runId, k)))
    == SumEvents(m.reported, Part(runId, k))
  }

  lemma PartIsConserved(actions: seq<Action>, runId: string, k: int)
    requires AllPossible(actions)
    ensures PartConserved(Run(actions), runId, k)
  {
    RunsAreAccounted(actions, Part(runId, k));
  }

  lemma PartsMakeUsage(m: Machine, runId: string)
    requires PartConserved(m, runId, 0) && PartConserved(m, runId, 1)
    requires PartConserved(m, runId, 2) && PartConserved(m, runId, 3)
    ensures Total(m.ledger, runId).Plus(UnrecordedUsage(m.tasks, runId)) == Total(m.reported, runId)
  {
    TotalParts(m.ledger, runId);
    TotalParts(m.reported, runId);
  }

  /** However calls interleave, fail or are given up: the usage a run's summary shows, and the usage of
      its calls that were executed but not recorded, are together what the backends reported. */
  lemma UsageIsConserved(actions: seq<Action>, runId: string)
    requires AllPossible(actions)
    ensures var m := Run(actions);
      SummaryOf(m.ledger, runId).total.Plus(UnrecordedUsage(m.tasks, runId)) == Total(m.reported, runId)
  {
    PartIsConserved(actions, runId, 0);
    PartIsConserved(actions, runId, 1);
    PartIsConserved(actions, runId, 2);
    PartIsConserved(actions, runId, 3);
    PartsMakeUsage(Run(actions), runId);
  }

  /** The four counters of the events of one run and one source, and the number of those events. */
  function PartFrom(runId: string, source: string, k: int): Event -> int {
    (e: Event) => if e.runId != runId || e.source != source then 0
         else if k == 0 then e.usage.inputTokens
         else if k == 1 then e.usage.outputTokens
         else if k == 2 then e.usage.trainingSteps
         else if k == 3 then e.usage.samples
         else 1
  }

  /** The entry of a source: its events of the run, added up counter by counter. */
  ghost predicate AddsUpOwn(events: seq<Event>, runId: string, entry: SourceUsage) {
    && entry.usage.inputTokens == SumEvents(events, PartFrom(runId, entry.source, 0))
    && entry.usage.outputTokens == SumEvents(events, PartFrom(runId, entry.source, 1))
    && entry.usage.trainingSteps == SumEvents(events, PartFrom(runId, entry.source, 2))
    && entry.usage.samples == SumEvents(events, PartFrom(runId, entry.source, 3))
    && entry.eventCount == SumEvents(events, PartFrom(runId, entry.source, 4))
  }

  lemma {:induction false} EntryParts(events: seq<Event>, runId: string, source: string)
    ensures AddsUpOwn(events, runId, EntryOf(events, runId, source))
  {
    if events != [] {
      var before, e := events[..|events| - 1], events[|events| - 1];
      assert events == before + [e];
      EntryParts(before, runId, source);
      EntrySnoc(before, e, runId, source);
    }
  }

  /** Each source of a summary has the usage and the number of that run's events from that source. */
  lemma SourcesHaveTheirOwn(events: seq<Event>, runId: string, i: nat)
    requires i < |SummaryOf(events, runId).bySource|
    ensures AddsUpOwn(events, runId, SummaryOf(events, runId).bySource[i])
  {
    EntryParts(events, runId, SummaryOf(events, runId).bySource[i].source);
  }

  /** No call is under way, and none was given up before it was recorded. */
  ghost predicate Settled(tasks: seq<Task>) {
    forall i :: 0 <= i < |tasks| ==>
      tasks[i].BackendRaised? || tasks[i].Returned? || (tasks[i].GaveUp? && tasks[i].recorded)
  }

  lemma {:induction false} NothingUnrecorded(tasks: seq<Task>, w: Event -> int)
    requires Settled(tasks) && forall e: Event :: e.usage == NO_USAGE ==> w(e) == 0
    ensures Sum(tasks, UnrecordedWeight(w)) == 0
  {
    if tasks != [] {
      assert Settled(tasks[..|tasks| - 1]);
      NothingUnrecorded(tasks[..|tasks| - 1], w);
      var t := tasks[|tasks| - 1];
      assert Unrecorded(t) ==> t.event.usage == NO_USAGE;
    }
  }

  lemma NoUnrecordedUsage(tasks: seq<Task>, runId: string)
    requires Settled(tasks)
    ensures UnrecordedUsage(tasks, runId) == NO_USAGE
  {
    NothingUnrecorded(tasks, Part(runId, 0));
    NothingUnrecorded(tasks, Part(runId, 1));
    NothingUnrecorded(tasks, Part(runId, 2));
    NothingUnrecorded(tasks, Part(runId, 3));
  }

  /** Then a run's summary is everything its backends reported. */
  lemma SettledSummaryIsComplete(actions: seq<Action>, runId: string)
    requires AllPossible(actions) && Settled(Run(actions).tasks)
    ensures SummaryOf(Run(actions).ledger, runId).total == Total(Run(actions).reported, runId)
  {
    UsageIsConserved(actions, runId);
    NoUnrecordedUsage(Run(actions).tasks, runId);
  }

  /** Backends only answer for runs they were named: a training call that succeeds, and a sample that is
      answered, had a run id. */
  lemma BackendsNameRuns(s: State, call: Call, reply: Reply,
                         c: SGLangSpec.Config, q: SGLangSpec.Sampler, runId: string, request: SGLangSpec.SampleRequest,
                         w: SGLangSpec.World, answers: bool)
    ensures call.ForwardBackward? || call.OptimStep? ==>
      (Apply(s, call, reply).1.Gradient? || Apply(s, call, reply).1.Stepped? ==> call.runId != "")
    ensures SGLangSpec.Sample(c, q, runId, request, w, answers).1.Ok? ==> runId != ""
  {
  }
}
