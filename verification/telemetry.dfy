/** The usage ledger and its summaries. */
module Telemetry {
  import opened Wrappers
  import opened Contracts
  import opened Text
  import opened Sorting

  datatype Event = Event(requestId: string, runId: string, source: string, usage: Usage)

  datatype SourceUsage = SourceUsage(source: string, usage: Usage, eventCount: nat)

  datatype Summary = Summary(runId: string, total: Usage, eventCount: nat, bySource: seq<SourceUsage>)

  /** The caller's request id, or a fresh one when there is none. */
  function RequestIdFrom(requestId: string, generated: string): string {
    if requestId != "" then requestId else generated
  }

  predicate Recordable(e: Event) {
    e.requestId != "" && e.runId != "" && e.source != ""
  }

  /** The usage of the events of a run, added up. */
  function Total(events: seq<Event>, runId: string): Usage {
    if events == [] then NO_USAGE
    else
      var before, e := events[..|events| - 1], events[|events| - 1];
      if e.runId == runId then Total(before, runId).Plus(e.usage) else Total(before, runId)
  }

  function Count(events: seq<Event>, runId: string): nat {
    if events == [] then 0
    else Count(events[..|events| - 1], runId) + (if events[|events| - 1].runId == runId then 1 else 0)
  }

  /** The events of one source. */
  function From(events: seq<Event>, source: string): seq<Event> {
    if events == [] then []
    else
      var before, e := events[..|events| - 1], events[|events| - 1];
      if e.source == source then From(before, source) + [e] else From(before, source)
  }

  /** The sources a run has events from, in the order they first appear. */
  function Sources(events: seq<Event>, runId: string): seq<string> {
    if events == [] then []
    else
      var names, e := Sources(events[..|events| - 1], runId), events[|events| - 1];
      if e.runId == runId && e.source !in names then names + [e.source] else names
  }

  lemma {:induction false} SourcesOnce(events: seq<Event>, runId: string)
    ensures forall i, j :: 0 <= i < j < |Sources(events, runId)| ==>
              Sources(events, runId)[i] != Sources(events, runId)[j]
  {
    if events != [] {
      var names, before := Sources(events, runId), Sources(events[..|events| - 1], runId);
      SourcesOnce(events[..|events| - 1], runId);
      forall i, j | 0 <= i < j < |names| ensures names[i] != names[j] {
        if j == |before| { assert names[i] == before[i] && before[i] in before; }
      }
    }
  }

  lemma {:induction false} SourcesAre(events: seq<Event>, runId: string, name: string)
    ensures name in Sources(events, runId) <==> exists e :: e in events && e.runId == runId && e.source == name
  {
    if events != [] {
      SourcesAre(events[..|events| - 1], runId, name);
      assert events == events[..|events| - 1] + [events[|events| - 1]];
    }
  }

  function EntryOf(events: seq<Event>, runId: string, source: string): SourceUsage {
    SourceUsage(source, Total(From(events, source), runId), Count(From(events, source), runId))
  }

  function Entries(events: seq<Event>, runId: string, names: seq<string>): (entries: seq<SourceUsage>)
    ensures |entries| == |names|
  {
    seq(|names|, i requires 0 <= i < |names| => EntryOf(events, runId, names[i]))
  }

  function SummaryOf(events: seq<Event>, runId: string): Summary {
    Summary(runId, Total(events, runId), Count(events, runId),
            Entries(events, runId, Sort(Sources(events, runId), Leq)))
  }

  /** Usage.add: the accumulator a summary adds into. */
  class UsageTotal {
    var inputTokens: int
    var outputTokens: int
    var trainingSteps: int
    var samples: int

    ghost function View(): Usage
      reads this
    {
      Usage(inputTokens, outputTokens, trainingSteps, samples)
    }

    constructor ()
      ensures View() == NO_USAGE
    {
      inputTokens, outputTokens, trainingSteps, samples := 0, 0, 0, 0;
    }

    method Add(other: Usage)
      modifies this
      ensures View() == old(View()).Plus(other)
      ensures inputTokens == old(inputTokens) + other.inputTokens
      ensures outputTokens == old(outputTokens) + other.outputTokens
      ensures trainingSteps == old(trainingSteps) + other.trainingSteps
      ensures samples == old(samples) + other.samples
    {
      inputTokens := inputTokens + other.inputTokens;
      outputTokens := outputTokens + other.outputTokens;
      trainingSteps := trainingSteps + other.trainingSteps;
      samples := samples + other.samples;
    }

    method Read() returns (u: Usage)
      ensures u == View()
    {
      u := Usage(inputTokens, outputTokens, trainingSteps, samples);
    }
  }

  lemma FromSnoc(events: seq<Event>, e: Event, source: string)
    ensures From(events + [e], source)
         == if e.source == source then From(events, source) + [e] else From(events, source)
  {
    assert (events + [e])[..|events|] == events;
  }

  lemma TotalSnoc(events: seq<Event>, e: Event, runId: string)
    ensures Total(events + [e], runId)
         == if e.runId == runId then Total(events, runId).Plus(e.usage) else Total(events, runId)
    ensures Count(events + [e], runId) == Count(events, runId) + (if e.runId == runId then 1 else 0)
  {
    assert (events + [e])[..|events|] == events;
  }

  lemma EntrySnoc(events: seq<Event>, e: Event, runId: string, source: string)
    ensures var before := EntryOf(events, runId, source);
      EntryOf(events + [e], runId, source) ==
      if e.runId == runId && e.source == source
      then SourceUsage(source, before.usage.Plus(e.usage), before.eventCount + 1)
      else before
  {
    FromSnoc(events, e, source);
    TotalSnoc(From(events, source), e, runId);
  }

  lemma {:induction false} NoEntryYet(events: seq<Event>, runId: string, source: string)
    requires source !in Sources(events, runId)
    ensures EntryOf(events, runId, source) == SourceUsage(source, NO_USAGE, 0)
  {
    if events != [] {
      var before, e := events[..|events| - 1], events[|events| - 1];
      assert events == before + [e];
      NoEntryYet(before, runId, source);
      EntrySnoc(before, e, runId, source);
    }
  }

  /** The dictionary of a summary's loop after some events: one entry per source seen. */
  ghost predicate Tallied(events: seq<Event>, runId: string, names: seq<string>, bySource: map<string, SourceUsage>) {
    && names == Sources(events, runId)
    && (forall name :: name in names <==> name in bySource)
    && forall name :: name in bySource ==> bySource[name] == EntryOf(events, runId, name)
  }

  lemma SourcesSnoc(events: seq<Event>, e: Event, runId: string)
    ensures Sources(events + [e], runId) ==
      if e.runId == runId && e.source !in Sources(events, runId) then Sources(events, runId) + [e.source]
      else Sources(events, runId)
  {
    assert (events + [e])[..|events|] == events;
  }

  lemma SkipsEvent(events: seq<Event>, e: Event, runId: string, names: seq<string>, bySource: map<string, SourceUsage>)
    requires Tallied(events, runId, names, bySource) && e.runId != runId
    ensures Tallied(events + [e], runId, names, bySource)
  {
    SourcesSnoc(events, e, runId);
    forall name | name in bySource ensures bySource[name] == EntryOf(events + [e], runId, name) {
      EntrySnoc(events, e, runId, name);
    }
  }

  lemma TalliesEvent(events: seq<Event>, e: Event, runId: string, names: seq<string>,
                     bySource: map<string, SourceUsage>, old': SourceUsage)
    requires Tallied(events, runId, names, bySource) && e.runId == runId
    requires old' == if e.source in bySource then bySource[e.source] else SourceUsage(e.source, NO_USAGE, 0)
    ensures Tallied(events + [e], runId, if e.source in bySource then names else names + [e.source],
                    bySource[e.source := SourceUsage(e.source, old'.usage.Plus(e.usage), old'.eventCount + 1)])
  {
    SourcesSnoc(events, e, runId);
    if e.source !in bySource { NoEntryYet(events, runId, e.source); }
    var after := bySource[e.source := SourceUsage(e.source, old'.usage.Plus(e.usage), old'.eventCount + 1)];
    forall name | name in after ensures after[name] == EntryOf(events + [e], runId, name) {
      EntrySnoc(events, e, runId, name);
      if name != e.source { assert name in bySource && after[name] == bySource[name]; }
    }
  }

  /** setdefault, then add: the dictionary after one more event of the run. */
  method Tally(ghost events: seq<Event>, event: Event, runId: string, names: seq<string>,
               bySource: map<string, SourceUsage>)
    returns (names': seq<string>, bySource': map<string, SourceUsage>)
    requires Tallied(events, runId, names, bySource) && event.runId == runId
    ensures Tallied(events + [event], runId, names', bySource')
  {
    var source := if event.source in bySource then bySource[event.source] else SourceUsage(event.source, NO_USAGE, 0);
    TalliesEvent(events, event, runId, names, bySource, source);
    names' := if event.source in bySource then names else names + [event.source];
    var entry := SourceUsage(event.source, source.usage.Plus(event.usage), source.eventCount + 1);
    bySource' := bySource[event.source := entry];
  }

  /** The dictionary's values in the order of their sorted keys. */
  function SortedEntries(events: seq<Event>, runId: string, names: seq<string>, bySource: map<string, SourceUsage>)
    : (entries: seq<SourceUsage>)
    requires Tallied(events, runId, names, bySource)
    ensures entries == SummaryOf(events, runId).bySource
  {
    var sorted := Sort(names, Leq);
    SameMembers(sorted, names);
    seq(|sorted|, i requires 0 <= i < |sorted| => (assert sorted[i] in sorted; bySource[sorted[i]]))
  }

  class TelemetryLedger {
    var events: seq<Event>

    constructor ()
      ensures events == []
    {
      events := [];
    }

    method Record(event: Event) returns (r: Result<nat, Error>)
      modifies this
      ensures r.Ok? <==> event.requestId != "" && event.runId != "" && event.source != ""
      ensures r.Ok? ==> events == old(events) + [event] && r.value == |events|
      ensures r.Err? ==> events == old(events) && r.error == InvalidRequest
    {
      if event.requestId == "" || event.runId == "" || event.source == "" {
        return Err(InvalidRequest);
      }
      events := events + [event];
      r := Ok(|events|);
    }

    method Summarize(runId: string) returns (r: Result<Summary, Error>)
      ensures r == if runId == "" then Err(InvalidRequest) else Ok(SummaryOf(events, runId))
    {
      if runId == "" {
        return Err(InvalidRequest);
      }
      var total := new UsageTotal();
      var eventCount := 0;
      var names: seq<string> := [];
      var bySource: map<string, SourceUsage> := map[];
      ghost var seen: seq<Event> := [];
      for i := 0 to |events|
        invariant fresh(total) && seen == events[..i]
        invariant total.View() == Total(seen, runId) && eventCount == Count(seen, runId)
        invariant Tallied(seen, runId, names, bySource)
      {
        var event := events[i];
        ghost var before := seen;
        seen := before + [event];
        TotalSnoc(before, event, runId);
        if event.runId != runId {
          SkipsEvent(before, event, runId, names, bySource);
          continue;
        }
        eventCount := eventCount + 1;
        total.Add(event.usage);
        names, bySource := Tally(before, event, runId, names, bySource);
      }
      assert seen == events;
      var usage := total.Read();
      var entries := SortedEntries(events, runId, names, bySource);
      r := Ok(Summary(runId, usage, eventCount, entries));
    }
  }

  // ---------------------------------------------------------------- what a summary says

  function AddTo(sum: (Usage, nat), entry: SourceUsage): (Usage, nat) {
    (sum.0.Plus(entry.usage), sum.1 + entry.eventCount)
  }

  function SumEntries(entries: seq<SourceUsage>): (Usage, nat) {
    if entries == [] then (NO_USAGE, 0)
    else AddTo(SumEntries(entries[..|entries| - 1]), entries[|entries| - 1])
  }

  /** The usage and the number of events of the run that came from these sources, source by source. */
  function SumOf(events: seq<Event>, runId: string, names: seq<string>): (Usage, nat) {
    if names == [] then (NO_USAGE, 0)
    else AddTo(SumOf(events, runId, names[..|names| - 1]), EntryOf(events, runId, names[|names| - 1]))
  }

  lemma {:induction false} EntriesSum(events: seq<Event>, runId: string, names: seq<string>)
    ensures SumEntries(Entries(events, runId, names)) == SumOf(events, runId, names)
  {
    if names != [] {
      var front := names[..|names| - 1];
      EntriesSum(events, runId, front);
      assert Entries(events, runId, names)[..|front|] == Entries(events, runId, front);
    }
  }

  lemma {:induction false} SumOfNothing(runId: string, names: seq<string>)
    ensures SumOf([], runId, names) == (NO_USAGE, 0)
  {
    if names != [] {
      SumOfNothing(runId, names[..|names| - 1]);
    }
  }

  lemma PlusSwaps(a: Usage, b: Usage, c: Usage)
    ensures a.Plus(b).Plus(c) == a.Plus(c).Plus(b) == a.Plus(b.Plus(c))
  {
  }

  ghost predicate Different(names: seq<string>) {
    forall i, j :: 0 <= i < j < |names| ==> names[i] != names[j]
  }

  lemma DifferentFront(names: seq<string>)
    requires Different(names) && names != []
    ensures Different(names[..|names| - 1]) && names[|names| - 1] !in names[..|names| - 1]
    ensures forall name :: name in names <==> name in names[..|names| - 1] || name == names[|names| - 1]
  {
    assert names == names[..|names| - 1] + [names[|names| - 1]];
  }

  /** The sum after one more event. */
  function Bumped(sum: (Usage, nat), e: Event): (Usage, nat) {
    (sum.0.Plus(e.usage), sum.1 + 1)
  }

  lemma BumpCommutes(sum: (Usage, nat), entry: SourceUsage, e: Event)
    ensures AddTo(Bumped(sum, e), entry) == Bumped(AddTo(sum, entry), e)
    ensures AddTo(sum, SourceUsage(entry.source, entry.usage.Plus(e.usage), entry.eventCount + 1))
         == Bumped(AddTo(sum, entry), e)
  {
    PlusSwaps(sum.0, entry.usage, e.usage);
  }

  /** One more event of the run adds to the sum over any list of different names that has its source. */
  lemma {:induction false} SumOfSnoc(events: seq<Event>, e: Event, runId: string, names: seq<string>)
    requires Different(names)
    ensures SumOf(events + [e], runId, names) ==
      if e.runId == runId && e.source in names then Bumped(SumOf(events, runId, names), e)
      else SumOf(events, runId, names)
  {
    if names != [] {
      DifferentFront(names);
      SumOfSnoc(events, e, runId, names[..|names| - 1]);
      EntrySnoc(events, e, runId, names[|names| - 1]);
      BumpCommutes(SumOf(events, runId, names[..|names| - 1]), EntryOf(events, runId, names[|names| - 1]), e);
    }
  }

  lemma {:induction false} NamesAddUp(events: seq<Event>, runId: string, names: seq<string>)
    requires Different(names) && forall e :: e in events && e.runId == runId ==> e.source in names
    ensures SumOf(events, runId, names) == (Total(events, runId), Count(events, runId))
  {
    if events == [] {
      SumOfNothing(runId, names);
    } else {
      var before, e := events[..|events| - 1], events[|events| - 1];
      assert events == before + [e] && e in events;
      NamesAddUp(before, runId, names);
      SumOfSnoc(before, e, runId, names);
    }
  }

  lemma EntriesAddUp(events: seq<Event>, runId: string, names: seq<string>)
    requires Different(names) && forall e :: e in events && e.runId == runId ==> e.source in names
    ensures SumEntries(Entries(events, runId, names)) == (Total(events, runId), Count(events, runId))
  {
    EntriesSum(events, runId, names);
    NamesAddUp(events, runId, names);
  }

  lemma SortedSources(events: seq<Event>, runId: string) returns (sorted: seq<string>)
    ensures sorted == Sort(Sources(events, runId), Leq)
    ensures forall i, j :: 0 <= i < j < |sorted| ==> sorted[i] != sorted[j] && Leq(sorted[i], sorted[j])
    ensures forall name :: name in sorted <==> exists e :: e in events && e.runId == runId && e.source == name
  {
    var names := Sources(events, runId);
    sorted := Sort(names, Leq);
    SourcesOnce(events, runId);
    LeqIsTotalOrder();
    SortOrdered(names, Leq);
    DistinctKept(names, sorted);
    SameMembers(sorted, names);
    forall name ensures name in sorted <==> exists e :: e in events && e.runId == runId && e.source == name {
      SourcesAre(events, runId, name);
    }
  }

  lemma SourceSet(entries: seq<SourceUsage>, sorted: seq<string>, theirs: set<string>)
    requires |entries| == |sorted| && forall k :: 0 <= k < |entries| ==> entries[k].source == sorted[k]
    requires forall name :: name in sorted <==> name in theirs
    ensures (set k | 0 <= k < |entries| :: entries[k].source) == theirs
  {
    var mine := set k | 0 <= k < |entries| :: entries[k].source;
    forall name ensures name in mine <==> name in theirs {
      if name in theirs {
        var k :| 0 <= k < |sorted| && sorted[k] == name;
        assert entries[k].source == name;
      }
      if name in mine {
        var k :| 0 <= k < |entries| && entries[k].source == name;
        assert sorted[k] in sorted;
      }
    }
  }

  /** The sources of a summary are exactly those with events of the run, strictly increasing, and their
      usage and counts add up to the totals. */
  lemma SummaryAddsUp(events: seq<Event>, runId: string)
    ensures var s := SummaryOf(events, runId);
      && SumEntries(s.bySource) == (s.total, s.eventCount)
      && (forall i, j :: 0 <= i < j < |s.bySource| ==>
            s.bySource[i].source != s.bySource[j].source && Leq(s.bySource[i].source, s.bySource[j].source))
      && (set k | 0 <= k < |s.bySource| :: s.bySource[k].source)
         == (set e | e in events && e.runId == runId :: e.source)
  {
    var sorted := SortedSources(events, runId);
    var entries := SummaryOf(events, runId).bySource;
    EntriesAddUp(events, runId, sorted);
    assert forall k :: 0 <= k < |sorted| ==> entries[k].source == sorted[k];
    SourceSet(entries, sorted, set e | e in events && e.runId == runId :: e.source);
  }
}
