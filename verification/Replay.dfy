/**
  Replay of a run's checkpoints (`replay_run`, `replay_run_filtered`, agents/agent_run_manager.py). The
  single pass over the log, which finds each attempt's summary through an index, is proved equal to
  summarising each attempt from its own checkpoints.
 */
module Replay {
  import opened Common
  import opened Text

  /** A stored checkpoint: not a dictionary at all, or the fields replay reads from it. */
  datatype Checkpoint =
    | Malformed
    | Checkpoint(timestamp: string, stage: string, attempt: Option<int>, message: string,
                 status: Option<string>, retryable: Option<bool>, failureClass: Option<string>,
                 cached: bool, executed: bool)

  datatype Event = Event(index: nat, timestamp: string, stage: string, attempt: Option<int>, message: string,
                         status: Option<string>, retryable: Option<bool>, failureClass: Option<string>, ran: bool)

  datatype Summary = Summary(attempt: int, stageCounts: map<string, nat>, startedAt: Option<string>,
                             finishedAt: Option<string>, toolRounds: nat, repairs: nat, errors: seq<string>)

  function NormalizeAttempt(a: Option<int>): Option<int> { if a.Some? && a.value > 0 then a else None }

  function ToEvent(c: Checkpoint, index: nat): Event
    requires c.Checkpoint?
  {
    Event(index, c.timestamp, if Strip(c.stage) == "" then "unknown" else Strip(c.stage), NormalizeAttempt(c.attempt),
          Strip(c.message),
          if c.status.Some? && Lower(Strip(c.status.value)) != "" then Some(Lower(Strip(c.status.value))) else None,
          c.retryable, c.failureClass, !c.cached && c.executed)
  }

  /** The timeline: one event per well-formed checkpoint, numbered by its place in the log. */
  function Timeline(log: seq<Checkpoint>): seq<Event> {
    if log == [] then []
    else if Last(log).Malformed? then Timeline(Init(log))
    else Timeline(Init(log)) + [ToEvent(Last(log), |log|)]
  }

  /** What replay makes of one checkpoint: nothing blank but the message, and attempts counted from one. */
  lemma EventReads(c: Checkpoint, index: nat)
    requires c.Checkpoint?
    ensures var e := ToEvent(c, index);
            && e.index == index && e.timestamp == c.timestamp && e.retryable == c.retryable
            && e.failureClass == c.failureClass && e.message == Strip(c.message)
            && (e.stage == Strip(c.stage) || (e.stage == "unknown" && Strip(c.stage) == "")) && e.stage != ""
            && (e.attempt.Some? <==> c.attempt.Some? && c.attempt.value >= 1)
            && (e.attempt.Some? ==> e.attempt == c.attempt)
            && (e.status.Some? <==> c.status.Some? && Strip(c.status.value) != "")
            && (e.status.Some? ==> e.status.value == Lower(Strip(c.status.value)))
            && (e.ran <==> c.executed && !c.cached)
  {
  }

  predicate Starts(e: Event) { e.stage == "running" }

  predicate Finishes(e: Event) { e.stage in {"succeeded", "failed", "canceled"} }

  predicate IsToolRound(e: Event) { e.stage == "tool_call_finished" && e.ran }

  predicate IsRepair(e: Event) { e.stage == "verification_repair_attempt" }

  predicate IsError(e: Event) { e.stage in {"error", "failed"} && e.message != "" }

  // ---- Summaries by attempt ----

  function Of(events: seq<Event>, attempt: int): seq<Event> { Filter(events, (e: Event) => e.attempt == Some(attempt)) }

  function Stages(events: seq<Event>): set<string> { set e | e in events :: e.stage }

  function StageCounts(events: seq<Event>): map<string, nat> {
    map stage | stage in Stages(events) :: Count(events, (e: Event) => e.stage == stage)
  }

  function FirstTime(events: seq<Event>): Option<string> { if events == [] then None else Some(events[0].timestamp) }

  function LastTime(events: seq<Event>): Option<string> { if events == [] then None else Some(Last(events).timestamp) }

  function Messages(events: seq<Event>): seq<string> {
    seq(|events|, i requires 0 <= i < |events| => events[i].message)
  }

  /** An attempt summarised from its own events. */
  function SummaryOf(own: seq<Event>, attempt: int): Summary {
    Summary(attempt, StageCounts(own), FirstTime(Filter(own, Starts)), LastTime(Filter(own, Finishes)),
            Count(own, IsToolRound), Count(own, IsRepair), Messages(Filter(own, IsError)))
  }

  /** The attempts of a timeline in order of first appearance. */
  function Attempts(events: seq<Event>): seq<int> {
    if events == [] then []
    else
      var before, a := Attempts(Init(events)), Last(events).attempt;
      if a.Some? && a.value !in before then before + [a.value] else before
  }

  function Summaries(events: seq<Event>): seq<Summary> {
    var attempts := Attempts(events);
    seq(|attempts|, i requires 0 <= i < |attempts| => SummaryOf(Of(events, attempts[i]), attempts[i]))
  }

  // ---- The single pass ----

  /** What the loop body does to the summary of an event's attempt. */
  function Absorb(s: Summary, e: Event): Summary {
    var stage := e.stage;
    s.(stageCounts := s.stageCounts[stage := (if stage in s.stageCounts then s.stageCounts[stage] else 0) + 1],
       startedAt := if stage == "running" && s.startedAt.None? then Some(e.timestamp) else s.startedAt,
       finishedAt := if stage in {"succeeded", "failed", "canceled"} then Some(e.timestamp) else s.finishedAt,
       toolRounds := s.toolRounds + (if stage == "tool_call_finished" && e.ran then 1 else 0),
       repairs := s.repairs + (if stage == "verification_repair_attempt" then 1 else 0),
       errors := s.errors + (if stage in {"error", "failed"} && e.message != "" then [e.message] else []))
  }

  function Empty(attempt: int): Summary { Summary(attempt, map[], None, None, 0, 0, []) }

  lemma StageCountsSnoc(own: seq<Event>, e: Event)
    ensures StageCounts(own + [e])
         == StageCounts(own)[e.stage := (if e.stage in StageCounts(own) then StageCounts(own)[e.stage] else 0) + 1]
  {
    var all := own + [e];
    assert Stages(all) == Stages(own) + {e.stage};
    forall stage | stage in Stages(all)
      ensures Count(all, (e: Event) => e.stage == stage)
           == (if stage in Stages(own) then Count(own, (e: Event) => e.stage == stage) else 0)
              + (if stage == e.stage then 1 else 0)
    {
      FilterSnoc(own, e, (e: Event) => e.stage == stage);
      if stage !in Stages(own) {
        FilterNone(own, (e: Event) => e.stage == stage);
      }
    }
  }

  lemma TimesSnoc(own: seq<Event>, e: Event)
    ensures FirstTime(Filter(own + [e], Starts))
         == if Starts(e) && FirstTime(Filter(own, Starts)).None? then Some(e.timestamp)
            else FirstTime(Filter(own, Starts))
    ensures LastTime(Filter(own + [e], Finishes))
         == if Finishes(e) then Some(e.timestamp) else LastTime(Filter(own, Finishes))
  {
    FilterSnoc(own, e, Starts);
    FilterSnoc(own, e, Finishes);
  }

  lemma TalliesSnoc(own: seq<Event>, e: Event)
    ensures Count(own + [e], IsToolRound) == Count(own, IsToolRound) + (if IsToolRound(e) then 1 else 0)
    ensures Count(own + [e], IsRepair) == Count(own, IsRepair) + (if IsRepair(e) then 1 else 0)
    ensures Messages(Filter(own + [e], IsError))
         == Messages(Filter(own, IsError)) + (if IsError(e) then [e.message] else [])
  {
    FilterSnoc(own, e, IsToolRound);
    FilterSnoc(own, e, IsRepair);
    FilterSnoc(own, e, IsError);
  }

  lemma SummarySnoc(own: seq<Event>, e: Event, attempt: int)
    ensures SummaryOf(own + [e], attempt) == Absorb(SummaryOf(own, attempt), e)
  {
    StageCountsSnoc(own, e);
    TimesSnoc(own, e);
    TalliesSnoc(own, e);
  }

  lemma {:induction false} AttemptsAreThose(events: seq<Event>)
    ensures forall e | e in events && e.attempt.Some? :: e.attempt.value in Attempts(events)
    ensures forall i, j | 0 <= i < j < |Attempts(events)| :: Attempts(events)[i] != Attempts(events)[j]
  {
    if events != [] {
      AttemptsAreThose(Init(events));
      assert events == Init(events) + [Last(events)];
    }
  }

  lemma EmptySummary(events: seq<Event>, attempt: int)
    requires attempt !in Attempts(events)
    ensures Of(events, attempt) == [] && SummaryOf([], attempt) == Empty(attempt)
  {
    AttemptsAreThose(events);
    FilterNone(events, (e: Event) => e.attempt == Some(attempt));
  }

  lemma OfSnoc(events: seq<Event>, e: Event, attempt: int)
    ensures Of(events + [e], attempt) == Of(events, attempt) + (if e.attempt == Some(attempt) then [e] else [])
  {
    FilterSnoc(events, e, (e: Event) => e.attempt == Some(attempt));
  }

  /** The summary of one attempt absorbs the attempt's events and ignores the others. */
  lemma OwnSummary(events: seq<Event>, e: Event, attempt: int)
    ensures SummaryOf(Of(events + [e], attempt), attempt)
         == if e.attempt == Some(attempt) then Absorb(SummaryOf(Of(events, attempt), attempt), e)
            else SummaryOf(Of(events, attempt), attempt)
  {
    OfSnoc(events, e, attempt);
    SummarySnoc(Of(events, attempt), e, attempt);
  }

  lemma AttemptsSnoc(events: seq<Event>, e: Event)
    ensures Attempts(events + [e])
         == Attempts(events)
            + (if e.attempt.Some? && e.attempt.value !in Attempts(events) then [e.attempt.value] else [])
  {
    InitLast(events, e);
  }

  /** An event of no attempt changes no summary. */
  lemma SummariesUnchanged(events: seq<Event>, e: Event)
    requires e.attempt.None?
    ensures Summaries(events + [e]) == Summaries(events)
  {
    AttemptsSnoc(events, e);
    forall i | 0 <= i < |Attempts(events)| ensures Summaries(events + [e])[i] == Summaries(events)[i] {
      OwnSummary(events, e, Attempts(events)[i]);
    }
  }

  /** An event of a known attempt changes the one summary. */
  lemma SummariesKnown(events: seq<Event>, e: Event, k: nat)
    requires k < |Attempts(events)| && e.attempt == Some(Attempts(events)[k])
    ensures Summaries(events + [e]) == Summaries(events)[k := Absorb(Summaries(events)[k], e)]
  {
    AttemptsSnoc(events, e);
    AttemptsAreThose(events);
    forall i | 0 <= i < |Attempts(events)|
      ensures Summaries(events + [e])[i] == if i == k then Absorb(Summaries(events)[i], e) else Summaries(events)[i]
    {
      OwnSummary(events, e, Attempts(events)[i]);
    }
  }

  /** A new attempt leaves the summaries of the others alone. */
  lemma OtherSummary(events: seq<Event>, e: Event, i: nat)
    requires e.attempt.Some? && e.attempt.value !in Attempts(events) && i < |Attempts(events)|
    ensures |Attempts(events + [e])| == |Attempts(events)| + 1
    ensures Summaries(events + [e])[i] == Summaries(events)[i]
  {
    AttemptsSnoc(events, e);
    var attempt := Attempts(events)[i];
    assert attempt in Attempts(events) && Attempts(events + [e])[i] == attempt;
    OwnSummary(events, e, attempt);
  }

  lemma NewSummary(events: seq<Event>, e: Event)
    requires e.attempt.Some? && e.attempt.value !in Attempts(events)
    ensures |Attempts(events + [e])| == |Attempts(events)| + 1
    ensures Summaries(events + [e])[|Attempts(events)|] == Absorb(Empty(e.attempt.value), e)
  {
    AttemptsSnoc(events, e);
    OwnSummary(events, e, e.attempt.value);
    EmptySummary(events, e.attempt.value);
  }

  /** An event of a new attempt starts a summary at the end. */
  lemma SummariesNew(events: seq<Event>, e: Event)
    requires e.attempt.Some? && e.attempt.value !in Attempts(events)
    ensures Summaries(events + [e]) == Summaries(events) + [Absorb(Empty(e.attempt.value), e)]
  {
    AttemptsSnoc(events, e);
    var before, after := Summaries(events), Summaries(events + [e]);
    forall i | 0 <= i < |before| ensures after[i] == before[i] {
      OtherSummary(events, e, i);
    }
    assert after[|before|] == Absorb(Empty(e.attempt.value), e) by {
      NewSummary(events, e);
    }
  }

  /** The index knows the place of every attempt. */
  predicate Indexes(index: map<int, nat>, attempts: seq<int>) {
    && (forall a | a in attempts :: a in index)
    && (forall a | a in index :: index[a] < |attempts| && attempts[index[a]] == a)
  }

  /** The summaries of the events so far, and where each attempt's one lies. */
  predicate Replayed(timeline: seq<Event>, summaries: seq<Summary>, index: map<int, nat>) {
    summaries == Summaries(timeline) && Indexes(index, Attempts(timeline))
  }

  lemma ReplayUnchanged(timeline: seq<Event>, e: Event, summaries: seq<Summary>, index: map<int, nat>)
    requires Replayed(timeline, summaries, index) && e.attempt.None?
    ensures Replayed(timeline + [e], summaries, index)
  {
    AttemptsSnoc(timeline, e);
    SummariesUnchanged(timeline, e);
  }

  lemma ReplayKnown(timeline: seq<Event>, e: Event, summaries: seq<Summary>, index: map<int, nat>, a: int)
    requires Replayed(timeline, summaries, index) && e.attempt == Some(a) && a in index
    ensures index[a] < |summaries|
    ensures Replayed(timeline + [e], summaries[index[a] := Absorb(summaries[index[a]], e)], index)
  {
    AttemptsSnoc(timeline, e);
    SummariesKnown(timeline, e, index[a]);
  }

  lemma ReplayNew(timeline: seq<Event>, e: Event, summaries: seq<Summary>, index: map<int, nat>, a: int)
    requires Replayed(timeline, summaries, index) && e.attempt == Some(a) && a !in index
    ensures Replayed(timeline + [e], summaries + [Absorb(Empty(a), e)], index[a := |summaries|])
  {
    AttemptsSnoc(timeline, e);
    SummariesNew(timeline, e);
  }

  lemma TimelineSnoc(log: seq<Checkpoint>, i: nat)
    requires i < |log|
    ensures Timeline(log[..i + 1])
            == if log[i].Malformed? then Timeline(log[..i]) else Timeline(log[..i]) + [ToEvent(log[i], i + 1)]
  {
    assert log[..i + 1] == log[..i] + [log[i]];
    InitLast(log[..i], log[i]);
  }

  /** The single pass over the log, with its index from attempt to summary. */
  method ReplayRun(log: seq<Checkpoint>) returns (timeline: seq<Event>, summaries: seq<Summary>)
    ensures timeline == Timeline(log)
    ensures summaries == Summaries(timeline)
  {
    timeline, summaries := [], [];
    var index: map<int, nat> := map[];
    var i := 0;
    while i < |log|
      invariant 0 <= i <= |log|
      invariant timeline == Timeline(log[..i]) && Replayed(timeline, summaries, index)
    {
      var item := log[i];
      TimelineSnoc(log, i);
      i := i + 1;
      if item.Malformed? {
        continue;
      }
      var event := ToEvent(item, i);
      if event.attempt.None? {
        ReplayUnchanged(timeline, event, summaries, index);
      } else {
        var a := event.attempt.value;
        if a in index {
          ReplayKnown(timeline, event, summaries, index, a);
          summaries := summaries[index[a] := Absorb(summaries[index[a]], event)];
        } else {
          ReplayNew(timeline, event, summaries, index, a);
          index := index[a := |summaries|];
          summaries := summaries + [Absorb(Empty(a), event)];
        }
      }
      timeline := timeline + [event];
    }
    assert log[..i] == log;
  }

  // ---- Filtered replay ----

  /** Empty sets, `None` and non-positive numbers leave a filter out. */
  datatype Filters = Filters(preset: set<string>, stages: set<string>, statuses: set<string>, classes: set<string>,
                             retryable: Option<bool>, attempt: int, limit: int)

  predicate ByPreset(e: Event, f: Filters) { f.preset == {} || Lower(e.stage) in f.preset }

  predicate ByStage(e: Event, f: Filters) { f.stages == {} || Lower(e.stage) in f.stages }

  predicate ByStatus(e: Event, f: Filters) { f.statuses == {} || (e.status.Some? && e.status.value in f.statuses) }

  predicate ByClass(e: Event, f: Filters) {
    f.classes == {} || (e.failureClass.Some? && Lower(Strip(e.failureClass.value)) in f.classes)
  }

  predicate ByRetryable(e: Event, f: Filters) { f.retryable.None? || e.retryable == f.retryable }

  predicate ByAttempt(e: Event, f: Filters) { f.attempt <= 0 || e.attempt == Some(f.attempt) }

  /** The successive list comprehensions of the source, then the cut to the newest events. */
  function ByWhat(timeline: seq<Event>, f: Filters): seq<Event> {
    var preset := Filter(timeline, (e: Event) => ByPreset(e, f));
    var stage := Filter(preset, (e: Event) => ByStage(e, f));
    Filter(stage, (e: Event) => ByStatus(e, f))
  }

  function ByFailure(timeline: seq<Event>, f: Filters): seq<Event> {
    var failure := Filter(timeline, (e: Event) => ByClass(e, f));
    var retryable := Filter(failure, (e: Event) => ByRetryable(e, f));
    Filter(retryable, (e: Event) => ByAttempt(e, f))
  }

  function Newest(events: seq<Event>, limit: int): seq<Event> {
    if 0 < limit < |events| then events[|events| - limit..] else events
  }

  function ReplayFiltered(timeline: seq<Event>, f: Filters): seq<Event> {
    Newest(ByFailure(ByWhat(timeline, f), f), f.limit)
  }

  predicate MatchesWhat(e: Event, f: Filters) { ByPreset(e, f) && ByStage(e, f) && ByStatus(e, f) }

  predicate MatchesFailure(e: Event, f: Filters) { ByClass(e, f) && ByRetryable(e, f) && ByAttempt(e, f) }

  lemma WhatIsOneFilter(timeline: seq<Event>, f: Filters)
    ensures ByWhat(timeline, f) == Filter(timeline, (e: Event) => MatchesWhat(e, f))
  {
    var both := (e: Event) => ByPreset(e, f) && ByStage(e, f);
    FilterTwice(timeline, (e: Event) => ByPreset(e, f), (e: Event) => ByStage(e, f), both);
    FilterTwice(timeline, both, (e: Event) => ByStatus(e, f), (e: Event) => MatchesWhat(e, f));
  }

  lemma FailureIsOneFilter(timeline: seq<Event>, f: Filters)
    ensures ByFailure(timeline, f) == Filter(timeline, (e: Event) => MatchesFailure(e, f))
  {
    var both := (e: Event) => ByClass(e, f) && ByRetryable(e, f);
    FilterTwice(timeline, (e: Event) => ByClass(e, f), (e: Event) => ByRetryable(e, f), both);
    FilterTwice(timeline, both, (e: Event) => ByAttempt(e, f), (e: Event) => MatchesFailure(e, f));
  }

  /** The event passes every filter that is set. */
  predicate Wanted(e: Event, f: Filters) {
    && (f.preset != {} ==> Lower(e.stage) in f.preset) && (f.stages != {} ==> Lower(e.stage) in f.stages)
    && (f.statuses != {} ==> e.status.Some? && e.status.value in f.statuses)
    && (f.classes != {} ==> e.failureClass.Some? && Lower(Strip(e.failureClass.value)) in f.classes)
    && (f.retryable.Some? ==> e.retryable == f.retryable)
    && (f.attempt >= 1 ==> e.attempt == Some(f.attempt))
  }

  /** Filtered replay is the last `limit` of the events that pass every filter, in timeline order. */
  lemma FilteredReplayIsLastMatches(timeline: seq<Event>, f: Filters)
    ensures var wanted := Filter(timeline, (e: Event) => Wanted(e, f));
            var kept := if f.limit <= 0 then |wanted| else Min(f.limit, |wanted|);
            ReplayFiltered(timeline, f) == wanted[|wanted| - kept..]
  {
    WhatIsOneFilter(timeline, f);
    FailureIsOneFilter(ByWhat(timeline, f), f);
    FilterTwice(timeline, (e: Event) => MatchesWhat(e, f), (e: Event) => MatchesFailure(e, f),
                (e: Event) => Wanted(e, f));
  }
}
