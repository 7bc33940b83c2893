/** The outbox and the audit trail: numbered events, causation chains, and pollers that resume at a cursor. */
module Outbox {
  import opened Prelude

  datatype Event = Event(cursor: nat, eventId: Uuid, aggregateId: Uuid, projectId: Uuid)

  datatype Audit = Audit(eventId: Uuid, correlationId: Uuid, causationId: Option<Uuid>)

  /** One audit row per event; the correlation and the latest event of each aggregate. */
  datatype State = State(outbox: seq<Event>, audit: seq<Audit>, correlationBy: map<Uuid, Uuid>, lastBy: map<Uuid, Uuid>)

  const EMPTY := State([], [], map[], map[])

  /** An event to add; correlation and causation are normally left to the store. */
  datatype NewEvent = NewEvent(aggregateId: Uuid, projectId: Uuid, correlation: Option<Uuid>, causation: Option<Uuid>,
                               eventId: Uuid, newCorrelation: Uuid)

  function LastOf(s: State, aggregateId: Uuid): Option<Uuid> {
    if aggregateId in s.lastBy then Some(s.lastBy[aggregateId]) else None
  }

  function AddEvent(s: State, e: NewEvent): State {
    var a := e.aggregateId;
    var known := if a in s.correlationBy then s.correlationBy[a] else e.newCorrelation;
    State(s.outbox + [Event(|s.outbox| + 1, e.eventId, a, e.projectId)],
          s.audit + [Audit(e.eventId, if e.correlation.Some? then e.correlation.value else known,
                           if e.causation.Some? then e.causation else LastOf(s, a))],
          if e.correlation.Some? then s.correlationBy else s.correlationBy[a := known],
          s.lastBy[a := e.eventId])
  }

  predicate Wanted(e: Event, projectId: Uuid, cursor: int) {
    e.projectId == projectId && e.cursor > cursor
  }

  function ChangesAfter(outbox: seq<Event>, projectId: Uuid, cursor: int): (r: seq<Event>)
    ensures forall e :: e in r <==> e in outbox && Wanted(e, projectId, cursor)
  {
    if outbox == [] then []
    else
      var earlier, last := ChangesAfter(outbox[..|outbox| - 1], projectId, cursor), outbox[|outbox| - 1];
      assert outbox == outbox[..|outbox| - 1] + [last];
      if Wanted(last, projectId, cursor) then earlier + [last] else earlier
  }

  // --- Runs -----------------------------------------------------------------------------------------

  /** A fresh event and correlation id. */
  ghost predicate Fresh(s: State, e: NewEvent) {
    && (forall i :: 0 <= i < |s.audit| ==> s.audit[i].eventId != e.eventId)
    && (forall i :: 0 <= i < |s.audit| ==> s.audit[i].correlationId != e.newCorrelation)
    && (forall a :: a in s.correlationBy ==> s.correlationBy[a] != e.newCorrelation)
  }

  /** The state after a run of additions. */
  function AddAll(events: seq<NewEvent>): State {
    if events == [] then EMPTY else AddEvent(AddAll(events[..|events| - 1]), events[|events| - 1])
  }

  ghost predicate AllFresh(events: seq<NewEvent>) {
    forall i :: 0 <= i < |events| ==> Fresh(AddAll(events[..i]), events[i])
  }

  /** Nobody chose a correlation or a causation. */
  ghost predicate Unforced(events: seq<NewEvent>) {
    forall i :: 0 <= i < |events| ==> events[i].correlation == None && events[i].causation == None
  }

  /** The id of the aggregate's last event among the first n. */
  function LastAmong(outbox: seq<Event>, n: nat, a: Uuid): Option<Uuid>
    requires n <= |outbox|
  {
    if n == 0 then None
    else if outbox[n - 1].aggregateId == a then Some(outbox[n - 1].eventId) else LastAmong(outbox, n - 1, a)
  }

  /** Cursors count from 1, ids are distinct, and audit rows pair with events. */
  ghost predicate Numbered(s: State) {
    && |s.audit| == |s.outbox|
    && (forall i :: 0 <= i < |s.outbox| ==> s.outbox[i].cursor == i + 1 && s.audit[i].eventId == s.outbox[i].eventId)
    && (forall i, j :: 0 <= i < j < |s.outbox| ==> s.outbox[i].eventId != s.outbox[j].eventId)
  }

  /** Each event is caused by its aggregate's previous one, and the table has the latest. */
  ghost predicate Chained(s: State) {
    && |s.audit| == |s.outbox|
    && (forall i :: 0 <= i < |s.outbox| ==> s.audit[i].causationId == LastAmong(s.outbox, i, s.outbox[i].aggregateId))
    && (forall a :: LastOf(s, a) == LastAmong(s.outbox, |s.outbox|, a))
  }

  /** Each aggregate has one correlation id, its own. */
  ghost predicate Correlated(s: State) {
    && |s.audit| == |s.outbox|
    && (forall i :: 0 <= i < |s.outbox| ==>
          s.outbox[i].aggregateId in s.correlationBy && s.audit[i].correlationId == s.correlationBy[s.outbox[i].aggregateId])
    && (forall a, b :: a in s.correlationBy && b in s.correlationBy && s.correlationBy[a] == s.correlationBy[b] ==> a == b)
  }

  lemma {:induction false} LastAmongPrefix(outbox: seq<Event>, more: seq<Event>, n: nat, a: Uuid)
    requires n <= |outbox|
    ensures LastAmong(outbox + more, n, a) == LastAmong(outbox, n, a)
  {
    if n == 0 {
    } else {
      LastAmongPrefix(outbox, more, n - 1, a);
    }
  }

  lemma AddKeepsNumbered(s: State, e: NewEvent)
    requires Numbered(s) && Fresh(s, e)
    ensures Numbered(AddEvent(s, e))
  {
  }

  lemma AddKeepsChained(s: State, e: NewEvent)
    requires Chained(s) && e.causation == None
    ensures Chained(AddEvent(s, e))
  {
    var s' := AddEvent(s, e);
    var more := [s'.outbox[|s.outbox|]];
    assert s'.outbox == s.outbox + more;
    forall i | 0 <= i < |s'.outbox| ensures s'.audit[i].causationId == LastAmong(s'.outbox, i, s'.outbox[i].aggregateId) {
      LastAmongPrefix(s.outbox, more, i, s'.outbox[i].aggregateId);
      if i < |s.outbox| {
        assert s.audit[i].causationId == LastAmong(s.outbox, i, s.outbox[i].aggregateId);
      }
    }
    forall a ensures LastOf(s', a) == LastAmong(s'.outbox, |s'.outbox|, a) {
      LastAmongPrefix(s.outbox, more, |s.outbox|, a);
    }
  }

  lemma AddKeepsCorrelated(s: State, e: NewEvent)
    requires Correlated(s) && Fresh(s, e) && e.correlation == None
    ensures Correlated(AddEvent(s, e))
  {
  }

  lemma FreshUpTo(events: seq<NewEvent>)
    requires AllFresh(events) && events != []
    ensures AllFresh(events[..|events| - 1]) && Fresh(AddAll(events[..|events| - 1]), events[|events| - 1])
  {
    var earlier := events[..|events| - 1];
    forall i | 0 <= i < |earlier| ensures Fresh(AddAll(earlier[..i]), earlier[i]) {
      assert earlier[..i] == events[..i];
    }
  }

  /** In every run events are numbered from 1, distinct, and paired with their audit rows. */
  lemma {:induction false} RunIsNumbered(events: seq<NewEvent>)
    requires AllFresh(events)
    ensures Numbered(AddAll(events))
  {
    if events == [] {
    } else {
      FreshUpTo(events);
      RunIsNumbered(events[..|events| - 1]);
      AddKeepsNumbered(AddAll(events[..|events| - 1]), events[|events| - 1]);
    }
  }

  /** When nobody forces ids, every aggregate's events are chained and share its correlation id. */
  lemma {:induction false} RunIsChained(events: seq<NewEvent>)
    requires AllFresh(events) && Unforced(events)
    ensures Chained(AddAll(events)) && Correlated(AddAll(events))
  {
    if events == [] {
    } else {
      var earlier, last := events[..|events| - 1], events[|events| - 1];
      FreshUpTo(events);
      RunIsChained(earlier);
      AddKeepsChained(AddAll(earlier), last);
      AddKeepsCorrelated(AddAll(earlier), last);
    }
  }

  lemma {:induction false} LastIsKept(events: seq<NewEvent>, a: Uuid)
    ensures var s := AddAll(events); |s.outbox| == |s.audit| == |events| && LastOf(s, a) == LastAmong(s.outbox, |s.outbox|, a)
  {
    if events == [] {
    } else {
      var s, s' := AddAll(events[..|events| - 1]), AddAll(events);
      LastIsKept(events[..|events| - 1], a);
      LastAmongPrefix(s.outbox, [s'.outbox[|s.outbox|]], |s.outbox|, a);
    }
  }

  /** In every run the i-th addition is the i-th event, of its aggregate and project and under its own id; a given correlation or
      causation is recorded as given, and otherwise the cause is the aggregate's previous event, whatever that one was given. */
  lemma {:induction false} EventsAreKept(events: seq<NewEvent>, i: nat)
    requires i < |events|
    ensures var s, e := AddAll(events), events[i];
            && |s.outbox| == |s.audit| == |events|
            && s.outbox[i] == Event(i + 1, e.eventId, e.aggregateId, e.projectId) && s.audit[i].eventId == e.eventId
            && (e.correlation.Some? ==> s.audit[i].correlationId == e.correlation.value)
            && s.audit[i].causationId == if e.causation.Some? then e.causation else LastAmong(s.outbox, i, e.aggregateId)
  {
    var earlier, a := events[..|events| - 1], events[i].aggregateId;
    var s, s' := AddAll(earlier), AddAll(events);
    LastIsKept(earlier, a);
    LastAmongPrefix(s.outbox, [s'.outbox[|s.outbox|]], i, a);
    if i == |events| - 1 {
    } else {
      EventsAreKept(earlier, i);
    }
  }

  /** Where no correlation was given the aggregate's own is recorded, and no two aggregates have the same. */
  ghost predicate OwnCorrelations(events: seq<NewEvent>, s: State) {
    && |s.audit| == |events|
    && (forall i :: 0 <= i < |events| && events[i].correlation == None ==>
          events[i].aggregateId in s.correlationBy && s.audit[i].correlationId == s.correlationBy[events[i].aggregateId])
    && (forall a, b :: a in s.correlationBy && b in s.correlationBy && s.correlationBy[a] == s.correlationBy[b] ==> a == b)
  }

  lemma AddKeepsOwn(events: seq<NewEvent>, s: State, e: NewEvent)
    requires OwnCorrelations(events, s) && Fresh(s, e)
    ensures OwnCorrelations(events + [e], AddEvent(s, e))
  {
    var s', all := AddEvent(s, e), events + [e];
    forall i | 0 <= i < |all| && all[i].correlation == None
      ensures all[i].aggregateId in s'.correlationBy && s'.audit[i].correlationId == s'.correlationBy[all[i].aggregateId]
    {
      assert i < |events| ==> all[i] == events[i];
    }
  }

  lemma {:induction false} CorrelationsAreOwn(events: seq<NewEvent>) returns (s: State)
    requires AllFresh(events)
    ensures s == AddAll(events) && OwnCorrelations(events, s)
  {
    if events == [] {
      s := EMPTY;
    } else {
      var earlier, last := events[..|events| - 1], events[|events| - 1];
      FreshUpTo(events);
      var before := CorrelationsAreOwn(earlier);
      AddKeepsOwn(earlier, before, last);
      assert earlier + [last] == events;
      s := AddEvent(before, last);
    }
  }

  /** Two events that were given no correlation share one exactly if they are of one aggregate, whatever others were given. */
  lemma CorrelationIsShared(events: seq<NewEvent>, i: nat, j: nat)
    requires AllFresh(events) && i < |events| && j < |events| && events[i].correlation == events[j].correlation == None
    ensures var s := AddAll(events);
            && |s.audit| == |events|
            && (s.audit[i].correlationId == s.audit[j].correlationId <==> events[i].aggregateId == events[j].aggregateId)
  {
    var s := CorrelationsAreOwn(events);
  }

  // --- Following causation back ------------------------------------------------------------------------

  /** The positions met from `id` on, following causation back through the first n rows. */
  function Trace(audit: seq<Audit>, n: nat, id: Option<Uuid>): seq<nat>
    requires n <= |audit|
  {
    if n == 0 || id == None then []
    else if audit[n - 1].eventId == id.value then Trace(audit, n - 1, audit[n - 1].causationId) + [n - 1]
    else Trace(audit, n - 1, id)
  }

  /** The positions of the aggregate's events among the first n. */
  function PositionsOf(outbox: seq<Event>, n: nat, a: Uuid): seq<nat>
    requires n <= |outbox|
  {
    if n == 0 then []
    else PositionsOf(outbox, n - 1, a) + Own(outbox, n - 1, a)
  }

  lemma {:induction false} LastAmongIsThere(outbox: seq<Event>, n: nat, a: Uuid)
    requires n <= |outbox|
    ensures LastAmong(outbox, n, a).Some? ==> exists i :: 0 <= i < n && outbox[i].eventId == LastAmong(outbox, n, a).value
  {
    if n == 0 {
    } else {
      LastAmongIsThere(outbox, n - 1, a);
    }
  }

  function Own(outbox: seq<Event>, i: nat, a: Uuid): seq<nat>
    requires i < |outbox|
  {
    if outbox[i].aggregateId == a then [i] else []
  }

  lemma OwnIsVisited(s: State, n: nat, a: Uuid)
    requires Numbered(s) && Chained(s) && 0 < n <= |s.outbox| && s.outbox[n - 1].aggregateId == a
    ensures Trace(s.audit, n, LastAmong(s.outbox, n, a)) == Trace(s.audit, n - 1, LastAmong(s.outbox, n - 1, a)) + [n - 1]
  {
    assert s.audit[n - 1].causationId == LastAmong(s.outbox, n - 1, a);
  }

  lemma OthersAreSkipped(s: State, n: nat, a: Uuid)
    requires Numbered(s) && 0 < n <= |s.outbox| && s.outbox[n - 1].aggregateId != a
    ensures Trace(s.audit, n, LastAmong(s.outbox, n, a)) == Trace(s.audit, n - 1, LastAmong(s.outbox, n - 1, a))
  {
    LastAmongIsThere(s.outbox, n - 1, a);
  }

  /** One more row: visited when it is the aggregate's own, skipped when it is not. */
  lemma TraceStep(s: State, n: nat, a: Uuid)
    requires Numbered(s) && Chained(s) && 0 < n <= |s.outbox|
    ensures Trace(s.audit, n, LastAmong(s.outbox, n, a)) == Trace(s.audit, n - 1, LastAmong(s.outbox, n - 1, a)) + Own(s.outbox, n - 1, a)
  {
    if s.outbox[n - 1].aggregateId == a {
      OwnIsVisited(s, n, a);
    } else {
      OthersAreSkipped(s, n, a);
    }
  }

  lemma {:induction false} TraceFinds(s: State, n: nat, a: Uuid)
    requires Numbered(s) && Chained(s) && n <= |s.outbox|
    ensures Trace(s.audit, n, LastAmong(s.outbox, n, a)) == PositionsOf(s.outbox, n, a)
  {
    if n == 0 {
    } else {
      TraceFinds(s, n - 1, a);
      TraceStep(s, n, a);
    }
  }

  /** From an aggregate's last event, causation leads back through exactly its events; they share one correlation id,
      which no other aggregate's event has. */
  lemma CausationVisitsTheAggregate(events: seq<NewEvent>, a: Uuid, i: nat, j: nat)
    requires AllFresh(events) && Unforced(events)
    ensures var s := AddAll(events);
            |s.audit| == |s.outbox| && Trace(s.audit, |s.audit|, LastOf(s, a)) == PositionsOf(s.outbox, |s.outbox|, a)
    ensures var s := AddAll(events);
            i < |s.outbox| && j < |s.outbox| ==>
              (s.audit[i].correlationId == s.audit[j].correlationId <==> s.outbox[i].aggregateId == s.outbox[j].aggregateId)
  {
    RunIsNumbered(events);
    RunIsChained(events);
    TraceFinds(AddAll(events), |AddAll(events).outbox|, a);
  }

  // --- Polling -------------------------------------------------------------------------------------------

  /** A poller of one project: what it has received, and the cursor it resumes after. */
  datatype Poller = Poller(projectId: Uuid, received: seq<Event>, cursor: int)

  function Poll(outbox: seq<Event>, p: Poller): Poller {
    var news := ChangesAfter(outbox, p.projectId, p.cursor);
    Poller(p.projectId, p.received + news, if news == [] then p.cursor else news[|news| - 1].cursor)
  }

  datatype Step = Append(event: NewEvent) | PollNow

  datatype System = System(log: State, poller: Poller)

  function Next(s: System, step: Step): System {
    match step
    case Append(e) => s.(log := AddEvent(s.log, e))
    case PollNow => s.(poller := Poll(s.log.outbox, s.poller))
  }

  function Run(s: System, steps: seq<Step>): System {
    if steps == [] then s else Next(Run(s, steps[..|steps| - 1]), steps[|steps| - 1])
  }

  ghost predicate CursorsCount(outbox: seq<Event>) {
    forall i :: 0 <= i < |outbox| ==> outbox[i].cursor == i + 1
  }

  /** What was received and what is still to come are together the project's events, in order. */
  ghost predicate Lossless(s: System) {
    && CursorsCount(s.log.outbox) && s.poller.cursor <= |s.log.outbox|
    && s.poller.received + ChangesAfter(s.log.outbox, s.poller.projectId, s.poller.cursor) == ChangesAfter(s.log.outbox, s.poller.projectId, 0)
  }

  ghost predicate Ascending(r: seq<Event>) {
    forall i, j :: 0 <= i < j < |r| ==> r[i].cursor < r[j].cursor
  }

  lemma {:induction false} ChangesAscend(outbox: seq<Event>, projectId: Uuid, cursor: int)
    requires CursorsCount(outbox)
    ensures Ascending(ChangesAfter(outbox, projectId, cursor))
  {
    if outbox == [] {
    } else {
      var earlier := outbox[..|outbox| - 1];
      var before := ChangesAfter(earlier, projectId, cursor);
      ChangesAscend(earlier, projectId, cursor);
      forall k | 0 <= k < |before| ensures before[k].cursor < outbox[|outbox| - 1].cursor {
        assert before[k] in before;
        var i :| 0 <= i < |earlier| && earlier[i] == before[k];
        assert outbox[i].cursor == i + 1;
      }
      assert Ascending(before + [outbox[|outbox| - 1]]);
    }
  }

  lemma {:induction false} NothingWanted(outbox: seq<Event>, projectId: Uuid, cursor: int)
    requires forall e :: e in outbox ==> !Wanted(e, projectId, cursor)
    ensures ChangesAfter(outbox, projectId, cursor) == []
  {
    if outbox == [] {
    } else {
      NothingWanted(outbox[..|outbox| - 1], projectId, cursor);
    }
  }

  /** After a poll nothing is left to receive. */
  lemma PollCatchesUp(outbox: seq<Event>, p: Poller)
    requires CursorsCount(outbox) && p.cursor <= |outbox|
    ensures Poll(outbox, p).cursor <= |outbox| && ChangesAfter(outbox, p.projectId, Poll(outbox, p).cursor) == []
  {
    var after := Poll(outbox, p).cursor;
    NewsReachTheEnd(outbox, p);
    NothingWanted(outbox, p.projectId, after);
  }

  /** The cursor after a poll is within the outbox, and every wanted event lies at or before it. */
  lemma NewsReachTheEnd(outbox: seq<Event>, p: Poller)
    requires CursorsCount(outbox) && p.cursor <= |outbox|
    ensures Poll(outbox, p).cursor <= |outbox|
    ensures forall e :: e in outbox ==> !Wanted(e, p.projectId, Poll(outbox, p).cursor)
  {
    var news, after := ChangesAfter(outbox, p.projectId, p.cursor), Poll(outbox, p).cursor;
    ChangesAscend(outbox, p.projectId, p.cursor);
    if news != [] {
      assert news[|news| - 1] in news;
    }
    forall e | e in outbox ensures !Wanted(e, p.projectId, after) {
      if Wanted(e, p.projectId, p.cursor) {
        assert e in news;
      }
    }
  }

  lemma AppendIsLater(outbox: seq<Event>, e: Event, projectId: Uuid, cursor: int)
    requires e.cursor > cursor
    ensures ChangesAfter(outbox + [e], projectId, cursor)
         == ChangesAfter(outbox, projectId, cursor) + if e.projectId == projectId then [e] else []
  {
    assert (outbox + [e])[..|outbox|] == outbox;
  }

  lemma StepKeepsLossless(s: System, step: Step)
    requires Lossless(s) && s.poller.cursor >= 0
    ensures Lossless(Next(s, step)) && Next(s, step).poller.cursor >= 0
  {
    match step
    case Append(e) =>
      var event := Event(|s.log.outbox| + 1, e.eventId, e.aggregateId, e.projectId);
      AppendIsLater(s.log.outbox, event, s.poller.projectId, s.poller.cursor);
      AppendIsLater(s.log.outbox, event, s.poller.projectId, 0);
    case PollNow =>
      PollCatchesUp(s.log.outbox, s.poller);
  }

  /** However appends and polls interleave, a poller loses nothing, repeats nothing and keeps the order: each poll
      completes what it has received to all of the project's events so far. */
  lemma {:induction false} PollingIsLossless(projectId: Uuid, steps: seq<Step>)
    ensures var s := Run(System(EMPTY, Poller(projectId, [], 0)), steps);
            && Lossless(s) && s.poller.cursor >= 0 && s.poller.projectId == projectId
            && Next(s, PollNow).poller.received == ChangesAfter(s.log.outbox, projectId, 0)
  {
    if steps == [] {
    } else {
      PollingIsLossless(projectId, steps[..|steps| - 1]);
      StepKeepsLossless(Run(System(EMPTY, Poller(projectId, [], 0)), steps[..|steps| - 1]), steps[|steps| - 1]);
    }
  }

  // --- The store's lists and tables ------------------------------------------------------------------------

  class EventLog {
    var outbox: seq<Event>
    var auditEvents: seq<Audit>
    var correlationByAggregate: map<Uuid, Uuid>
    var lastEventByAggregate: map<Uuid, Uuid>

    function View(): State
      reads this
    {
      State(outbox, auditEvents, correlationByAggregate, lastEventByAggregate)
    }

    constructor ()
      ensures View() == EMPTY
    {
      outbox, auditEvents, correlationByAggregate, lastEventByAggregate := [], [], map[], map[];
    }

    method Add(e: NewEvent) returns (event: Event)
      modifies this
      ensures View() == AddEvent(old(View()), e)
      ensures event == Event(|old(outbox)| + 1, e.eventId, e.aggregateId, e.projectId)
    {
      var correlation;
      if e.correlation.Some? {
        correlation := e.correlation.value;
      } else {
        if e.aggregateId !in correlationByAggregate {
          correlationByAggregate := correlationByAggregate[e.aggregateId := e.newCorrelation];
        }
        correlation := correlationByAggregate[e.aggregateId];
      }
      var causation := if e.causation.Some? then e.causation else LastOf(View(), e.aggregateId);
      event := Event(|outbox| + 1, e.eventId, e.aggregateId, e.projectId);
      outbox := outbox + [event];
      auditEvents := auditEvents + [Audit(e.eventId, correlation, causation)];
      lastEventByAggregate := lastEventByAggregate[e.aggregateId := e.eventId];
      assert correlationByAggregate == AddEvent(old(View()), e).correlationBy;
    }

    method Changes(projectId: Uuid, cursor: int) returns (changes: seq<Event>)
      ensures changes == ChangesAfter(outbox, projectId, cursor)
    {
      changes := [];
      for i := 0 to |outbox|
        invariant changes == ChangesAfter(outbox[..i], projectId, cursor)
      {
        assert outbox[..i + 1][..i] == outbox[..i];
        if outbox[i].projectId == projectId && outbox[i].cursor > cursor {
          changes := changes + [outbox[i]];
        }
      }
      assert outbox[..|outbox|] == outbox;
    }
  }
}
