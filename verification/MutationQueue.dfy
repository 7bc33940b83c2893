/**
 The desktop's queue of mutation events and the replay of one bounded batch of it.
 The table of events is a map from event id to row; the server is any function from a batch to an answer.
 */
module MutationQueue {
  import opened Prelude
  import Reconciler

  datatype EventStatus = Pending | SyncedLocally | StagedLocally | FailedLocally | Discarded

  /** A row; the payload is the serialized mutation, absent when it does not parse. */
  datatype Event = Event(id: string, timestamp: int, payload: Option<Reconciler.Mutation>, status: EventStatus, retryCount: nat)

  type Table = map<string, Event>

  const MAX_RETRIES := 5

  predicate WellKeyed(t: Table) {
    forall id :: id in t ==> t[id].id == id
  }

  function PendingIds(t: Table): set<string> {
    set id | id in t && t[id].status == Pending
  }

  // --- Pages ----------------------------------------------------------------------------------

  /** The first `limit` pending rows by timestamp; the order of equal timestamps is the database's choice. */
  ghost predicate IsPage(t: Table, limit: nat, page: seq<Event>) {
    && (forall i :: 0 <= i < |page| ==> page[i].id in PendingIds(t) && page[i] == t[page[i].id])
    && (forall i, j :: 0 <= i < j < |page| ==> page[i].id != page[j].id && page[i].timestamp <= page[j].timestamp)
    && |page| == (if limit <= |PendingIds(t)| then limit else |PendingIds(t)|)
    && (forall id :: id in PendingIds(t) && t[id] !in page ==> forall e :: e in page ==> e.timestamp <= t[id].timestamp)
  }

  lemma {:induction false} EarliestExists(t: Table, ids: set<string>)
    requires ids != {} && ids <= t.Keys
    ensures exists id :: id in ids && forall other :: other in ids ==> t[id].timestamp <= t[other].timestamp
  {
    var x :| x in ids;
    if ids == {x} {
      assert forall other :: other in ids ==> other == x;
    } else {
      EarliestExists(t, ids - {x});
      var y :| y in ids - {x} && forall other :: other in ids - {x} ==> t[y].timestamp <= t[other].timestamp;
      var least := if t[x].timestamp <= t[y].timestamp then x else y;
      assert forall other :: other in ids ==> other == x || other in ids - {x};
      assert forall other :: other in ids ==> t[least].timestamp <= t[other].timestamp;
    }
  }

  // --- Outcomes of a batch ----------------------------------------------------------------------

  datatype Outcome = Delivered | ConflictReported | Failure

  /** What the sender hands back: one outcome per event, or one error for all, which may mention a conflict. */
  datatype Answer = Outcomes(each: seq<Outcome>) | BatchError(mentionsConflict: bool)

  /** One outcome per event, whatever came back. */
  function Normalize(n: nat, answer: Answer): (r: seq<Outcome>)
    ensures |r| == n
  {
    match answer
    case Outcomes(each) => if |each| == n then each else seq(n, _ => Failure)
    case BatchError(mentions) => seq(n, _ => if mentions then ConflictReported else Failure)
  }

  function Settle(e: Event, outcome: Outcome): Event {
    match outcome
    case Delivered => e.(status := SyncedLocally)
    case ConflictReported => e.(status := StagedLocally)
    case Failure => e.(status := if e.retryCount + 1 >= MAX_RETRIES then FailedLocally else Pending, retryCount := e.retryCount + 1)
  }

  /** The table after the outcomes of a page have been written, event by event. */
  function SettleAll(t: Table, page: seq<Event>, outcomes: seq<Outcome>): Table
    requires |page| == |outcomes|
  {
    if page == [] then t
    else
      var last := |page| - 1;
      SettleAll(t, page[..last], outcomes[..last])[page[last].id := Settle(page[last], outcomes[last])]
  }

  function ReplayTable(t: Table, page: seq<Event>, answer: Answer): Table {
    SettleAll(t, page, Normalize(|page|, answer))
  }

  function CountOutcome(outcomes: seq<Outcome>, o: Outcome): nat {
    if outcomes == [] then 0
    else CountOutcome(outcomes[..|outcomes| - 1], o) + (if outcomes[|outcomes| - 1] == o then 1 else 0)
  }

  lemma {:induction false} OutcomesAddUp(outcomes: seq<Outcome>)
    ensures CountOutcome(outcomes, Delivered) + CountOutcome(outcomes, ConflictReported) + CountOutcome(outcomes, Failure) == |outcomes|
  {
    if outcomes == [] {
    } else {
      OutcomesAddUp(outcomes[..|outcomes| - 1]);
    }
  }

  /** Each event of the page is settled by its own outcome, and no other row changes. */
  lemma {:induction false} SettleAllAt(t: Table, page: seq<Event>, outcomes: seq<Outcome>, id: string)
    requires |page| == |outcomes|
    requires forall i, j :: 0 <= i < j < |page| ==> page[i].id != page[j].id
    ensures var t' := SettleAll(t, page, outcomes);
            && (forall i :: 0 <= i < |page| && page[i].id == id ==> id in t' && t'[id] == Settle(page[i], outcomes[i]))
            && ((forall i :: 0 <= i < |page| ==> page[i].id != id) ==>
                  (id in t' <==> id in t) && (id in t ==> t'[id] == t[id]))
  {
    if page == [] {
    } else {
      var last := |page| - 1;
      SettleAllAt(t, page[..last], outcomes[..last], id);
    }
  }

  lemma StillUntouched(t: Table, limit: nat, page: seq<Event>, outcomes: seq<Outcome>, i: nat)
    requires IsPage(t, limit, page) && |page| == |outcomes| && i < |page|
    ensures page[i].id in SettleAll(t, page[..i], outcomes[..i])
    ensures SettleAll(t, page[..i], outcomes[..i])[page[i].id] == page[i]
  {
    SettleAllAt(t, page[..i], outcomes[..i], page[i].id);
  }

  lemma SettleSnoc(t: Table, page: seq<Event>, outcomes: seq<Outcome>, i: nat)
    requires |page| == |outcomes| && i < |page|
    ensures SettleAll(t, page[..i + 1], outcomes[..i + 1]) ==
            SettleAll(t, page[..i], outcomes[..i])[page[i].id := Settle(page[i], outcomes[i])]
    ensures forall o :: CountOutcome(outcomes[..i + 1], o) == CountOutcome(outcomes[..i], o) + (if outcomes[i] == o then 1 else 0)
  {
    assert page[..i + 1][..i] == page[..i] && outcomes[..i + 1][..i] == outcomes[..i];
  }

  // --- The queue as the desktop keeps it -----------------------------------------------------------

  datatype BatchResult = BatchResult(totalProcessed: nat, syncedCount: nat, conflictCount: nat, failedCount: nat)

  datatype ConflictChoice = UseServer | OverwriteWithClient

  class EncryptedDb {
    var mutationEvents: Table

    constructor ()
      ensures mutationEvents == map[]
    {
      mutationEvents := map[];
    }

    /** Inserts a row; the id is the primary key. */
    method PushMutationEvent(event: Event) returns (ok: bool)
      modifies this
      ensures ok == (event.id !in old(mutationEvents))
      ensures mutationEvents == if ok then old(mutationEvents)[event.id := event] else old(mutationEvents)
    {
      ok := event.id !in mutationEvents;
      if ok {
        mutationEvents := mutationEvents[event.id := event];
      }
    }

    method PickEarliest(ids: set<string>) returns (id: string)
      requires ids != {} && ids <= mutationEvents.Keys
      ensures id in ids
      ensures forall other :: other in ids ==> mutationEvents[id].timestamp <= mutationEvents[other].timestamp
    {
      EarliestExists(mutationEvents, ids);
      id :| id in ids && forall other :: other in ids ==> mutationEvents[id].timestamp <= mutationEvents[other].timestamp;
    }

    method GetPendingMutationEvents(limit: nat) returns (events: seq<Event>)
      requires WellKeyed(mutationEvents)
      ensures IsPage(mutationEvents, limit, events)
    {
      events := [];
      var pending := PendingIds(mutationEvents);
      var rest := pending;
      while |events| < limit && rest != {}
        invariant rest <= pending
        invariant |events| + |rest| == |pending| && |events| <= limit
        invariant forall e :: e in events ==> e.id in pending && e.id !in rest && e == mutationEvents[e.id]
        invariant forall i, j :: 0 <= i < j < |events| ==> events[i].id != events[j].id && events[i].timestamp <= events[j].timestamp
        invariant forall id :: id in pending - rest ==> mutationEvents[id] in events
        invariant forall id :: id in rest ==> forall e :: e in events ==> e.timestamp <= mutationEvents[id].timestamp
        decreases rest
      {
        var id := PickEarliest(rest);
        events := events + [mutationEvents[id]];
        rest := rest - {id};
      }
    }

    method UpdateMutationStatus(eventId: string, status: EventStatus)
      modifies this
      ensures mutationEvents ==
              if eventId in old(mutationEvents) then old(mutationEvents)[eventId := old(mutationEvents)[eventId].(status := status)]
              else old(mutationEvents)
    {
      if eventId in mutationEvents {
        mutationEvents := mutationEvents[eventId := mutationEvents[eventId].(status := status)];
      }
    }

    method UpdateMutationStatusWithRetry(eventId: string, status: EventStatus, retryCount: nat)
      modifies this
      ensures mutationEvents ==
              if eventId in old(mutationEvents)
              then old(mutationEvents)[eventId := old(mutationEvents)[eventId].(status := status, retryCount := retryCount)]
              else old(mutationEvents)
    {
      if eventId in mutationEvents {
        mutationEvents := mutationEvents[eventId := mutationEvents[eventId].(status := status, retryCount := retryCount)];
      }
    }

    /** The user's choice on a conflicting event: give it up, or queue it again. */
    method ResolveConflict(eventId: string, choice: ConflictChoice)
      modifies this
      ensures mutationEvents == LocalResolve(old(mutationEvents), eventId, choice)
    {
      match choice
      case UseServer => UpdateMutationStatus(eventId, Discarded);
      case OverwriteWithClient => UpdateMutationStatus(eventId, Pending);
    }

    method RecordOutcome(event: Event, outcome: Outcome)
      requires event.id in mutationEvents && mutationEvents[event.id] == event
      modifies this
      ensures mutationEvents == old(mutationEvents)[event.id := Settle(event, outcome)]
    {
      match outcome
      case Delivered => UpdateMutationStatus(event.id, SyncedLocally);
      case ConflictReported => UpdateMutationStatus(event.id, StagedLocally);
      case Failure =>
        var newRetry := event.retryCount + 1;
        if newRetry >= MAX_RETRIES {
          UpdateMutationStatusWithRetry(event.id, FailedLocally, newRetry);
        } else {
          UpdateMutationStatusWithRetry(event.id, Pending, newRetry);
        }
    }

    /** Replays one bounded batch through the handler and records every outcome. */
    method ReplayPendingBatch(online: bool, batchSize: nat, handler: seq<Event> -> Answer)
      returns (result: BatchResult, ghost page: seq<Event>)
      requires WellKeyed(mutationEvents)
      modifies this
      ensures WellKeyed(mutationEvents)
      ensures !online ==> mutationEvents == old(mutationEvents) && result == BatchResult(0, 0, 0, 0)
      ensures online ==> IsPage(old(mutationEvents), batchSize, page)
      ensures online ==> mutationEvents == ReplayTable(old(mutationEvents), page, handler(page))
      ensures online ==> var outcomes := Normalize(|page|, handler(page));
                         result == BatchResult(|page|, CountOutcome(outcomes, Delivered),
                                               CountOutcome(outcomes, ConflictReported), CountOutcome(outcomes, Failure))
      ensures result.syncedCount + result.conflictCount + result.failedCount == result.totalProcessed
    {
      page := [];
      if !online {
        return BatchResult(0, 0, 0, 0), [];
      }
      var pendingEvents := GetPendingMutationEvents(batchSize);
      page := pendingEvents;
      var syncedCount, conflictCount, failedCount := 0, 0, 0;
      var outcomes := Normalize(|pendingEvents|, handler(pendingEvents));
      ghost var t := mutationEvents;
      for i := 0 to |pendingEvents|
        invariant WellKeyed(mutationEvents)
        invariant mutationEvents == SettleAll(t, page[..i], outcomes[..i])
        invariant syncedCount == CountOutcome(outcomes[..i], Delivered)
        invariant conflictCount == CountOutcome(outcomes[..i], ConflictReported)
        invariant failedCount == CountOutcome(outcomes[..i], Failure)
      {
        var event := pendingEvents[i];
        StillUntouched(t, batchSize, page, outcomes, i);
        RecordOutcome(event, outcomes[i]);
        match outcomes[i] {
          case Delivered => syncedCount := syncedCount + 1;
          case ConflictReported => conflictCount := conflictCount + 1;
          case Failure => failedCount := failedCount + 1;
        }
        SettleSnoc(t, page, outcomes, i);
      }
      assert page[..|page|] == page && outcomes[..|page|] == outcomes;
      OutcomesAddUp(outcomes);
      result := BatchResult(|pendingEvents|, syncedCount, conflictCount, failedCount);
    }
  }

  function LocalResolve(t: Table, eventId: string, choice: ConflictChoice): Table {
    if eventId in t then t[eventId := t[eventId].(status := if choice == UseServer then Discarded else Pending)] else t
  }

  /** The outcome an answer gives the i-th of n events: its own if there is one each; after an error for all a conflict if the error
      mentions one; else a failure. */
  predicate Gets(n: nat, answer: Answer, i: nat, outcome: Outcome)
    requires i < n
  {
    match answer
    case Outcomes(each) => if |each| == n then outcome == each[i] else outcome == Failure
    case BatchError(mentions) => outcome == if mentions then ConflictReported else Failure
  }

  /** A replay settles each event of its page by the outcome the answer gives it: delivered, set aside, or counted as a failed attempt,
      the fifth being the last. It keeps the rest of the row, and every row not on the page. */
  lemma ReplayTakesEffect(t: Table, limit: nat, page: seq<Event>, answer: Answer, i: nat, outcome: Outcome, id: string)
    requires IsPage(t, limit, page)
    ensures (forall k :: 0 <= k < |page| ==> page[k].id != id) ==>
              var t' := ReplayTable(t, page, answer); (id in t' <==> id in t) && (id in t ==> t'[id] == t[id])
    ensures i < |page| && Gets(|page|, answer, i, outcome) ==>
              var t', e := ReplayTable(t, page, answer), page[i];
              && e.id in t' && t'[e.id] == e.(status := t'[e.id].status, retryCount := t'[e.id].retryCount)
              && t'[e.id].retryCount == e.retryCount + (if outcome == Failure then 1 else 0)
              && (t'[e.id].status == SyncedLocally <==> outcome == Delivered)
              && (t'[e.id].status == StagedLocally <==> outcome == ConflictReported)
              && (t'[e.id].status == FailedLocally <==> outcome == Failure && e.retryCount >= 4)
              && (t'[e.id].status == Pending <==> outcome == Failure && e.retryCount < 4)
  {
    var outcomes := Normalize(|page|, answer);
    SettleAllAt(t, page, outcomes, id);
    if i < |page| {
      SettleAllAt(t, page, outcomes, page[i].id);
    }
  }

  /** The user's choice discards the event or queues it again, with the attempts it has used; no other row changes. */
  lemma ChoiceTakesEffect(t: Table, eventId: string, choice: ConflictChoice)
    ensures var t' := LocalResolve(t, eventId, choice);
            && t'.Keys == t.Keys && (forall id :: id in t && id != eventId ==> t'[id] == t[id])
            && (eventId in t ==> && t'[eventId].status == (match choice case UseServer => Discarded case OverwriteWithClient => Pending)
                                 && t'[eventId] == t[eventId].(status := t'[eventId].status))
  {
  }

  // --- Replay drains the queue ------------------------------------------------------------------------

  /** One token per attempt an event still has; a pending event always has at least one. */
  ghost function AttemptsLeft(t: Table): set<(string, nat)> {
    set id, k: nat | id in t && t[id].status == Pending && FirstAttempt(t[id].retryCount) <= k < MAX_RETRIES :: (id, k)
  }

  function FirstAttempt(retryCount: nat): nat {
    if retryCount < MAX_RETRIES then retryCount else MAX_RETRIES - 1
  }

  /** Whatever comes back, replaying a non-empty page uses up an attempt of each of its events and gives none to any other. */
  lemma ReplayUsesAttempts(t: Table, limit: nat, page: seq<Event>, answer: Answer)
    requires IsPage(t, limit, page) && page != []
    ensures AttemptsLeft(ReplayTable(t, page, answer)) < AttemptsLeft(t)
  {
    var outcomes, t' := Normalize(|page|, answer), ReplayTable(t, page, answer);
    forall token | token in AttemptsLeft(t') ensures token in AttemptsLeft(t) {
      SettleAllAt(t, page, outcomes, token.0);
    }
    var first := page[0];
    SettleAllAt(t, page, outcomes, first.id);
    var used := (first.id, FirstAttempt(first.retryCount));
    assert used in AttemptsLeft(t) && used !in AttemptsLeft(t');
  }

  function TokensOf(id: string): set<(string, nat)> {
    {(id, 0), (id, 1), (id, 2), (id, 3), (id, 4)}
  }

  lemma OneEventLess(t: Table, x: string)
    ensures AttemptsLeft(t) <= AttemptsLeft(t - {x}) + TokensOf(x)
  {
    forall token | token in AttemptsLeft(t) ensures token in AttemptsLeft(t - {x}) + TokensOf(x) {
      if token.0 == x {
        assert token == (x, token.1) && 0 <= token.1 < 5;
      }
    }
  }

  lemma {:induction false} AttemptsBound(t: Table, ids: set<string>)
    requires PendingIds(t) <= ids
    ensures |AttemptsLeft(t)| <= MAX_RETRIES * |ids|
    decreases ids
  {
    if ids == {} {
      assert forall id :: id in t ==> id !in PendingIds(t);
      assert AttemptsLeft(t) == {};
    } else {
      var x :| x in ids;
      AttemptsBound(t - {x}, ids - {x});
      OneEventLess(t, x);
      SubsetSize(AttemptsLeft(t), AttemptsLeft(t - {x}) + TokensOf(x));
    }
  }

  lemma {:induction false} SubsetSize<T>(a: set<T>, b: set<T>)
    requires a <= b
    ensures |a| <= |b| && (a != b ==> |a| < |b|)
  {
    assert b == a + (b - a);
  }

  /** A run of online replays, each of at least one event if any is pending, with whatever answers. */
  ghost predicate ReplayRun(tables: seq<Table>, pages: seq<seq<Event>>, limits: seq<nat>, answers: seq<Answer>) {
    && |tables| == |pages| + 1 && |limits| == |answers| == |pages|
    && forall i :: 0 <= i < |pages| ==>
         && limits[i] >= 1 && IsPage(tables[i], limits[i], pages[i])
         && tables[i + 1] == ReplayTable(tables[i], pages[i], answers[i])
  }

  /** After five replays per pending event nothing is pending, whatever the server answered and however often events were requeued before. */
  lemma ReplayDrains(tables: seq<Table>, pages: seq<seq<Event>>, limits: seq<nat>, answers: seq<Answer>)
    requires ReplayRun(tables, pages, limits, answers)
    requires |pages| >= MAX_RETRIES * |PendingIds(tables[0])|
    ensures PendingIds(tables[|pages|]) == {}
  {
    AttemptsBound(tables[0], PendingIds(tables[0]));
    DrainCount(tables, pages, limits, answers, |pages|);
  }

  lemma {:induction false} DrainCount(tables: seq<Table>, pages: seq<seq<Event>>, limits: seq<nat>, answers: seq<Answer>, n: nat)
    requires ReplayRun(tables, pages, limits, answers) && n <= |pages|
    ensures PendingIds(tables[n]) == {} || |AttemptsLeft(tables[n])| + n <= |AttemptsLeft(tables[0])|
    ensures n >= |AttemptsLeft(tables[0])| ==> PendingIds(tables[n]) == {}
  {
    if n == 0 {
    } else {
      DrainCount(tables, pages, limits, answers, n - 1);
      var t, page := tables[n - 1], pages[n - 1];
      if PendingIds(t) == {} {
        assert page == [];
      } else {
        ReplayUsesAttempts(t, limits[n - 1], page, answers[n - 1]);
        SubsetSize(AttemptsLeft(tables[n]), AttemptsLeft(t));
      }
    }
    PendingHasAttempt(tables[n]);
  }

  lemma PendingHasAttempt(t: Table)
    ensures PendingIds(t) != {} ==> AttemptsLeft(t) != {}
  {
    if id :| id in PendingIds(t) {
      assert (id, FirstAttempt(t[id].retryCount)) in AttemptsLeft(t);
    }
  }

  // --- Retry counts ---------------------------------------------------------------------------------

  /** No pending event has used up its attempts. */
  ghost predicate RetriesBounded(t: Table) {
    forall id :: id in PendingIds(t) ==> t[id].retryCount < MAX_RETRIES
  }

  lemma ReplayKeepsRetriesBounded(t: Table, limit: nat, page: seq<Event>, answer: Answer)
    requires RetriesBounded(t) && IsPage(t, limit, page)
    ensures RetriesBounded(ReplayTable(t, page, answer))
  {
    var t' := ReplayTable(t, page, answer);
    forall id | id in PendingIds(t') ensures t'[id].retryCount < MAX_RETRIES {
      SettleAllAt(t, page, Normalize(|page|, answer), id);
    }
  }

  /** Queueing an event again keeps the bound exactly when that event has attempts left: the retry count is not reset. */
  lemma RequeueKeepsRetriesBounded(t: Table, id: string)
    requires RetriesBounded(t)
    ensures RetriesBounded(LocalResolve(t, id, OverwriteWithClient)) <==> (id in t ==> t[id].retryCount < MAX_RETRIES)
  {
    var t' := LocalResolve(t, id, OverwriteWithClient);
    if id in t {
      assert id in PendingIds(t');
    }
  }
}
