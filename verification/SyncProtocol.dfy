/**
 The two parties together: a desktop queue that delivers at least once over a lossy channel, and the reconciling
 server. Other clients and operators act on the server in between. The server's state is that of its run so far.
 */
module SyncProtocol {
  import opened Prelude
  import opened Reconciler
  import opened ReconcilerTheorems
  import Queue = MutationQueue

  // --- Sending one batch ------------------------------------------------------------------------

  datatype Channel = RequestLost | ResponseLost | Answered

  /** The last acknowledgement of the id, as a map built from the response keeps it. */
  function AckOf(acks: seq<Ack>, id: string): Option<Ack> {
    if acks == [] then None
    else if acks[|acks| - 1].mutationId == id then Some(acks[|acks| - 1])
    else AckOf(acks[..|acks| - 1], id)
  }

  function OutcomeOf(acks: seq<Ack>, id: string): Queue.Outcome {
    match AckOf(acks, id)
    case None => Queue.Failure
    case Some(ack) => if ack.status == StagedForReview then Queue.ConflictReported else Queue.Delivered
  }

  predicate AllParse(page: seq<Queue.Event>) {
    forall e :: e in page ==> e.payload.Some?
  }

  function Envelopes(page: seq<Queue.Event>): (ms: seq<Mutation>)
    requires AllParse(page)
    ensures |ms| == |page| && forall i :: 0 <= i < |page| ==> ms[i] == page[i].payload.value
  {
    seq(|page|, i requires 0 <= i < |page| => page[i].payload.value)
  }

  /** The mutations that reach the server: none when a payload does not parse or the request is lost. */
  function Reaching(page: seq<Queue.Event>, channel: Channel): seq<Mutation> {
    if AllParse(page) && channel != RequestLost then Envelopes(page) else []
  }

  function SendEvents(s: State, page: seq<Queue.Event>, channel: Channel): Queue.Answer {
    if !AllParse(page) || channel != Answered then Queue.BatchError(false)
    else
      var acks := Batch(s, Envelopes(page)).1;
      Queue.Outcomes(seq(|page|, i requires 0 <= i < |page| => OutcomeOf(acks, page[i].id)))
  }

  // --- The system -----------------------------------------------------------------------------------

  /** The desktop's table and everything the server has done, in order. */
  datatype System = System(local: Queue.Table, history: seq<ServerEvent>) {
    function Server(): State {
      Run(EMPTY, history)
    }
  }

  datatype Step =
    | Enqueue(m: Mutation)
    | Replay(limit: nat, page: seq<Queue.Event>, channel: Channel)
    | Requeue(id: string, choice: Queue.ConflictChoice)
    | OtherClient(ms: seq<Mutation>)
    | ServerReview(conflictId: string, chosen: Option<string>, custom: Option<seq<(string, Value)>>, now: int)

  /** New ids are fresh, other clients have their own ids, and a replay takes a page of the table. */
  ghost predicate Enabled(sys: System, step: Step) {
    match step
    case Enqueue(m) => m.mutationId !in sys.local && !Delivers(sys.history, m.mutationId)
    case Replay(limit, page, _) => Queue.IsPage(sys.local, limit, page)
    case OtherClient(ms) => forall m :: m in ms ==> m.mutationId !in sys.local
    case _ => true
  }

  function NewEvent(m: Mutation): Queue.Event {
    Queue.Event(m.mutationId, m.timestamp, Some(m), Queue.Pending, 0)
  }

  /** The desktop's table after the replay of a page. */
  function LocalAfter(sys: System, page: seq<Queue.Event>, channel: Channel): Queue.Table {
    Queue.ReplayTable(sys.local, page, SendEvents(sys.Server(), page, channel))
  }

  function Next(sys: System, step: Step): System {
    match step
    case Enqueue(m) => sys.(local := sys.local[m.mutationId := NewEvent(m)])
    case Replay(_, page, channel) =>
      System(LocalAfter(sys, page, channel),
             sys.history + Deliveries(Reaching(page, channel)))
    case Requeue(id, choice) => sys.(local := Queue.LocalResolve(sys.local, id, choice))
    case OtherClient(ms) => sys.(history := sys.history + Deliveries(ms))
    case ServerReview(id, chosen, custom, now) => sys.(history := sys.history + [Review(id, chosen, custom, now)])
  }

  const INITIAL := System(map[], [])

  ghost predicate Behaviour(states: seq<System>, steps: seq<Step>) {
    && |states| == |steps| + 1
    && states[0] == INITIAL
    && forall i :: 0 <= i < |steps| ==> Enabled(states[i], steps[i]) && states[i + 1] == Next(states[i], steps[i])
  }

  // --- The invariant ----------------------------------------------------------------------------------

  ghost predicate LocalOk(e: Queue.Event, id: string, history: seq<ServerEvent>) {
    && e.id == id && e.payload.Some? && e.payload.value.mutationId == id
    && (e.status in {Queue.SyncedLocally, Queue.StagedLocally} ==> Delivers(history, id))
    && (e.status == Queue.StagedLocally ==> ConflictId(id) in Run(EMPTY, history).conflicts)
  }

  /** Everything delivered under a local id is that event's own mutation. */
  ghost predicate OwnMutations(local: Queue.Table, history: seq<ServerEvent>) {
    forall i :: 0 <= i < |history| && history[i].Deliver? && history[i].m.mutationId in local ==>
      local[history[i].m.mutationId].payload == Some(history[i].m)
  }

  ghost predicate Inv(sys: System) {
    && (forall id :: id in sys.local ==> LocalOk(sys.local[id], id, sys.history))
    && OwnMutations(sys.local, sys.history)
  }

  /** In every reachable state the desktop's statuses agree with the server's history. */
  lemma {:induction false} BehaviourKeepsInv(states: seq<System>, steps: seq<Step>, n: nat)
    requires Behaviour(states, steps) && n <= |steps|
    ensures Inv(states[n])
  {
    if n == 0 {
    } else {
      BehaviourKeepsInv(states, steps, n - 1);
      StepKeepsInv(states[n - 1], steps[n - 1]);
    }
  }

  // --- Exactly once ---------------------------------------------------------------------------------------

  /** A delivered id has a first delivery. */
  lemma {:induction false} HasFirstDelivery(es: seq<ServerEvent>, id: string)
    requires Delivers(es, id)
    ensures exists k: nat :: FirstAt(es, k, id)
  {
    var last := |es| - 1;
    if Delivers(es[..last], id) {
      HasFirstDelivery(es[..last], id);
      var k: nat :| FirstAt(es[..last], k, id);
      assert es[..last][..k] == es[..k];
      assert FirstAt(es, k, id);
    } else {
      assert es == es[..last] + [es[last]];
      DeliversSnoc(es[..last], es[last], id);
      assert FirstAt(es, last, id);
    }
  }

  /** The mutation took effect at step k of the history: each field was applied there or is still held for review. */
  ghost predicate TookEffect(history: seq<ServerEvent>, k: nat, m: Mutation) {
    && FirstAt(history, k, m.mutationId) && history[k] == Deliver(m)
    && forall f :: f in AsMap(m.changes) ==>
         if ClashesAt(Run(EMPTY, history[..k]), m, f) then HeldIn(Run(EMPTY, history[..k]), Run(EMPTY, history), m, f)
         else AppliedIn(Run(EMPTY, history[..k + 1]), m, f)
  }

  /**
   However requests and responses are lost and events requeued: the server is as if each id had been delivered once,
   at its first arrival, and an event the desktop holds as synced or staged has taken effect with its own mutation.
   */
  lemma ExactlyOnce(states: seq<System>, steps: seq<Step>, n: nat, id: string)
    requires Behaviour(states, steps) && n <= |steps| && id in states[n].local
    ensures var sys, once := states[n], FirstDeliveries({}, states[n].history);
            && sys.Server() == Run(EMPTY, once)
            && (forall i, j :: 0 <= i < j < |once| && once[i].Deliver? && once[j].Deliver? ==> once[i].m.mutationId != once[j].m.mutationId)
    ensures var sys := states[n];
            sys.local[id].status in {Queue.SyncedLocally, Queue.StagedLocally} ==>
              && sys.local[id].payload.Some?
              && (exists k: nat :: TookEffect(sys.history, k, sys.local[id].payload.value))
    ensures states[n].local[id].status == Queue.StagedLocally ==> ConflictId(id) in states[n].Server().conflicts
  {
    var sys := states[n];
    BehaviourKeepsInv(states, steps, n);
    DuplicatesAreHarmless(EMPTY, sys.history);
    FirstDeliveriesAreDistinct({}, sys.history);
    if sys.local[id].status in {Queue.SyncedLocally, Queue.StagedLocally} {
      HasFirstDelivery(sys.history, id);
      var k: nat :| FirstAt(sys.history, k, id);
      var m := sys.local[id].payload.value;
      assert sys.history[k].m == m;
      forall f | f in AsMap(m.changes) { EffectSurvives(sys.history, k, f); }
      assert TookEffect(sys.history, k, m);
    }
  }

  // --- What the desktop's status does and does not tell ------------------------------------------------------

  predicate OwnPayloads(page: seq<Queue.Event>) {
    forall i :: 0 <= i < |page| ==> page[i].payload.Some? && page[i].payload.value.mutationId == page[i].id
  }

  /** The desktop reads off, for each event of the page, the server's own acknowledgement of it. */
  lemma OutcomesFollowAcks(s: State, page: seq<Queue.Event>, i: nat)
    requires i < |page| && OwnPayloads(page) && forall j, k :: 0 <= j < k < |page| ==> page[j].id != page[k].id
    ensures AllParse(page) && SendEvents(s, page, Answered).Outcomes? && |SendEvents(s, page, Answered).each| == |page|
    ensures var ms := Envelopes(page);
            SendEvents(s, page, Answered).each[i] ==
              (if ReconcileOne(Batch(s, ms[..i]).0, ms[i]).1.status == StagedForReview
               then Queue.ConflictReported else Queue.Delivered)
  {
    AckFound(s, Envelopes(page), i);
  }

  lemma NewToServerAt(history: seq<ServerEvent>, ms: seq<Mutation>, i: nat)
    requires i < |ms| && forall j :: 0 <= j < i ==> ms[j].mutationId != ms[i].mutationId
    ensures ms[i].mutationId in Batch(Run(EMPTY, history), ms[..i]).0.processed <==> Delivers(history, ms[i].mutationId)
  {
    BatchProcesses(Run(EMPTY, history), ms[..i]);
    RunProcesses(EMPTY, history);
    assert !Delivers(Deliveries(ms[..i]), ms[i].mutationId);
  }

  /** The batch is the first to deliver the event, and some field of it clashes with the state the batch's earlier events leave. */
  ghost predicate ClashesOnArrival(sys: System, page: seq<Queue.Event>, i: nat)
    requires AllParse(page) && i < |page|
  {
    var ms := Envelopes(page);
    !Delivers(sys.history, page[i].id) && exists f :: ClashesAt(Batch(sys.Server(), ms[..i]).0, ms[i], f)
  }

  lemma ArrivalDecidesAck(sys: System, limit: nat, page: seq<Queue.Event>, i: nat)
    requires Inv(sys) && Queue.IsPage(sys.local, limit, page) && i < |page|
    ensures AllParse(page)
    ensures var ms := Envelopes(page);
            ReconcileOne(Batch(sys.Server(), ms[..i]).0, ms[i]).1.status == StagedForReview <==> ClashesOnArrival(sys, page, i)
  {
    PageIsOwn(sys, limit, page);
    var ms := Envelopes(page);
    var met := Batch(sys.Server(), ms[..i]).0;
    NewToServerAt(sys.history, ms, i);
    if ms[i].mutationId !in met.processed {
      NewMutationConflicts(met, ms[i]);
    }
  }

  /**
   An answered replay marks an event staged exactly when this very batch delivered it first and some field clashed.
   An event whose earlier response was lost is marked synced even if the server holds its fields for review.
   */
  lemma StagedExactlyOnFirstDelivery(sys: System, limit: nat, page: seq<Queue.Event>, i: nat)
    requires Inv(sys) && Queue.IsPage(sys.local, limit, page) && i < |page|
    ensures AllParse(page)
    ensures var local' := Next(sys, Replay(limit, page, Answered)).local;
            && page[i].id in local'
            && local'[page[i].id].status == if ClashesOnArrival(sys, page, i) then Queue.StagedLocally else Queue.SyncedLocally
  {
    var s := sys.Server();
    PageIsOwn(sys, limit, page);
    OutcomesFollowAcks(s, page, i);
    ArrivalDecidesAck(sys, limit, page, i);
    Queue.SettleAllAt(sys.local, page, Queue.Normalize(|page|, SendEvents(s, page, Answered)), page[i].id);
  }

  /** When only the response is lost, the server has processed the whole page all the same. */
  lemma LostResponseStillApplies(sys: System, limit: nat, page: seq<Queue.Event>)
    requires Inv(sys) && Queue.IsPage(sys.local, limit, page)
    ensures AllParse(page)
    ensures var server' := Next(sys, Replay(limit, page, ResponseLost)).Server();
            && server' == Batch(sys.Server(), Envelopes(page)).0
            && forall i :: 0 <= i < |page| ==> page[i].id in server'.processed
  {
    PageIsOwn(sys, limit, page);
    var ms := Envelopes(page);
    BatchIsRun(sys.Server(), ms);
    RunAppend(EMPTY, sys.history, Deliveries(ms));
    forall i | 0 <= i < |page| ensures page[i].id in Batch(sys.Server(), ms).0.processed {
      assert Deliveries(ms)[i] == Deliver(ms[i]);
      BatchProcesses(sys.Server(), ms);
    }
  }

  /** Yet on the desktop each of its events has only used up an attempt. */
  lemma LostResponseCountsAsFailure(sys: System, limit: nat, page: seq<Queue.Event>, i: nat)
    requires Inv(sys) && Queue.IsPage(sys.local, limit, page) && i < |page|
    ensures var local' := Next(sys, Replay(limit, page, ResponseLost)).local;
            && page[i].id in local'
            && local'[page[i].id].retryCount == page[i].retryCount + 1
            && local'[page[i].id].status ==
                 (if page[i].retryCount + 1 >= Queue.MAX_RETRIES then Queue.FailedLocally else Queue.Pending)
  {
    Queue.SettleAllAt(sys.local, page, Queue.Normalize(|page|, Queue.BatchError(false)), page[i].id);
  }

  lemma ReplayIsBatch(sys: System, limit: nat, page: seq<Queue.Event>, channel: Channel)
    ensures Next(sys, Replay(limit, page, channel)).Server() == Batch(sys.Server(), Reaching(page, channel)).0
  {
    BatchIsRun(sys.Server(), Reaching(page, channel));
    RunAppend(EMPTY, sys.history, Deliveries(Reaching(page, channel)));
  }

  lemma KnownPageChangesNothing(sys: System, page: seq<Queue.Event>)
    requires OwnPayloads(page) && AllParse(page) && forall e :: e in page ==> Delivers(sys.history, e.id)
    ensures Batch(sys.Server(), Envelopes(page)).0 == sys.Server()
  {
    RunProcesses(EMPTY, sys.history);
    assert forall i :: 0 <= i < |page| ==> page[i] in page;
    RedeliveryIsIgnored(sys.Server(), Envelopes(page));
  }

  lemma NewEventChangesServer(sys: System, page: seq<Queue.Event>, i: nat)
    requires OwnPayloads(page) && AllParse(page) && i < |page| && !Delivers(sys.history, page[i].id)
    ensures Batch(sys.Server(), Envelopes(page)).0 != sys.Server()
  {
    RunProcesses(EMPTY, sys.history);
    BatchProcesses(sys.Server(), Envelopes(page));
    assert Deliveries(Envelopes(page))[i] == Deliver(Envelopes(page)[i]);
    assert page[i].id in Batch(sys.Server(), Envelopes(page)).0.processed;
  }

  /** A replay leaves the server as it was exactly when nothing arrives or every event of the page had been delivered before. */
  lemma ForcedSyncChangesNothingIff(sys: System, limit: nat, page: seq<Queue.Event>, channel: Channel)
    requires Inv(sys) && Queue.IsPage(sys.local, limit, page)
    ensures Next(sys, Replay(limit, page, channel)).Server() == sys.Server()
       <==> channel == RequestLost || forall e :: e in page ==> Delivers(sys.history, e.id)
  {
    PageIsOwn(sys, limit, page);
    ReplayIsBatch(sys, limit, page, channel);
    if channel != RequestLost {
      if forall e :: e in page ==> Delivers(sys.history, e.id) {
        KnownPageChangesNothing(sys, page);
      } else {
        var i :| 0 <= i < |page| && !Delivers(sys.history, page[i].id);
        NewEventChangesServer(sys, page, i);
      }
    }
  }

  // --- What every step keeps -------------------------------------------------------------------------------

  /** More history only adds deliveries, and conflicts are kept. */
  lemma HistoryGrows(e: Queue.Event, id: string, history: seq<ServerEvent>, more: seq<ServerEvent>)
    requires LocalOk(e, id, history)
    ensures LocalOk(e, id, history + more)
  {
    if Delivers(history, id) {
      var i :| 0 <= i < |history| && history[i].Deliver? && history[i].m.mutationId == id;
      assert (history + more)[i] == history[i];
    }
    RunAppend(EMPTY, history, more);
    RunKeepsInv(EMPTY, history);
    RunRemembers(Run(EMPTY, history), more);
  }

  lemma {:induction false} AckOfAt(acks: seq<Ack>, i: nat)
    requires i < |acks|
    requires forall j, k :: 0 <= j < k < |acks| ==> acks[j].mutationId != acks[k].mutationId
    ensures AckOf(acks, acks[i].mutationId) == Some(acks[i])
  {
    if i == |acks| - 1 {
    } else {
      AckOfAt(acks[..|acks| - 1], i);
    }
  }

  lemma {:induction false} BatchAckIds(s: State, ms: seq<Mutation>, i: nat)
    requires i < |ms|
    ensures Batch(s, ms).1[i].mutationId == ms[i].mutationId
    ensures Batch(s, ms).1[i] == ReconcileOne(Batch(s, ms[..i]).0, ms[i]).1
  {
    var last := |ms| - 1;
    if i == last {
    } else {
      BatchAckIds(s, ms[..last], i);
      assert ms[..last][..i] == ms[..i];
    }
  }

  /** In a batch of distinct ids, looking an id up in the acknowledgements finds the mutation's own. */
  lemma AckFound(s: State, ms: seq<Mutation>, i: nat)
    requires i < |ms| && forall j, k :: 0 <= j < k < |ms| ==> ms[j].mutationId != ms[k].mutationId
    ensures AckOf(Batch(s, ms).1, ms[i].mutationId) == Some(ReconcileOne(Batch(s, ms[..i]).0, ms[i]).1)
  {
    var acks := Batch(s, ms).1;
    forall j | 0 <= j < |ms| ensures acks[j].mutationId == ms[j].mutationId {
      BatchAckIds(s, ms, j);
    }
    BatchAckIds(s, ms, i);
    AckOfAt(acks, i);
  }

  lemma PageIsOwn(sys: System, limit: nat, page: seq<Queue.Event>)
    requires Inv(sys) && Queue.IsPage(sys.local, limit, page)
    ensures OwnPayloads(page) && AllParse(page)
    ensures forall j, k :: 0 <= j < k < |page| ==> page[j].id != page[k].id
  {
    forall i | 0 <= i < |page| ensures page[i].payload.Some? && page[i].payload.value.mutationId == page[i].id {
      assert LocalOk(sys.local[page[i].id], page[i].id, sys.history);
    }
  }

  /** A mutation acknowledged as staged has left its record on the server by the end of the batch. */
  lemma StagedAckLeavesRecord(s: State, ms: seq<Mutation>, i: nat)
    requires ReconcilerTheorems.Inv(s) && i < |ms|
    requires ReconcileOne(Batch(s, ms[..i]).0, ms[i]).1.status == StagedForReview
    ensures ConflictId(ms[i].mutationId) in Batch(s, ms).0.conflicts
  {
    var before := Batch(s, ms[..i]).0;
    BatchIsRun(s, ms[..i]);
    RunKeepsInv(s, Deliveries(ms[..i]));
    NewMutationConflicts(before, ms[i]);
    ReconcileOneKeepsInv(before, ms[i]);
    var after := ReconcileOne(before, ms[i]).0;
    BatchSplits(s, ms, i);
    BatchIsRun(after, ms[i + 1..]);
    RunRemembers(after, Deliveries(ms[i + 1..]));
  }

  lemma BatchSplits(s: State, ms: seq<Mutation>, i: nat)
    requires i < |ms|
    ensures Batch(s, ms).0 == Batch(ReconcileOne(Batch(s, ms[..i]).0, ms[i]).0, ms[i + 1..]).0
  {
    assert ms[..i + 1][..i] == ms[..i];
    assert ms == ms[..i + 1] + ms[i + 1..];
    BatchAppend(s, ms[..i + 1], ms[i + 1..]);
  }

  lemma StagedAckInHistory(history: seq<ServerEvent>, ms: seq<Mutation>, i: nat)
    requires i < |ms|
    requires ReconcileOne(Batch(Run(EMPTY, history), ms[..i]).0, ms[i]).1.status == StagedForReview
    ensures ConflictId(ms[i].mutationId) in Run(EMPTY, history + Deliveries(ms)).conflicts
  {
    RunKeepsInv(EMPTY, history);
    StagedAckLeavesRecord(Run(EMPTY, history), ms, i);
    BatchIsRun(Run(EMPTY, history), ms);
    RunAppend(EMPTY, history, Deliveries(ms));
  }

  /** What an answered replay leaves for an event of its page. */
  lemma AnsweredEventOk(sys: System, limit: nat, page: seq<Queue.Event>, i: nat)
    requires Inv(sys) && Queue.IsPage(sys.local, limit, page) && i < |page|
    ensures AllParse(page) && SendEvents(sys.Server(), page, Answered).Outcomes? && |SendEvents(sys.Server(), page, Answered).each| == |page|
    ensures var history' := sys.history + Deliveries(Envelopes(page));
            LocalOk(Queue.Settle(page[i], SendEvents(sys.Server(), page, Answered).each[i]), page[i].id, history')
  {
    PageIsOwn(sys, limit, page);
    var s, ms := sys.Server(), Envelopes(page);
    OutcomesFollowAcks(s, page, i);
    assert (sys.history + Deliveries(ms))[|sys.history| + i] == Deliver(ms[i]);
    if SendEvents(s, page, Answered).each[i] == Queue.ConflictReported {
      StagedAckInHistory(sys.history, ms, i);
    }
  }

  /** An event of the page after the replay is settled by its own outcome. */
  lemma SentEventSettled(sys: System, limit: nat, page: seq<Queue.Event>, channel: Channel, i: nat)
    requires Queue.IsPage(sys.local, limit, page) && i < |page|
    ensures var outcome := Queue.Normalize(|page|, SendEvents(sys.Server(), page, channel))[i];
            page[i].id in LocalAfter(sys, page, channel) && LocalAfter(sys, page, channel)[page[i].id] == Queue.Settle(page[i], outcome)
  {
    Queue.SettleAllAt(sys.local, page, Queue.Normalize(|page|, SendEvents(sys.Server(), page, channel)), page[i].id);
  }

  lemma SentEventOk(sys: System, limit: nat, page: seq<Queue.Event>, channel: Channel, i: nat)
    requires Inv(sys) && Queue.IsPage(sys.local, limit, page) && i < |page|
    ensures page[i].id in LocalAfter(sys, page, channel)
    ensures LocalOk(LocalAfter(sys, page, channel)[page[i].id], page[i].id, sys.history + Deliveries(Reaching(page, channel)))
    ensures LocalAfter(sys, page, channel)[page[i].id].payload == page[i].payload
  {
    SentEventSettled(sys, limit, page, channel, i);
    if channel == Answered {
      AnsweredEventOk(sys, limit, page, i);
    } else {
      HistoryGrows(page[i], page[i].id, sys.history, Deliveries(Reaching(page, channel)));
    }
  }

  lemma ReplayKeepsLocalOk(sys: System, limit: nat, page: seq<Queue.Event>, channel: Channel, id: string)
    requires Inv(sys) && Queue.IsPage(sys.local, limit, page)
    requires id in LocalAfter(sys, page, channel)
    ensures LocalOk(LocalAfter(sys, page, channel)[id], id, sys.history + Deliveries(Reaching(page, channel)))
    ensures id in sys.local && LocalAfter(sys, page, channel)[id].payload == sys.local[id].payload
  {
    if i :| 0 <= i < |page| && page[i].id == id {
      SentEventOk(sys, limit, page, channel, i);
    } else {
      Queue.SettleAllAt(sys.local, page, Queue.Normalize(|page|, SendEvents(sys.Server(), page, channel)), id);
      HistoryGrows(sys.local[id], id, sys.history, Deliveries(Reaching(page, channel)));
    }
  }

  lemma ReplayKeepsOwnMutations(sys: System, limit: nat, page: seq<Queue.Event>, channel: Channel)
    requires Inv(sys) && Queue.IsPage(sys.local, limit, page)
    ensures OwnMutations(LocalAfter(sys, page, channel), sys.history + Deliveries(Reaching(page, channel)))
  {
    var local', history' := LocalAfter(sys, page, channel), sys.history + Deliveries(Reaching(page, channel));
    forall i | 0 <= i < |history'| && history'[i].Deliver? && history'[i].m.mutationId in local'
      ensures local'[history'[i].m.mutationId].payload == Some(history'[i].m)
    {
      ReplayKeepsLocalOk(sys, limit, page, channel, history'[i].m.mutationId);
      if i >= |sys.history| {
        var e := page[i - |sys.history|];
        assert sys.local[e.id].payload == Some(history'[i].m);
      }
    }
  }

  lemma StepKeepsInv(sys: System, step: Step)
    requires Inv(sys) && Enabled(sys, step)
    ensures Inv(Next(sys, step))
  {
    var sys' := Next(sys, step);
    match step
    case Enqueue(m) =>
      assert forall i :: 0 <= i < |sys.history| && sys.history[i].Deliver? ==> sys.history[i].m.mutationId != m.mutationId;
    case Replay(limit, page, channel) =>
      forall id | id in sys'.local ensures LocalOk(sys'.local[id], id, sys'.history) {
        ReplayKeepsLocalOk(sys, limit, page, channel, id);
      }
      ReplayKeepsOwnMutations(sys, limit, page, channel);
    case Requeue(_, _) =>
    case OtherClient(ms) =>
      forall id | id in sys.local { HistoryGrows(sys.local[id], id, sys.history, Deliveries(ms)); }
    case ServerReview(cid, chosen, custom, now) =>
      forall id | id in sys.local { HistoryGrows(sys.local[id], id, sys.history, [Review(cid, chosen, custom, now)]); }
  }
}
