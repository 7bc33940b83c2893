/** When the server holds a desktop event for review, and what the desktop shows of it meanwhile. */
module SyncReview {
  import opened Prelude
  import opened Reconciler
  import opened ReconcilerTheorems
  import opened SyncProtocol
  import Queue = MutationQueue
  import SyncRuns

  // --- The server's record of one mutation ------------------------------------------------------------

  predicate Held(s: State, id: string) {
    ConflictId(id) in s.conflicts && s.conflicts[ConflictId(id)].status == PendingReview
  }

  predicate SameRecord(s: State, s': State, id: string) {
    var c := ConflictId(id);
    (c in s.conflicts <==> c in s'.conflicts) && (c in s.conflicts ==> s'.conflicts[c] == s.conflicts[c])
  }

  lemma OtherDelivery(s: State, m: Mutation, id: string)
    requires m.mutationId != id || id in s.processed
    ensures SameRecord(s, ReconcileOne(s, m).0, id)
  {
    ConflictIdInjective();
    if m.mutationId !in s.processed {
      NewMutationConflicts(s, m);
    }
  }

  predicate Concerns(ms: seq<Mutation>, id: string) {
    exists i :: 0 <= i < |ms| && ms[i].mutationId == id
  }

  /** A batch without the mutation, or after the server knows it, leaves its record. */
  lemma {:induction false} OtherBatch(s: State, ms: seq<Mutation>, id: string)
    requires id in s.processed || !Concerns(ms, id)
    ensures SameRecord(s, Batch(s, ms).0, id)
  {
    if ms == [] {
    } else {
      var front, last := ms[..|ms| - 1], ms[|ms| - 1];
      assert Concerns(front, id) ==> Concerns(ms, id);
      OtherBatch(s, front, id);
      BatchProcesses(s, front);
      assert last.mutationId == id ==> Concerns(ms, id);
      OtherDelivery(Batch(s, front).0, last, id);
    }
  }

  lemma NothingHeldUnprocessed(s: State, id: string)
    requires ReconcilerTheorems.Inv(s) && id !in s.processed
    ensures ConflictId(id) !in s.conflicts
  {
    ConflictIdInjective();
  }

  ghost predicate ClashesSomewhere(s: State, m: Mutation) {
    exists f :: ClashesAt(s, m, f)
  }

  /** The batch that delivers a mutation first leaves it held exactly when some field clashes on arrival. */
  lemma FirstBatchHoldsIff(s: State, ms: seq<Mutation>, i: nat)
    requires ReconcilerTheorems.Inv(s) && i < |ms| && ms[i].mutationId !in s.processed
    requires forall j, k :: 0 <= j < k < |ms| ==> ms[j].mutationId != ms[k].mutationId
    ensures Held(Batch(s, ms).0, ms[i].mutationId) <==> ClashesSomewhere(Batch(s, ms[..i]).0, ms[i])
  {
    var id, met := ms[i].mutationId, Batch(s, ms[..i]).0;
    var after := ReconcileOne(met, ms[i]).0;
    assert !Concerns(ms[..i], id);
    OtherBatch(s, ms[..i], id);
    BatchProcesses(s, ms[..i]);
    NothingHeldUnprocessed(s, id);
    NewMutationConflicts(met, ms[i]);
    BatchSplits(s, ms, i);
    OtherBatch(after, ms[i + 1..], id);
  }

  // --- One step -------------------------------------------------------------------------------------------

  /** The replay gets through, delivers the event first, and some field of it clashes. */
  ghost predicate ArrivesClashing(sys: System, step: Step, id: string) {
    && step.Replay? && step.channel != RequestLost && AllParse(step.page)
    && exists i: nat :: i < |step.page| && step.page[i].id == id && ClashesOnArrival(sys, step.page, i)
  }

  /** An operator's resolution of the event's conflict that is accepted. */
  predicate Reviewed(sys: System, step: Step, id: string) {
    && step.ServerReview? && step.conflictId == ConflictId(id) && step.conflictId in sys.Server().conflicts
    && ResolutionTarget(sys.Server().conflicts[step.conflictId], step.chosen, step.custom).Ok?
  }

  lemma ServerAfter(sys: System, ms: seq<Mutation>)
    ensures Run(EMPTY, sys.history + Deliveries(ms)) == Batch(sys.Server(), ms).0
  {
    RunAppend(EMPTY, sys.history, Deliveries(ms));
    BatchIsRun(sys.Server(), ms);
  }

  lemma ReplayHeldIff(sys: System, step: Step, id: string)
    requires SyncProtocol.Inv(sys) && SyncProtocol.Enabled(sys, step) && step.Replay?
    ensures Held(SyncProtocol.Next(sys, step).Server(), id) <==> Held(sys.Server(), id) || ArrivesClashing(sys, step, id)
  {
    PageIsOwn(sys, step.limit, step.page);
    RunKeepsInv(EMPTY, sys.history);
    RunProcesses(EMPTY, sys.history);
    ServerAfter(sys, Reaching(step.page, step.channel));
    var ms := Reaching(step.page, step.channel);
    if i: nat :| i < |ms| && ms[i].mutationId == id && !Delivers(sys.history, id) {
      PageReplayHeldIff(sys, step, i);
    } else {
      assert Concerns(ms, id) ==> Delivers(sys.history, id);
      OtherBatch(sys.Server(), ms, id);
      assert ArrivesClashing(sys, step, id) ==> Concerns(ms, id);
    }
  }

  lemma PageReplayHeldIff(sys: System, step: Step, i: nat)
    requires SyncProtocol.Inv(sys) && SyncProtocol.Enabled(sys, step) && step.Replay? && step.channel != RequestLost
    requires i < |step.page| && OwnPayloads(step.page) && AllParse(step.page) && !Delivers(sys.history, step.page[i].id)
    ensures Held(Batch(sys.Server(), Envelopes(step.page)).0, step.page[i].id) <==> ArrivesClashing(sys, step, step.page[i].id)
    ensures !Held(sys.Server(), step.page[i].id)
  {
    var ms, id := Envelopes(step.page), step.page[i].id;
    RunKeepsInv(EMPTY, sys.history);
    RunProcesses(EMPTY, sys.history);
    NothingHeldUnprocessed(sys.Server(), id);
    PageHeldIff(sys, step.page, i);
    OnlyPageEntry(sys, step, i);
  }

  lemma PageHeldIff(sys: System, page: seq<Queue.Event>, i: nat)
    requires OwnPayloads(page) && AllParse(page) && i < |page| && !Delivers(sys.history, page[i].id)
    requires ReconcilerTheorems.Inv(sys.Server()) && page[i].id !in sys.Server().processed
    requires forall j, k :: 0 <= j < k < |page| ==> page[j].id != page[k].id
    ensures Held(Batch(sys.Server(), Envelopes(page)).0, page[i].id) <==> ClashesOnArrival(sys, page, i)
  {
    var ms := Envelopes(page);
    var met := Batch(sys.Server(), ms[..i]).0;
    assert ms[i].mutationId == page[i].id;
    FirstBatchHoldsIff(sys.Server(), ms, i);
    assert ClashesOnArrival(sys, page, i) <==> ClashesSomewhere(met, ms[i]);
  }

  /** The page has one entry of the event. */
  lemma OnlyPageEntry(sys: System, step: Step, i: nat)
    requires SyncProtocol.Enabled(sys, step) && step.Replay? && step.channel != RequestLost && AllParse(step.page) && i < |step.page|
    ensures ArrivesClashing(sys, step, step.page[i].id) <==> ClashesOnArrival(sys, step.page, i)
  {
    if k: nat :| k < |step.page| && step.page[k].id == step.page[i].id && ClashesOnArrival(sys, step.page, k) {
      assert k == i;
    }
  }

  /** For an event of the desktop, a step decides what the server holds of it by a clashing arrival or an accepted review alone. */
  lemma StepHeldIff(sys: System, step: Step, id: string)
    requires SyncProtocol.Inv(sys) && SyncProtocol.Enabled(sys, step) && id in sys.local
    ensures Held(SyncProtocol.Next(sys, step).Server(), id)
       <==> (Held(sys.Server(), id) && !Reviewed(sys, step, id)) || ArrivesClashing(sys, step, id)
  {
    match step
    case Replay(_, _, _) => ReplayHeldIff(sys, step, id);
    case OtherClient(ms) =>
      ServerAfter(sys, ms);
      assert !Concerns(ms, id);
      OtherBatch(sys.Server(), ms, id);
    case ServerReview(c, chosen, custom, now) => ReviewHeldIff(sys, step, id);
    case _ =>
  }

  lemma ReviewHeldIff(sys: System, step: Step, id: string)
    requires step.ServerReview?
    ensures Held(SyncProtocol.Next(sys, step).Server(), id) <==> Held(sys.Server(), id) && !Reviewed(sys, step, id)
  {
    var e := Review(step.conflictId, step.chosen, step.custom, step.now);
    assert (sys.history + [e])[..|sys.history|] == sys.history;
  }

  // --- Runs ---------------------------------------------------------------------------------------------

  /** The k-th step brought the clash, and no review has been accepted since. */
  ghost predicate Stands(states: seq<System>, steps: seq<Step>, id: string, k: nat, n: nat)
    requires |states| == |steps| + 1 && k < n <= |steps|
  {
    ArrivesClashing(states[k], steps[k], id) && forall j :: k < j < n ==> !Reviewed(states[j], steps[j], id)
  }

  ghost predicate Brought(states: seq<System>, steps: seq<Step>, id: string, n: nat)
    requires |states| == |steps| + 1 && n <= |steps|
  {
    exists k: nat :: k < n && Stands(states, steps, id, k, n)
  }

  lemma StandsOn(states: seq<System>, steps: seq<Step>, id: string, k: nat, n: nat)
    requires |states| == |steps| + 1 && k < n - 1 < |steps|
    ensures Stands(states, steps, id, k, n) <==> Stands(states, steps, id, k, n - 1) && !Reviewed(states[n - 1], steps[n - 1], id)
  {
  }

  lemma ArrivedMeansDelivered(sys: System, step: Step, id: string)
    requires SyncProtocol.Inv(sys) && SyncProtocol.Enabled(sys, step) && ArrivesClashing(sys, step, id)
    ensures id in sys.local && Delivers(SyncProtocol.Next(sys, step).history, id)
  {
    PageIsOwn(sys, step.limit, step.page);
    var i: nat :| i < |step.page| && step.page[i].id == id && ClashesOnArrival(sys, step.page, i);
    assert SyncProtocol.Next(sys, step).history[|sys.history| + i] == Deliver(Envelopes(step.page)[i]);
  }

  /** Before it is queued the server holds nothing of an event. */
  lemma NewEventNotHeld(states: seq<System>, steps: seq<Step>, n: nat, id: string)
    requires SyncProtocol.Behaviour(states, steps) && 0 < n <= |steps| && id in states[n].local && id !in states[n - 1].local
    ensures !Held(states[n].Server(), id)
    ensures forall k: nat :: k < n ==> !Stands(states, steps, id, k, n)
  {
    SyncProtocol.BehaviourKeepsInv(states, steps, n - 1);
    QueuedJustNow(states[n - 1], steps[n - 1], id);
    NothingHeldUndelivered(states[n - 1], steps[n - 1], id);
    forall k: nat | k < n ensures !ArrivesClashing(states[k], steps[k], id) {
      if k < n - 1 && ArrivesClashing(states[k], steps[k], id) {
        DeliveredAfterArrival(states, steps, k, n - 1, id);
      }
    }
  }

  lemma NothingHeldUndelivered(sys: System, step: Step, id: string)
    requires step.Enqueue? && !Delivers(sys.history, id)
    ensures !Held(SyncProtocol.Next(sys, step).Server(), id)
  {
    RunKeepsInv(EMPTY, sys.history);
    RunProcesses(EMPTY, sys.history);
    NothingHeldUnprocessed(sys.Server(), id);
  }

  lemma QueuedJustNow(sys: System, step: Step, id: string)
    requires SyncProtocol.Inv(sys) && SyncProtocol.Enabled(sys, step)
    requires id in SyncProtocol.Next(sys, step).local && id !in sys.local
    ensures step.Enqueue? && !Delivers(sys.history, id)
  {
    if step.Replay? {
      ReplayKeepsLocalOk(sys, step.limit, step.page, step.channel, id);
    }
  }

  lemma ArrivalInRun(states: seq<System>, steps: seq<Step>, k: nat, id: string)
    requires SyncProtocol.Behaviour(states, steps) && k < |steps| && ArrivesClashing(states[k], steps[k], id)
    ensures Delivers(states[k + 1].history, id)
  {
    SyncProtocol.BehaviourKeepsInv(states, steps, k);
    ArrivedMeansDelivered(states[k], steps[k], id);
  }

  lemma DeliveredAfterArrival(states: seq<System>, steps: seq<Step>, k: nat, n: nat, id: string)
    requires SyncProtocol.Behaviour(states, steps) && k < n <= |steps| && ArrivesClashing(states[k], steps[k], id)
    ensures Delivers(states[n].history, id)
  {
    ArrivalInRun(states, steps, k, id);
    DeliveredLater(states, steps, k + 1, n, id);
  }

  lemma DeliveredLater(states: seq<System>, steps: seq<Step>, m: nat, n: nat, id: string)
    requires SyncProtocol.Behaviour(states, steps) && m <= n <= |steps| && Delivers(states[m].history, id)
    ensures Delivers(states[n].history, id)
  {
    SyncRuns.HistoryOnlyGrows(states, steps, m, n);
    SyncRuns.DeliveredStaysDelivered(states[m].history, states[n].history, id);
  }

  /** In every run the server holds an event of the desktop for review exactly when some replay brought it there first with a clash
      and no review of it has been accepted since. */
  lemma {:induction false} HeldIff(states: seq<System>, steps: seq<Step>, n: nat, id: string)
    requires SyncProtocol.Behaviour(states, steps) && n <= |steps| && id in states[n].local
    ensures Held(states[n].Server(), id) <==> Brought(states, steps, id, n)
    decreases n
  {
    if n == 0 {
    } else if id !in states[n - 1].local {
      NewEventNotHeld(states, steps, n, id);
    } else {
      HeldIff(states, steps, n - 1, id);
      SyncProtocol.BehaviourKeepsInv(states, steps, n - 1);
      StepHeldIff(states[n - 1], steps[n - 1], id);
      HeldNext(states, steps, n, id);
    }
  }

  lemma HeldNext(states: seq<System>, steps: seq<Step>, n: nat, id: string)
    requires |states| == |steps| + 1 && 0 < n <= |steps|
    requires Held(states[n - 1].Server(), id) <==> Brought(states, steps, id, n - 1)
    requires Held(states[n].Server(), id)
        <==> (Held(states[n - 1].Server(), id) && !Reviewed(states[n - 1], steps[n - 1], id)) || ArrivesClashing(states[n - 1], steps[n - 1], id)
    ensures Held(states[n].Server(), id) <==> Brought(states, steps, id, n)
  {
    if ArrivesClashing(states[n - 1], steps[n - 1], id) {
      assert Stands(states, steps, id, n - 1, n);
    }
    if Brought(states, steps, id, n - 1) {
      var k: nat :| k < n - 1 && Stands(states, steps, id, k, n - 1);
      StandsOn(states, steps, id, k, n);
    }
    if Brought(states, steps, id, n) {
      var k: nat :| k < n && Stands(states, steps, id, k, n);
      if k < n - 1 {
        StandsOn(states, steps, id, k, n);
      }
    }
  }

  // --- What the desktop shows --------------------------------------------------------------------------------

  predicate QueuesAgain(step: Step, id: string) {
    step.Requeue? && step.id == id && step.choice == Queue.OverwriteWithClient
  }

  predicate SetAside(sys: System, id: string) {
    id in sys.local && (sys.local[id].status == Queue.StagedLocally || sys.local[id].status == Queue.Discarded)
  }

  /** An event set aside stays so until it is queued again. */
  lemma StaysAside(sys: System, step: Step, id: string)
    requires SyncProtocol.Inv(sys) && SyncProtocol.Enabled(sys, step) && SetAside(sys, id) && !QueuesAgain(step, id)
    ensures SetAside(SyncProtocol.Next(sys, step), id)
  {
    if step.Replay? {
      Queue.SettleAllAt(sys.local, step.page, Queue.Normalize(|step.page|, SendEvents(sys.Server(), step.page, step.channel)), id);
    }
  }

  lemma {:induction false} AsideUntilQueued(states: seq<System>, steps: seq<Step>, m: nat, n: nat, id: string)
    requires SyncProtocol.Behaviour(states, steps) && m <= n <= |steps| && SetAside(states[m], id)
    requires forall j :: m <= j < n ==> !QueuesAgain(steps[j], id)
    ensures SetAside(states[n], id)
    decreases n
  {
    if m == n {
    } else {
      AsideUntilQueued(states, steps, m, n - 1, id);
      SyncProtocol.BehaviourKeepsInv(states, steps, n - 1);
      StaysAside(states[n - 1], steps[n - 1], id);
    }
  }

  /** The k-th step's answer did not come back, or the event was queued again since. */
  ghost predicate LostSightOf(steps: seq<Step>, id: string, k: nat, n: nat)
    requires k < n <= |steps| && steps[k].Replay?
  {
    steps[k].channel == ResponseLost || exists j :: k < j < n && QueuesAgain(steps[j], id)
  }

  lemma SyncedLostSight(states: seq<System>, steps: seq<Step>, k: nat, n: nat, id: string)
    requires SyncProtocol.Behaviour(states, steps) && k < n <= |steps| && ArrivesClashing(states[k], steps[k], id)
    requires id in states[n].local && states[n].local[id].status == Queue.SyncedLocally
    ensures LostSightOf(steps, id, k, n)
  {
    if steps[k].channel == Answered && forall j :: k < j < n ==> !QueuesAgain(steps[j], id) {
      var i: nat :| i < |steps[k].page| && steps[k].page[i].id == id && ClashesOnArrival(states[k], steps[k].page, i);
      SyncProtocol.BehaviourKeepsInv(states, steps, k);
      StagedExactlyOnFirstDelivery(states[k], steps[k].limit, steps[k].page, i);
      AsideUntilQueued(states, steps, k + 1, n, id);
    }
  }

  /** In every run an event is shown as synced while the server holds it for review exactly when it is shown as synced, it arrived
      first with a clash, the answer was lost or the event was queued again since, and no review has been accepted. */
  lemma SyncedWhileHeldIff(states: seq<System>, steps: seq<Step>, n: nat, id: string)
    requires SyncProtocol.Behaviour(states, steps) && n <= |steps| && id in states[n].local
    requires states[n].local[id].status == Queue.SyncedLocally
    ensures Held(states[n].Server(), id)
       <==> exists k: nat :: k < n && Stands(states, steps, id, k, n) && LostSightOf(steps, id, k, n)
  {
    HeldIff(states, steps, n, id);
    if k: nat :| k < n && Stands(states, steps, id, k, n) {
      SyncedLostSight(states, steps, k, n, id);
    }
  }
}
