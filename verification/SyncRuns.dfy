/** Consequences over whole runs: what a desktop can tell before it forces a sync, and a run in which its status misleads. */
module SyncRuns {
  import opened Prelude
  import opened Reconciler
  import opened ReconcilerTheorems
  import opened SyncProtocol
  import Queue = MutationQueue

  /** A mutation made on the desktop is queued under its own id and time, to be sent, with no attempt used; nothing else changes. */
  lemma QueuedAsMade(sys: System, m: Mutation)
    ensures var sys' := SyncProtocol.Next(sys, Enqueue(m));
            && sys'.history == sys.history && sys'.local.Keys == sys.local.Keys + {m.mutationId}
            && (forall id :: id in sys.local && id != m.mutationId ==> sys'.local[id] == sys.local[id])
            && var e := sys'.local[m.mutationId];
               e.id == m.mutationId && e.timestamp == m.timestamp && e.payload == Some(m) && e.status == Queue.Pending && e.retryCount == 0
  {
  }

  // --- Forcing a sync --------------------------------------------------------------------------------

  lemma {:induction false} HistoryOnlyGrows(states: seq<System>, steps: seq<Step>, m: nat, n: nat)
    requires SyncProtocol.Behaviour(states, steps) && m <= n <= |steps|
    ensures states[m].history <= states[n].history
    decreases n
  {
    if m == n {
    } else {
      HistoryOnlyGrows(states, steps, m, n - 1);
    }
  }

  lemma DeliveredStaysDelivered(history: seq<ServerEvent>, later: seq<ServerEvent>, id: string)
    requires Delivers(history, id) && history <= later
    ensures Delivers(later, id)
  {
    var i :| 0 <= i < |history| && history[i].Deliver? && history[i].m.mutationId == id;
    assert later[i] == history[i];
  }

  function WithoutId(ms: seq<Mutation>, id: string): seq<Mutation> {
    if ms == [] then []
    else
      var last := ms[|ms| - 1];
      WithoutId(ms[..|ms| - 1], id) + if last.mutationId == id then [] else [last]
  }

  lemma {:induction false} KnownIsSkipped(s: State, ms: seq<Mutation>, id: string)
    requires id in s.processed
    ensures Batch(s, ms).0 == Batch(s, WithoutId(ms, id)).0 && id in Batch(s, ms).0.processed
  {
    if ms == [] {
    } else {
      var earlier, last := ms[..|ms| - 1], ms[|ms| - 1];
      var rest := WithoutId(earlier, id);
      KnownIsSkipped(s, earlier, id);
      if last.mutationId == id {
        assert WithoutId(ms, id) == rest;
      } else {
        assert WithoutId(ms, id) == rest + [last];
        assert (rest + [last])[..|rest|] == rest;
      }
    }
  }

  predicate SettledLocally(sys: System, id: string) {
    id in sys.local && (sys.local[id].status == Queue.SyncedLocally || sys.local[id].status == Queue.StagedLocally)
  }

  /**
   What the desktop can check: an event it holds as synced or staged, queued again, cannot change the server. Any later
   replay of it, whatever the channel does, leaves the server as a replay without it would.
   */
  lemma SettledEventCannotChangeServer(states: seq<System>, steps: seq<Step>, m: nat, n: nat, id: string)
    requires SyncProtocol.Behaviour(states, steps) && m <= n < |steps| && SettledLocally(states[m], id) && steps[n].Replay?
    ensures states[n + 1].Server() == Batch(states[n].Server(), WithoutId(Reaching(steps[n].page, steps[n].channel), id)).0
  {
    var sys, ms := states[n], Reaching(steps[n].page, steps[n].channel);
    SyncProtocol.BehaviourKeepsInv(states, steps, m);
    HistoryOnlyGrows(states, steps, m, n);
    DeliveredStaysDelivered(states[m].history, sys.history, id);
    RunProcesses(EMPTY, sys.history);
    KnownIsSkipped(sys.Server(), ms, id);
    BatchIsRun(sys.Server(), ms);
    RunAppend(EMPTY, sys.history, Deliveries(ms));
  }

  // --- Retries ------------------------------------------------------------------------------------------

  /** The step queues again an event that has used up its attempts. */
  predicate RequeuesExhausted(sys: System, step: Step) {
    && step.Requeue? && step.choice == Queue.OverwriteWithClient
    && step.id in sys.local && sys.local[step.id].retryCount >= Queue.MAX_RETRIES
  }

  lemma StepKeepsRetriesIff(sys: System, step: Step)
    requires SyncProtocol.Enabled(sys, step) && Queue.RetriesBounded(sys.local)
    ensures Queue.RetriesBounded(SyncProtocol.Next(sys, step).local) <==> !RequeuesExhausted(sys, step)
  {
    match step
    case Replay(limit, page, channel) =>
      Queue.ReplayKeepsRetriesBounded(sys.local, limit, page, SendEvents(sys.Server(), page, channel));
    case Requeue(id, choice) =>
      if choice == Queue.OverwriteWithClient {
        Queue.RequeueKeepsRetriesBounded(sys.local, id);
      }
    case _ =>
  }

  /** Through a whole run a pending event has at most four recorded retries, exactly when no exhausted event is queued again. */
  lemma {:induction false} RetriesStayBoundedIff(states: seq<System>, steps: seq<Step>, n: nat)
    requires SyncProtocol.Behaviour(states, steps) && n <= |steps|
    ensures (forall i :: 0 <= i <= n ==> Queue.RetriesBounded(states[i].local))
       <==> forall i :: 0 <= i < n ==> !RequeuesExhausted(states[i], steps[i])
  {
    if n == 0 {
    } else {
      RetriesStayBoundedIff(states, steps, n - 1);
      assert (forall i :: 0 <= i <= n ==> Queue.RetriesBounded(states[i].local))
        <==> (forall i :: 0 <= i <= n - 1 ==> Queue.RetriesBounded(states[i].local)) && Queue.RetriesBounded(states[n].local);
      assert (forall i :: 0 <= i < n ==> !RequeuesExhausted(states[i], steps[i]))
        <==> (forall i :: 0 <= i < n - 1 ==> !RequeuesExhausted(states[i], steps[i])) && !RequeuesExhausted(states[n - 1], steps[n - 1]);
      if Queue.RetriesBounded(states[n - 1].local) {
        StepKeepsRetriesIff(states[n - 1], steps[n - 1]);
      }
    }
  }

  // --- A misleading status ---------------------------------------------------------------------------------

  const THEIRS := Mutation("theirs", "client-a", "", "", "DEVICE", "d", 1, [("rate", Number(1.0))])
  const OURS := Mutation("ours", "client-b", "", "", "DEVICE", "d", 2, [("rate", Number(2.0))])

  function Queued(retries: nat): Queue.Event {
    Queue.Event("ours", 2, Some(OURS), Queue.Pending, retries)
  }

  /** Another client writes a field; we write it too; our response is lost; the replay is answered. */
  const MISLEADING_RUN := [
    OtherClient([THEIRS]),
    Enqueue(OURS),
    Replay(1, [Queued(0)], ResponseLost),
    Replay(1, [Queued(1)], Answered)
  ]

  lemma OneEventPage(retries: nat)
    ensures Queue.IsPage(map["ours" := Queued(retries)], 1, [Queued(retries)])
  {
    assert Queue.PendingIds(map["ours" := Queued(retries)]) == {"ours"};
  }

  lemma TheirsIsWritten()
    ensures var met, key := ReconcileOne(EMPTY, THEIRS).0, EntityKey("DEVICE", "d");
            met.processed == {"theirs"} && AppliedIn(met, THEIRS, "rate")
  {
    OneChange("rate", Number(1.0));
    NewMutationFields(EMPTY, THEIRS, EntityKey("DEVICE", "d"), "rate");
  }

  lemma OursMeetsTheirs(met: State)
    requires AppliedIn(met, THEIRS, "rate")
    ensures ClashesAt(met, OURS, "rate")
  {
    OneChange("rate", Number(1.0));
    OneChange("rate", Number(2.0));
  }

  /** Ours clashes with the other client's write and waits for review. */
  lemma OursClashes()
    ensures var id, (after, _) := ConflictId("ours"), ReconcileOne(ReconcileOne(EMPTY, THEIRS).0, OURS);
            id in after.conflicts && after.conflicts[id].status == PendingReview
  {
    var met := ReconcileOne(EMPTY, THEIRS).0;
    TheirsIsWritten();
    OursMeetsTheirs(met);
    NewMutationConflicts(met, OURS);
  }

  /** The server's part of the run: ours is processed once, and its conflict waits for review throughout. */
  lemma ServerHoldsOurs()
    ensures var id, server := ConflictId("ours"), Run(EMPTY, Deliveries([THEIRS]) + Deliveries([OURS]) + Deliveries([OURS]));
            id in server.conflicts && server.conflicts[id].status == PendingReview
  {
    var met := Run(EMPTY, Deliveries([THEIRS]));
    BatchOfOne(EMPTY, THEIRS);
    OursClashes();
    BatchOfOne(met, OURS);
    RunAppend(EMPTY, Deliveries([THEIRS]), Deliveries([OURS]));
    RunAppend(EMPTY, Deliveries([THEIRS]) + Deliveries([OURS]), Deliveries([OURS]));
    BatchOfOne(Run(met, Deliveries([OURS])), OURS);
  }

  lemma BatchOfOne(s: State, m: Mutation)
    ensures Run(s, Deliveries([m])) == ReconcileOne(s, m).0
  {
    assert Deliveries([m]) == [Deliver(m)];
    assert [Deliver(m)][..0] == [];
  }

  /** With the response lost, our event is pending again with one retry. */
  lemma LostOnce(sys: System)
    requires sys.local == map["ours" := Queued(0)]
    ensures LocalAfter(sys, [Queued(0)], ResponseLost) == map["ours" := Queued(1)]
  {
    var outcomes := Queue.Normalize(1, Queue.BatchError(false));
    assert outcomes == [Queue.Failure];
    assert [Queued(0)][..0] == [] && outcomes[..0] == [];
    assert Queue.SettleAll(sys.local, [Queued(0)], outcomes) == sys.local["ours" := Queue.Settle(Queued(0), Queue.Failure)];
  }

  const WRITTEN := System(map[], Deliveries([THEIRS]))
  const QUEUED := System(map["ours" := Queued(0)], Deliveries([THEIRS]))
  const LOST := System(map["ours" := Queued(1)], Deliveries([THEIRS]) + Deliveries([OURS]))

  lemma TheirsThenOurs()
    ensures SyncProtocol.Enabled(SyncProtocol.INITIAL, MISLEADING_RUN[0]) && SyncProtocol.Next(SyncProtocol.INITIAL, MISLEADING_RUN[0]) == WRITTEN
    ensures SyncProtocol.Enabled(WRITTEN, MISLEADING_RUN[1]) && SyncProtocol.Next(WRITTEN, MISLEADING_RUN[1]) == QUEUED
  {
  }

  lemma ResponseIsLost()
    ensures SyncProtocol.Enabled(QUEUED, MISLEADING_RUN[2]) && SyncProtocol.Next(QUEUED, MISLEADING_RUN[2]) == LOST
  {
    assert Envelopes([Queued(0)]) == [OURS];
    OneEventPage(0);
    LostOnce(QUEUED);
  }

  /** The states of the run, one by one. */
  lemma MisleadingStates() returns (states: seq<System>)
    ensures SyncProtocol.Behaviour(states, MISLEADING_RUN)
    ensures states[3] == LOST && states[4] == SyncProtocol.Next(LOST, MISLEADING_RUN[3])
    ensures states[4].history == LOST.history + Deliveries([OURS])
  {
    TheirsThenOurs();
    ResponseIsLost();
    OursIsAnswered();
    states := [SyncProtocol.INITIAL, WRITTEN, QUEUED, LOST, SyncProtocol.Next(LOST, MISLEADING_RUN[3])];
    FourLinks(states, MISLEADING_RUN);
  }

  ghost predicate Linked(sys: System, step: SyncProtocol.Step, sys': System) {
    SyncProtocol.Enabled(sys, step) && sys' == SyncProtocol.Next(sys, step)
  }

  lemma FourLinks(states: seq<System>, steps: seq<SyncProtocol.Step>)
    requires |states| == 5 && |steps| == 4 && states[0] == SyncProtocol.INITIAL
    requires Linked(states[0], steps[0], states[1]) && Linked(states[1], steps[1], states[2])
    requires Linked(states[2], steps[2], states[3]) && Linked(states[3], steps[3], states[4])
    ensures SyncProtocol.Behaviour(states, steps)
  {
    assert forall i :: 0 <= i < 4 ==> Linked(states[i], steps[i], states[i + 1]);
  }

  lemma OursIsAnswered()
    ensures SyncProtocol.Enabled(LOST, MISLEADING_RUN[3])
    ensures SyncProtocol.Next(LOST, MISLEADING_RUN[3]).history == LOST.history + Deliveries([OURS])
  {
    OneEventPage(1);
    assert Envelopes([Queued(1)]) == [OURS];
  }

  /** This run is possible. It ends with the desktop showing the mutation as synced while the server still holds it for review. */
  lemma MisleadingRun() returns (states: seq<System>)
    ensures SyncProtocol.Behaviour(states, MISLEADING_RUN)
    ensures var end, id := states[4], ConflictId("ours");
            && "ours" in end.local && end.local["ours"].status == Queue.SyncedLocally
            && id in end.Server().conflicts && end.Server().conflicts[id].status == PendingReview
  {
    states := MisleadingStates();
    ServerHoldsOurs();
    SyncProtocol.BehaviourKeepsInv(states, MISLEADING_RUN, 3);
    OursIsSettled(states[3]);
  }

  lemma OursIsSettled(sys: System)
    requires SyncProtocol.Inv(sys) && sys.local == map["ours" := Queued(1)]
    requires sys.history == Deliveries([THEIRS]) + Deliveries([OURS])
    ensures var local' := SyncProtocol.Next(sys, MISLEADING_RUN[3]).local;
            "ours" in local' && local'["ours"].status == Queue.SyncedLocally
  {
    OneEventPage(1);
    assert Delivers(sys.history, "ours") by {
      assert sys.history[1] == Deliver(OURS);
    }
    StagedExactlyOnFirstDelivery(sys, 1, [Queued(1)], 0);
  }
}
