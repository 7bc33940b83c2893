/**
 The server's reconciler: mutations are deduplicated by id and merged field by field.
 A field whose last writer is another client and whose value differs is staged for review.
 */
module Reconciler {
  import opened Prelude

  datatype Mutation = Mutation(
    mutationId: string, clientId: string, workspaceId: string, userId: string,
    entityType: string, entityId: string, timestamp: int, changes: FieldChanges)

  /** Who wrote a field last, when, and what. */
  datatype Stamp = Stamp(clientId: string, time: int, value: Value)

  datatype ReviewStatus = PendingReview | Resolved

  datatype Conflict = Conflict(
    mutationId: string, clientId: string, workspaceId: string, userId: string,
    entityType: string, entityId: string, timestamp: int,
    clientFields: seq<(string, Value)>, serverFields: seq<(string, Value)>, status: ReviewStatus)

  datatype State = State(
    processed: set<string>,
    values: map<string, map<string, Value>>,
    stamps: map<string, map<string, Stamp>>,
    conflicts: map<string, Conflict>)

  const EMPTY := State({}, map[], map[], map[])

  datatype AckStatus = Synced | StagedForReview | IgnoredDuplicate

  datatype Ack = Ack(mutationId: string, status: AckStatus, entityId: string,
                     applied: seq<string>, conflicting: seq<string>)

  datatype Response = Response(processedCount: nat, syncedCount: nat, conflictCount: nat,
                               failedCount: nat, results: seq<Ack>)

  function EntityKey(entityType: string, entityId: string): string {
    entityType + ":" + entityId
  }

  function ConflictId(mutationId: string): string {
    "conflict-" + mutationId
  }

  function GetOrEmpty<V>(m: map<string, map<string, V>>, key: string): map<string, V> {
    if key in m then m[key] else map[]
  }

  // --- One mutation -------------------------------------------------------------------------

  /** Another client wrote the field last, and wrote something else. */
  predicate Clashes(stamps: map<string, Stamp>, clientId: string, field: string, value: Value) {
    field in stamps && stamps[field].clientId != clientId && stamps[field].value != value
  }

  /** The changes that clash (or, with `clashing` false, those that do not), in order. */
  function Select(stamps: map<string, Stamp>, clientId: string, changes: seq<(string, Value)>, clashing: bool)
    : (r: seq<(string, Value)>)
  {
    if changes == [] then []
    else
      var last := |changes| - 1;
      var rest := Select(stamps, clientId, changes[..last], clashing);
      if Clashes(stamps, clientId, changes[last].0, changes[last].1) == clashing
      then rest + [changes[last]] else rest
  }

  function Names(changes: seq<(string, Value)>): seq<string> {
    if changes == [] then [] else Names(changes[..|changes| - 1]) + [changes[|changes| - 1].0]
  }

  /** The server's values of the given fields; each of them has been stamped when it clashes. */
  function ServerSide(stamps: map<string, Stamp>, changes: seq<(string, Value)>): seq<(string, Value)> {
    if changes == [] then []
    else
      var last := |changes| - 1;
      var f := changes[last].0;
      ServerSide(stamps, changes[..last]) + [(f, if f in stamps then stamps[f].value else Null)]
  }

  function WriteAll(values: map<string, Value>, changes: seq<(string, Value)>): map<string, Value> {
    if changes == [] then values
    else
      var last := |changes| - 1;
      WriteAll(values, changes[..last])[changes[last].0 := changes[last].1]
  }

  function StampAll(stamps: map<string, Stamp>, clientId: string, time: int, changes: seq<(string, Value)>): map<string, Stamp> {
    if changes == [] then stamps
    else
      var last := |changes| - 1;
      StampAll(stamps, clientId, time, changes[..last])[changes[last].0 := Stamp(clientId, time, changes[last].1)]
  }

  function StageRecord(stamps: map<string, Stamp>, m: Mutation): Conflict {
    var rejected := Select(stamps, m.clientId, m.changes, true);
    Conflict(m.mutationId, m.clientId, m.workspaceId, m.userId, m.entityType, m.entityId,
             m.timestamp, rejected, ServerSide(stamps, rejected), PendingReview)
  }

  function ReconcileOne(s: State, m: Mutation): (State, Ack) {
    if m.mutationId in s.processed then
      (s, Ack(m.mutationId, IgnoredDuplicate, m.entityId, [], []))
    else
      var key := EntityKey(m.entityType, m.entityId);
      var stamps := GetOrEmpty(s.stamps, key);
      var accepted := Select(stamps, m.clientId, m.changes, false);
      var rejected := Select(stamps, m.clientId, m.changes, true);
      var s' := State(
        s.processed + {m.mutationId},
        s.values[key := WriteAll(GetOrEmpty(s.values, key), accepted)],
        s.stamps[key := StampAll(stamps, m.clientId, m.timestamp, accepted)],
        if rejected == [] then s.conflicts
        else s.conflicts[ConflictId(m.mutationId) := StageRecord(stamps, m)]);
      (s', Ack(m.mutationId, if rejected == [] then Synced else StagedForReview,
               m.entityId, Names(accepted), Names(rejected)))
  }

  // --- Batches ------------------------------------------------------------------------------

  function Batch(s: State, ms: seq<Mutation>): (r: (State, seq<Ack>))
    ensures |r.1| == |ms|
  {
    if ms == [] then (s, [])
    else
      var last := |ms| - 1;
      var (s', acks) := Batch(s, ms[..last]);
      var (s'', ack) := ReconcileOne(s', ms[last]);
      (s'', acks + [ack])
  }

  function CountStatus(acks: seq<Ack>, status: AckStatus): nat {
    if acks == [] then 0
    else CountStatus(acks[..|acks| - 1], status) + (if acks[|acks| - 1].status == status then 1 else 0)
  }

  // --- Resolving a conflict -----------------------------------------------------------------

  datatype ResolveError = ConflictNotFound | ClientNotPartOfConflict

  /** The values a resolution writes: custom values first, else the losing client's fields, else nothing. */
  function ResolutionTarget(c: Conflict, chosen: Option<string>, custom: Option<seq<(string, Value)>>)
    : Result<seq<(string, Value)>, ResolveError>
  {
    match custom
    case Some(values) => Ok(values)
    case None =>
      match chosen
      case None => Ok([])
      case Some(client) =>
        if client != "" && client == c.clientId then Ok(c.clientFields) else Err(ClientNotPartOfConflict)
  }

  function Touch(s: State, key: string): State {
    s.(values := s.values[key := GetOrEmpty(s.values, key)],
       stamps := s.stamps[key := GetOrEmpty(s.stamps, key)])
  }

  function Resolve(s: State, conflictId: string, chosen: Option<string>,
                   custom: Option<seq<(string, Value)>>, now: int): (State, Result<Conflict, ResolveError>)
  {
    if conflictId !in s.conflicts then (s, Err(ConflictNotFound))
    else
      var c := s.conflicts[conflictId];
      var key := EntityKey(c.entityType, c.entityId);
      match ResolutionTarget(c, chosen, custom)
      case Err(e) => (Touch(s, key), Err(e))
      case Ok(target) =>
        var writer := if chosen.Some? && chosen.value != "" then chosen.value else c.clientId;
        var c' := c.(status := Resolved);
        (State(s.processed,
               s.values[key := WriteAll(GetOrEmpty(s.values, key), target)],
               s.stamps[key := StampAll(GetOrEmpty(s.stamps, key), writer, now, target)],
               s.conflicts[conflictId := c']),
         Ok(c'))
  }

  // --- Runs of the server -------------------------------------------------------------------

  datatype ServerEvent =
    | Deliver(m: Mutation)
    | Review(conflictId: string, chosen: Option<string>, custom: Option<seq<(string, Value)>>, now: int)

  function ServerStep(s: State, e: ServerEvent): State {
    match e
    case Deliver(m) => ReconcileOne(s, m).0
    case Review(id, chosen, custom, now) => Resolve(s, id, chosen, custom, now).0
  }

  function Run(s: State, es: seq<ServerEvent>): State {
    if es == [] then s else ServerStep(Run(s, es[..|es| - 1]), es[|es| - 1])
  }

  function Deliveries(ms: seq<Mutation>): (r: seq<ServerEvent>)
    ensures |r| == |ms|
    ensures forall i :: 0 <= i < |ms| ==> r[i] == Deliver(ms[i])
  {
    seq(|ms|, i requires 0 <= i < |ms| => Deliver(ms[i]))
  }

  predicate Delivers(es: seq<ServerEvent>, id: string) {
    exists i :: 0 <= i < |es| && es[i].Deliver? && es[i].m.mutationId == id
  }

  /** The run without re-deliveries of ids that were processed or delivered before. */
  function FirstDeliveries(processed: set<string>, es: seq<ServerEvent>): seq<ServerEvent> {
    if es == [] then []
    else
      var last := |es| - 1;
      var rest := FirstDeliveries(processed, es[..last]);
      if es[last].Deliver? && (es[last].m.mutationId in processed || Delivers(es[..last], es[last].m.mutationId))
      then rest
      else rest + [es[last]]
  }

  lemma BatchIsRun(s: State, ms: seq<Mutation>)
    ensures Batch(s, ms).0 == Run(s, Deliveries(ms))
  {
    if ms == [] {
    } else {
      var last := |ms| - 1;
      BatchIsRun(s, ms[..last]);
      assert Deliveries(ms)[..last] == Deliveries(ms[..last]);
    }
  }

  lemma {:induction false} RunAppend(s: State, a: seq<ServerEvent>, b: seq<ServerEvent>)
    ensures Run(s, a + b) == Run(Run(s, a), b)
  {
    if b == [] {
      assert a + b == a;
    } else {
      var last := |b| - 1;
      RunAppend(s, a, b[..last]);
      assert (a + b)[..|a + b| - 1] == a + b[..last];
    }
  }

  lemma {:induction false} RunProcesses(s: State, es: seq<ServerEvent>)
    ensures forall id :: id in Run(s, es).processed <==> id in s.processed || Delivers(es, id)
  {
    if es == [] {
    } else {
      var last := |es| - 1;
      RunProcesses(s, es[..last]);
      forall id ensures Delivers(es, id) <==> Delivers(es[..last], id) || (es[last].Deliver? && es[last].m.mutationId == id) {
        DeliversSnoc(es[..last], es[last], id);
        assert es[..last] + [es[last]] == es;
      }
    }
  }

  lemma DeliversSnoc(es: seq<ServerEvent>, e: ServerEvent, id: string)
    ensures Delivers(es + [e], id) <==> Delivers(es, id) || (e.Deliver? && e.m.mutationId == id)
  {
    if Delivers(es, id) {
      var i :| 0 <= i < |es| && es[i].Deliver? && es[i].m.mutationId == id;
      assert (es + [e])[i] == es[i];
    }
    if e.Deliver? && e.m.mutationId == id {
      assert (es + [e])[|es|] == e;
    }
  }
}
