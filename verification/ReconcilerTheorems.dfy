/** What every batch, every duplicate delivery and every run of the reconciler keeps. */
module ReconcilerTheorems {
  import opened Prelude
  import opened Reconciler

  // --- Entities and their keys ------------------------------------------------------------------------

  /** The second entity's type goes on with a colon and a prefix of the first entity's id. */
  ghost predicate Shifted(type1: string, id1: string, type2: string, id2: string) {
    exists x :: ShiftedBy(type1, id1, type2, id2, x)
  }

  predicate ShiftedBy(type1: string, id1: string, type2: string, id2: string, x: string) {
    type2 == type1 + ":" + x && id1 == x + ":" + id2
  }

  lemma ShorterTypeIsShifted(type1: string, id1: string, type2: string, id2: string)
    requires EntityKey(type1, id1) == EntityKey(type2, id2) && |type1| < |type2|
    ensures Shifted(type1, id1, type2, id2)
  {
    var key, x := EntityKey(type1, id1), type2[|type1| + 1..];
    assert key[..|type2|] == type2;
    assert type1 == key[..|type1|] && type2[..|type1|] == type1 && type2[|type1|] == key[|type1|] == ':';
    assert type2 == type1 + ":" + x;
    assert id1 == key[|type1| + 1..] == x + ":" + id2;
    assert ShiftedBy(type1, id1, type2, id2, x);
  }

  lemma ShiftedShareKey(type1: string, id1: string, type2: string, id2: string)
    requires Shifted(type1, id1, type2, id2)
    ensures EntityKey(type1, id1) == EntityKey(type2, id2)
  {
    var x :| ShiftedBy(type1, id1, type2, id2, x);
    assert type1 + ":" + (x + ":" + id2) == (type1 + ":" + x) + ":" + id2;
  }

  /** Two entities share their fields exactly when they are the same or a colon can be read on either side of the split. */
  lemma EntitiesShareKeyIff(type1: string, id1: string, type2: string, id2: string)
    ensures EntityKey(type1, id1) == EntityKey(type2, id2)
       <==> (type1 == type2 && id1 == id2) || Shifted(type1, id1, type2, id2) || Shifted(type2, id2, type1, id1)
  {
    var key1, key2 := EntityKey(type1, id1), EntityKey(type2, id2);
    if key1 == key2 {
      if |type1| < |type2| {
        ShorterTypeIsShifted(type1, id1, type2, id2);
      } else if |type2| < |type1| {
        ShorterTypeIsShifted(type2, id2, type1, id1);
      } else {
        assert type1 == key1[..|type1|] && id1 == key1[|type1| + 1..];
        assert type2 == key2[..|type2|] && id2 == key2[|type2| + 1..];
      }
    }
    if Shifted(type1, id1, type2, id2) {
      ShiftedShareKey(type1, id1, type2, id2);
    }
    if Shifted(type2, id2, type1, id1) {
      ShiftedShareKey(type2, id2, type1, id1);
    }
  }

  lemma ShiftedTypeHasColon(type1: string, id1: string, type2: string, id2: string)
    ensures Shifted(type1, id1, type2, id2) ==> ':' in type2
  {
    if x :| ShiftedBy(type1, id1, type2, id2, x) {
      assert type2[|type1|] == ':';
    }
  }

  /** So entities whose types have no colon keep separate fields. */
  lemma PlainTypesSeparate(type1: string, id1: string, type2: string, id2: string)
    requires ':' !in type1 && ':' !in type2
    ensures EntityKey(type1, id1) == EntityKey(type2, id2) <==> type1 == type2 && id1 == id2
  {
    EntitiesShareKeyIff(type1, id1, type2, id2);
    ShiftedTypeHasColon(type1, id1, type2, id2);
    ShiftedTypeHasColon(type2, id2, type1, id1);
  }

  // --- The effect of one mutation, field by field ---------------------------------------------

  /** Writing changes and their stamps: the changed fields take the new value, every other field stays. */
  lemma {:induction false} WrittenAt(values: map<string, Value>, stamps: map<string, Stamp>, client: string, time: int,
                                     changes: seq<(string, Value)>, f: string)
    ensures var v', st', want := WriteAll(values, changes), StampAll(stamps, client, time, changes), AsMap(changes);
            && (f in v' <==> f in values || f in want) && (f in st' <==> f in stamps || f in want)
            && (f in want ==> v'[f] == want[f] && st'[f] == Stamp(client, time, want[f]))
            && (f !in want && f in values ==> v'[f] == values[f])
            && (f !in want && f in stamps ==> st'[f] == stamps[f])
  {
    if changes == [] {
    } else {
      WrittenAt(values, stamps, client, time, changes[..|changes| - 1], f);
    }
  }

  lemma AsMapSnoc(changes: seq<(string, Value)>, change: (string, Value))
    ensures AsMap(changes + [change]) == AsMap(changes)[change.0 := change.1]
  {
    assert (changes + [change])[..|changes|] == changes;
  }

  ghost predicate Splits(stamps: map<string, Stamp>, client: string, want: map<string, Value>, picked: map<string, Value>, clashing: bool) {
    && (forall f :: f in picked <==> f in want && Clashes(stamps, client, f, want[f]) == clashing)
    && (forall f :: f in picked ==> picked[f] == want[f])
  }

  lemma SplitsOneMore(stamps: map<string, Stamp>, client: string, want: map<string, Value>, picked: map<string, Value>, clashing: bool,
                      f: string, v: Value)
    requires Splits(stamps, client, want, picked, clashing) && f !in want
    ensures Splits(stamps, client, want[f := v], if Clashes(stamps, client, f, v) == clashing then picked[f := v] else picked, clashing)
  {
  }

  lemma {:induction false} SelectSplits(stamps: map<string, Stamp>, client: string, changes: FieldChanges, clashing: bool)
    ensures Splits(stamps, client, AsMap(changes), AsMap(Select(stamps, client, changes, clashing)), clashing)
  {
    if changes == [] {
    } else {
      var last := |changes| - 1;
      var rest: FieldChanges := changes[..last];
      SelectSplits(stamps, client, rest, clashing);
      AsMapKey(rest, changes[last].0);
      AsMapSnoc(Select(stamps, client, rest, clashing), changes[last]);
      SplitsOneMore(stamps, client, AsMap(rest), AsMap(Select(stamps, client, rest, clashing)), clashing, changes[last].0, changes[last].1);
    }
  }

  lemma {:induction false} SelectNone(stamps: map<string, Stamp>, client: string, changes: FieldChanges, clashing: bool)
    ensures Select(stamps, client, changes, clashing) == [] <==> Splits(stamps, client, AsMap(changes), map[], clashing)
  {
    SelectSplits(stamps, client, changes, clashing);
    var picked := Select(stamps, client, changes, clashing);
    if picked != [] {
      AsMapKey(picked, picked[0].0);
    }
  }

  /** The server side of a record names the same fields, each with the value last stamped. */
  lemma {:induction false} ServerSideAt(stamps: map<string, Stamp>, changes: seq<(string, Value)>, f: string)
    ensures var server := AsMap(ServerSide(stamps, changes));
            && (f in server <==> f in AsMap(changes))
            && (f in server && f in stamps ==> server[f] == stamps[f].value)
  {
    if changes == [] {
    } else {
      var last := |changes| - 1;
      ServerSideAt(stamps, changes[..last], f);
      var g := changes[last].0;
      AsMapSnoc(ServerSide(stamps, changes[..last]), (g, if g in stamps then stamps[g].value else Null));
    }
  }

  /** The mutation asks for a value of the field that another client wrote last, with another value. */
  predicate ClashesAt(s: State, m: Mutation, f: string) {
    var want, stamps := AsMap(m.changes), GetOrEmpty(s.stamps, EntityKey(m.entityType, m.entityId));
    f in want && f in stamps && stamps[f].clientId != m.clientId && stamps[f].value != want[f]
  }

  /** The client's value of the field is in place, stamped with the client. */
  predicate AppliedIn(s': State, m: Mutation, f: string) {
    var want, key := AsMap(m.changes), EntityKey(m.entityType, m.entityId);
    && f in want
    && f in GetOrEmpty(s'.values, key) && s'.values[key][f] == want[f]
    && f in GetOrEmpty(s'.stamps, key) && s'.stamps[key][f] == Stamp(m.clientId, m.timestamp, want[f])
  }

  /** The client's value of the field is held for review beside the server value it met in s. */
  predicate HeldIn(s: State, s': State, m: Mutation, f: string) {
    var want, id, key := AsMap(m.changes), ConflictId(m.mutationId), EntityKey(m.entityType, m.entityId);
    && f in want
    && id in s'.conflicts
    && f in AsMap(s'.conflicts[id].clientFields) && AsMap(s'.conflicts[id].clientFields)[f] == want[f]
    && f in GetOrEmpty(s.stamps, key)
    && f in AsMap(s'.conflicts[id].serverFields) && AsMap(s'.conflicts[id].serverFields)[f] == s.stamps[key][f].value
  }

  ghost predicate SameField(s: State, s': State, key: string, f: string) {
    && (f in GetOrEmpty(s.values, key) <==> f in GetOrEmpty(s'.values, key))
    && (f in GetOrEmpty(s.values, key) ==> s.values[key][f] == s'.values[key][f])
    && (f in GetOrEmpty(s.stamps, key) <==> f in GetOrEmpty(s'.stamps, key))
    && (f in GetOrEmpty(s.stamps, key) ==> s.stamps[key][f] == s'.stamps[key][f])
  }

  /** A new mutation applies exactly the fields that do not clash, leaves exactly those that do, and touches no other field. */
  lemma NewMutationFields(s: State, m: Mutation, key: string, f: string)
    requires m.mutationId !in s.processed
    ensures var s' := ReconcileOne(s, m).0;
            if key == EntityKey(m.entityType, m.entityId) && f in AsMap(m.changes) && !ClashesAt(s, m, f)
            then AppliedIn(s', m, f)
            else SameField(s, s', key, f)
  {
    if key == EntityKey(m.entityType, m.entityId) {
      OwnEntityFields(s, m, f);
    }
  }

  lemma OwnEntityFields(s: State, m: Mutation, f: string)
    requires m.mutationId !in s.processed
    ensures var s' := ReconcileOne(s, m).0;
            if f in AsMap(m.changes) && !ClashesAt(s, m, f)
            then AppliedIn(s', m, f)
            else SameField(s, s', EntityKey(m.entityType, m.entityId), f)
  {
    var entity := EntityKey(m.entityType, m.entityId);
    var stamps := GetOrEmpty(s.stamps, entity);
    var accepted := Select(stamps, m.clientId, m.changes, false);
    SelectSplits(stamps, m.clientId, m.changes, false);
    WrittenAt(GetOrEmpty(s.values, entity), stamps, m.clientId, m.timestamp, accepted, f);
  }

  /** It is staged exactly when some field clashes, and the record holds exactly the clashing fields. */
  lemma NewMutationConflicts(s: State, m: Mutation)
    requires m.mutationId !in s.processed
    ensures var (s', ack) := ReconcileOne(s, m);
            ack.status == (if exists f :: ClashesAt(s, m, f) then StagedForReview else Synced)
    ensures var (s', ack) := ReconcileOne(s, m);
            var id := ConflictId(m.mutationId);
            if ack.status == Synced then s'.conflicts == s.conflicts
            else && s'.conflicts.Keys == s.conflicts.Keys + {id}
                 && (forall other :: other in s.conflicts && other != id ==> s'.conflicts[other] == s.conflicts[other])
                 && s'.conflicts[id].status == PendingReview
                 && s'.conflicts[id].mutationId == m.mutationId
                 && (forall f :: f in AsMap(s'.conflicts[id].clientFields) <==> ClashesAt(s, m, f))
    ensures forall f :: ClashesAt(s, m, f) ==> HeldIn(s, ReconcileOne(s, m).0, m, f)
  {
    var stamps := GetOrEmpty(s.stamps, EntityKey(m.entityType, m.entityId));
    SelectSplits(stamps, m.clientId, m.changes, true);
    SelectNone(stamps, m.clientId, m.changes, true);
    forall f { ServerSideAt(stamps, Select(stamps, m.clientId, m.changes, true), f); }
    var want := AsMap(m.changes);
    assert forall f :: ClashesAt(s, m, f) <==> f in want && Clashes(stamps, m.clientId, f, want[f]);
  }

  lemma {:induction false} Named(changes: seq<(string, Value)>, f: string)
    ensures |Names(changes)| == |changes|
    ensures f in Names(changes) <==> f in AsMap(changes)
  {
    if changes == [] {
    } else {
      Named(changes[..|changes| - 1], f);
    }
  }

  lemma {:induction false} SelectParts(stamps: map<string, Stamp>, client: string, changes: seq<(string, Value)>)
    ensures |Select(stamps, client, changes, false)| + |Select(stamps, client, changes, true)| == |changes|
  {
    if changes == [] {
    } else {
      SelectParts(stamps, client, changes[..|changes| - 1]);
    }
  }

  /** Its acknowledgement names the mutation and the entity and lists each field once: under conflicts if it clashes, as applied if not. */
  lemma NewMutationAck(s: State, m: Mutation, f: string)
    requires m.mutationId !in s.processed
    ensures var ack := ReconcileOne(s, m).1;
            && ack.mutationId == m.mutationId && ack.entityId == m.entityId
            && (f in ack.conflicting <==> ClashesAt(s, m, f))
            && (f in ack.applied <==> f in AsMap(m.changes) && !ClashesAt(s, m, f))
            && |ack.applied| + |ack.conflicting| == |m.changes|
  {
    var stamps := GetOrEmpty(s.stamps, EntityKey(m.entityType, m.entityId));
    var accepted, rejected := Select(stamps, m.clientId, m.changes, false), Select(stamps, m.clientId, m.changes, true);
    SelectSplits(stamps, m.clientId, m.changes, false);
    SelectSplits(stamps, m.clientId, m.changes, true);
    SelectParts(stamps, m.clientId, m.changes);
    Named(accepted, f);
    Named(rejected, f);
  }

  // --- Batching and duplicates -------------------------------------------------------------------

  /** Splitting a batch in two changes neither the final state nor any acknowledgement. */
  lemma {:induction false} BatchAppend(s: State, a: seq<Mutation>, b: seq<Mutation>)
    ensures Batch(s, a + b).0 == Batch(Batch(s, a).0, b).0
    ensures Batch(s, a + b).1 == Batch(s, a).1 + Batch(Batch(s, a).0, b).1
  {
    if b == [] {
      assert a + b == a;
    } else {
      var last := |b| - 1;
      BatchAppend(s, a, b[..last]);
      assert (a + b)[..|a + b| - 1] == a + b[..last];
    }
  }

  lemma {:induction false} CountAppend(a: seq<Ack>, b: seq<Ack>, status: AckStatus)
    ensures CountStatus(a + b, status) == CountStatus(a, status) + CountStatus(b, status)
  {
    if b == [] {
      assert a + b == a;
    } else {
      var last := |b| - 1;
      CountAppend(a, b[..last], status);
      assert (a + b)[..|a + b| - 1] == a + b[..last];
    }
  }

  lemma {:induction false} CountsAddUp(acks: seq<Ack>)
    ensures CountStatus(acks, Synced) + CountStatus(acks, StagedForReview) + CountStatus(acks, IgnoredDuplicate) == |acks|
  {
    if acks == [] {
    } else {
      CountsAddUp(acks[..|acks| - 1]);
    }
  }

  /** Any run ends as if only the first delivery of each new id had happened. */
  lemma {:induction false} DuplicatesAreHarmless(s: State, es: seq<ServerEvent>)
    ensures Run(s, es) == Run(s, FirstDeliveries(s.processed, es))
  {
    if es == [] {
    } else {
      var last := |es| - 1;
      DuplicatesAreHarmless(s, es[..last]);
      RunProcesses(s, es[..last]);
      var rest := FirstDeliveries(s.processed, es[..last]);
      assert (rest + [es[last]])[..|rest|] == rest;
    }
  }

  /** ... and in that shorter run every delivered id is new and is delivered exactly once. */
  lemma {:induction false} FirstDeliveriesAreDistinct(processed: set<string>, es: seq<ServerEvent>)
    ensures var r := FirstDeliveries(processed, es);
            && (forall id :: Delivers(r, id) <==> Delivers(es, id) && id !in processed)
            && (forall i, j :: 0 <= i < j < |r| && r[i].Deliver? && r[j].Deliver? ==> r[i].m.mutationId != r[j].m.mutationId)
  {
    if es == [] {
    } else {
      var last := |es| - 1;
      var rest, r := FirstDeliveries(processed, es[..last]), FirstDeliveries(processed, es);
      FirstDeliveriesAreDistinct(processed, es[..last]);
      assert es == es[..last] + [es[last]];
      forall id ensures Delivers(r, id) <==> Delivers(es, id) && id !in processed {
        DeliversSnoc(es[..last], es[last], id);
        DeliversSnoc(rest, es[last], id);
      }
      if r != rest && es[last].Deliver? {
        assert !Delivers(rest, es[last].m.mutationId);
      }
    }
  }

  /** A batch of known ids changes nothing and is acknowledged as duplicates throughout. */
  lemma {:induction false} RedeliveryIsIgnored(s: State, ms: seq<Mutation>)
    requires forall i :: 0 <= i < |ms| ==> ms[i].mutationId in s.processed
    ensures Batch(s, ms).0 == s
    ensures forall i :: 0 <= i < |ms| ==> Batch(s, ms).1[i] == Ack(ms[i].mutationId, IgnoredDuplicate, ms[i].entityId, [], [])
  {
    if ms == [] {
    } else {
      RedeliveryIsIgnored(s, ms[..|ms| - 1]);
    }
  }

  lemma BatchProcesses(s: State, ms: seq<Mutation>)
    ensures forall id :: id in Batch(s, ms).0.processed <==> id in s.processed || Delivers(Deliveries(ms), id)
  {
    BatchIsRun(s, ms);
    RunProcesses(s, Deliveries(ms));
  }

  /** Sending a whole batch again, as after a lost response, is a no-op on the server. */
  lemma RetryIsIdempotent(s: State, ms: seq<Mutation>)
    ensures Batch(Batch(s, ms).0, ms).0 == Batch(s, ms).0
    ensures CountStatus(Batch(Batch(s, ms).0, ms).1, IgnoredDuplicate) == |ms|
  {
    BatchProcesses(s, ms);
    var s' := Batch(s, ms).0;
    forall i | 0 <= i < |ms| ensures ms[i].mutationId in s'.processed {
      assert Deliveries(ms)[i] == Deliver(ms[i]);
    }
    RedeliveryIsIgnored(s', ms);
    AllDuplicates(Batch(s', ms).1);
  }

  lemma {:induction false} AllDuplicates(acks: seq<Ack>)
    requires forall a :: a in acks ==> a.status == IgnoredDuplicate
    ensures CountStatus(acks, IgnoredDuplicate) == |acks|
  {
    if acks == [] {
    } else {
      AllDuplicates(acks[..|acks| - 1]);
    }
  }

  // --- Invariants of every run ---------------------------------------------------------------------

  ghost predicate MirroredFields(values: map<string, Value>, stamps: map<string, Stamp>) {
    values.Keys == stamps.Keys && forall f :: f in values ==> values[f] == stamps[f].value
  }

  /** The value table and the stamp table name the same fields with the same values. */
  ghost predicate Mirrored(s: State) {
    && s.values.Keys == s.stamps.Keys
    && forall key :: key in s.values ==> MirroredFields(s.values[key], s.stamps[key])
  }

  /** Each held conflict belongs to a processed mutation, sits under its own id, and holds the server side of every client field. */
  ghost predicate ConflictsWellFormed(s: State) {
    forall id :: id in s.conflicts ==>
      var c := s.conflicts[id];
      && id == ConflictId(c.mutationId)
      && c.mutationId in s.processed
      && EntityKey(c.entityType, c.entityId) in s.values
      && c.clientFields != [] && forall f :: f in AsMap(c.clientFields) <==> f in AsMap(c.serverFields)
  }

  ghost predicate Inv(s: State) {
    Mirrored(s) && ConflictsWellFormed(s)
  }

  lemma {:induction false} WrittenTogether(values: map<string, Value>, stamps: map<string, Stamp>, client: string, time: int,
                                           changes: seq<(string, Value)>)
    requires MirroredFields(values, stamps)
    ensures MirroredFields(WriteAll(values, changes), StampAll(stamps, client, time, changes))
  {
    if changes == [] {
    } else {
      WrittenTogether(values, stamps, client, time, changes[..|changes| - 1]);
    }
  }

  lemma ReconcileOneKeepsMirror(s: State, m: Mutation)
    requires Mirrored(s)
    ensures Mirrored(ReconcileOne(s, m).0)
  {
    if m.mutationId !in s.processed {
      var key, s' := EntityKey(m.entityType, m.entityId), ReconcileOne(s, m).0;
      var stamps := GetOrEmpty(s.stamps, key);
      WrittenTogether(GetOrEmpty(s.values, key), stamps, m.clientId, m.timestamp, Select(stamps, m.clientId, m.changes, false));
    }
  }

  lemma ReconcileOneKeepsInv(s: State, m: Mutation)
    requires Inv(s)
    ensures Inv(ReconcileOne(s, m).0)
  {
    ReconcileOneKeepsMirror(s, m);
    if m.mutationId !in s.processed {
      var stamps := GetOrEmpty(s.stamps, EntityKey(m.entityType, m.entityId));
      var rejected := Select(stamps, m.clientId, m.changes, true);
      if rejected != [] {
        forall f { ServerSideAt(stamps, rejected, f); }
      }
    }
  }

  lemma ResolveKeepsInv(s: State, id: string, chosen: Option<string>, custom: Option<seq<(string, Value)>>, now: int)
    requires Inv(s)
    ensures Inv(Resolve(s, id, chosen, custom, now).0)
  {
    if id in s.conflicts {
      var s', c := Resolve(s, id, chosen, custom, now).0, s.conflicts[id];
      var key := EntityKey(c.entityType, c.entityId);
      assert key in s.values;
      var writer := if chosen.Some? && chosen.value != "" then chosen.value else c.clientId;
      if ResolutionTarget(c, chosen, custom).Ok? {
        WrittenTogether(s.values[key], s.stamps[key], writer, now, ResolutionTarget(c, chosen, custom).value);
      }
      assert Mirrored(s');
      assert s'.conflicts.Keys == s.conflicts.Keys;
      assert ConflictsWellFormed(s');
    }
  }

  lemma {:induction false} RunKeepsInv(s: State, es: seq<ServerEvent>)
    requires Inv(s)
    ensures Inv(Run(s, es))
  {
    if es == [] {
    } else {
      var last := |es| - 1;
      RunKeepsInv(s, es[..last]);
      var before := Run(s, es[..last]);
      match es[last]
      case Deliver(m) => ReconcileOneKeepsInv(before, m);
      case Review(id, chosen, custom, now) => ResolveKeepsInv(before, id, chosen, custom, now);
    }
  }

  /**
   No silent overwrite, in every reachable state: a delivery changes an existing value only for the client
   that wrote it last; every other attempt leaves value and stamp alone and holds the exact pair.
   */
  lemma NoSilentOverwrite(es: seq<ServerEvent>, m: Mutation, key: string, f: string)
    requires var s := Run(EMPTY, es); key in s.values && f in s.values[key]
    ensures var s, s' := Run(EMPTY, es), Run(EMPTY, es + [Deliver(m)]);
            && key in s'.values && f in s'.values[key] && key in s.stamps && f in s.stamps[key]
            && (s'.values[key][f] != s.values[key][f] ==>
                  && m.clientId == s.stamps[key][f].clientId
                  && key == EntityKey(m.entityType, m.entityId)
                  && f in AsMap(m.changes) && s'.values[key][f] == AsMap(m.changes)[f])
            && (m.mutationId !in s.processed && key == EntityKey(m.entityType, m.entityId) && f in AsMap(m.changes)
                  && m.clientId != s.stamps[key][f].clientId && AsMap(m.changes)[f] != s.values[key][f] ==>
                  HeldIn(s, s', m, f) && SameField(s, s', key, f)
                  && AsMap(s'.conflicts[ConflictId(m.mutationId)].serverFields)[f] == s.values[key][f])
  {
    var s := Run(EMPTY, es);
    RunKeepsInv(EMPTY, es);
    assert (es + [Deliver(m)])[..|es|] == es;
    if m.mutationId !in s.processed {
      NewMutationFields(s, m, key, f);
      NewMutationConflicts(s, m);
    }
  }

  /** Processed ids and held conflicts are never forgotten; a held conflict only ever changes its review status. */
  ghost predicate Remembers(s: State, s': State) {
    && s.processed <= s'.processed
    && forall id :: id in s.conflicts ==>
         id in s'.conflicts && s'.conflicts[id].(status := s.conflicts[id].status) == s.conflicts[id]
  }

  lemma ConflictIdInjective()
    ensures forall a, b :: ConflictId(a) == ConflictId(b) ==> a == b
  {
    forall a, b | ConflictId(a) == ConflictId(b) ensures a == b {
      assert ConflictId(a)[|"conflict-"|..] == a;
      assert ConflictId(b)[|"conflict-"|..] == b;
    }
  }

  lemma StepRemembers(s: State, e: ServerEvent)
    requires ConflictsWellFormed(s)
    ensures Remembers(s, ServerStep(s, e))
  {
    if e.Deliver? && e.m.mutationId !in s.processed {
      ConflictIdInjective();
      NewMutationConflicts(s, e.m);
    }
  }

  lemma {:induction false} RunRemembers(s: State, es: seq<ServerEvent>)
    requires Inv(s)
    ensures Remembers(s, Run(s, es))
  {
    if es == [] {
    } else {
      var last := |es| - 1;
      RunRemembers(s, es[..last]);
      RunKeepsInv(s, es[..last]);
      StepRemembers(Run(s, es[..last]), es[last]);
    }
  }

  /** Where in the run the id was first delivered. */
  ghost predicate FirstAt(es: seq<ServerEvent>, k: nat, id: string) {
    k < |es| && es[k].Deliver? && es[k].m.mutationId == id && !Delivers(es[..k], id)
  }

  lemma HeldStays(met: State, s: State, s': State, m: Mutation, f: string)
    requires HeldIn(met, s, m, f) && Remembers(s, s')
    ensures HeldIn(met, s', m, f)
  {
  }

  lemma EffectOfStep(met: State, m: Mutation, later: seq<ServerEvent>, f: string)
    requires Inv(met) && m.mutationId !in met.processed && f in AsMap(m.changes)
    ensures var after := ReconcileOne(met, m).0;
            if ClashesAt(met, m, f) then HeldIn(met, Run(after, later), m, f) else AppliedIn(after, m, f)
  {
    var after := ReconcileOne(met, m).0;
    NewMutationFields(met, m, EntityKey(m.entityType, m.entityId), f);
    NewMutationConflicts(met, m);
    ReconcileOneKeepsInv(met, m);
    RunRemembers(after, later);
    if ClashesAt(met, m, f) {
      HeldStays(met, after, Run(after, later), m, f);
    }
  }

  lemma RunSplitsAt(es: seq<ServerEvent>, k: nat)
    requires k < |es|
    ensures Run(EMPTY, es[..k + 1]) == ServerStep(Run(EMPTY, es[..k]), es[k])
    ensures Run(EMPTY, es) == Run(Run(EMPTY, es[..k + 1]), es[k + 1..])
  {
    RunNext(es, k);
    RunAppend(EMPTY, es[..k + 1], es[k + 1..]);
    Rejoined(es, k + 1);
  }

  lemma Rejoined<T>(s: seq<T>, k: nat)
    requires k <= |s|
    ensures s[..k] + s[k..] == s
  {
  }

  lemma RunNext(es: seq<ServerEvent>, k: nat)
    requires k < |es|
    ensures Run(EMPTY, es[..k + 1]) == ServerStep(Run(EMPTY, es[..k]), es[k])
  {
    assert es[..k + 1][..k] == es[..k];
  }

  /**
   A mutation processed at some point of a run took effect there, and only there: each of its fields was
   applied at that step or is held, to this day, with the server value it met.
   */
  lemma EffectSurvives(es: seq<ServerEvent>, k: nat, f: string)
    requires k < |es| && es[k].Deliver? && FirstAt(es, k, es[k].m.mutationId)
    requires f in AsMap(es[k].m.changes)
    ensures var m, met, after, end := es[k].m, Run(EMPTY, es[..k]), Run(EMPTY, es[..k + 1]), Run(EMPTY, es);
            if ClashesAt(met, m, f) then HeldIn(met, end, m, f) else AppliedIn(after, m, f)
  {
    RunSplitsAt(es, k);
    RunProcesses(EMPTY, es[..k]);
    RunKeepsInv(EMPTY, es[..k]);
    EffectOfStep(Run(EMPTY, es[..k]), es[k].m, es[k + 1..], f);
  }

  // --- One key for two entities ---------------------------------------------------------------------

  const OF_C := Mutation("m1", "client-a", "", "", "A:B", "c", 1, [("rate", Number(1.0))])

  const OF_B_C := Mutation("m2", "client-b", "", "", "A", "B:c", 2, [("rate", Number(2.0))])

  lemma OneChange(f: string, v: Value)
    ensures AsMap([(f, v)]) == map[f := v]
  {
    assert [(f, v)][..0] == [];
  }

  /** Entity "c" of type "A:B" and entity "B:c" of type "A" share a key, so a write of the one is held for review because of the other. */
  lemma DistinctEntitiesClash()
    ensures (OF_C.entityType, OF_C.entityId) != (OF_B_C.entityType, OF_B_C.entityId)
    ensures ReconcileOne(ReconcileOne(EMPTY, OF_C).0, OF_B_C).1.status == StagedForReview
  {
    var met := ReconcileOne(EMPTY, OF_C).0;
    OneChange("rate", Number(1.0));
    OneChange("rate", Number(2.0));
    SharedKey();
    NewMutationFields(EMPTY, OF_C, EntityKey("A:B", "c"), "rate");
    assert ClashesAt(met, OF_B_C, "rate");
    NewMutationConflicts(met, OF_B_C);
  }

  lemma SharedKey()
    ensures EntityKey("A:B", "c") == EntityKey("A", "B:c")
  {
    assert ShiftedBy("A", "B:c", "A:B", "c", "B");
    ShiftedShareKey("A", "B:c", "A:B", "c");
  }
}
