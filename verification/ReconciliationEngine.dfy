/** The reconciler as the server runs it: tables updated in place, one loop over the batch, one over the fields. */
module ReconciliationEngine {
  import opened Prelude
  import opened Reconciler
  import opened ReconcilerTheorems

  lemma BatchSnoc(s: State, ms: seq<Mutation>, m: Mutation)
    ensures Batch(s, ms + [m]).0 == ReconcileOne(Batch(s, ms).0, m).0
    ensures Batch(s, ms + [m]).1 == Batch(s, ms).1 + [ReconcileOne(Batch(s, ms).0, m).1]
  {
    assert (ms + [m])[..|ms|] == ms;
  }

  lemma CountSnoc(acks: seq<Ack>, ack: Ack)
    ensures forall status :: CountStatus(acks + [ack], status) == CountStatus(acks, status) + (if ack.status == status then 1 else 0)
  {
    assert (acks + [ack])[..|acks|] == acks;
  }

  lemma ResolveAfterTouch(s: State, id: string, chosen: Option<string>, custom: Option<seq<(string, Value)>>, now: int)
    requires id in s.conflicts && ResolutionTarget(s.conflicts[id], chosen, custom).Ok?
    ensures var c, s' := s.conflicts[id], Resolve(s, id, chosen, custom, now).0;
            var key, target := EntityKey(c.entityType, c.entityId), ResolutionTarget(c, chosen, custom).value;
            var writer := if chosen.Some? && chosen.value != "" then chosen.value else c.clientId;
            var t := Touch(s, key);
            && s'.processed == s.processed
            && s'.values == t.values[key := WriteAll(t.values[key], target)]
            && s'.stamps == t.stamps[key := StampAll(t.stamps[key], writer, now, target)]
            && s'.conflicts == s.conflicts[id := c.(status := Resolved)]
  {
  }

  lemma NotYetWritten(stamps: map<string, Stamp>, m: Mutation, i: nat)
    requires i < |m.changes|
    ensures m.changes[i].0 !in AsMap(Select(stamps, m.clientId, m.changes[..i], false))
  {
    var before: FieldChanges := m.changes[..i];
    AsMapKey(before, m.changes[i].0);
    SelectSplits(stamps, m.clientId, before, false);
  }

  /** A field of the mutation meets the stamp from before the mutation: none of its other fields touches that one. */
  lemma MeetsOldStamp(values: map<string, Value>, stamps: map<string, Stamp>, m: Mutation, i: nat)
    requires i < |m.changes|
    ensures var now, f := StampAll(stamps, m.clientId, m.timestamp, Select(stamps, m.clientId, m.changes[..i], false)), m.changes[i].0;
            (f in now <==> f in stamps) && (f in stamps ==> now[f] == stamps[f])
  {
    NotYetWritten(stamps, m, i);
    WrittenAt(values, stamps, m.clientId, m.timestamp, Select(stamps, m.clientId, m.changes[..i], false), m.changes[i].0);
  }

  /** One more field joins the held or the taken ones. */
  lemma SelectNext(stamps: map<string, Stamp>, client: string, changes: seq<(string, Value)>, i: nat, clashing: bool)
    requires i < |changes|
    ensures var before := Select(stamps, client, changes[..i], clashing);
            Select(stamps, client, changes[..i + 1], clashing) ==
              (if Clashes(stamps, client, changes[i].0, changes[i].1) == clashing then before + [changes[i]] else before)
  {
    assert changes[..i + 1][..i] == changes[..i];
  }

  /** Writing one more change. */
  lemma WriteNext(values: map<string, Value>, stamps: map<string, Stamp>, client: string, time: int, taken: seq<(string, Value)>, c: (string, Value))
    ensures WriteAll(values, taken + [c]) == WriteAll(values, taken)[c.0 := c.1]
    ensures StampAll(stamps, client, time, taken + [c]) == StampAll(stamps, client, time, taken)[c.0 := Stamp(client, time, c.1)]
    ensures Names(taken + [c]) == Names(taken) + [c.0]
  {
    assert (taken + [c])[..|taken|] == taken;
  }

  lemma ServerSideSnoc(stamps: map<string, Stamp>, changes: seq<(string, Value)>, name: string, value: Value)
    requires name in stamps
    ensures ServerSide(stamps, changes + [(name, value)]) == ServerSide(stamps, changes) + [(name, stamps[name].value)]
  {
    assert (changes + [(name, value)])[..|changes|] == changes;
  }

  /** The field loop: merges what does not clash into the entity's fields, collects what does beside the server's value. */
  method MergeFields(oldValues: map<string, Value>, oldStamps: map<string, Stamp>, item: Mutation)
    returns (values: map<string, Value>, stamps: map<string, Stamp>, appliedFields: seq<string>,
             conflictDict: seq<(string, Value)>, serverConflictDict: seq<(string, Value)>)
    ensures conflictDict == Select(oldStamps, item.clientId, item.changes, true)
    ensures serverConflictDict == ServerSide(oldStamps, conflictDict)
    ensures var taken := Select(oldStamps, item.clientId, item.changes, false);
            && values == WriteAll(oldValues, taken)
            && stamps == StampAll(oldStamps, item.clientId, item.timestamp, taken)
            && appliedFields == Names(taken)
  {
    values, stamps, appliedFields, conflictDict, serverConflictDict := oldValues, oldStamps, [], [], [];
    for i := 0 to |item.changes|
      invariant conflictDict == Select(oldStamps, item.clientId, item.changes[..i], true)
      invariant serverConflictDict == ServerSide(oldStamps, conflictDict)
      invariant values == WriteAll(oldValues, Select(oldStamps, item.clientId, item.changes[..i], false))
      invariant stamps == StampAll(oldStamps, item.clientId, item.timestamp, Select(oldStamps, item.clientId, item.changes[..i], false))
      invariant appliedFields == Names(Select(oldStamps, item.clientId, item.changes[..i], false))
    {
      var (name, value) := item.changes[i];
      MeetsOldStamp(oldValues, oldStamps, item, i);
      SelectNext(oldStamps, item.clientId, item.changes, i, true);
      SelectNext(oldStamps, item.clientId, item.changes, i, false);
      if name in stamps && stamps[name].clientId != item.clientId && stamps[name].value != value {
        ServerSideSnoc(oldStamps, conflictDict, name, value);
        conflictDict := conflictDict + [(name, value)];
        serverConflictDict := serverConflictDict + [(name, stamps[name].value)];
      } else {
        WriteNext(oldValues, oldStamps, item.clientId, item.timestamp,
                  Select(oldStamps, item.clientId, item.changes[..i], false), item.changes[i]);
        values := values[name := value];
        stamps := stamps[name := Stamp(item.clientId, item.timestamp, value)];
        appliedFields := appliedFields + [name];
      }
    }
    assert item.changes[..|item.changes|] == item.changes;
  }

  class StagedConflictRecord {
    const conflictId: string
    const mutation: Mutation
    const clientFields: seq<(string, Value)>
    const serverFields: seq<(string, Value)>
    var status: ReviewStatus

    constructor (conflictId: string, mutation: Mutation, clientFields: seq<(string, Value)>, serverFields: seq<(string, Value)>)
      ensures this.conflictId == conflictId
      ensures View() == Conflict(mutation.mutationId, mutation.clientId, mutation.workspaceId, mutation.userId,
                                 mutation.entityType, mutation.entityId, mutation.timestamp,
                                 clientFields, serverFields, PendingReview)
    {
      this.conflictId := conflictId;
      this.mutation := mutation;
      this.clientFields := clientFields;
      this.serverFields := serverFields;
      this.status := PendingReview;
    }

    function View(): Conflict
      reads this
    {
      Conflict(mutation.mutationId, mutation.clientId, mutation.workspaceId, mutation.userId,
               mutation.entityType, mutation.entityId, mutation.timestamp, clientFields, serverFields, status)
    }
  }

  class Engine {
    var processedMutations: set<string>
    var entityStates: map<string, map<string, Value>>
    var entityFieldTimestamps: map<string, map<string, Stamp>>
    var stagedConflicts: map<string, StagedConflictRecord>

    constructor ()
      ensures Valid() && View() == EMPTY
    {
      processedMutations, entityStates, entityFieldTimestamps, stagedConflicts := {}, map[], map[], map[];
    }

    ghost predicate Valid()
      reads this`stagedConflicts, stagedConflicts.Values
    {
      forall id :: id in stagedConflicts ==> stagedConflicts[id].conflictId == id
    }

    ghost function View(): State
      reads this, stagedConflicts.Values
    {
      State(processedMutations, entityStates, entityFieldTimestamps, Conflicts())
    }

    ghost function Conflicts(): map<string, Conflict>
      reads this`stagedConflicts, stagedConflicts.Values
    {
      map id | id in stagedConflicts :: stagedConflicts[id].View()
    }

    method ReconcileBatch(mutations: seq<Mutation>) returns (response: Response)
      requires Valid()
      modifies this
      ensures Valid()
      ensures View() == Batch(old(View()), mutations).0
      ensures response.results == Batch(old(View()), mutations).1
      ensures response.processedCount == |mutations|
      ensures response.syncedCount == CountStatus(response.results, Synced)
      ensures response.conflictCount == CountStatus(response.results, StagedForReview)
      ensures response.failedCount == 0
      ensures response.syncedCount + response.conflictCount + CountStatus(response.results, IgnoredDuplicate) == response.processedCount
    {
      var results: seq<Ack> := [];
      var syncedCount, conflictCount := 0, 0;
      ghost var start := View();
      for i := 0 to |mutations|
        invariant Valid()
        invariant View() == Batch(start, mutations[..i]).0 && results == Batch(start, mutations[..i]).1
        invariant syncedCount == CountStatus(results, Synced)
        invariant conflictCount == CountStatus(results, StagedForReview)
      {
        ghost var before := View();
        var ack := ReconcileItem(mutations[i]);
        BatchSnoc(start, mutations[..i], mutations[i]);
        assert mutations[..i + 1] == mutations[..i] + [mutations[i]];
        CountSnoc(results, ack);
        if ack.status == StagedForReview {
          conflictCount := conflictCount + 1;
        } else if ack.status == Synced {
          syncedCount := syncedCount + 1;
        }
        results := results + [ack];
      }
      assert mutations[..|mutations|] == mutations;
      CountsAddUp(results);
      response := Response(|mutations|, syncedCount, conflictCount, 0, results);
    }

    method ReconcileItem(item: Mutation) returns (ack: Ack)
      requires Valid()
      modifies this
      ensures Valid()
      ensures View() == ReconcileOne(old(View()), item).0
      ensures ack == ReconcileOne(old(View()), item).1
    {
      if item.mutationId in processedMutations {
        return Ack(item.mutationId, IgnoredDuplicate, item.entityId, [], []);
      }
      var key := EntityKey(item.entityType, item.entityId);
      var values, stamps, appliedFields, conflictDict, serverConflictDict :=
        MergeFields(GetOrEmpty(entityStates, key), GetOrEmpty(entityFieldTimestamps, key), item);
      entityStates := entityStates[key := values];
      entityFieldTimestamps := entityFieldTimestamps[key := stamps];
      processedMutations := processedMutations + {item.mutationId};
      assert Conflicts() == old(Conflicts());
      if conflictDict != [] {
        Stage(item, conflictDict, serverConflictDict);
        assert Conflicts() == old(Conflicts())[ConflictId(item.mutationId) := StageRecord(GetOrEmpty(old(View()).stamps, key), item)];
        ack := Ack(item.mutationId, StagedForReview, item.entityId, appliedFields, Names(conflictDict));
      } else {
        ack := Ack(item.mutationId, Synced, item.entityId, appliedFields, []);
      }
    }

    method Stage(item: Mutation, conflictDict: seq<(string, Value)>, serverConflictDict: seq<(string, Value)>)
      requires Valid()
      modifies this`stagedConflicts
      ensures Valid()
      ensures Conflicts() == old(Conflicts())[ConflictId(item.mutationId) :=
                Conflict(item.mutationId, item.clientId, item.workspaceId, item.userId, item.entityType, item.entityId,
                         item.timestamp, conflictDict, serverConflictDict, PendingReview)]
    {
      var staged := new StagedConflictRecord(ConflictId(item.mutationId), item, conflictDict, serverConflictDict);
      stagedConflicts := stagedConflicts[staged.conflictId := staged];
      assert Conflicts() == old(Conflicts())[staged.conflictId := staged.View()];
    }

    method ResolveConflict(conflictId: string, chosen: Option<string>, custom: Option<seq<(string, Value)>>, now: int)
      returns (r: Result<StagedConflictRecord, ResolveError>)
      requires Valid()
      modifies this, stagedConflicts.Values
      ensures Valid() && stagedConflicts == old(stagedConflicts)
      ensures View() == Resolve(old(View()), conflictId, chosen, custom, now).0
      ensures match Resolve(old(View()), conflictId, chosen, custom, now).1
              case Ok(c) => r.Ok? && conflictId in stagedConflicts && r.value == stagedConflicts[conflictId] && r.value.View() == c
              case Err(e) => r == Err(e)
    {
      if conflictId !in stagedConflicts {
        return Err(ConflictNotFound);
      }
      var staged := stagedConflicts[conflictId];
      var key := EntityKey(staged.mutation.entityType, staged.mutation.entityId);
      var target := ChooseTarget(staged, chosen, custom);
      TouchEntity(key);
      if target.Err? {
        return Err(target.error);
      }
      var writer := if chosen.Some? && chosen.value != "" then chosen.value else staged.mutation.clientId;
      WriteFields(key, target.value, writer, now);
      MarkResolved(conflictId);
      ResolveAfterTouch(old(View()), conflictId, chosen, custom, now);
      r := Ok(staged);
    }

    method TouchEntity(key: string)
      requires Valid()
      modifies this`entityStates, this`entityFieldTimestamps
      ensures View() == Touch(old(View()), key)
    {
      entityStates := entityStates[key := GetOrEmpty(entityStates, key)];
      entityFieldTimestamps := entityFieldTimestamps[key := GetOrEmpty(entityFieldTimestamps, key)];
    }

    method ChooseTarget(staged: StagedConflictRecord, chosen: Option<string>, custom: Option<seq<(string, Value)>>)
      returns (target: Result<seq<(string, Value)>, ResolveError>)
      ensures target == ResolutionTarget(staged.View(), chosen, custom)
    {
      if custom.Some? {
        target := Ok(custom.value);
      } else if chosen.Some? && chosen.value != "" && chosen.value == staged.mutation.clientId {
        target := Ok(staged.clientFields);
      } else if chosen.Some? {
        target := Err(ClientNotPartOfConflict);
      } else {
        target := Ok([]);
      }
    }

    method MarkResolved(conflictId: string)
      requires Valid() && conflictId in stagedConflicts
      modifies stagedConflicts[conflictId]
      ensures Valid()
      ensures Conflicts() == old(Conflicts())[conflictId := old(Conflicts())[conflictId].(status := Resolved)]
    {
      var staged := stagedConflicts[conflictId];
      staged.status := Resolved;
      assert forall id :: id in stagedConflicts && id != conflictId ==> stagedConflicts[id] != staged;
      assert Conflicts() == old(Conflicts())[conflictId := old(Conflicts())[conflictId].(status := Resolved)];
    }

    /** The field loop of a resolution. */
    method WriteFields(key: string, target: seq<(string, Value)>, writer: string, now: int)
      requires Valid() && key in entityStates && key in entityFieldTimestamps
      modifies this`entityStates, this`entityFieldTimestamps
      ensures entityStates == old(entityStates)[key := WriteAll(old(entityStates)[key], target)]
      ensures entityFieldTimestamps == old(entityFieldTimestamps)[key := StampAll(old(entityFieldTimestamps)[key], writer, now, target)]
      ensures Conflicts() == old(Conflicts())
    {
      for i := 0 to |target|
        invariant entityStates == old(entityStates)[key := WriteAll(old(entityStates)[key], target[..i])]
        invariant entityFieldTimestamps ==
                  old(entityFieldTimestamps)[key := StampAll(old(entityFieldTimestamps)[key], writer, now, target[..i])]
      {
        var (name, value) := target[i];
        entityStates := entityStates[key := entityStates[key][name := value]];
        entityFieldTimestamps := entityFieldTimestamps[key := entityFieldTimestamps[key][name := Stamp(writer, now, value)]];
        assert target[..i + 1][..i] == target[..i];
      }
      assert target[..|target|] == target;
    }
  }
}
