/** What the other requests of the revision store do: deciding on ChangeSets, editing them, importing and moving single cameras. */
module RevisionEffects {
  import opened Prelude
  import opened Merge
  import opened Revisions
  import opened RevisionTheorems
  import opened ImportEffects

  // --- What an approval records ----------------------------------------------------------------------------

  /** The history has the item's patch at the position, as a revision of the ChangeSet. */
  predicate RecordedAt(history: seq<Revision>, at: nat, id: Uuid, item: Item) {
    at < |history| && history[at] == Revision(at + 1, item.patch, None, Some(id))
  }

  lemma AppliedIsRecorded(s: State, projectId: Uuid, id: Uuid, item: Item)
    ensures RecordedAt(History(ApplyItem(s, projectId, id, item), item.entityId), |History(s, item.entityId)|, id, item)
  {
  }

  lemma RecordedStays(s: State, projectId: Uuid, id: Uuid, next: Item, at: nat, item: Item)
    requires RecordedAt(History(s, item.entityId), at, id, item)
    ensures RecordedAt(History(ApplyItem(s, projectId, id, next), item.entityId), at, id, item)
  {
  }

  /** Each item's patch is a revision of its own, in the order of the items. */
  lemma {:induction false} ItemIsRevision(s: State, projectId: Uuid, id: Uuid, items: seq<Item>, k: nat)
    requires k < |items|
    ensures var e := items[k].entityId;
            RecordedAt(History(ApplyItems(s, projectId, id, items), e), |History(s, e)| + Occurrences(items[..k], e), id, items[k])
  {
    var last := |items| - 1;
    var before, e := ApplyItems(s, projectId, id, items[..last]), items[k].entityId;
    if k == last {
      ApplyItemsAppends(s, projectId, id, items[..last], e);
      AppliedIsRecorded(before, projectId, id, items[last]);
    } else {
      ItemIsRevision(s, projectId, id, items[..last], k);
      assert items[..last][..k] == items[..k];
      RecordedStays(before, projectId, id, items[last], |History(s, e)| + Occurrences(items[..k], e), items[k]);
    }
  }

  /** The conflict names the item's camera and, with all three values, exactly the fields changed on both sides. */
  ghost predicate Tells(s: State, item: Item, c: ItemConflict) {
    && item.entityId in s.cameras && c.entityId == item.entityId
    && (forall f :: (exists x :: x in c.fields && x.field == f) <==> BothChanged(item.basePayload, s.cameras[item.entityId].payload, item.patch, f))
    && forall x :: x in c.fields ==>
         x == FieldConflict(x.field, BaseAt(item.basePayload, x.field), At(s.cameras[item.entityId].payload, x.field), At(item.patch, x.field))
  }

  /** The camera has moved on since the item was proposed, and some field was changed on both sides. */
  ghost predicate Stands(s: State, item: Item) {
    item.entityId in s.cameras && exists f :: BothChanged(item.basePayload, s.cameras[item.entityId].payload, item.patch, f)
  }

  lemma ConflictTells(s: State, item: Item)
    requires ResolveItem(s, item).Err?
    ensures Tells(s, item, ResolveItem(s, item).error)
  {
    var server := s.cameras[item.entityId].payload;
    MergeIsExact(item.basePayload, server, item.patch);
    forall x | x in ResolveItem(s, item).error.fields
      ensures x == FieldConflict(x.field, BaseAt(item.basePayload, x.field), At(server, x.field), At(item.patch, x.field))
    {
      MergeFieldsAt(item.basePayload, server, item.patch, FIELDS, x.field);
    }
  }

  ghost predicate ConflictsAt(s: State, items: seq<Item>, conflicts: seq<ItemConflict>, at: seq<nat>) {
    && Positions(at, |items|) && (forall i: nat :: i in at <==> i < |items| && ResolveItem(s, items[i]).Err?)
    && |conflicts| == |at| && forall k :: 0 <= k < |at| ==> Tells(s, items[at[k]], conflicts[k])
  }

  lemma ConflictsAtOneMore(s: State, items: seq<Item>, conflicts: seq<ItemConflict>, at: seq<nat>)
    requires items != [] && ConflictsAt(s, items[..|items| - 1], conflicts, at)
    ensures match ResolveItem(s, items[|items| - 1])
            case Ok(_) => ConflictsAt(s, items, conflicts, at)
            case Err(c) => ConflictsAt(s, items, conflicts + [c], at + [|items| - 1])
  {
    var front, last: nat := items[..|items| - 1], |items| - 1;
    assert forall i: nat :: i < last ==> front[i] == items[i];
    if ResolveItem(s, items[last]).Err? {
      ConflictTells(s, items[last]);
      assert forall i: nat :: i in at + [last] <==> i in at || i == last;
    }
  }

  lemma {:induction false} ConflictsInOrder(s: State, items: seq<Item>) returns (at: seq<nat>)
    ensures ConflictsAt(s, items, ResolveItems(s, items).1, at)
  {
    if items == [] {
      at := [];
    } else {
      var last := |items| - 1;
      var before := ConflictsInOrder(s, items[..last]);
      ConflictsAtOneMore(s, items, ResolveItems(s, items[..last]).1, before);
      at := if ResolveItem(s, items[last]).Err? then before + [last] else before;
    }
  }

  /** An approval that meets conflicts records, in order, each item that stands against its camera, with exactly the fields in question,
      and nothing else changes. */
  lemma ConflictsAreRecorded(states: seq<State>, steps: seq<Step>, n: nat, projectId: Uuid, id: Uuid) returns (at: seq<nat>)
    requires Behaviour(states, steps) && n <= |steps| && Approve(states[n], projectId, id).1 == Err(MergeConflict)
    ensures var s, s' := states[n], Approve(states[n], projectId, id).0;
            && OpenImport(s, projectId, id) && SameLog(s, s') && OthersStay(s, s', id) && id in s'.changesets
            && s'.changesets[id] == s.changesets[id].(status := Conflicted, conflicts := s'.changesets[id].conflicts)
            && |s'.changesets[id].conflicts| == |at| && Positions(at, |s.changesets[id].items|)
            && (forall k :: 0 <= k < |at| ==> Tells(s, s.changesets[id].items[at[k]], s'.changesets[id].conflicts[k]))
            && (forall i: nat :: i in at <==> i < |s.changesets[id].items| && Stands(s, s.changesets[id].items[i]))
  {
    var s := states[n];
    BehaviourKeepsInv(states, steps, n, n);
    at := ConflictsInOrder(s, s.changesets[id].items);
    forall i: nat | i < |s.changesets[id].items|
      ensures ResolveItem(s, s.changesets[id].items[i]).Err? <==> Stands(s, s.changesets[id].items[i])
    {
      var item := s.changesets[id].items[i];
      if item.entityId in s.cameras {
        ResolveMerges(s, id, item);
      }
    }
  }

  /** Anything but an open file import of the project cannot be approved, and the attempt changes nothing. */
  lemma OnlyOpenImportsAreApproved(s: State, projectId: Uuid, id: Uuid)
    requires !OpenImport(s, projectId, id)
    ensures Approve(s, projectId, id).0 == s && Approve(s, projectId, id).1.Err?
    ensures Approve(s, projectId, id).1 == Err(NotFound) <==> id !in s.changesets || s.changesets[id].projectId != projectId
  {
  }

  // --- Editing and rejecting ---------------------------------------------------------------------------------

  ghost predicate FirstRecord(items: seq<Item>, record: string, i: nat) {
    && i < |items| && items[i].recordIdentity == record
    && forall j :: 0 <= j < i ==> items[j].recordIdentity != record
  }

  lemma {:induction false} IndexIsFirst(items: seq<Item>, record: string)
    ensures match IndexOf(items, record)
            case Some(i) => FirstRecord(items, record, i)
            case None => forall j :: 0 <= j < |items| ==> items[j].recordIdentity != record
  {
    if items == [] {
    } else {
      IndexIsFirst(items[..|items| - 1], record);
    }
  }

  /** The item has the value in the field and is otherwise as it was. */
  ghost predicate SetsField(item: Item, item': Item, f: Field, v: Value) {
    && item' == item.(patch := item'.patch)
    && At(item'.patch, f) == v && forall g :: g != f ==> At(item'.patch, g) == At(item.patch, g)
  }

  /** An edit is accepted exactly for a named field of a record of an open import, and sets that field of the record's first item and
      nothing else; otherwise it changes nothing. */
  lemma EditTakesEffect(s: State, projectId: Uuid, id: Uuid, record: string, field: Option<Field>, value: Value)
    ensures var (s', r) := EditItem(s, projectId, id, record, field, value);
            && (r.Ok? <==> OpenImport(s, projectId, id) && field.Some? && exists i: nat :: FirstRecord(s.changesets[id].items, record, i))
            && (r.Err? ==> s' == s)
            && (r.Ok? ==>
                  && s' == s.(changesets := s'.changesets) && s'.changesets.Keys == s.changesets.Keys && OthersStay(s, s', id)
                  && s'.changesets[id] == s.changesets[id].(items := s'.changesets[id].items)
                  && |s'.changesets[id].items| == |s.changesets[id].items|)
            && forall i: nat :: r.Ok? && i < |s.changesets[id].items| ==>
                 if FirstRecord(s.changesets[id].items, record, i)
                 then SetsField(s.changesets[id].items[i], s'.changesets[id].items[i], field.value, value)
                 else s'.changesets[id].items[i] == s.changesets[id].items[i]
  {
    if OpenImport(s, projectId, id) {
      IndexIsFirst(s.changesets[id].items, record);
    }
  }

  /** The ChangeSet gets the status and nothing else changes. */
  ghost predicate OnlyStatus(s: State, s': State, id: Uuid, status: ChangeSetStatus) {
    && s' == s.(changesets := s'.changesets) && s'.changesets.Keys == s.changesets.Keys && OthersStay(s, s', id)
    && id in s.changesets && s'.changesets[id] == s.changesets[id].(status := status)
  }

  /** Exactly an open import, of a file or a document, can be rejected. */
  lemma RejectTakesEffect(s: State, projectId: Uuid, id: Uuid)
    ensures var (s', r) := Reject(s, projectId, id);
            && (r.Ok? <==> && id in s.changesets && s.changesets[id].projectId == projectId
                           && s.changesets[id].origin != OperateField && s.changesets[id].status == PendingApproval)
            && if r.Ok? then OnlyStatus(s, s', id, Rejected) else s' == s
  {
  }

  /** Any ChangeSet of the project can be sent to review, whatever its status. */
  lemma ReviewTakesEffect(s: State, projectId: Uuid, id: Uuid)
    ensures var (s', r) := MarkConflictReview(s, projectId, id);
            && (r.Ok? <==> id in s.changesets && s.changesets[id].projectId == projectId)
            && if r.Ok? then OnlyStatus(s, s', id, ConflictReview) else s' == s
  {
  }

  /** In every run an open ChangeSet approved as a field observation is applied exactly if its camera has as many revisions as the
      observation was based on, and at least one; otherwise it conflicts. Nothing else changes. */
  lemma ObservationAppliedIff(states: seq<State>, steps: seq<Step>, n: nat, projectId: Uuid, id: Uuid)
    requires Behaviour(states, steps) && n <= |steps|
    requires id in states[n].changesets && states[n].changesets[id].projectId == projectId && states[n].changesets[id].status == PendingApproval
    ensures var s := states[n];
            var (s', r) := ApproveObservation(s, projectId, id);
            && (r.Ok? <==> s.changesets[id].entityId in s.cameras && s.changesets[id].baseRevision == |History(s, s.changesets[id].entityId)|)
            && OnlyStatus(s, s', id, if r.Ok? then Applied else Conflicted)
  {
    var s := states[n];
    BehaviourKeepsInv(states, steps, n, n);
    if s.changesets[id].entityId in s.cameras {
      CurrentIsLength(s, s.changesets[id].entityId);
    }
  }

  // --- New ChangeSets of the other kinds ------------------------------------------------------------------------

  /** A document import opens a ChangeSet without items in a known project, unless its key is known: then that key's ChangeSet
      answers. Sent again under the same key it is answered with the same ChangeSet. */
  lemma DocumentTakesEffect(s: State, projectId: Uuid, revision: nat, key: Option<string>, newId: Uuid, laterId: Uuid)
    requires newId !in s.changesets
    ensures var (s', r) := CreateDocument(s, projectId, revision, key, newId);
            && SameLog(s, s') && OthersStay(s, s', newId)
            && (r.Err? <==> projectId !in s.projects)
            && (if r == Ok(newId) && newId in s'.changesets
                then s'.changesets[newId] == ChangeSet(projectId, DocumentImport, PendingApproval, 0, revision, [], [])
                else s' == s && (r.Ok? ==> key.Some? && key.value in s.byKey && r.value == s.byKey[key.value]))
            && (key.Some? && r.Ok? ==> CreateDocument(s', projectId, revision, key, laterId) == (s', r))
  {
  }

  /** An observation opens a ChangeSet for one camera at the revision it was based on. */
  lemma ObservationOpens(s: State, projectId: Uuid, e: Uuid, base: nat, newId: Uuid)
    requires newId !in s.changesets
    ensures var s' := SubmitObservation(s, projectId, e, base, newId);
            && s' == s.(changesets := s'.changesets) && OthersStay(s, s', newId) && s'.changesets.Keys == s.changesets.Keys + {newId}
            && s'.changesets[newId] == ChangeSet(projectId, OperateField, PendingApproval, e, base, [], [])
  {
  }

  // --- Single cameras ---------------------------------------------------------------------------------------------

  /** The camera's history has one revision more. */
  ghost predicate Recorded(s: State, s': State, e: Uuid, data: Payload, geometry: Option<Geometry>, changesetId: Option<Uuid>) {
    && History(s', e) == History(s, e) + [Revision(|History(s, e)| + 1, data, geometry, changesetId)]
    && forall other :: other != e ==> SameCamera(s, s', other)
  }

  /** In every run an imported camera is added under its code if the code is new, replaces the camera that has it if it differs, and
      changes nothing otherwise; an addition or a replacement is one revision of that camera and touches no other. */
  lemma DirectImportTakesEffect(states: seq<State>, steps: seq<Step>, n: nat, projectId: Uuid, e: Uuid, camera: Camera)
    requires Behaviour(states, steps) && n < |steps| && steps[n] == Import(projectId, e, camera)
    ensures var s, s' := states[n], states[n + 1];
            var row := Row(e, "", camera.payload);
            var target := Target(s, projectId, row);
            if IsKind(s, projectId, row, Unchanged) then s' == s
            else && Recorded(s, s', target, camera.payload, None, None) && target in s'.cameras && s'.cameras[target] == camera
                 && s'.codes == s.codes[(projectId, camera.payload.code) := target] && s'.changesets == s.changesets
  {
    RunResolvesCodes(states, steps, n);
    ImportIsOneRevision(states[n], projectId, e, camera);
  }

  lemma ImportIsOneRevision(s: State, projectId: Uuid, e: Uuid, camera: Camera)
    requires Inv(s)
    ensures var s' := ImportCamera(s, projectId, e, camera).0;
            var row := Row(e, "", camera.payload);
            var target := Target(s, projectId, row);
            if IsKind(s, projectId, row, Unchanged) then s' == s
            else && Recorded(s, s', target, camera.payload, None, None) && target in s'.cameras && s'.cameras[target] == camera
                 && s'.codes == s.codes[(projectId, camera.payload.code) := target] && s'.changesets == s.changesets
  {
    var key := (projectId, camera.payload.code);
    assert key in s.codes ==> s.codes[key := s.codes[key]] == s.codes;
  }

  /** In every run a new position is recorded exactly for a camera of the project that has as many revisions as the request was based
      on: as one revision with the camera's payload and that position. The cameras themselves stay. */
  lemma GeometryTakesEffect(states: seq<State>, steps: seq<Step>, n: nat, projectId: Uuid, e: Uuid, geometry: Geometry, base: nat, newId: Uuid)
    requires Behaviour(states, steps) && n < |steps| && steps[n] == SetGeometry(projectId, e, geometry, base, newId)
    ensures var s, s' := states[n], states[n + 1];
            if e in s.cameras && s.cameras[e].projectId == projectId && base == |History(s, e)|
            then Recorded(s, s', e, s.cameras[e].payload, Some(geometry), Some(newId)) && s' == s.(designed := s'.designed)
            else s' == s
  {
    BehaviourKeepsInv(states, steps, n, n);
    if e in states[n].cameras {
      CurrentIsLength(states[n], e);
    }
  }
}
