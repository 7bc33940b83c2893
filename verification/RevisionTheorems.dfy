/** The camera map is the projection of its log, approval is all-or-nothing and merges, and nothing is applied twice. */
module RevisionTheorems {
  import opened Prelude
  import opened Merge
  import opened Revisions

  // --- The invariant --------------------------------------------------------------------------------

  /** Non-empty, numbered 1..n, and ending in the camera's payload. */
  ghost predicate ProjectsTo(history: seq<Revision>, payload: Payload) {
    && history != []
    && (forall i :: 0 <= i < |history| ==> history[i].number == i + 1)
    && history[|history| - 1].data == payload
  }

  ghost predicate Projection(s: State) {
    s.cameras.Keys == s.designed.Keys && forall e :: e in s.cameras ==> ProjectsTo(s.designed[e], s.cameras[e].payload)
  }

  ghost predicate CodesResolve(s: State) {
    forall key :: key in s.codes ==> s.codes[key] in s.cameras
  }

  /** The item's base payload is what its base revision recorded. */
  ghost predicate BaseRecorded(designed: map<Uuid, seq<Revision>>, item: Item) {
    if item.baseRevision == 0 then item.basePayload == None
    else
      && item.entityId in designed && item.baseRevision <= |designed[item.entityId]|
      && item.basePayload == Some(designed[item.entityId][item.baseRevision - 1].data)
  }

  ghost predicate BasesRecorded(s: State) {
    forall id :: id in s.changesets ==> forall item :: item in s.changesets[id].items ==> BaseRecorded(s.designed, item)
  }

  ghost predicate IndexesResolve(s: State) {
    && (forall k :: k in s.byKey ==> s.byKey[k] in s.changesets)
    && (forall k :: k in s.byFile ==> s.byFile[k] in s.results)
    && (forall id :: id in s.results <==> id in s.changesets && s.changesets[id].origin == FileImport)
  }

  ghost predicate Inv(s: State) {
    Projection(s) && CodesResolve(s) && BasesRecorded(s) && IndexesResolve(s)
  }

  /** Histories only ever get longer. */
  ghost predicate LogExtends(old': map<Uuid, seq<Revision>>, new': map<Uuid, seq<Revision>>) {
    forall e :: e in old' ==> e in new' && old'[e] <= new'[e]
  }

  lemma BasesStayRecorded(s: State, designed: map<Uuid, seq<Revision>>)
    requires BasesRecorded(s) && LogExtends(s.designed, designed)
    ensures BasesRecorded(s.(designed := designed))
  {
    forall id, item | id in s.changesets && item in s.changesets[id].items ensures BaseRecorded(designed, item) {
      assert BaseRecorded(s.designed, item);
    }
  }

  /** The ChangeSet exists and is no longer open. */
  ghost predicate Settled(s: State, id: Uuid) {
    id in s.changesets && s.changesets[id].status != PendingApproval
  }

  // --- The fast path -----------------------------------------------------------------------------------

  /** With an unchanged revision number the shortcut gives what the three-way merge would give. */
  lemma FastPathIsMerge(s: State, id: Uuid, item: Item)
    requires Inv(s) && id in s.changesets && item in s.changesets[id].items
    requires item.entityId in s.cameras && CurrentNumber(s, item.entityId) == item.baseRevision
    ensures ResolveItem(s, item) == Ok(item)
    ensures MergePayload(item.basePayload, s.cameras[item.entityId].payload, item.patch) == (item.patch, [])
  {
    assert BaseRecorded(s.designed, item);
    assert ProjectsTo(s.designed[item.entityId], s.cameras[item.entityId].payload);
    MergeWithUnchangedServer(s.cameras[item.entityId].payload, item.patch);
  }

  // --- Resolving a list ---------------------------------------------------------------------------------

  /** Without conflicts the resolved list has one item per item; there are conflicts exactly when some item clashes. */
  lemma {:induction false} ResolveAllItems(s: State, items: seq<Item>)
    ensures var (resolved, conflicts) := ResolveItems(s, items);
            && (conflicts == [] <==> forall i :: 0 <= i < |items| ==> ResolveItem(s, items[i]).Ok?)
            && (conflicts == [] ==> |resolved| == |items| && forall i :: 0 <= i < |items| ==> Ok(resolved[i]) == ResolveItem(s, items[i]))
  {
    if items == [] {
    } else {
      var last := |items| - 1;
      ResolveAllItems(s, items[..last]);
      if ResolveItem(s, items[last]).Err? {
        assert ResolveItems(s, items).1 != [];
      }
    }
  }

  /** An item resolves exactly when no field was changed on both sides, and then keeps every one-sided change. */
  lemma ResolveMerges(s: State, id: Uuid, item: Item)
    requires Inv(s) && id in s.changesets && item in s.changesets[id].items && item.entityId in s.cameras
    ensures ResolveItem(s, item).Ok? <==>
            forall f :: !BothChanged(item.basePayload, s.cameras[item.entityId].payload, item.patch, f)
    ensures ResolveItem(s, item).Ok? ==>
            forall f :: KeepsEachChange(item.basePayload, s.cameras[item.entityId].payload, item.patch, ResolveItem(s, item).value.patch, f)
  {
    var server := s.cameras[item.entityId].payload;
    assert ProjectsTo(s.designed[item.entityId], server);
    NoConflictIff(item.basePayload, server, item.patch);
    MergeIsExact(item.basePayload, server, item.patch);
    if CurrentNumber(s, item.entityId) == item.baseRevision {
      FastPathIsMerge(s, id, item);
    }
  }

  // --- Applying a list -----------------------------------------------------------------------------------

  function Occurrences(items: seq<Item>, e: Uuid): nat {
    if items == [] then 0
    else Occurrences(items[..|items| - 1], e) + (if items[|items| - 1].entityId == e then 1 else 0)
  }

  ghost predicate LastFor(items: seq<Item>, i: nat) {
    i < |items| && forall j :: i < j < |items| ==> items[j].entityId != items[i].entityId
  }

  /** Recording a camera's payload in its own log keeps the projection. */
  lemma RecordKeepsProjection(s: State, e: Uuid, camera: Camera, g: Option<Geometry>, c: Option<Uuid>)
    requires Projection(s)
    ensures Projection(s.(cameras := s.cameras[e := camera], designed := AppendRevision(s.designed, e, camera.payload, g, c)))
    ensures LogExtends(s.designed, AppendRevision(s.designed, e, camera.payload, g, c))
  {
    if e in s.cameras {
      assert ProjectsTo(s.designed[e], s.cameras[e].payload);
    }
  }

  lemma ApplyItemKeepsProjection(s: State, projectId: Uuid, id: Uuid, item: Item)
    requires Projection(s) && CodesResolve(s)
    ensures var s' := ApplyItem(s, projectId, id, item); Projection(s') && CodesResolve(s') && LogExtends(s.designed, s'.designed)
  {
    var s' := ApplyItem(s, projectId, id, item);
    RecordKeepsProjection(s, item.entityId, s'.cameras[item.entityId], None, Some(id));
  }

  lemma {:induction false} ApplyItemsKeepsProjection(s: State, projectId: Uuid, id: Uuid, items: seq<Item>)
    requires Projection(s) && CodesResolve(s)
    ensures var s' := ApplyItems(s, projectId, id, items);
            Projection(s') && CodesResolve(s') && LogExtends(s.designed, s'.designed)
  {
    if items == [] {
    } else {
      var last := |items| - 1;
      ApplyItemsKeepsProjection(s, projectId, id, items[..last]);
      ApplyItemKeepsProjection(ApplyItems(s, projectId, id, items[..last]), projectId, id, items[last]);
    }
  }

  /** Each entity's history grows by one revision per item naming it; entities named by none are left alone. */
  lemma {:induction false} ApplyItemsAppends(s: State, projectId: Uuid, id: Uuid, items: seq<Item>, e: Uuid)
    ensures var s' := ApplyItems(s, projectId, id, items);
            && |History(s', e)| == |History(s, e)| + Occurrences(items, e)
            && (Occurrences(items, e) == 0 ==> (e in s'.cameras <==> e in s.cameras) && (e in s.cameras ==> s'.cameras[e] == s.cameras[e]))
            && (forall k :: |History(s, e)| <= k < |History(s', e)| ==> History(s', e)[k].changesetId == Some(id))
            && History(s, e) <= History(s', e)
  {
    if items == [] {
    } else {
      ApplyItemsAppends(s, projectId, id, items[..|items| - 1], e);
    }
  }

  /** The camera ends with the patch of the last item that names it. */
  lemma {:induction false} ApplyItemsEndsWith(s: State, projectId: Uuid, id: Uuid, items: seq<Item>, i: nat)
    requires LastFor(items, i)
    ensures var s' := ApplyItems(s, projectId, id, items);
            items[i].entityId in s'.cameras && s'.cameras[items[i].entityId].payload == items[i].patch
  {
    var last := |items| - 1;
    if i == last {
    } else {
      ApplyItemsEndsWith(s, projectId, id, items[..last], i);
    }
  }

  // --- Approval --------------------------------------------------------------------------------------------

  /**
   All or nothing, for a list of any length: a conflict leaves cameras, codes and log untouched; success appends one
   revision of this ChangeSet per item and nothing else.
   */
  lemma ApproveAllOrNothing(s: State, projectId: Uuid, id: Uuid)
    requires Inv(s) && FindChangeSet(s, projectId, id, FILE_IMPORTS).Ok?
    ensures var (s', r) := Approve(s, projectId, id);
            var items := s.changesets[id].items;
            if forall i :: 0 <= i < |items| ==> ResolveItem(s, items[i]).Ok? then
              && r == Ok(()) && s'.changesets[id].status == Applied
              && (forall e :: |History(s', e)| == |History(s, e)| + Occurrences(items, e) && History(s, e) <= History(s', e))
              && (forall e :: Occurrences(items, e) == 0 ==> (e in s'.cameras <==> e in s.cameras) && (e in s.cameras ==> s'.cameras[e] == s.cameras[e]))
            else
              && r == Err(MergeConflict) && s'.changesets[id].status == Conflicted
              && s'.cameras == s.cameras && s'.codes == s.codes && s'.designed == s.designed
  {
    var items := s.changesets[id].items;
    var (resolved, conflicts) := ResolveItems(s, items);
    ResolveAllItems(s, items);
    if conflicts == [] {
      SameOccurrences(s, items, resolved);
      AppliedHistories(s, projectId, id, resolved);
    }
  }

  lemma AppliedHistories(s: State, projectId: Uuid, id: Uuid, items: seq<Item>)
    requires id in s.changesets
    ensures var s' := ApplyAll(s, projectId, id, items);
            && (forall e :: |History(s', e)| == |History(s, e)| + Occurrences(items, e) && History(s, e) <= History(s', e))
            && (forall e :: Occurrences(items, e) == 0 ==> (e in s'.cameras <==> e in s.cameras) && (e in s.cameras ==> s'.cameras[e] == s.cameras[e]))
  {
    var mid := SetStatus(s, id, Approved);
    var after := ApplyItems(mid, projectId, id, items);
    forall e
      ensures |History(after, e)| == |History(s, e)| + Occurrences(items, e) && History(s, e) <= History(after, e)
      ensures Occurrences(items, e) == 0 ==> (e in after.cameras <==> e in s.cameras) && (e in s.cameras ==> after.cameras[e] == s.cameras[e])
    {
      ApplyItemsAppends(mid, projectId, id, items, e);
    }
  }

  lemma {:induction false} SameOccurrences(s: State, items: seq<Item>, resolved: seq<Item>)
    requires |resolved| == |items| && forall i :: 0 <= i < |items| ==> resolved[i].entityId == items[i].entityId
    ensures forall e :: Occurrences(resolved, e) == Occurrences(items, e)
  {
    if items == [] {
    } else {
      SameOccurrences(s, items[..|items| - 1], resolved[..|items| - 1]);
    }
  }

  /** A successful approval merges: in each camera it names last, every field changed on one side only keeps that change. */
  lemma ApproveMergesFields(s: State, projectId: Uuid, id: Uuid, i: nat)
    requires Inv(s) && FindChangeSet(s, projectId, id, FILE_IMPORTS).Ok? && Approve(s, projectId, id).1 == Ok(())
    requires LastFor(s.changesets[id].items, i)
    ensures EndsMerged(s, s.changesets[id].items[i], Approve(s, projectId, id).0)
  {
    var items := s.changesets[id].items;
    ResolvedLast(s, items, i);
    EndsWithResolved(s, projectId, id, ResolveItems(s, items).0, i);
    ResolvedKeepsChanges(s, id, items[i]);
  }

  lemma ResolvedLast(s: State, items: seq<Item>, i: nat)
    requires ResolveItems(s, items).1 == [] && LastFor(items, i)
    ensures var resolved := ResolveItems(s, items).0; LastFor(resolved, i) && Ok(resolved[i]) == ResolveItem(s, items[i])
  {
    ResolveAllItems(s, items);
  }

  /** The item's camera holds the patch if it is new, else every one-sided change against the camera as it was. */
  ghost predicate EndsMerged(s: State, item: Item, s': State) {
    && item.entityId in s'.cameras
    && Merges(s, item, s'.cameras[item.entityId].payload)
  }

  ghost predicate Merges(s: State, item: Item, merged: Payload) {
    if item.entityId in s.cameras
    then forall f :: KeepsEachChange(item.basePayload, s.cameras[item.entityId].payload, item.patch, merged, f)
    else merged == item.patch
  }

  lemma ResolvedKeepsChanges(s: State, id: Uuid, item: Item)
    requires Inv(s) && id in s.changesets && item in s.changesets[id].items && ResolveItem(s, item).Ok?
    ensures Merges(s, item, ResolveItem(s, item).value.patch)
  {
    if item.entityId in s.cameras {
      ResolveMerges(s, id, item);
    }
  }

  lemma EndsWithResolved(s: State, projectId: Uuid, id: Uuid, resolved: seq<Item>, i: nat)
    requires id in s.changesets && LastFor(resolved, i)
    ensures var s' := ApplyAll(s, projectId, id, resolved);
            resolved[i].entityId in s'.cameras && s'.cameras[resolved[i].entityId].payload == resolved[i].patch
  {
    ApplyItemsEndsWith(SetStatus(s, id, Approved), projectId, id, resolved, i);
  }

  lemma ApplyItemsKeepsInv(s: State, projectId: Uuid, id: Uuid, items: seq<Item>)
    requires Inv(s)
    ensures var s' := ApplyItems(s, projectId, id, items); Inv(s') && LogExtends(s.designed, s'.designed)
  {
    ApplyItemsKeepsProjection(s, projectId, id, items);
    BasesStayRecorded(s, ApplyItems(s, projectId, id, items).designed);
  }

  lemma StatusKeepsInv(s: State, id: Uuid, status: ChangeSetStatus)
    requires Inv(s) && id in s.changesets
    ensures Inv(SetStatus(s, id, status)) && LogExtends(s.designed, s.designed)
  {
  }

  lemma ApplyAllKeepsInv(s: State, projectId: Uuid, id: Uuid, resolved: seq<Item>)
    requires Inv(s) && id in s.changesets
    ensures var s' := ApplyAll(s, projectId, id, resolved); Inv(s') && LogExtends(s.designed, s'.designed)
  {
    var mid := SetStatus(s, id, Approved);
    StatusKeepsInv(s, id, Approved);
    ApplyItemsKeepsInv(mid, projectId, id, resolved);
    StatusKeepsInv(ApplyItems(mid, projectId, id, resolved), id, Applied);
  }

  lemma ApproveKeepsInv(s: State, projectId: Uuid, id: Uuid)
    requires Inv(s)
    ensures var s' := Approve(s, projectId, id).0; Inv(s') && LogExtends(s.designed, s'.designed)
  {
    if FindChangeSet(s, projectId, id, FILE_IMPORTS).Ok? {
      var (resolved, conflicts) := ResolveItems(s, s.changesets[id].items);
      if conflicts == [] {
        ApplyAllKeepsInv(s, projectId, id, resolved);
      } else {
        ConflictKeepsInv(s, id, conflicts);
      }
    }
  }

  lemma ConflictKeepsInv(s: State, id: Uuid, conflicts: seq<ItemConflict>)
    requires Inv(s) && id in s.changesets
    ensures Inv(s.(changesets := s.changesets[id := s.changesets[id].(status := Conflicted, conflicts := conflicts)]))
    ensures LogExtends(s.designed, s.designed)
  {
  }

  lemma ApproveSettles(s: State, projectId: Uuid, id: Uuid)
    requires Inv(s)
    ensures FindChangeSet(s, projectId, id, FILE_IMPORTS).Ok? ==> Settled(Approve(s, projectId, id).0, id)
    ensures forall other :: other != id && other in s.changesets ==>
              other in Approve(s, projectId, id).0.changesets && Approve(s, projectId, id).0.changesets[other] == s.changesets[other]
  {
  }

  // --- The other operations ---------------------------------------------------------------------------------

  /** An operation that only records a camera, and perhaps indexes its code, keeps the invariant. */
  lemma RecordKeepsInv(s: State, e: Uuid, camera: Camera, g: Option<Geometry>, c: Option<Uuid>, s': State)
    requires Inv(s)
    requires s' == s.(cameras := s.cameras[e := camera], designed := AppendRevision(s.designed, e, camera.payload, g, c), codes := s'.codes)
    requires forall key :: key in s'.codes ==> s'.codes[key] == e || (key in s.codes && s'.codes[key] == s.codes[key])
    ensures Inv(s') && LogExtends(s.designed, s'.designed)
  {
    RecordKeepsProjection(s, e, camera, g, c);
    BasesStayRecorded(s, s'.designed);
  }

  lemma ImportKeepsInv(s: State, projectId: Uuid, entityId: Uuid, camera: Camera)
    requires Inv(s) && CodeResolves(s, projectId, camera.payload.code)
    ensures var s' := ImportCamera(s, projectId, entityId, camera).0; Inv(s') && LogExtends(s.designed, s'.designed)
  {
    var (s', outcome) := ImportCamera(s, projectId, entityId, camera);
    var key := (projectId, camera.payload.code);
    if outcome != Unchanged {
      RecordKeepsInv(s, if key in s.codes then s.codes[key] else entityId, camera, None, None, s');
    }
  }

  lemma {:induction false} ProposedBasesRecorded(s: State, projectId: Uuid, rows: seq<Row>)
    requires Inv(s)
    ensures forall item :: item in ProposeItems(s, projectId, rows) ==> BaseRecorded(s.designed, item)
  {
    if rows == [] {
    } else {
      var last := |rows| - 1;
      ProposedBasesRecorded(s, projectId, rows[..last]);
      var key := (projectId, rows[last].payload.code);
      if key in s.codes {
        assert ProjectsTo(s.designed[s.codes[key]], s.cameras[s.codes[key]].payload);
      }
      assert ProposeItem(s, projectId, rows[last]).Some? ==> BaseRecorded(s.designed, ProposeItem(s, projectId, rows[last]).value);
    }
  }

  lemma CreateImportKeepsInv(s: State, projectId: Uuid, file: FileKey, rows: seq<Row>, key: string, newId: Uuid)
    requires Inv(s) && newId !in s.changesets
    ensures var s' := CreateImport(s, projectId, file, rows, key, newId).0; Inv(s') && s'.designed == s.designed
  {
    ProposedBasesRecorded(s, projectId, rows);
  }

  lemma CreateDocumentKeepsInv(s: State, projectId: Uuid, fileRevision: nat, key: Option<string>, newId: Uuid)
    requires Inv(s) && newId !in s.changesets
    ensures var s' := CreateDocument(s, projectId, fileRevision, key, newId).0; Inv(s') && s'.designed == s.designed
  {
  }

  /** An import's items are the rows it inserts or changes, in order, and every row is counted once. */
  lemma {:induction false} ResultMatchesItems(s: State, projectId: Uuid, rows: seq<Row>)
    requires forall r :: r in rows ==> CodeResolves(s, projectId, r.payload.code)
    ensures var items, result := ProposeItems(s, projectId, rows), CompareRows(s, projectId, rows);
            && |items| == |result.inserted| + |result.changed|
            && |rows| == |items| + |result.unchangedRows|
            && (forall item :: item in items ==>
                  exists row :: row in result.inserted + result.changed && row.entityId == item.entityId && row.payload == item.patch)
  {
    if rows == [] {
    } else {
      var last := |rows| - 1;
      ResultMatchesItems(s, projectId, rows[..last]);
      var row := Located(s, projectId, rows[last]);
      assert Classify(s, projectId, rows[last]) == Inserted ==> row in CompareRows(s, projectId, rows).inserted;
    }
  }

  /** In every reachable state an import with a known key is answered exactly when the key's ChangeSet is a file import, and then
      with that ChangeSet and the result it had; after a document import under the same key it fails. */
  lemma KnownKeyAnsweredIff(states: seq<State>, steps: seq<Step>, n: nat, projectId: Uuid, file: FileKey, rows: seq<Row>, key: string, newId: Uuid)
    requires Behaviour(states, steps) && n <= |steps| && key in states[n].byKey
    ensures var s, id := states[n], states[n].byKey[key];
            && (forall row :: row in rows ==> CodeResolves(s, projectId, row.payload.code))
            && var (s', r) := CreateImport(s, projectId, file, rows, key, newId);
            s' == s && id in s.changesets && (r.Ok? <==> s.changesets[id].origin == FileImport) && (r.Ok? ==> r.value == (id, s.results[id]))
  {
    BehaviourKeepsInv(states, steps, n, n);
  }

  lemma EditKeepsInv(s: State, projectId: Uuid, id: Uuid, record: string, field: Option<Field>, value: Value)
    requires Inv(s)
    ensures var s' := EditItem(s, projectId, id, record, field, value).0; Inv(s') && s'.designed == s.designed
  {
    var s' := EditItem(s, projectId, id, record, field, value).0;
    if s' != s {
      var c, c' := s.changesets[id], s'.changesets[id];
      forall item | item in c'.items ensures BaseRecorded(s.designed, item) {
        var k :| 0 <= k < |c'.items| && c'.items[k] == item;
        assert c.items[k] in c.items;
      }
    }
  }

  lemma GeometryKeepsInv(s: State, projectId: Uuid, entityId: Uuid, geometry: Geometry, base: nat, newId: Uuid)
    requires Inv(s)
    ensures var s' := UpdateGeometry(s, projectId, entityId, geometry, base, newId).0; Inv(s') && LogExtends(s.designed, s'.designed)
  {
    var (s', r) := UpdateGeometry(s, projectId, entityId, geometry, base, newId);
    if r == Ok(()) {
      assert s.cameras[entityId := s.cameras[entityId]] == s.cameras;
      RecordKeepsInv(s, entityId, s.cameras[entityId], Some(geometry), Some(newId), s');
    }
  }

  // --- Runs ----------------------------------------------------------------------------------------------------

  datatype Step =
    | Import(projectId: Uuid, entityId: Uuid, camera: Camera)
    | Propose(projectId: Uuid, file: FileKey, rows: seq<Row>, key: string, newId: Uuid)
    | Document(projectId: Uuid, fileRevision: nat, documentKey: Option<string>, newId: Uuid)
    | Observe(projectId: Uuid, entityId: Uuid, base: nat, newId: Uuid)
    | Edit(projectId: Uuid, id: Uuid, record: string, field: Option<Field>, value: Value)
    | RejectImport(projectId: Uuid, id: Uuid)
    | SendToReview(projectId: Uuid, id: Uuid)
    | ApproveImport(projectId: Uuid, id: Uuid)
    | ApproveField(projectId: Uuid, id: Uuid)
    | SetGeometry(projectId: Uuid, entityId: Uuid, geometry: Geometry, base: nat, newId: Uuid)
    | AddProject(projectId: Uuid)

  /** A new ChangeSet draws an id none has. */
  ghost predicate Enabled(s: State, step: Step) {
    match step
    case Propose(_, _, _, _, newId) => newId !in s.changesets
    case Document(_, _, _, newId) => newId !in s.changesets
    case Observe(_, _, _, newId) => newId !in s.changesets
    case _ => true
  }

  /** A code index entry without a camera would stop an import with an error, and change nothing. */
  function Next(s: State, step: Step): State {
    match step
    case Import(p, e, camera) => if CodeResolves(s, p, camera.payload.code) then ImportCamera(s, p, e, camera).0 else s
    case Propose(p, file, rows, key, newId) =>
      if forall r :: r in rows ==> CodeResolves(s, p, r.payload.code) then CreateImport(s, p, file, rows, key, newId).0 else s
    case Document(p, revision, key, newId) => CreateDocument(s, p, revision, key, newId).0
    case Observe(p, e, base, newId) => SubmitObservation(s, p, e, base, newId)
    case Edit(p, id, record, field, value) => EditItem(s, p, id, record, field, value).0
    case RejectImport(p, id) => Reject(s, p, id).0
    case SendToReview(p, id) => MarkConflictReview(s, p, id).0
    case ApproveImport(p, id) => Approve(s, p, id).0
    case ApproveField(p, id) => ApproveObservation(s, p, id).0
    case SetGeometry(p, e, g, base, newId) => UpdateGeometry(s, p, e, g, base, newId).0
    case AddProject(p) => s.(projects := s.projects + {p})
  }

  lemma SubmitKeepsInv(s: State, projectId: Uuid, entityId: Uuid, base: nat, newId: Uuid)
    requires Inv(s) && newId !in s.changesets
    ensures Inv(SubmitObservation(s, projectId, entityId, base, newId)) && LogExtends(s.designed, s.designed)
  {
  }

  predicate OnlyStatuses(step: Step) {
    step.Observe? || step.RejectImport? || step.SendToReview? || step.ApproveField?
  }

  lemma StatusStepKeepsInv(s: State, step: Step)
    requires Inv(s) && Enabled(s, step) && OnlyStatuses(step)
    ensures Inv(Next(s, step)) && LogExtends(s.designed, Next(s, step).designed)
  {
    match step
    case Observe(p, e, base, newId) => SubmitKeepsInv(s, p, e, base, newId);
    case RejectImport(_, id) => if Next(s, step) != s { StatusKeepsInv(s, id, Rejected); }
    case SendToReview(_, id) => if Next(s, step) != s { StatusKeepsInv(s, id, ConflictReview); }
    case ApproveField(p, id) =>
      if Next(s, step) != s {
        StatusKeepsInv(s, id, if ApproveObservation(s, p, id).1.Ok? then Applied else Conflicted);
      }
  }

  lemma StepKeepsInv(s: State, step: Step)
    requires Inv(s) && Enabled(s, step)
    ensures Inv(Next(s, step)) && LogExtends(s.designed, Next(s, step).designed)
  {
    if OnlyStatuses(step) {
      StatusStepKeepsInv(s, step);
    } else {
      LogStepKeepsInv(s, step);
    }
  }

  lemma LogStepKeepsInv(s: State, step: Step)
    requires Inv(s) && Enabled(s, step) && !OnlyStatuses(step)
    ensures Inv(Next(s, step)) && LogExtends(s.designed, Next(s, step).designed)
  {
    match step
    case Import(p, e, camera) => if CodeResolves(s, p, camera.payload.code) { ImportKeepsInv(s, p, e, camera); }
    case Propose(p, file, rows, key, newId) =>
      if forall r :: r in rows ==> CodeResolves(s, p, r.payload.code) {
        CreateImportKeepsInv(s, p, file, rows, key, newId);
      }
    case Document(p, revision, key, newId) => CreateDocumentKeepsInv(s, p, revision, key, newId);
    case Edit(p, id, record, field, value) => EditKeepsInv(s, p, id, record, field, value);
    case ApproveImport(p, id) => ApproveKeepsInv(s, p, id);
    case SetGeometry(p, e, g, base, newId) => GeometryKeepsInv(s, p, e, g, base, newId);
    case AddProject(_) =>
  }

  /** Whether the step applies the ChangeSet. */
  predicate Applies(s: State, step: Step, id: Uuid) {
    match step
    case ApproveImport(p, c) => c == id && Approve(s, p, id).1 == Ok(())
    case ApproveField(p, c) => c == id && ApproveObservation(s, p, id).1 == Ok(())
    case _ => false
  }

  /** Approval is never reopened, and applying settles. */
  lemma SettledForGood(s: State, step: Step, id: Uuid)
    requires Inv(s) && Enabled(s, step)
    ensures Settled(s, id) ==> Settled(Next(s, step), id) && !Applies(s, step, id)
    ensures Applies(s, step, id) ==> Settled(Next(s, step), id)
  {
    if step.ApproveImport? {
      ApproveSettles(s, step.projectId, step.id);
    } else {
      OtherStepsSettle(s, step, id);
    }
  }

  lemma OtherStepsSettle(s: State, step: Step, id: Uuid)
    requires Enabled(s, step) && !step.ApproveImport?
    ensures Settled(s, id) ==> Settled(Next(s, step), id) && !Applies(s, step, id)
    ensures Applies(s, step, id) ==> Settled(Next(s, step), id)
  {
  }

  ghost predicate Behaviour(states: seq<State>, steps: seq<Step>) {
    && |states| == |steps| + 1
    && states[0] == EMPTY
    && forall i :: 0 <= i < |steps| ==> Enabled(states[i], steps[i]) && states[i + 1] == Next(states[i], steps[i])
  }

  /** In every reachable state the cameras are the projection of the log, and the log only ever grows. */
  lemma {:induction false} BehaviourKeepsInv(states: seq<State>, steps: seq<Step>, m: nat, n: nat)
    requires Behaviour(states, steps) && m <= n <= |steps|
    ensures Inv(states[n]) && LogExtends(states[m].designed, states[n].designed)
    decreases n
  {
    if n == 0 {
    } else {
      BehaviourKeepsInv(states, steps, if m < n then m else n - 1, n - 1);
      StepKeepsInv(states[n - 1], steps[n - 1]);
    }
  }

  /** How many of the first n steps apply the ChangeSet. */
  function TimesApplied(states: seq<State>, steps: seq<Step>, n: nat, id: Uuid): nat
    requires |states| == |steps| + 1 && n <= |steps|
  {
    if n == 0 then 0
    else TimesApplied(states, steps, n - 1, id) + (if Applies(states[n - 1], steps[n - 1], id) then 1 else 0)
  }

  /** No ChangeSet is applied twice in any run. */
  lemma {:induction false} AppliedAtMostOnce(states: seq<State>, steps: seq<Step>, n: nat, id: Uuid)
    requires Behaviour(states, steps) && n <= |steps|
    ensures TimesApplied(states, steps, n, id) <= 1
    ensures TimesApplied(states, steps, n, id) == 1 ==> Settled(states[n], id)
  {
    if n == 0 {
    } else {
      AppliedAtMostOnce(states, steps, n - 1, id);
      BehaviourKeepsInv(states, steps, n - 1, n - 1);
      SettledForGood(states[n - 1], steps[n - 1], id);
    }
  }
}
