/** The revision log as the store keeps it: camera and ChangeSet records updated in place, item and field loops. */
module RevisionStore {
  import opened Prelude
  import opened Merge
  import opened Revisions

  class CameraRecord {
    const entityId: Uuid
    const projectId: Uuid
    var payload: Payload

    constructor (entityId: Uuid, projectId: Uuid, payload: Payload)
      ensures this.entityId == entityId && View() == Camera(projectId, payload)
    {
      this.entityId, this.projectId, this.payload := entityId, projectId, payload;
    }

    function View(): Camera
      reads this
    {
      Camera(projectId, payload)
    }
  }

  class ChangeSetRecord {
    const id: Uuid
    const projectId: Uuid
    const origin: Origin
    const entityId: Uuid
    const baseRevision: nat
    var status: ChangeSetStatus
    var items: seq<Item>
    var conflicts: seq<ItemConflict>

    constructor (id: Uuid, projectId: Uuid, origin: Origin, entityId: Uuid, baseRevision: nat, items: seq<Item>)
      ensures this.id == id && View() == ChangeSet(projectId, origin, PendingApproval, entityId, baseRevision, items, [])
    {
      this.id, this.projectId, this.origin, this.entityId, this.baseRevision := id, projectId, origin, entityId, baseRevision;
      this.status, this.items, this.conflicts := PendingApproval, items, [];
    }

    function View(): ChangeSet
      reads this
    {
      ChangeSet(projectId, origin, status, entityId, baseRevision, items, conflicts)
    }
  }

  /** The field loop of a merge. */
  method MergeItem(base: Option<Payload>, server: Payload, client: Payload) returns (merged: Payload, conflicts: seq<FieldConflict>)
    ensures (merged, conflicts) == MergePayload(base, server, client)
    ensures conflicts == [] <==> forall f :: !BothChanged(base, server, client, f)
    ensures conflicts == [] ==> forall f :: KeepsEachChange(base, server, client, merged, f)
  {
    merged, conflicts := server, [];
    for i := 0 to |FIELDS|
      invariant (merged, conflicts) == MergeFields(base, server, client, FIELDS[..i])
    {
      var f := FIELDS[i];
      var baseValue, serverValue, clientValue := BaseAt(base, f), At(server, f), At(client, f);
      if serverValue == baseValue {
        merged := Put(merged, f, clientValue);
      } else if clientValue != baseValue && clientValue != serverValue {
        conflicts := conflicts + [FieldConflict(f, baseValue, serverValue, clientValue)];
      }
      assert FIELDS[..i + 1][..i] == FIELDS[..i];
    }
    assert FIELDS[..|FIELDS|] == FIELDS;
    NoConflictIff(base, server, client);
    MergeIsExact(base, server, client);
  }

  class Store {
    var projects: set<Uuid>
    var cameras: map<Uuid, CameraRecord>
    var cameraCodes: map<(Uuid, Value), Uuid>
    var designed: map<Uuid, seq<Revision>>
    var changesets: map<Uuid, ChangeSetRecord>
    var fileImportResults: map<Uuid, ImportResult>
    var changesetIdempotency: map<string, Uuid>
    var fileImportIdempotency: map<(Uuid, int, string), Uuid>

    ghost predicate Valid()
      reads this`cameras, this`changesets, cameras.Values, changesets.Values
    {
      && (forall e :: e in cameras ==> cameras[e].entityId == e)
      && (forall id :: id in changesets ==> changesets[id].id == id)
    }

    ghost function Cameras(): map<Uuid, Camera>
      reads this`cameras, cameras.Values
    {
      map e | e in cameras :: cameras[e].View()
    }

    ghost function ChangeSets(): map<Uuid, ChangeSet>
      reads this`changesets, changesets.Values
    {
      map id | id in changesets :: changesets[id].View()
    }

    ghost function View(): State
      reads this, cameras.Values, changesets.Values
    {
      State(projects, Cameras(), cameraCodes, designed, ChangeSets(), fileImportResults, changesetIdempotency, fileImportIdempotency)
    }

    method CurrentRevision(entityId: Uuid) returns (current: Option<Revision>)
      ensures current.Some? <==> History(View(), entityId) != []
      ensures current.Some? ==> current.value.number == CurrentNumber(View(), entityId)
    {
      var history := if entityId in designed then designed[entityId] else [];
      current := if history == [] then None else Some(history[|history| - 1]);
    }

    method Append(entityId: Uuid, data: Payload, geometry: Option<Geometry>, changesetId: Option<Uuid>)
      modifies this`designed
      ensures View() == old(View()).(designed := AppendRevision(old(designed), entityId, data, geometry, changesetId))
    {
      var history := if entityId in designed then designed[entityId] else [];
      designed := designed[entityId := history + [Revision(|history| + 1, data, geometry, changesetId)]];
    }

    /** Puts a new record under the id, as an import does. */
    method PutCamera(entityId: Uuid, camera: Camera)
      requires Valid()
      modifies this`cameras
      ensures Valid() && View() == old(View()).(cameras := old(Cameras())[entityId := camera])
      ensures forall e :: e in cameras ==> fresh(cameras[e]) || cameras[e] in old(cameras.Values)
    {
      var record := new CameraRecord(entityId, camera.projectId, camera.payload);
      cameras := cameras[entityId := record];
      assert Cameras() == old(Cameras())[entityId := record.View()];
    }

    method ImportCamera(projectId: Uuid, entityId: Uuid, camera: Camera) returns (outcome: ImportOutcome)
      requires Valid() && CodeResolves(View(), projectId, camera.payload.code)
      modifies this
      ensures Valid()
      ensures View() == Revisions.ImportCamera(old(View()), projectId, entityId, camera).0
      ensures outcome == Revisions.ImportCamera(old(View()), projectId, entityId, camera).1
    {
      var key := (projectId, camera.payload.code);
      if key !in cameraCodes {
        PutCamera(entityId, camera);
        Index(key, entityId, camera.payload, None);
        return Inserted;
      }
      var existingId := cameraCodes[key];
      assert Cameras()[existingId] == cameras[existingId].View();
      if cameras[existingId].payload == camera.payload {
        return Unchanged;
      }
      PutCamera(existingId, camera);
      Append(existingId, camera.payload, None, None);
      outcome := Changed;
    }

    /** The row loop of an import: how each row compares with the current cameras, and what it proposes. */
    method ProposeAll(projectId: Uuid, rows: seq<Row>) returns (items: seq<Item>, result: ImportResult)
      requires forall r :: r in rows ==> CodeResolves(View(), projectId, r.payload.code)
      ensures items == ProposeItems(View(), projectId, rows) && result == CompareRows(View(), projectId, rows)
    {
      items, result := [], ImportResult([], [], []);
      for i := 0 to |rows|
        invariant items == ProposeItems(View(), projectId, rows[..i]) && result == CompareRows(View(), projectId, rows[..i])
      {
        assert rows[..i + 1][..i] == rows[..i];
        assert CodeResolves(View(), projectId, rows[i].payload.code);
        var item, outcome, row := ProposeOne(projectId, rows[i]);
        result := AddRow(result, outcome, row);
        if item.Some? {
          items := items + [item.value];
        }
      }
      assert rows[..|rows|] == rows;
    }

    method ProposeOne(projectId: Uuid, row: Row) returns (item: Option<Item>, outcome: ImportOutcome, located: Row)
      requires CodeResolves(View(), projectId, row.payload.code)
      ensures item == ProposeItem(View(), projectId, row)
      ensures outcome == Classify(View(), projectId, row) && located == Located(View(), projectId, row)
    {
      var key := (projectId, row.payload.code);
      if key !in cameraCodes {
        return Some(Item(row.entityId, row.recordIdentity, 0, None, row.payload)), Inserted, row;
      }
      located := row.(entityId := cameraCodes[key]);
      var existing := cameras[cameraCodes[key]];
      assert Cameras()[cameraCodes[key]] == existing.View();
      if existing.payload == row.payload {
        return None, Unchanged, located;
      }
      var current := CurrentRevision(cameraCodes[key]);
      item := Some(Item(cameraCodes[key], row.recordIdentity, if current.Some? then current.value.number else 0,
                        Some(existing.payload), row.payload));
      outcome := Changed;
    }

    method PutChangeSet(newId: Uuid, projectId: Uuid, origin: Origin, entityId: Uuid, baseRevision: nat, items: seq<Item>)
      requires Valid()
      modifies this`changesets
      ensures Valid()
      ensures ChangeSets() == old(ChangeSets())[newId := ChangeSet(projectId, origin, PendingApproval, entityId, baseRevision, items, [])]
    {
      var changeset := new ChangeSetRecord(newId, projectId, origin, entityId, baseRevision, items);
      changesets := changesets[newId := changeset];
      assert ChangeSets() == old(ChangeSets())[newId := changeset.View()];
    }

    /** The answer to an import already known under the id. */
    method AnswerKnown(id: Uuid) returns (r: Result<(Uuid, ImportResult), ChangeError>)
      ensures r == KnownImport(View(), id)
    {
      r := if id in fileImportResults then Ok((id, fileImportResults[id])) else Err(NotFound);
    }

    method CreateFileImport(projectId: Uuid, file: FileKey, rows: seq<Row>, idempotencyKey: string, newId: Uuid)
      returns (r: Result<(Uuid, ImportResult), ChangeError>)
      requires Valid() && newId !in changesets
      requires forall row :: row in rows ==> CodeResolves(View(), projectId, row.payload.code)
      modifies this`changesets, this`fileImportResults, this`changesetIdempotency, this`fileImportIdempotency
      ensures Valid()
      ensures View() == CreateImport(old(View()), projectId, file, rows, idempotencyKey, newId).0
      ensures r == CreateImport(old(View()), projectId, file, rows, idempotencyKey, newId).1
    {
      var fileKey := (file.fileId, file.fileRevision, file.fileHash);
      if idempotencyKey in changesetIdempotency {
        r := AnswerKnown(changesetIdempotency[idempotencyKey]);
        return;
      }
      if fileKey in fileImportIdempotency {
        r := AnswerKnown(fileImportIdempotency[fileKey]);
        return;
      }
      if projectId !in projects {
        return Err(NotFound);
      }
      var items, result := ProposeAll(projectId, rows);
      Register(newId, projectId, items, result, idempotencyKey, fileKey);
      r := Ok((newId, result));
    }

    method Register(newId: Uuid, projectId: Uuid, items: seq<Item>, result: ImportResult, idempotencyKey: string, fileKey: (Uuid, int, string))
      requires Valid()
      modifies this`changesets, this`fileImportResults, this`changesetIdempotency, this`fileImportIdempotency
      ensures Valid()
      ensures ChangeSets() == old(ChangeSets())[newId := ChangeSet(projectId, FileImport, PendingApproval,
                if items == [] then newId else items[0].entityId, if items == [] then 0 else items[0].baseRevision, items, [])]
      ensures View() == old(View()).(
                changesets := ChangeSets(),
                results := old(fileImportResults)[newId := result],
                byKey := old(changesetIdempotency)[idempotencyKey := newId],
                byFile := old(fileImportIdempotency)[fileKey := newId])
    {
      PutChangeSet(newId, projectId, FileImport, if items == [] then newId else items[0].entityId,
                   if items == [] then 0 else items[0].baseRevision, items);
      IndexImport(newId, result, idempotencyKey, fileKey);
    }

    method IndexImport(newId: Uuid, result: ImportResult, idempotencyKey: string, fileKey: (Uuid, int, string))
      modifies this`fileImportResults, this`changesetIdempotency, this`fileImportIdempotency
      ensures ChangeSets() == old(ChangeSets())
      ensures View() == old(View()).(results := old(fileImportResults)[newId := result],
                                     byKey := old(changesetIdempotency)[idempotencyKey := newId],
                                     byFile := old(fileImportIdempotency)[fileKey := newId])
    {
      fileImportResults := fileImportResults[newId := result];
      changesetIdempotency := changesetIdempotency[idempotencyKey := newId];
      fileImportIdempotency := fileImportIdempotency[fileKey := newId];
    }

    method CreateDocumentImport(projectId: Uuid, fileRevision: nat, idempotencyKey: Option<string>, newId: Uuid) returns (r: Result<Uuid, ChangeError>)
      requires Valid() && newId !in changesets
      modifies this`changesets, this`changesetIdempotency
      ensures Valid()
      ensures View() == CreateDocument(old(View()), projectId, fileRevision, idempotencyKey, newId).0
      ensures r == CreateDocument(old(View()), projectId, fileRevision, idempotencyKey, newId).1
    {
      if projectId !in projects {
        return Err(NotFound);
      }
      if idempotencyKey.Some? && idempotencyKey.value in changesetIdempotency {
        return Ok(changesetIdempotency[idempotencyKey.value]);
      }
      PutChangeSet(newId, projectId, DocumentImport, 0, fileRevision, []);
      ghost var written := ChangeSets();
      if idempotencyKey.Some? {
        changesetIdempotency := changesetIdempotency[idempotencyKey.value := newId];
      }
      assert ChangeSets() == written;
      r := Ok(newId);
    }

    method Find(projectId: Uuid, id: Uuid, origins: set<Origin>) returns (r: Result<ChangeSetRecord, ChangeError>)
      ensures match FindChangeSet(View(), projectId, id, origins)
              case Ok(c) => id in changesets && r == Ok(changesets[id]) && changesets[id].View() == c
              case Err(e) => r == Err(e)
    {
      if id !in changesets || changesets[id].projectId != projectId {
        return Err(NotFound);
      }
      var changeset := changesets[id];
      if changeset.origin !in origins || changeset.status != PendingApproval {
        return Err(WrongState);
      }
      r := Ok(changeset);
    }

    method WriteChangeSet(id: Uuid, status: ChangeSetStatus, items: seq<Item>, conflicts: seq<ItemConflict>)
      requires Valid() && id in changesets
      modifies changesets[id]
      ensures Valid()
      ensures ChangeSets() == old(ChangeSets())[id := old(ChangeSets())[id].(status := status, items := items, conflicts := conflicts)]
      ensures View() == old(View()).(changesets := ChangeSets())
    {
      var changeset := changesets[id];
      changeset.status, changeset.items, changeset.conflicts := status, items, conflicts;
      assert forall other :: other in changesets && other != id ==> changesets[other] != changeset;
      assert ChangeSets() == old(ChangeSets())[id := changeset.View()];
    }

    method EditItem(projectId: Uuid, id: Uuid, recordIdentity: string, field: Option<Field>, value: Value) returns (r: Result<(), ChangeError>)
      requires Valid()
      modifies changesets.Values
      ensures Valid()
      ensures View() == Revisions.EditItem(old(View()), projectId, id, recordIdentity, field, value).0
      ensures r == Revisions.EditItem(old(View()), projectId, id, recordIdentity, field, value).1
    {
      var found := Find(projectId, id, FILE_IMPORTS);
      if found.Err? {
        return Err(found.error);
      }
      var changeset := found.value;
      var index := IndexOf(changeset.items, recordIdentity);
      if index == None {
        return Err(NotFound);
      }
      if field == None {
        return Err(WrongState);
      }
      var item := changeset.items[index.value];
      WriteChangeSet(id, changeset.status, changeset.items[index.value := item.(patch := Put(item.patch, field.value, value))], changeset.conflicts);
      r := Ok(());
    }

    method Reject(projectId: Uuid, id: Uuid) returns (r: Result<(), ChangeError>)
      requires Valid()
      modifies changesets.Values
      ensures Valid()
      ensures View() == Revisions.Reject(old(View()), projectId, id).0 && r == Revisions.Reject(old(View()), projectId, id).1
    {
      var found := Find(projectId, id, IMPORTS);
      if found.Err? {
        return Err(found.error);
      }
      WriteChangeSet(id, Rejected, found.value.items, found.value.conflicts);
      r := Ok(());
    }

    /** Resolves one item against the current camera: taken as it is, or merged field by field. */
    method ResolveOne(item: Item) returns (r: Result<Item, ItemConflict>)
      ensures r == ResolveItem(View(), item)
    {
      var current := CurrentRevision(item.entityId);
      if item.entityId !in cameras || current == None || current.value.number == item.baseRevision {
        return Ok(item);
      }
      assert Cameras()[item.entityId] == cameras[item.entityId].View();
      var merged, fieldConflicts := MergeItem(item.basePayload, cameras[item.entityId].payload, item.patch);
      r := if fieldConflicts != [] then Err(ItemConflict(item.entityId, fieldConflicts)) else Ok(item.(patch := merged));
    }

    method ResolveAll(items: seq<Item>) returns (resolved: seq<Item>, conflicts: seq<ItemConflict>)
      ensures resolved == ResolveItems(View(), items).0 && conflicts == ResolveItems(View(), items).1
    {
      resolved, conflicts := [], [];
      for i := 0 to |items|
        invariant resolved == ResolveItems(View(), items[..i]).0 && conflicts == ResolveItems(View(), items[..i]).1
      {
        assert items[..i + 1][..i] == items[..i];
        var r := ResolveOne(items[i]);
        match r
        case Ok(item) => resolved := resolved + [item];
        case Err(c) => conflicts := conflicts + [c];
      }
      assert items[..|items|] == items;
    }

    method ApplyOne(projectId: Uuid, id: Uuid, item: Item)
      requires Valid()
      modifies this`cameras, this`cameraCodes, this`designed, cameras.Values
      ensures Valid()
      ensures View() == ApplyItem(old(View()), projectId, id, item)
      ensures forall e :: e in cameras ==> fresh(cameras[e]) || cameras[e] in old(cameras.Values)
    {
      if item.entityId !in cameras {
        PutCamera(item.entityId, Camera(projectId, item.patch));
      } else {
        SetPayload(item.entityId, item.patch);
      }
      Index((projectId, item.patch.code), item.entityId, item.patch, Some(id));
    }

    /** Points the code at the entity and records the data in its log. */
    method Index(key: (Uuid, Value), entityId: Uuid, data: Payload, changesetId: Option<Uuid>)
      modifies this`cameraCodes, this`designed
      ensures View() == old(View()).(codes := old(cameraCodes)[key := entityId],
                                     designed := AppendRevision(old(designed), entityId, data, None, changesetId))
    {
      cameraCodes := cameraCodes[key := entityId];
      Append(entityId, data, None, changesetId);
    }

    method SetPayload(entityId: Uuid, payload: Payload)
      requires Valid() && entityId in cameras
      modifies cameras[entityId]
      ensures Valid() && View() == old(View()).(cameras := old(Cameras())[entityId := old(Cameras())[entityId].(payload := payload)])
    {
      var camera := cameras[entityId];
      camera.payload := payload;
      assert forall other :: other in cameras && other != entityId ==> cameras[other] != camera;
      assert Cameras() == old(Cameras())[entityId := camera.View()];
    }

    method ApplyEach(projectId: Uuid, id: Uuid, resolved: seq<Item>)
      requires Valid()
      modifies this`cameras, this`cameraCodes, this`designed, cameras.Values
      ensures Valid()
      ensures View() == ApplyItems(old(View()), projectId, id, resolved)
      ensures ChangeSets() == old(ChangeSets())
    {
      for i := 0 to |resolved|
        invariant Valid()
        invariant View() == ApplyItems(old(View()), projectId, id, resolved[..i])
        invariant ChangeSets() == old(ChangeSets())
        invariant forall e :: e in cameras ==> fresh(cameras[e]) || cameras[e] in old(cameras.Values)
      {
        assert resolved[..i + 1][..i] == resolved[..i];
        ApplyOne(projectId, id, resolved[i]);
      }
      assert resolved[..|resolved|] == resolved;
    }

    method Approve(projectId: Uuid, id: Uuid) returns (r: Result<(), ChangeError>)
      requires Valid()
      modifies this, cameras.Values, changesets.Values
      ensures Valid()
      ensures View() == Revisions.Approve(old(View()), projectId, id).0
      ensures r == Revisions.Approve(old(View()), projectId, id).1
    {
      var found := Find(projectId, id, FILE_IMPORTS);
      if found.Err? {
        return Err(found.error);
      }
      var changeset := found.value;
      var resolved, conflicts := ResolveAll(changeset.items);
      if conflicts != [] {
        WriteChangeSet(id, Conflicted, changeset.items, conflicts);
        return Err(MergeConflict);
      }
      Commit(projectId, id, resolved);
      r := Ok(());
    }

    method Commit(projectId: Uuid, id: Uuid, resolved: seq<Item>)
      requires Valid() && id in changesets
      modifies this`cameras, this`cameraCodes, this`designed, cameras.Values, changesets[id]
      ensures Valid()
      ensures View() == ApplyAll(old(View()), projectId, id, resolved)
    {
      SetStatusOf(id, Approved);
      ApplyEach(projectId, id, resolved);
      SetStatusOf(id, Applied);
    }

    method SetStatusOf(id: Uuid, status: ChangeSetStatus)
      requires Valid() && id in changesets
      modifies changesets[id]
      ensures Valid() && View() == SetStatus(old(View()), id, status)
    {
      WriteChangeSet(id, status, changesets[id].items, changesets[id].conflicts);
    }

    method UpdateGeometry(projectId: Uuid, entityId: Uuid, geometry: Geometry, baseRevision: nat, newId: Uuid) returns (r: Result<(), ChangeError>)
      requires Valid()
      modifies this`designed
      ensures View() == Revisions.UpdateGeometry(old(View()), projectId, entityId, geometry, baseRevision, newId).0
      ensures r == Revisions.UpdateGeometry(old(View()), projectId, entityId, geometry, baseRevision, newId).1
    {
      assert forall e :: e in cameras ==> Cameras()[e] == cameras[e].View();
      if entityId !in cameras || cameras[entityId].projectId != projectId {
        return Err(NotFound);
      }
      var current := CurrentRevision(entityId);
      if current == None || current.value.number != baseRevision {
        return Err(StaleBase);
      }
      Append(entityId, cameras[entityId].payload, Some(geometry), Some(newId));
      r := Ok(());
    }
  }
}
