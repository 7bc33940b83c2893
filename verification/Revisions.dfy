/**
 The append-only revision log, the camera map it projects to, and the ChangeSets that change both:
 every operation as a function of the state.
 */
module Revisions {
  import opened Prelude
  import opened Merge

  datatype Camera = Camera(projectId: Uuid, payload: Payload)

  datatype Geometry = Geometry(latitude: real, longitude: real)

  datatype Revision = Revision(number: nat, data: Payload, geometry: Option<Geometry>, changesetId: Option<Uuid>)

  datatype Origin = FileImport | DocumentImport | OperateField

  datatype ChangeSetStatus = PendingApproval | Approved | Applied | Conflicted | Rejected | ConflictReview

  /** One proposed change; base revision 0 has no base payload. */
  datatype Item = Item(entityId: Uuid, recordIdentity: string, baseRevision: nat, basePayload: Option<Payload>, patch: Payload)

  datatype ItemConflict = ItemConflict(entityId: Uuid, fields: seq<FieldConflict>)

  datatype ChangeSet = ChangeSet(projectId: Uuid, origin: Origin, status: ChangeSetStatus, entityId: Uuid, baseRevision: nat,
                                 items: seq<Item>, conflicts: seq<ItemConflict>)

  /** A parsed row: the id the camera would get if new, the row's identity, and its fields. */
  datatype Row = Row(entityId: Uuid, recordIdentity: string, payload: Payload)

  /** How the rows of an import compare with the cameras, a known camera's row under the camera's id. */
  datatype ImportResult = ImportResult(inserted: seq<Row>, changed: seq<Row>, unchangedRows: seq<Row>)

  /** Cameras, the code index, the DESIGNED log, and the ChangeSets with their import results and two idempotency indexes. */
  datatype State = State(
    projects: set<Uuid>,
    cameras: map<Uuid, Camera>,
    codes: map<(Uuid, Value), Uuid>,
    designed: map<Uuid, seq<Revision>>,
    changesets: map<Uuid, ChangeSet>,
    results: map<Uuid, ImportResult>,
    byKey: map<string, Uuid>,
    byFile: map<(Uuid, int, string), Uuid>)

  const EMPTY := State({}, map[], map[], map[], map[], map[], map[], map[])

  datatype ChangeError = NotFound | WrongState | MergeConflict | StaleBase

  function History(s: State, entityId: Uuid): seq<Revision> {
    if entityId in s.designed then s.designed[entityId] else []
  }

  /** The current revision's number, 0 without one. */
  function CurrentNumber(s: State, entityId: Uuid): nat {
    var history := History(s, entityId);
    if history == [] then 0 else history[|history| - 1].number
  }

  function AppendRevision(designed: map<Uuid, seq<Revision>>, entityId: Uuid, data: Payload,
                          geometry: Option<Geometry>, changesetId: Option<Uuid>): map<Uuid, seq<Revision>>
  {
    var history := if entityId in designed then designed[entityId] else [];
    designed[entityId := history + [Revision(|history| + 1, data, geometry, changesetId)]]
  }

  // --- Direct import ------------------------------------------------------------------------------

  datatype ImportOutcome = Inserted | Unchanged | Changed

  /** The camera the code index points at. */
  predicate CodeResolves(s: State, projectId: Uuid, code: Value) {
    (projectId, code) in s.codes ==> s.codes[(projectId, code)] in s.cameras
  }

  function ImportCamera(s: State, projectId: Uuid, entityId: Uuid, camera: Camera): (State, ImportOutcome)
    requires CodeResolves(s, projectId, camera.payload.code)
  {
    var key := (projectId, camera.payload.code);
    if key !in s.codes then
      (s.(cameras := s.cameras[entityId := camera], codes := s.codes[key := entityId],
          designed := AppendRevision(s.designed, entityId, camera.payload, None, None)), Inserted)
    else
      var existing := s.codes[key];
      if s.cameras[existing].payload == camera.payload then (s, Unchanged)
      else
        (s.(cameras := s.cameras[existing := camera],
            designed := AppendRevision(s.designed, existing, camera.payload, None, None)), Changed)
  }

  // --- Proposing changes --------------------------------------------------------------------------

  /** The item a row proposes, unless it changes nothing. */
  function ProposeItem(s: State, projectId: Uuid, row: Row): Option<Item>
    requires CodeResolves(s, projectId, row.payload.code)
  {
    var key := (projectId, row.payload.code);
    if key !in s.codes then Some(Item(row.entityId, row.recordIdentity, 0, None, row.payload))
    else
      var existing := s.codes[key];
      var base := s.cameras[existing].payload;
      if base == row.payload then None
      else Some(Item(existing, row.recordIdentity, CurrentNumber(s, existing), Some(base), row.payload))
  }

  function ProposeItems(s: State, projectId: Uuid, rows: seq<Row>): seq<Item>
    requires forall r :: r in rows ==> CodeResolves(s, projectId, r.payload.code)
  {
    if rows == [] then []
    else
      var last := |rows| - 1;
      var earlier := ProposeItems(s, projectId, rows[..last]);
      match ProposeItem(s, projectId, rows[last])
      case None => earlier
      case Some(item) => earlier + [item]
  }

  function Classify(s: State, projectId: Uuid, row: Row): ImportOutcome
    requires CodeResolves(s, projectId, row.payload.code)
  {
    var key := (projectId, row.payload.code);
    if key !in s.codes then Inserted else if s.cameras[s.codes[key]].payload == row.payload then Unchanged else Changed
  }

  /** The row under the id of the camera that has its code. */
  function Located(s: State, projectId: Uuid, row: Row): Row {
    var key := (projectId, row.payload.code);
    if key in s.codes then row.(entityId := s.codes[key]) else row
  }

  function AddRow(result: ImportResult, outcome: ImportOutcome, row: Row): ImportResult {
    match outcome
    case Inserted => result.(inserted := result.inserted + [row])
    case Changed => result.(changed := result.changed + [row])
    case Unchanged => result.(unchangedRows := result.unchangedRows + [row])
  }

  function CompareRows(s: State, projectId: Uuid, rows: seq<Row>): ImportResult
    requires forall r :: r in rows ==> CodeResolves(s, projectId, r.payload.code)
  {
    if rows == [] then ImportResult([], [], [])
    else
      var last := |rows| - 1;
      AddRow(CompareRows(s, projectId, rows[..last]), Classify(s, projectId, rows[last]), Located(s, projectId, rows[last]))
  }

  datatype FileKey = FileKey(fileId: Uuid, fileRevision: int, fileHash: string)

  function CreateImport(s: State, projectId: Uuid, file: FileKey, rows: seq<Row>, idempotencyKey: string, newId: Uuid)
    : (State, Result<(Uuid, ImportResult), ChangeError>)
    requires forall r :: r in rows ==> CodeResolves(s, projectId, r.payload.code)
  {
    var fileKey := (file.fileId, file.fileRevision, file.fileHash);
    if idempotencyKey in s.byKey then (s, KnownImport(s, s.byKey[idempotencyKey]))
    else if fileKey in s.byFile then (s, KnownImport(s, s.byFile[fileKey]))
    else if projectId !in s.projects then (s, Err(NotFound))
    else
      var items, result := ProposeItems(s, projectId, rows), CompareRows(s, projectId, rows);
      var first := if items == [] then newId else items[0].entityId;
      var base := if items == [] then 0 else items[0].baseRevision;
      (s.(changesets := s.changesets[newId := ChangeSet(projectId, FileImport, PendingApproval, first, base, items, [])],
          results := s.results[newId := result],
          byKey := s.byKey[idempotencyKey := newId], byFile := s.byFile[fileKey := newId]), Ok((newId, result)))
  }

  /** An import answered from an index; a ChangeSet that is no file import has no result, which is an error. */
  function KnownImport(s: State, id: Uuid): Result<(Uuid, ImportResult), ChangeError> {
    if id in s.results then Ok((id, s.results[id])) else Err(NotFound)
  }

  /** A document import: a ChangeSet without items, under the same idempotency keys as file imports. */
  function CreateDocument(s: State, projectId: Uuid, fileRevision: nat, idempotencyKey: Option<string>, newId: Uuid)
    : (State, Result<Uuid, ChangeError>)
  {
    if projectId !in s.projects then (s, Err(NotFound))
    else if idempotencyKey.Some? && idempotencyKey.value in s.byKey then (s, Ok(s.byKey[idempotencyKey.value]))
    else
      (s.(changesets := s.changesets[newId := ChangeSet(projectId, DocumentImport, PendingApproval, 0, fileRevision, [], [])],
          byKey := if idempotencyKey.Some? then s.byKey[idempotencyKey.value := newId] else s.byKey), Ok(newId))
  }

  /** A field observation proposes an AS_BUILT change of one camera. */
  function SubmitObservation(s: State, projectId: Uuid, entityId: Uuid, baseRevision: nat, newId: Uuid): State {
    s.(changesets := s.changesets[newId := ChangeSet(projectId, OperateField, PendingApproval, entityId, baseRevision, [], [])])
  }

  // --- Deciding on a ChangeSet -----------------------------------------------------------------------

  const FILE_IMPORTS := {FileImport}

  const IMPORTS := {FileImport, DocumentImport}

  const ANY_ORIGIN := {FileImport, DocumentImport, OperateField}

  /** The open ChangeSet of one of these origins. */
  function FindChangeSet(s: State, projectId: Uuid, id: Uuid, origins: set<Origin>): Result<ChangeSet, ChangeError> {
    if id !in s.changesets || s.changesets[id].projectId != projectId then Err(NotFound)
    else if s.changesets[id].origin !in origins || s.changesets[id].status != PendingApproval then Err(WrongState)
    else Ok(s.changesets[id])
  }

  function SetStatus(s: State, id: Uuid, status: ChangeSetStatus): State
    requires id in s.changesets
  {
    s.(changesets := s.changesets[id := s.changesets[id].(status := status)])
  }

  /** Where the record first occurs among the items. */
  function IndexOf(items: seq<Item>, recordIdentity: string): (r: Option<nat>)
    ensures r.Some? ==> r.value < |items| && items[r.value].recordIdentity == recordIdentity
  {
    if items == [] then None
    else
      var last := |items| - 1;
      var earlier := IndexOf(items[..last], recordIdentity);
      if earlier.Some? then earlier
      else if items[last].recordIdentity == recordIdentity then Some(last) else None
  }

  /** Sets one field of one record's patch; `field` is absent when the request names no field of the patch. */
  function EditItem(s: State, projectId: Uuid, id: Uuid, recordIdentity: string, field: Option<Field>, value: Value)
    : (State, Result<(), ChangeError>)
  {
    match FindChangeSet(s, projectId, id, FILE_IMPORTS)
    case Err(e) => (s, Err(e))
    case Ok(c) =>
      match IndexOf(c.items, recordIdentity)
      case None => (s, Err(NotFound))
      case Some(i) =>
        if field == None then (s, Err(WrongState))
        else
          var item := c.items[i].(patch := Put(c.items[i].patch, field.value, value));
          (s.(changesets := s.changesets[id := c.(items := c.items[i := item])]), Ok(()))
  }

  function Reject(s: State, projectId: Uuid, id: Uuid): (State, Result<(), ChangeError>) {
    match FindChangeSet(s, projectId, id, IMPORTS)
    case Err(e) => (s, Err(e))
    case Ok(c) => (SetStatus(s, id, Rejected), Ok(()))
  }

  /** Sends a ChangeSet to review from whatever status it has. */
  function MarkConflictReview(s: State, projectId: Uuid, id: Uuid): (State, Result<(), ChangeError>) {
    if id !in s.changesets || s.changesets[id].projectId != projectId then (s, Err(NotFound))
    else (SetStatus(s, id, ConflictReview), Ok(()))
  }

  // --- Approving an import -----------------------------------------------------------------------------

  /** The patch an item comes to, or the fields that stand against it. */
  function ResolveItem(s: State, item: Item): Result<Item, ItemConflict> {
    if item.entityId !in s.cameras || History(s, item.entityId) == [] || CurrentNumber(s, item.entityId) == item.baseRevision then Ok(item)
    else
      var (merged, conflicts) := MergePayload(item.basePayload, s.cameras[item.entityId].payload, item.patch);
      if conflicts != [] then Err(ItemConflict(item.entityId, conflicts)) else Ok(item.(patch := merged))
  }

  function ResolveItems(s: State, items: seq<Item>): (seq<Item>, seq<ItemConflict>) {
    if items == [] then ([], [])
    else
      var last := |items| - 1;
      var (resolved, conflicts) := ResolveItems(s, items[..last]);
      match ResolveItem(s, items[last])
      case Ok(item) => (resolved + [item], conflicts)
      case Err(c) => (resolved, conflicts + [c])
  }

  function ApplyItem(s: State, projectId: Uuid, id: Uuid, item: Item): State {
    var camera := if item.entityId in s.cameras then s.cameras[item.entityId].(payload := item.patch) else Camera(projectId, item.patch);
    s.(cameras := s.cameras[item.entityId := camera],
       codes := s.codes[(projectId, item.patch.code) := item.entityId],
       designed := AppendRevision(s.designed, item.entityId, item.patch, None, Some(id)))
  }

  function ApplyItems(s: State, projectId: Uuid, id: Uuid, items: seq<Item>): (r: State)
    ensures r.changesets == s.changesets && r.results == s.results && r.projects == s.projects && r.byKey == s.byKey && r.byFile == s.byFile
  {
    if items == [] then s
    else ApplyItem(ApplyItems(s, projectId, id, items[..|items| - 1]), projectId, id, items[|items| - 1])
  }

  /** The state after every resolved item has been applied and the ChangeSet closed. */
  function ApplyAll(s: State, projectId: Uuid, id: Uuid, resolved: seq<Item>): State
    requires id in s.changesets
  {
    SetStatus(ApplyItems(SetStatus(s, id, Approved), projectId, id, resolved), id, Applied)
  }

  function Approve(s: State, projectId: Uuid, id: Uuid): (State, Result<(), ChangeError>) {
    match FindChangeSet(s, projectId, id, FILE_IMPORTS)
    case Err(e) => (s, Err(e))
    case Ok(c) =>
      var (resolved, conflicts) := ResolveItems(s, c.items);
      if conflicts != [] then
        (s.(changesets := s.changesets[id := c.(status := Conflicted, conflicts := conflicts)]), Err(MergeConflict))
      else (ApplyAll(s, projectId, id, resolved), Ok(()))
  }

  /** Approving a field observation: applied if its base is current. The AS_BUILT log it writes is kept apart. */
  function ApproveObservation(s: State, projectId: Uuid, id: Uuid): (State, Result<(), ChangeError>) {
    match FindChangeSet(s, projectId, id, ANY_ORIGIN)
    case Err(e) => (s, Err(e))
    case Ok(c) =>
      if History(s, c.entityId) == [] || CurrentNumber(s, c.entityId) != c.baseRevision then (SetStatus(s, id, Conflicted), Err(StaleBase))
      else (SetStatus(s, id, Applied), Ok(()))
  }

  function UpdateGeometry(s: State, projectId: Uuid, entityId: Uuid, geometry: Geometry, baseRevision: nat, newId: Uuid)
    : (State, Result<(), ChangeError>)
  {
    if entityId !in s.cameras || s.cameras[entityId].projectId != projectId then (s, Err(NotFound))
    else
      if History(s, entityId) == [] || CurrentNumber(s, entityId) != baseRevision then (s, Err(StaleBase))
      else (s.(designed := AppendRevision(s.designed, entityId, s.cameras[entityId].payload, Some(geometry), Some(newId))), Ok(()))
  }
}
