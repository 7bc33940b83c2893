/** What a file import proposes and what its approval leaves in the cameras, told from the rows of the file. */
module ImportEffects {
  import opened Prelude
  import opened Merge
  import opened Revisions
  import opened RevisionTheorems

  // --- Rows and the cameras they meet ---------------------------------------------------------------------

  /** The camera that has the row's code, or the one it would add. */
  function Target(s: State, projectId: Uuid, row: Row): Uuid {
    var key := (projectId, row.payload.code);
    if key in s.codes then s.codes[key] else row.entityId
  }

  predicate Known(s: State, projectId: Uuid, row: Row) {
    (projectId, row.payload.code) in s.codes
  }

  /** How the row compares with the camera that has its code. */
  predicate IsKind(s: State, projectId: Uuid, row: Row, kind: ImportOutcome) {
    match kind
    case Inserted => !Known(s, projectId, row)
    case Changed => Known(s, projectId, row) && !Holds(s, Target(s, projectId, row), row.payload)
    case Unchanged => Known(s, projectId, row) && Holds(s, Target(s, projectId, row), row.payload)
  }

  predicate Holds(s: State, e: Uuid, payload: Payload) {
    e in s.cameras && s.cameras[e].payload == payload
  }

  predicate IsOneOf(s: State, projectId: Uuid, row: Row, kinds: set<ImportOutcome>) {
    exists kind :: kind in kinds && IsKind(s, projectId, row, kind)
  }

  /** The rows that add or change a camera. */
  const CHANGING := {Inserted, Changed}

  /** The item gives the row's target the row's payload; for a known camera it is based on its current revision and payload. */
  ghost predicate Proposed(s: State, projectId: Uuid, row: Row, item: Item) {
    && item.entityId == Target(s, projectId, row) && item.recordIdentity == row.recordIdentity && item.patch == row.payload
    && if Known(s, projectId, row)
       then && item.entityId in s.cameras && item.basePayload == Some(s.cameras[item.entityId].payload)
            && item.baseRevision == |History(s, item.entityId)|
       else item.baseRevision == 0 && item.basePayload == None
  }

  /** An ascending list of positions. */
  ghost predicate Positions(at: seq<nat>, n: nat) {
    && (forall k :: 0 <= k < |at| ==> at[k] < n)
    && forall j, k :: 0 <= j < k < |at| ==> at[j] < at[k]
  }

  /** The positions of the rows of these kinds, in order. */
  ghost predicate ArePositionsOf(at: seq<nat>, s: State, projectId: Uuid, rows: seq<Row>, kinds: set<ImportOutcome>) {
    Positions(at, |rows|) && forall i: nat :: i in at <==> i < |rows| && IsOneOf(s, projectId, rows[i], kinds)
  }

  lemma OneMorePosition(at: seq<nat>, s: State, projectId: Uuid, rows: seq<Row>, kinds: set<ImportOutcome>)
    requires rows != [] && ArePositionsOf(at, s, projectId, rows[..|rows| - 1], kinds)
    ensures ArePositionsOf(if IsOneOf(s, projectId, rows[|rows| - 1], kinds) then at + [|rows| - 1] else at, s, projectId, rows, kinds)
  {
    var last: nat := |rows| - 1;
    var at' := if IsOneOf(s, projectId, rows[last], kinds) then at + [last] else at;
    forall i: nat ensures i in at' <==> i < |rows| && IsOneOf(s, projectId, rows[i], kinds) {
      assert i < last ==> rows[..last][i] == rows[i];
      assert i in at + [last] <==> i in at || i == last;
    }
  }

  lemma CurrentIsLength(s: State, e: Uuid)
    requires Inv(s) && e in s.cameras
    ensures CurrentNumber(s, e) == |History(s, e)| && History(s, e) != []
    ensures History(s, e)[|History(s, e)| - 1].data == s.cameras[e].payload
  {
    assert ProjectsTo(s.designed[e], s.cameras[e].payload);
  }

  lemma RowIsProposed(s: State, projectId: Uuid, row: Row)
    requires Inv(s)
    ensures match ProposeItem(s, projectId, row)
            case None => !IsOneOf(s, projectId, row, CHANGING)
            case Some(item) => IsOneOf(s, projectId, row, CHANGING) && Proposed(s, projectId, row, item)
  {
    assert IsOneOf(s, projectId, row, CHANGING) <==> !IsKind(s, projectId, row, Unchanged) by {
      assert Inserted in CHANGING && Changed in CHANGING;
      assert IsKind(s, projectId, row, Inserted) || IsKind(s, projectId, row, Changed) || IsKind(s, projectId, row, Unchanged);
    }
    if Known(s, projectId, row) {
      CurrentIsLength(s, Target(s, projectId, row));
    }
  }

  /** Each item is proposed by the row at its position. */
  ghost predicate ProposedAt(s: State, projectId: Uuid, rows: seq<Row>, items: seq<Item>, at: seq<nat>) {
    |items| == |at| && forall k :: 0 <= k < |at| ==> at[k] < |rows| && Proposed(s, projectId, rows[at[k]], items[k])
  }

  lemma ProposedAtOneMore(s: State, projectId: Uuid, rows: seq<Row>, items: seq<Item>, at: seq<nat>, item: Item)
    requires rows != [] && ProposedAt(s, projectId, rows[..|rows| - 1], items, at)
    ensures ProposedAt(s, projectId, rows, items, at)
    ensures Proposed(s, projectId, rows[|rows| - 1], item) ==> ProposedAt(s, projectId, rows, items + [item], at + [|rows| - 1])
  {
    forall k | 0 <= k < |at| ensures at[k] < |rows| && Proposed(s, projectId, rows[at[k]], items[k]) {
      assert rows[..|rows| - 1][at[k]] == rows[at[k]];
    }
  }

  /** An import proposes one item for each row that adds or changes a camera, in the order of the rows, and none for the others. */
  lemma {:induction false} ItemsAreChangingRows(s: State, projectId: Uuid, rows: seq<Row>) returns (at: seq<nat>)
    requires Inv(s)
    ensures ArePositionsOf(at, s, projectId, rows, CHANGING) && ProposedAt(s, projectId, rows, ProposeItems(s, projectId, rows), at)
  {
    if rows == [] {
      at := [];
    } else {
      var front, last := rows[..|rows| - 1], rows[|rows| - 1];
      var before := ItemsAreChangingRows(s, projectId, front);
      RowIsProposed(s, projectId, last);
      OneMorePosition(before, s, projectId, rows, CHANGING);
      match ProposeItem(s, projectId, last)
      case None =>
        at := before;
        ProposedAtOneMore(s, projectId, rows, ProposeItems(s, projectId, front), before, Item(0, "", 0, None, last.payload));
      case Some(item) =>
        at := before + [|rows| - 1];
        ProposedAtOneMore(s, projectId, rows, ProposeItems(s, projectId, front), before, item);
    }
  }

  function Reported(result: ImportResult, kind: ImportOutcome): seq<Row> {
    match kind
    case Inserted => result.inserted
    case Changed => result.changed
    case Unchanged => result.unchangedRows
  }

  /** Each reported row is the one at its position, under the id of the camera it meets. */
  ghost predicate ReportedAt(s: State, projectId: Uuid, rows: seq<Row>, reported: seq<Row>, at: seq<nat>) {
    |reported| == |at| && forall k :: 0 <= k < |at| ==>
      at[k] < |rows| && reported[k] == Row(Target(s, projectId, rows[at[k]]), rows[at[k]].recordIdentity, rows[at[k]].payload)
  }

  lemma ReportedAtOneMore(s: State, projectId: Uuid, rows: seq<Row>, reported: seq<Row>, at: seq<nat>)
    requires rows != [] && ReportedAt(s, projectId, rows[..|rows| - 1], reported, at)
    ensures ReportedAt(s, projectId, rows, reported, at)
    ensures var row := rows[|rows| - 1];
            ReportedAt(s, projectId, rows, reported + [Row(Target(s, projectId, row), row.recordIdentity, row.payload)], at + [|rows| - 1])
  {
    forall k | 0 <= k < |at|
      ensures at[k] < |rows| && reported[k] == Row(Target(s, projectId, rows[at[k]]), rows[at[k]].recordIdentity, rows[at[k]].payload)
    {
      assert rows[..|rows| - 1][at[k]] == rows[at[k]];
    }
  }

  lemma KindIsReported(s: State, projectId: Uuid, row: Row, result: ImportResult, kind: ImportOutcome)
    requires Inv(s)
    ensures Reported(AddRow(result, Classify(s, projectId, row), Located(s, projectId, row)), kind)
         == if IsOneOf(s, projectId, row, {kind}) then Reported(result, kind) + [Row(Target(s, projectId, row), row.recordIdentity, row.payload)]
            else Reported(result, kind)
  {
    assert IsOneOf(s, projectId, row, {kind}) <==> IsKind(s, projectId, row, kind) by {
      assert kind in {kind};
    }
  }

  /** The result reports each row once, in order, under its kind and under the id of the camera it meets. */
  lemma {:induction false} RowsAreReported(s: State, projectId: Uuid, rows: seq<Row>, kind: ImportOutcome) returns (at: seq<nat>)
    requires Inv(s)
    ensures ArePositionsOf(at, s, projectId, rows, {kind})
    ensures ReportedAt(s, projectId, rows, Reported(CompareRows(s, projectId, rows), kind), at)
  {
    if rows == [] {
      at := [];
    } else {
      var front, last := rows[..|rows| - 1], rows[|rows| - 1];
      var before := RowsAreReported(s, projectId, front, kind);
      OneMorePosition(before, s, projectId, rows, {kind});
      KindIsReported(s, projectId, last, CompareRows(s, projectId, front), kind);
      ReportedAtOneMore(s, projectId, rows, Reported(CompareRows(s, projectId, front), kind), before);
      at := if IsOneOf(s, projectId, last, {kind}) then before + [|rows| - 1] else before;
    }
  }

  // --- Proposing -----------------------------------------------------------------------------------------------

  predicate NewImport(s: State, projectId: Uuid, file: FileKey, key: string) {
    key !in s.byKey && (file.fileId, file.fileRevision, file.fileHash) !in s.byFile && projectId in s.projects
  }

  /** The step proposes an import under a new key and with a new file. */
  ghost predicate Opens(s: State, step: Step, projectId: Uuid, rows: seq<Row>, newId: Uuid) {
    step.Propose? && step.projectId == projectId && step.rows == rows && step.newId == newId && NewImport(s, projectId, step.file, step.key)
  }

  /** Cameras, codes and histories are as before. */
  ghost predicate SameLog(s: State, s': State) {
    s'.cameras == s.cameras && s'.codes == s.codes && s'.designed == s.designed && s'.projects == s.projects
  }

  ghost predicate OthersStay(s: State, s': State, id: Uuid) {
    && (forall other :: other in s.changesets && other != id ==> other in s'.changesets && s'.changesets[other] == s.changesets[other])
    && (forall other :: other in s.results && other != id ==> other in s'.results && s'.results[other] == s.results[other])
  }

  predicate OpenImport(s: State, projectId: Uuid, id: Uuid) {
    && id in s.changesets && s.changesets[id].projectId == projectId
    && s.changesets[id].origin == FileImport && s.changesets[id].status == PendingApproval
  }

  ghost predicate ItemsFit(s: State, projectId: Uuid, rows: seq<Row>, items: seq<Item>, at: seq<nat>) {
    ArePositionsOf(at, s, projectId, rows, CHANGING) && ProposedAt(s, projectId, rows, items, at)
  }

  lemma RunResolvesCodes(states: seq<State>, steps: seq<Step>, n: nat)
    requires Behaviour(states, steps) && n < |steps|
    ensures Inv(states[n]) && Inv(states[n + 1]) && Enabled(states[n], steps[n]) && states[n + 1] == Next(states[n], steps[n])
    ensures forall p: Uuid, code: Value :: CodeResolves(states[n], p, code) && CodeResolves(states[n + 1], p, code)
  {
    BehaviourKeepsInv(states, steps, n, n);
    BehaviourKeepsInv(states, steps, n + 1, n + 1);
  }

  lemma OpenedFits(s: State, projectId: Uuid, file: FileKey, rows: seq<Row>, key: string, newId: Uuid) returns (at: seq<nat>)
    requires Inv(s) && newId !in s.changesets && NewImport(s, projectId, file, key)
    ensures Opened(s, CreateImport(s, projectId, file, rows, key, newId).0, projectId, rows, newId, at)
  {
    at := ItemsAreChangingRows(s, projectId, rows);
  }

  /** An open ChangeSet with an item for each row that adds or changes a camera, told by the first; otherwise only its result is new. */
  ghost predicate Opened(s: State, s': State, projectId: Uuid, rows: seq<Row>, newId: Uuid, at: seq<nat>) {
    && SameLog(s, s') && OthersStay(s, s', newId) && OpenImport(s', projectId, newId) && newId in s'.results
    && var c := s'.changesets[newId];
       && c.conflicts == [] && ItemsFit(s, projectId, rows, c.items, at)
       && (c.items != [] ==> c.entityId == c.items[0].entityId && c.baseRevision == c.items[0].baseRevision)
  }

  /** In every run a new import opens a ChangeSet with an item for each row that adds or changes a camera, in order, and is told by
      its first item; it changes no camera, code or history and no other ChangeSet. */
  lemma ImportOpens(states: seq<State>, steps: seq<Step>, n: nat, projectId: Uuid, rows: seq<Row>, newId: Uuid) returns (at: seq<nat>)
    requires Behaviour(states, steps) && n < |steps| && Opens(states[n], steps[n], projectId, rows, newId)
    ensures Opened(states[n], states[n + 1], projectId, rows, newId, at)
  {
    RunResolvesCodes(states, steps, n);
    at := OpenedFits(states[n], projectId, steps[n].file, rows, steps[n].key, newId);
  }

  /** ... and its result reports every row once under its kind. */
  lemma ImportReports(states: seq<State>, steps: seq<Step>, n: nat, projectId: Uuid, rows: seq<Row>, newId: Uuid, kind: ImportOutcome)
    returns (at: seq<nat>)
    requires Behaviour(states, steps) && n < |steps| && Opens(states[n], steps[n], projectId, rows, newId)
    ensures newId in states[n + 1].results && ArePositionsOf(at, states[n], projectId, rows, {kind})
    ensures ReportedAt(states[n], projectId, rows, Reported(states[n + 1].results[newId], kind), at)
  {
    RunResolvesCodes(states, steps, n);
    at := RowsAreReported(states[n], projectId, rows, kind);
  }

  /** The same key, or the same file, then is answered with that ChangeSet and result, and nothing is proposed again. */
  lemma ImportIsAnswered(states: seq<State>, steps: seq<Step>, n: nat, file: FileKey, rows: seq<Row>, key: string, newId: Uuid, id: Uuid)
    requires Behaviour(states, steps) && n < |steps| && steps[n].Propose?
    requires Opens(states[n], steps[n], steps[n].projectId, steps[n].rows, newId)
    requires key == steps[n].key || (file == steps[n].file && key !in states[n].byKey)
    ensures newId in states[n + 1].results
    ensures (forall row :: row in rows ==> CodeResolves(states[n + 1], steps[n].projectId, row.payload.code))
            && CreateImport(states[n + 1], steps[n].projectId, file, rows, key, id)
               == (states[n + 1], Ok((newId, states[n + 1].results[newId])))
  {
    RunResolvesCodes(states, steps, n);
  }

  // --- Approving with nothing in between ------------------------------------------------------------------------

  /** The step may change the camera: an import of its code, an approval of an import naming it, or a new position. */
  predicate Writes(s: State, step: Step, e: Uuid) {
    match step
    case Import(p, newId, camera) => e == if (p, camera.payload.code) in s.codes then s.codes[(p, camera.payload.code)] else newId
    case ApproveImport(_, id) => id in s.changesets && exists item :: item in s.changesets[id].items && item.entityId == e
    case SetGeometry(_, entityId, _, _, _) => entityId == e
    case _ => false
  }

  /** The step edits or decides on the ChangeSet. */
  predicate Handles(step: Step, id: Uuid) {
    match step
    case Edit(_, c, _, _, _) => c == id
    case RejectImport(_, c) => c == id
    case SendToReview(_, c) => c == id
    case ApproveImport(_, c) => c == id
    case ApproveField(_, c) => c == id
    case _ => false
  }

  ghost predicate SameCamera(s: State, s': State, e: Uuid) {
    && (e in s.cameras <==> e in s'.cameras)
    && (e in s.cameras ==> s'.cameras[e] == s.cameras[e])
    && History(s', e) == History(s, e)
  }

  lemma {:induction false} UnnamedOccursNever(items: seq<Item>, e: Uuid)
    requires forall item :: item in items ==> item.entityId != e
    ensures Occurrences(items, e) == 0
  {
    if items == [] {
    } else {
      UnnamedOccursNever(items[..|items| - 1], e);
    }
  }

  lemma ApprovalLeavesUnnamed(s: State, projectId: Uuid, id: Uuid, e: Uuid)
    requires Inv(s) && !Writes(s, ApproveImport(projectId, id), e)
    ensures SameCamera(s, Approve(s, projectId, id).0, e)
  {
    if FindChangeSet(s, projectId, id, FILE_IMPORTS).Ok? {
      UnnamedOccursNever(s.changesets[id].items, e);
      ApproveAllOrNothing(s, projectId, id);
    }
  }

  lemma UnwrittenStays(s: State, step: Step, e: Uuid)
    requires Inv(s) && Enabled(s, step) && !Writes(s, step, e)
    ensures SameCamera(s, Next(s, step), e)
  {
    if step.ApproveImport? {
      ApprovalLeavesUnnamed(s, step.projectId, step.id, e);
    } else {
      OtherUnwrittenStays(s, step, e);
    }
  }

  lemma OtherUnwrittenStays(s: State, step: Step, e: Uuid)
    requires Inv(s) && Enabled(s, step) && !Writes(s, step, e) && !step.ApproveImport?
    ensures SameCamera(s, Next(s, step), e)
  {
    if step.Import? || step.SetGeometry? {
      RecordedElsewhere(s, step, e);
    } else if OnlyStatuses(step) {
      StatusLeavesCameras(s, step);
    } else {
      ProposalLeavesCameras(s, step);
    }
  }

  lemma RecordedElsewhere(s: State, step: Step, e: Uuid)
    requires (step.Import? || step.SetGeometry?) && !Writes(s, step, e)
    ensures SameCamera(s, Next(s, step), e)
  {
  }

  lemma StatusLeavesCameras(s: State, step: Step)
    requires OnlyStatuses(step)
    ensures Next(s, step).cameras == s.cameras && Next(s, step).designed == s.designed
  {
    match step
    case Observe(_, _, _, _) =>
    case RejectImport(p, id) => assert Reject(s, p, id).0 == s || Reject(s, p, id).0 == SetStatus(s, id, Rejected);
    case SendToReview(p, id) => assert MarkConflictReview(s, p, id).0 == s || MarkConflictReview(s, p, id).0 == SetStatus(s, id, ConflictReview);
    case ApproveField(p, id) => FieldApprovalLeavesCameras(s, p, id);
  }

  lemma FieldApprovalLeavesCameras(s: State, projectId: Uuid, id: Uuid)
    ensures var s' := ApproveObservation(s, projectId, id).0; s'.cameras == s.cameras && s'.designed == s.designed
  {
  }

  lemma ProposalLeavesCameras(s: State, step: Step)
    requires step.Propose? || step.Document? || step.Edit? || step.AddProject?
    ensures Next(s, step).cameras == s.cameras && Next(s, step).designed == s.designed
  {
  }

  ghost predicate SameChangeSet(s: State, s': State, id: Uuid) {
    id in s.changesets ==> id in s'.changesets && s'.changesets[id] == s.changesets[id]
  }

  lemma UnhandledStays(s: State, step: Step, id: Uuid)
    requires Inv(s) && Enabled(s, step) && !Handles(step, id)
    ensures SameChangeSet(s, Next(s, step), id)
  {
    if step.ApproveImport? {
      ApproveSettles(s, step.projectId, step.id);
    } else if OnlyStatuses(step) {
      OtherStatusStays(s, step, id);
    } else {
      OtherProposalStays(s, step, id);
    }
  }

  lemma OtherStatusStays(s: State, step: Step, id: Uuid)
    requires OnlyStatuses(step) && Enabled(s, step) && !Handles(step, id)
    ensures SameChangeSet(s, Next(s, step), id)
  {
  }

  lemma OtherProposalStays(s: State, step: Step, id: Uuid)
    requires !OnlyStatuses(step) && !step.ApproveImport? && Enabled(s, step) && !Handles(step, id)
    ensures SameChangeSet(s, Next(s, step), id)
  {
  }

  lemma UnwrittenStaysInRun(states: seq<State>, steps: seq<Step>, j: nat, e: Uuid)
    requires Behaviour(states, steps) && j < |steps| && !Writes(states[j], steps[j], e)
    ensures SameCamera(states[j], states[j + 1], e)
  {
    BehaviourKeepsInv(states, steps, j, j);
    UnwrittenStays(states[j], steps[j], e);
  }

  ghost predicate CameraKept(states: seq<State>, j: nat, e: Uuid) {
    j + 1 < |states| && SameCamera(states[j], states[j + 1], e)
  }

  lemma {:induction false} KeptThroughout(states: seq<State>, n: nat, m: nat, e: Uuid)
    requires n <= m < |states| && forall j: nat :: n <= j < m ==> CameraKept(states, j, e)
    ensures SameCamera(states[n], states[m], e)
    decreases m
  {
    if n == m {
    } else {
      KeptThroughout(states, n, m - 1, e);
      assert CameraKept(states, m - 1, e);
    }
  }

  /** While no step writes the camera it stays, with its history. */
  lemma CameraStays(states: seq<State>, steps: seq<Step>, n: nat, m: nat, e: Uuid)
    requires Behaviour(states, steps) && n <= m <= |steps|
    requires forall j :: n <= j < m ==> !Writes(states[j], steps[j], e)
    ensures SameCamera(states[n], states[m], e)
  {
    forall j: nat | n <= j < m ensures CameraKept(states, j, e) {
      UnwrittenStaysInRun(states, steps, j, e);
    }
    KeptThroughout(states, n, m, e);
  }

  ghost predicate ChangeSetKept(states: seq<State>, j: nat, id: Uuid) {
    j + 1 < |states| && SameChangeSet(states[j], states[j + 1], id)
  }

  lemma {:induction false} ChangeSetKeptThroughout(states: seq<State>, n: nat, m: nat, id: Uuid)
    requires n <= m < |states| && forall j: nat :: n <= j < m ==> ChangeSetKept(states, j, id)
    ensures SameChangeSet(states[n], states[m], id)
    decreases m
  {
    if n == m {
    } else {
      ChangeSetKeptThroughout(states, n, m - 1, id);
      assert ChangeSetKept(states, m - 1, id);
    }
  }

  lemma UnhandledStaysInRun(states: seq<State>, steps: seq<Step>, j: nat, id: Uuid)
    requires Behaviour(states, steps) && j < |steps| && !Handles(steps[j], id)
    ensures SameChangeSet(states[j], states[j + 1], id)
  {
    BehaviourKeepsInv(states, steps, j, j);
    UnhandledStays(states[j], steps[j], id);
  }

  /** While no step handles the ChangeSet it stays. */
  lemma ChangeSetStays(states: seq<State>, steps: seq<Step>, n: nat, m: nat, id: Uuid)
    requires Behaviour(states, steps) && n <= m <= |steps|
    requires forall j :: n <= j < m ==> !Handles(steps[j], id)
    ensures SameChangeSet(states[n], states[m], id)
  {
    forall j: nat | n <= j < m ensures ChangeSetKept(states, j, id) {
      UnhandledStaysInRun(states, steps, j, id);
    }
    ChangeSetKeptThroughout(states, n, m, id);
  }

  /** The item proposes a new camera, or the current revision of a known one. */
  ghost predicate UpToDate(s: State, item: Item) {
    item.entityId in s.cameras ==> item.baseRevision == |History(s, item.entityId)|
  }

  lemma UpToDateResolves(s: State, item: Item)
    requires Inv(s) && UpToDate(s, item)
    ensures ResolveItem(s, item) == Ok(item)
  {
    if item.entityId in s.cameras {
      CurrentIsLength(s, item.entityId);
    }
  }

  lemma ApproveUpToDate(s: State, projectId: Uuid, id: Uuid)
    requires Inv(s) && OpenImport(s, projectId, id)
    requires forall item :: item in s.changesets[id].items ==> UpToDate(s, item)
    ensures Approve(s, projectId, id) == (ApplyAll(s, projectId, id, s.changesets[id].items), Ok(()))
  {
    var items := s.changesets[id].items;
    forall item | item in items ensures ResolveItem(s, item) == Ok(item) {
      UpToDateResolves(s, item);
    }
    ResolveAllItems(s, items);
    assert ResolveItems(s, items).0 == items;
  }

  /** The row's target has its payload after the last changing row for it. */
  ghost predicate LastChange(s: State, projectId: Uuid, rows: seq<Row>, i: nat) {
    && i < |rows| && IsOneOf(s, projectId, rows[i], CHANGING)
    && forall j :: i < j < |rows| && IsOneOf(s, projectId, rows[j], CHANGING) ==> Target(s, projectId, rows[j]) != Target(s, projectId, rows[i])
  }

  lemma LastChangeIsLastItem(s: State, projectId: Uuid, rows: seq<Row>, items: seq<Item>, at: seq<nat>, i: nat) returns (k: nat)
    requires ItemsFit(s, projectId, rows, items, at) && LastChange(s, projectId, rows, i)
    ensures LastFor(items, k) && Proposed(s, projectId, rows[i], items[k])
  {
    assert i in at;
    k :| k < |at| && at[k] == i;
    forall j | k < j < |items| ensures items[j].entityId != items[k].entityId {
      assert at[j] in at && at[j] > i;
    }
  }

  lemma FittingIsUpToDate(s: State, projectId: Uuid, rows: seq<Row>, items: seq<Item>, at: seq<nat>, s': State)
    requires ItemsFit(s, projectId, rows, items, at)
    requires forall row :: row in rows && !Known(s, projectId, row) ==> row.entityId !in s.cameras
    requires forall row :: row in rows && IsOneOf(s, projectId, row, CHANGING) ==> SameCamera(s, s', Target(s, projectId, row))
    ensures forall item :: item in items ==> UpToDate(s', item)
  {
    forall item | item in items ensures UpToDate(s', item) {
      var k :| 0 <= k < |items| && items[k] == item;
      assert at[k] in at && rows[at[k]] in rows;
    }
  }

  /** Between the n-th step, which proposes the import, and the m-th, no step handles it or writes a camera it would change. */
  ghost predicate NothingBetween(states: seq<State>, steps: seq<Step>, n: nat, m: nat, projectId: Uuid, rows: seq<Row>, newId: Uuid)
    requires |states| == |steps| + 1 && n < m <= |steps|
  {
    && (forall j :: n < j < m ==> !Handles(steps[j], newId))
    && forall j, row :: n < j < m && row in rows && IsOneOf(states[n], projectId, row, CHANGING) ==>
         !Writes(states[j], steps[j], Target(states[n], projectId, row))
  }

  lemma ImportWaits(states: seq<State>, steps: seq<Step>, n: nat, m: nat, projectId: Uuid, rows: seq<Row>, newId: Uuid) returns (at: seq<nat>)
    requires Behaviour(states, steps) && n < m <= |steps| && Opens(states[n], steps[n], projectId, rows, newId)
    requires forall row :: row in rows && !Known(states[n], projectId, row) ==> row.entityId !in states[n].cameras
    requires NothingBetween(states, steps, n, m, projectId, rows, newId)
    ensures Inv(states[m]) && OpenImport(states[m], projectId, newId)
    ensures ItemsFit(states[n], projectId, rows, states[m].changesets[newId].items, at)
    ensures forall item :: item in states[m].changesets[newId].items ==> UpToDate(states[m], item)
  {
    BehaviourKeepsInv(states, steps, m, m);
    at := ImportOpens(states, steps, n, projectId, rows, newId);
    ChangeSetStays(states, steps, n + 1, m, newId);
    forall row | row in rows && IsOneOf(states[n], projectId, row, CHANGING)
      ensures SameCamera(states[n], states[m], Target(states[n], projectId, row))
    {
      CameraStays(states, steps, n + 1, m, Target(states[n], projectId, row));
    }
    FittingIsUpToDate(states[n], projectId, rows, states[m].changesets[newId].items, at, states[m]);
  }

  /** In every run an import whose new rows bring unused ids, approved with no step on it or on its cameras in between, succeeds,
      and each camera ends with the payload of the last row that adds or changes it. */
  lemma ApprovedAsGiven(states: seq<State>, steps: seq<Step>, n: nat, m: nat, projectId: Uuid, rows: seq<Row>, newId: Uuid, i: nat)
    requires Behaviour(states, steps) && n < m < |steps| && Opens(states[n], steps[n], projectId, rows, newId)
    requires forall row :: row in rows && !Known(states[n], projectId, row) ==> row.entityId !in states[n].cameras
    requires NothingBetween(states, steps, n, m, projectId, rows, newId) && steps[m] == ApproveImport(projectId, newId)
    ensures Approve(states[m], projectId, newId).1 == Ok(()) && newId in states[m + 1].changesets && states[m + 1].changesets[newId].status == Applied
    ensures LastChange(states[n], projectId, rows, i) ==> Holds(states[m + 1], Target(states[n], projectId, rows[i]), rows[i].payload)
  {
    var at := ImportWaits(states, steps, n, m, projectId, rows, newId);
    var items := states[m].changesets[newId].items;
    ApproveUpToDate(states[m], projectId, newId);
    if LastChange(states[n], projectId, rows, i) {
      var k := LastChangeIsLastItem(states[n], projectId, rows, items, at, i);
      EndsWithResolved(states[m], projectId, newId, items, k);
    }
  }

  /** ... and a camera none of its rows adds or changes stays. */
  lemma ApprovalLeavesOthers(states: seq<State>, steps: seq<Step>, n: nat, m: nat, projectId: Uuid, rows: seq<Row>, newId: Uuid, e: Uuid)
    requires Behaviour(states, steps) && n < m < |steps| && Opens(states[n], steps[n], projectId, rows, newId)
    requires (forall j :: n < j < m ==> !Handles(steps[j], newId)) && steps[m] == ApproveImport(projectId, newId)
    requires forall row :: row in rows && IsOneOf(states[n], projectId, row, CHANGING) ==> Target(states[n], projectId, row) != e
    ensures SameCamera(states[m], states[m + 1], e)
  {
    var at := ImportOpens(states, steps, n, projectId, rows, newId);
    ChangeSetStays(states, steps, n + 1, m, newId);
    FittingNamesTargets(states[n], projectId, rows, states[m].changesets[newId].items, at, e);
    UnwrittenStaysInRun(states, steps, m, e);
  }

  lemma FittingNamesTargets(s: State, projectId: Uuid, rows: seq<Row>, items: seq<Item>, at: seq<nat>, e: Uuid)
    requires ItemsFit(s, projectId, rows, items, at)
    requires forall row :: row in rows && IsOneOf(s, projectId, row, CHANGING) ==> Target(s, projectId, row) != e
    ensures forall item :: item in items ==> item.entityId != e
  {
    forall item | item in items ensures item.entityId != e {
      var k :| 0 <= k < |items| && items[k] == item;
      assert at[k] in at && rows[at[k]] in rows;
    }
  }
}
