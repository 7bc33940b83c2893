/** Two short runs of the revision store: one code in two imports, and an idempotency key shared with a document. */
module RevisionRuns {
  import opened Prelude
  import opened Merge
  import opened Revisions
  import opened RevisionTheorems
  import opened CodeIndex

  const CAMERA := Payload(Text("C1"), Null, Null, Null, Null, Null, Null, Null)

  // --- Two new cameras with one code ------------------------------------------------------------------

  /** Two files that both bring a new camera with the same code are proposed before either is approved. */
  const TWIN_RUN := [
    AddProject(0),
    Propose(0, FileKey(3, 1, "h1"), [Row(11, "r1", CAMERA)], "key 1", 5),
    Propose(0, FileKey(4, 1, "h2"), [Row(12, "r2", CAMERA)], "key 2", 6),
    ApproveImport(0, 5),
    ApproveImport(0, 6)]

  const WITH_PROJECT := EMPTY.(projects := {0})

  function Proposal(entityId: Uuid, record: string): Item {
    Item(entityId, record, 0, None, CAMERA)
  }

  lemma NewRowProposed(s: State, entityId: Uuid, record: string)
    requires s.codes == map[]
    ensures ProposeItems(s, 0, [Row(entityId, record, CAMERA)]) == [Proposal(entityId, record)]
  {
    assert [Row(entityId, record, CAMERA)][..0] == [];
    assert ProposeItems(s, 0, []) == [];
  }

  /** A file with one row for a new camera: an open ChangeSet, and no camera yet. */
  lemma NewRowOpens(s: State, file: FileKey, entityId: Uuid, record: string, key: string, newId: Uuid)
    requires 0 in s.projects && s.codes == map[] && s.cameras == map[] && key !in s.byKey && (file.fileId, file.fileRevision, file.fileHash) !in s.byFile
    ensures var s' := CreateImport(s, 0, file, [Row(entityId, record, CAMERA)], key, newId).0;
            && OpenFor(s', newId, entityId, record) && s'.cameras == map[] && s'.codes == map[]
            && s'.projects == s.projects && s'.byKey == s.byKey[key := newId]
            && s'.byFile == s.byFile[(file.fileId, file.fileRevision, file.fileHash) := newId]
            && forall id :: id in s.changesets && id != newId ==> id in s'.changesets && s'.changesets[id] == s.changesets[id]
  {
    NewRowProposed(s, entityId, record);
  }

  predicate OpenFor(s: State, id: Uuid, entityId: Uuid, record: string) {
    FindChangeSet(s, 0, id, FILE_IMPORTS).Ok? && s.changesets[id].items == [Proposal(entityId, record)]
  }

  /** Approving the one item of a new camera. */
  lemma NewCameraApproved(s: State, id: Uuid, entityId: Uuid, record: string)
    requires OpenFor(s, id, entityId, record) && entityId !in s.cameras
    ensures var s' := Approve(s, 0, id).0;
            && s'.cameras == s.cameras[entityId := Camera(0, CAMERA)] && s'.codes == s.codes[(0, CAMERA.code) := entityId]
            && forall other :: other != id && other in s.changesets ==> other in s'.changesets && s'.changesets[other] == s.changesets[other]
  {
    var item := Proposal(entityId, record);
    OneItem(s, item);
    OneItemApplied(SetStatus(s, id, Approved), id, item);
  }

  lemma OneItem(s: State, item: Item)
    requires item.entityId !in s.cameras
    ensures ResolveItems(s, [item]) == ([item], [])
  {
    assert [item][..0] == [] && [] + [item] == [item];
    assert ResolveItems(s, []) == ([], []) && ResolveItem(s, item) == Ok(item);
  }

  lemma OneItemApplied(s: State, id: Uuid, item: Item)
    ensures ApplyItems(s, 0, id, [item]) == ApplyItem(s, 0, id, item)
  {
    assert [item][..0] == [];
    assert ApplyItems(s, 0, id, []) == s;
  }

  function AfterFirst(): State {
    CreateImport(WITH_PROJECT, 0, FileKey(3, 1, "h1"), [Row(11, "r1", CAMERA)], "key 1", 5).0
  }

  function AfterBoth(): State {
    if CodeResolves(AfterFirst(), 0, CAMERA.code)
    then CreateImport(AfterFirst(), 0, FileKey(4, 1, "h2"), [Row(12, "r2", CAMERA)], "key 2", 6).0
    else AfterFirst()
  }

  function FirstApproved(): State {
    Approve(AfterBoth(), 0, 5).0
  }

  function BothApproved(): State {
    Approve(FirstApproved(), 0, 6).0
  }

  lemma BothOpen()
    ensures var s := AfterBoth();
            && OpenFor(s, 5, 11, "r1") && OpenFor(s, 6, 12, "r2") && s.cameras == map[] && s.codes == map[]
            && AfterFirst().codes == map[] && 6 !in AfterFirst().changesets
  {
    NewRowOpens(WITH_PROJECT, FileKey(3, 1, "h1"), 11, "r1", "key 1", 5);
    NewRowOpens(AfterFirst(), FileKey(4, 1, "h2"), 12, "r2", "key 2", 6);
  }

  ghost predicate Linked(s: State, step: Step, s': State) {
    Enabled(s, step) && s' == Next(s, step)
  }

  lemma FiveLinks(states: seq<State>, steps: seq<Step>)
    requires |steps| == 5 && |states| == 6 && states[0] == EMPTY
    requires Linked(states[0], steps[0], states[1]) && Linked(states[1], steps[1], states[2]) && Linked(states[2], steps[2], states[3])
    requires Linked(states[3], steps[3], states[4]) && Linked(states[4], steps[4], states[5])
    ensures Behaviour(states, steps)
  {
    assert forall i :: 0 <= i < 5 ==> Linked(states[i], steps[i], states[i + 1]);
  }

  lemma ProjectIsAdded()
    ensures Linked(EMPTY, TWIN_RUN[0], WITH_PROJECT)
  {
    AddingIsStep(EMPTY, 0);
    assert EMPTY.projects + {0} == {0};
  }

  lemma AddingIsStep(s: State, projectId: Uuid)
    ensures Linked(s, AddProject(projectId), s.(projects := s.projects + {projectId}))
  {
  }

  lemma ProposalsAreSteps()
    ensures Linked(WITH_PROJECT, TWIN_RUN[1], AfterFirst()) && Linked(AfterFirst(), TWIN_RUN[2], AfterBoth())
  {
    BothOpen();
  }

  lemma ApprovalIsStep(s: State, id: Uuid)
    ensures Linked(s, ApproveImport(0, id), Approve(s, 0, id).0)
  {
  }

  lemma ApprovalsAreSteps()
    ensures Linked(AfterBoth(), TWIN_RUN[3], FirstApproved()) && Linked(FirstApproved(), TWIN_RUN[4], BothApproved())
  {
    ApprovalIsStep(AfterBoth(), 5);
    ApprovalIsStep(FirstApproved(), 6);
  }

  lemma AfterFirstApproval()
    ensures var s := FirstApproved();
            s.cameras == map[11 := Camera(0, CAMERA)] && s.codes == map[(0, CAMERA.code) := 11] && OpenFor(s, 6, 12, "r2")
  {
    BothOpen();
    NewCameraApproved(AfterBoth(), 5, 11, "r1");
  }

  lemma OneCameraIsSound(s: State)
    requires s.cameras == map[11 := Camera(0, CAMERA)] && s.codes == map[(0, CAMERA.code) := 11]
    ensures CodesMatch(s)
  {
    assert CodeStands(s, (0, CAMERA.code)) && Indexed(s, 11);
  }

  lemma TwinsAreNot(s: State)
    requires 11 in s.cameras && s.cameras[11].payload.code == CAMERA.code && s.codes == map[(0, CAMERA.code) := 12]
    ensures !CodesMatch(s)
  {
    assert !Indexed(s, 11);
  }

  lemma AfterBothApprovals()
    ensures var s := BothApproved();
            11 in s.cameras && s.cameras[11].payload.code == CAMERA.code && s.codes == map[(0, CAMERA.code) := 12]
  {
    AfterFirstApproval();
    SecondApproved(FirstApproved());
  }

  lemma SecondApproved(s: State)
    requires s.cameras == map[11 := Camera(0, CAMERA)] && s.codes == map[(0, CAMERA.code) := 11] && OpenFor(s, 6, 12, "r2")
    ensures var s' := Approve(s, 0, 6).0;
            11 in s'.cameras && s'.cameras[11].payload.code == CAMERA.code && s'.codes == map[(0, CAMERA.code) := 12]
  {
    NewCameraApproved(s, 6, 12, "r2");
    SecondTakesTheCode(s, Approve(s, 0, 6).0);
  }

  lemma SecondTakesTheCode(s: State, s': State)
    requires s.cameras == map[11 := Camera(0, CAMERA)] && s.codes == map[(0, CAMERA.code) := 11]
    requires s'.cameras == s.cameras[12 := Camera(0, CAMERA)] && s'.codes == s.codes[(0, CAMERA.code) := 12]
    ensures 11 in s'.cameras && s'.cameras[11].payload.code == CAMERA.code && s'.codes == map[(0, CAMERA.code) := 12]
  {
  }

  /** Two imports with a new row of one code each break the code index: after the first approval it is sound, after the second the
      first camera cannot be found by its code. */
  lemma TwinsBreakCodes() returns (states: seq<State>)
    ensures Behaviour(states, TWIN_RUN) && CodesMatch(states[4]) && !CodesMatch(states[5])
    ensures 11 in states[5].cameras && states[5].cameras[11].payload.code == CAMERA.code && states[5].codes == map[(0, CAMERA.code) := 12]
  {
    states := [EMPTY, WITH_PROJECT, AfterFirst(), AfterBoth(), FirstApproved(), BothApproved()];
    ProjectIsAdded();
    ProposalsAreSteps();
    ApprovalsAreSteps();
    FiveLinks(states, TWIN_RUN);
    AfterFirstApproval();
    OneCameraIsSound(FirstApproved());
    AfterBothApprovals();
    TwinsAreNot(BothApproved());
  }

  // --- A document and an import under one key ------------------------------------------------------------

  const SHARED_KEY_RUN := [AddProject(0), Document(0, 1, Some("key"), 5)]

  /** After a document import, a file import under the same key is refused although its file is new. */
  lemma SharedKeyRefused(rows: seq<Row>)
    ensures var end := Next(WITH_PROJECT, SHARED_KEY_RUN[1]);
            && Behaviour([EMPTY, WITH_PROJECT, end], SHARED_KEY_RUN)
            && CreateImport(end, 0, FileKey(3, 1, "h"), rows, "key", 6).1 == Err(NotFound)
  {
    var end := Next(WITH_PROJECT, SHARED_KEY_RUN[1]);
    assert end.byKey == map["key" := 5] && end.results == map[];
  }
}
