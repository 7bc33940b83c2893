/** When the code index and the cameras' codes stay inverse to each other: item by item, list by list, and over runs. */
module CodeIndex {
  import opened Prelude
  import opened Merge
  import opened Revisions
  import opened RevisionTheorems

  // --- One item -------------------------------------------------------------------------------------

  /** The code index and the cameras' codes are inverse to each other. */
  ghost predicate CodesMatch(s: State) {
    (forall key :: key in s.codes ==> CodeStands(s, key)) && forall e :: e in s.cameras ==> Indexed(s, e)
  }

  ghost predicate CodeStands(s: State, key: (Uuid, Value)) {
    key in s.codes && s.codes[key] in s.cameras
    && s.cameras[s.codes[key]].projectId == key.0 && s.cameras[s.codes[key]].payload.code == key.1
  }

  ghost predicate Indexed(s: State, e: Uuid) {
    e in s.cameras
    && (s.cameras[e].projectId, s.cameras[e].payload.code) in s.codes && s.codes[(s.cameras[e].projectId, s.cameras[e].payload.code)] == e
  }

  /** The item adds a camera with a free code, or keeps the code of a camera of the project. */
  predicate KeepsCodes(s: State, projectId: Uuid, item: Item) {
    if item.entityId in s.cameras
    then s.cameras[item.entityId].projectId == projectId && s.cameras[item.entityId].payload.code == item.patch.code
    else (projectId, item.patch.code) !in s.codes
  }

  /** Applying an item keeps index and codes inverse exactly when its code is free or unchanged. */
  lemma ApplyItemKeepsCodesIff(s: State, projectId: Uuid, id: Uuid, item: Item)
    requires CodesMatch(s)
    ensures CodesMatch(ApplyItem(s, projectId, id, item)) <==> KeepsCodes(s, projectId, item)
  {
    var s', key := ApplyItem(s, projectId, id, item), (projectId, item.patch.code);
    if KeepsCodes(s, projectId, item) {
      FreeCodeKeepsCodes(s, projectId, id, item);
    } else if item.entityId in s.cameras {
      var before := (s.cameras[item.entityId].projectId, s.cameras[item.entityId].payload.code);
      assert Indexed(s, item.entityId) && before in s'.codes;
      assert !CodeStands(s', before) || !CodeStands(s', key);
    } else {
      assert CodeStands(s, key);
      assert !Indexed(s', s.codes[key]);
    }
  }

  lemma FreeCodeKeepsCodes(s: State, projectId: Uuid, id: Uuid, item: Item)
    requires CodesMatch(s) && KeepsCodes(s, projectId, item)
    ensures CodesMatch(ApplyItem(s, projectId, id, item))
  {
    var s' := ApplyItem(s, projectId, id, item);
    forall key | key in s'.codes ensures CodeStands(s', key) {
      assert key in s.codes ==> CodeStands(s, key);
      assert item.entityId in s.cameras ==> Indexed(s, item.entityId);
    }
    forall e | e in s'.cameras ensures Indexed(s', e) {
      assert e in s.cameras ==> Indexed(s, e);
    }
  }

  // --- A list of items --------------------------------------------------------------------------------

  /** The last code the items give each entity. */
  function CodeOf(items: seq<Item>): map<Uuid, Value> {
    if items == [] then map[]
    else
      var last := items[|items| - 1];
      CodeOf(items[..|items| - 1])[last.entityId := last.patch.code]
  }

  /** The last entity the items give each code to. */
  function EntityOf(items: seq<Item>): map<Value, Uuid> {
    if items == [] then map[]
    else
      var last := items[|items| - 1];
      EntityOf(items[..|items| - 1])[last.patch.code := last.entityId]
  }

  lemma {:induction false} SameItemsKnown(items: seq<Item>)
    ensures forall e :: e in CodeOf(items) ==> CodeOf(items)[e] in EntityOf(items)
    ensures forall c :: c in EntityOf(items) ==> EntityOf(items)[c] in CodeOf(items)
  {
    if items == [] {
    } else {
      SameItemsKnown(items[..|items| - 1]);
    }
  }

  lemma {:induction false} CameraAfter(s: State, projectId: Uuid, id: Uuid, items: seq<Item>, e: Uuid)
    ensures var s', codes := ApplyItems(s, projectId, id, items), CodeOf(items);
            && (e in s'.cameras <==> e in s.cameras || e in codes)
            && (e in s'.cameras ==>
                  && s'.cameras[e].projectId == (if e in s.cameras then s.cameras[e].projectId else projectId)
                  && s'.cameras[e].payload.code == if e in codes then codes[e] else s.cameras[e].payload.code)
  {
    if items == [] {
    } else {
      CameraAfter(s, projectId, id, items[..|items| - 1], e);
    }
  }

  lemma {:induction false} CodeAfter(s: State, projectId: Uuid, id: Uuid, items: seq<Item>, key: (Uuid, Value))
    ensures var s', entities := ApplyItems(s, projectId, id, items), EntityOf(items);
            && (key in s'.codes <==> key in s.codes || (key.0 == projectId && key.1 in entities))
            && (key in s'.codes ==>
                  s'.codes[key] == if key.0 == projectId && key.1 in entities then entities[key.1] else s.codes[key])
  {
    if items == [] {
    } else {
      CodeAfter(s, projectId, id, items[..|items| - 1], key);
    }
  }

  /** The entity is a camera of the project, or would be a new one. */
  predicate OfProject(s: State, projectId: Uuid, e: Uuid) {
    e in s.cameras ==> s.cameras[e].projectId == projectId
  }

  /** Each code the items give ends with the entity it was last given to. */
  ghost predicate CodesEndWithHolders(s: State, projectId: Uuid, items: seq<Item>) {
    forall c :: c in EntityOf(items) ==>
      var e := EntityOf(items)[c]; OfProject(s, projectId, e) && e in CodeOf(items) && CodeOf(items)[e] == c
  }

  /** Each entity the items name is the last to be given its last code; one of another project keeps its code. */
  ghost predicate HoldersEndWithCodes(s: State, projectId: Uuid, items: seq<Item>) {
    forall e :: e in CodeOf(items) ==>
      var c := CodeOf(items)[e];
      if OfProject(s, projectId, e) then c in EntityOf(items) && EntityOf(items)[c] == e else s.cameras[e].payload.code == c
  }

  /** A camera of the project that the items name leaves its code only to another item. */
  ghost predicate NoCodeAbandoned(s: State, projectId: Uuid, items: seq<Item>) {
    forall e :: e in CodeOf(items) && e in s.cameras && OfProject(s, projectId, e) ==> s.cameras[e].payload.code in EntityOf(items)
  }

  /** A code the items give was free, or is that of a camera they name. */
  ghost predicate NoCodeStolen(s: State, projectId: Uuid, items: seq<Item>) {
    forall c :: c in EntityOf(items) && (projectId, c) in s.codes ==> s.codes[(projectId, c)] in CodeOf(items)
  }

  /** The items give codes and entities to each other one to one, abandon no code and take none. */
  ghost predicate ExchangeCodes(s: State, projectId: Uuid, items: seq<Item>) {
    && CodesEndWithHolders(s, projectId, items) && HoldersEndWithCodes(s, projectId, items)
    && NoCodeAbandoned(s, projectId, items) && NoCodeStolen(s, projectId, items)
  }

  /** Applying a list keeps index and codes inverse exactly when its items exchange codes among themselves and with free ones. */
  lemma ApplyItemsKeepsCodesIff(s: State, projectId: Uuid, id: Uuid, items: seq<Item>)
    requires CodesMatch(s)
    ensures CodesMatch(ApplyItems(s, projectId, id, items)) <==> ExchangeCodes(s, projectId, items)
  {
    if ExchangeCodes(s, projectId, items) {
      ExchangeKeepsCodes(s, projectId, id, items);
    }
    if CodesMatch(ApplyItems(s, projectId, id, items)) {
      KeptCodesEnd(s, projectId, id, items);
      KeptCodesAreTheirs(s, projectId, id, items);
    }
  }

  lemma ExchangeKeepsCodes(s: State, projectId: Uuid, id: Uuid, items: seq<Item>)
    requires CodesMatch(s) && ExchangeCodes(s, projectId, items)
    ensures CodesMatch(ApplyItems(s, projectId, id, items))
  {
    var s' := ApplyItems(s, projectId, id, items);
    forall key | key in s'.codes ensures CodeStands(s', key) {
      ExchangedCodeStands(s, projectId, id, items, key);
    }
    forall e | e in s'.cameras ensures Indexed(s', e) {
      ExchangedIsIndexed(s, projectId, id, items, e);
    }
  }

  lemma ExchangedCodeStands(s: State, projectId: Uuid, id: Uuid, items: seq<Item>, key: (Uuid, Value))
    requires CodesMatch(s) && ExchangeCodes(s, projectId, items) && key in ApplyItems(s, projectId, id, items).codes
    ensures CodeStands(ApplyItems(s, projectId, id, items), key)
  {
    CodeAfter(s, projectId, id, items, key);
    var e := ApplyItems(s, projectId, id, items).codes[key];
    CameraAfter(s, projectId, id, items, e);
    if key.0 == projectId && key.1 in EntityOf(items) {
    } else {
      assert CodeStands(s, key);
    }
  }

  lemma ExchangedIsIndexed(s: State, projectId: Uuid, id: Uuid, items: seq<Item>, e: Uuid)
    requires CodesMatch(s) && ExchangeCodes(s, projectId, items) && e in ApplyItems(s, projectId, id, items).cameras
    ensures Indexed(ApplyItems(s, projectId, id, items), e)
  {
    CameraAfter(s, projectId, id, items, e);
    var camera := ApplyItems(s, projectId, id, items).cameras[e];
    CodeAfter(s, projectId, id, items, (camera.projectId, camera.payload.code));
    assert e in s.cameras ==> Indexed(s, e);
  }

  lemma KeptCodesEnd(s: State, projectId: Uuid, id: Uuid, items: seq<Item>)
    requires CodesMatch(s) && CodesMatch(ApplyItems(s, projectId, id, items))
    ensures CodesEndWithHolders(s, projectId, items) && HoldersEndWithCodes(s, projectId, items)
  {
    var s' := ApplyItems(s, projectId, id, items);
    SameItemsKnown(items);
    forall c | c in EntityOf(items)
      ensures OfProject(s, projectId, EntityOf(items)[c]) && CodeOf(items)[EntityOf(items)[c]] == c
    {
      CodeAfter(s, projectId, id, items, (projectId, c));
      assert CodeStands(s', (projectId, c));
      CameraAfter(s, projectId, id, items, EntityOf(items)[c]);
    }
    forall e | e in CodeOf(items)
      ensures if OfProject(s, projectId, e) then EntityOf(items)[CodeOf(items)[e]] == e else s.cameras[e].payload.code == CodeOf(items)[e]
    {
      CameraAfter(s, projectId, id, items, e);
      assert Indexed(s', e);
      var key := (s'.cameras[e].projectId, s'.cameras[e].payload.code);
      CodeAfter(s, projectId, id, items, key);
      assert key in s.codes ==> CodeStands(s, key);
    }
  }

  lemma KeptCodesAreTheirs(s: State, projectId: Uuid, id: Uuid, items: seq<Item>)
    requires CodesMatch(s) && CodesMatch(ApplyItems(s, projectId, id, items))
    ensures NoCodeAbandoned(s, projectId, items) && NoCodeStolen(s, projectId, items)
  {
    var s' := ApplyItems(s, projectId, id, items);
    SameItemsKnown(items);
    forall e | e in CodeOf(items) && e in s.cameras && OfProject(s, projectId, e) ensures s.cameras[e].payload.code in EntityOf(items) {
      var key := (projectId, s.cameras[e].payload.code);
      assert Indexed(s, e);
      CodeAfter(s, projectId, id, items, key);
      assert CodeStands(s', key);
      CameraAfter(s, projectId, id, items, e);
    }
    forall c | c in EntityOf(items) && (projectId, c) in s.codes ensures s.codes[(projectId, c)] in CodeOf(items) {
      var e := s.codes[(projectId, c)];
      assert CodeStands(s, (projectId, c));
      CameraAfter(s, projectId, id, items, e);
      assert Indexed(s', e);
      CodeAfter(s, projectId, id, items, (projectId, c));
    }
  }

  // --- An approval ------------------------------------------------------------------------------------

  /** The approval is refused, meets a conflict, or its resolved items exchange codes. */
  ghost predicate ApprovalKeepsCodes(s: State, projectId: Uuid, id: Uuid) {
    FindChangeSet(s, projectId, id, FILE_IMPORTS).Ok? && ResolveItems(s, s.changesets[id].items).1 == [] ==>
      ExchangeCodes(s, projectId, ResolveItems(s, s.changesets[id].items).0)
  }

  /** Approving an import keeps index and codes inverse exactly when it applies nothing or its resolved items exchange codes. */
  lemma ApproveKeepsCodesIff(s: State, projectId: Uuid, id: Uuid)
    requires CodesMatch(s)
    ensures CodesMatch(Approve(s, projectId, id).0) <==> ApprovalKeepsCodes(s, projectId, id)
  {
    if FindChangeSet(s, projectId, id, FILE_IMPORTS).Ok? && ResolveItems(s, s.changesets[id].items).1 == [] {
      ApplyAllKeepsCodesIff(s, projectId, id, ResolveItems(s, s.changesets[id].items).0);
    } else {
      SameCodes(s, Approve(s, projectId, id).0);
    }
  }

  lemma ApplyAllKeepsCodesIff(s: State, projectId: Uuid, id: Uuid, items: seq<Item>)
    requires CodesMatch(s) && id in s.changesets
    ensures CodesMatch(ApplyAll(s, projectId, id, items)) <==> ExchangeCodes(s, projectId, items)
  {
    var mid := SetStatus(s, id, Approved);
    var applied := ApplyItems(mid, projectId, id, items);
    SameCodes(s, mid);
    ApplyItemsKeepsCodesIff(mid, projectId, id, items);
    SameExchange(s, mid, projectId, items);
    SameCodes(applied, ApplyAll(s, projectId, id, items));
    SameCodes(ApplyAll(s, projectId, id, items), applied);
  }

  lemma SameExchange(s: State, s': State, projectId: Uuid, items: seq<Item>)
    requires s'.cameras == s.cameras && s'.codes == s.codes
    ensures ExchangeCodes(s', projectId, items) <==> ExchangeCodes(s, projectId, items)
  {
    assert forall e :: OfProject(s', projectId, e) <==> OfProject(s, projectId, e);
  }

  lemma SameCodes(s: State, s': State)
    ensures CodesMatch(s) && s'.cameras == s.cameras && s'.codes == s.codes ==> CodesMatch(s')
  {
    if CodesMatch(s) && s'.cameras == s.cameras && s'.codes == s.codes {
      assert forall key :: CodeStands(s', key) <==> CodeStands(s, key);
      assert forall e :: Indexed(s', e) <==> Indexed(s, e);
    }
  }

  // --- Runs ---------------------------------------------------------------------------------------------

  /** A direct import finds its code and stays in the project, or brings a new camera of the project. */
  predicate ImportKeepsCodes(s: State, projectId: Uuid, entityId: Uuid, camera: Camera) {
    var key := (projectId, camera.payload.code);
    if key in s.codes
    then s.codes[key] in s.cameras && (s.cameras[s.codes[key]].payload == camera.payload || camera.projectId == projectId)
    else entityId !in s.cameras && camera.projectId == projectId
  }

  lemma ProperImportKeepsCodes(s: State, projectId: Uuid, entityId: Uuid, camera: Camera)
    requires CodesMatch(s) && CodeResolves(s, projectId, camera.payload.code) && ImportKeepsCodes(s, projectId, entityId, camera)
    ensures CodesMatch(ImportCamera(s, projectId, entityId, camera).0)
  {
    var s', key := ImportCamera(s, projectId, entityId, camera).0, (projectId, camera.payload.code);
    assert key in s.codes ==> CodeStands(s, key);
    forall k | k in s'.codes ensures CodeStands(s', k) {
      assert k in s.codes ==> CodeStands(s, k);
    }
    forall e | e in s'.cameras ensures Indexed(s', e) {
      assert e in s.cameras ==> Indexed(s, e);
    }
  }

  lemma ImportKeepsCodesIff(s: State, projectId: Uuid, entityId: Uuid, camera: Camera)
    requires CodesMatch(s) && CodeResolves(s, projectId, camera.payload.code)
    ensures CodesMatch(ImportCamera(s, projectId, entityId, camera).0) <==> ImportKeepsCodes(s, projectId, entityId, camera)
  {
    var s', key := ImportCamera(s, projectId, entityId, camera).0, (projectId, camera.payload.code);
    if ImportKeepsCodes(s, projectId, entityId, camera) {
      ProperImportKeepsCodes(s, projectId, entityId, camera);
    } else if camera.projectId != projectId {
      assert key in s.codes ==> CodeStands(s, key);
      assert !CodeStands(s', key);
    } else {
      var before := (s.cameras[entityId].projectId, s.cameras[entityId].payload.code);
      assert Indexed(s, entityId) && before in s'.codes;
      assert !CodeStands(s', before);
    }
  }

  ghost predicate StepKeepsCodes(s: State, step: Step) {
    match step
    case Import(p, e, camera) => ImportKeepsCodes(s, p, e, camera)
    case ApproveImport(p, id) => ApprovalKeepsCodes(s, p, id)
    case _ => true
  }

  lemma OtherStepsKeepTables(s: State, step: Step)
    requires !step.Import? && !step.ApproveImport?
    ensures Next(s, step).cameras == s.cameras && Next(s, step).codes == s.codes
  {
    match step
    case Edit(p, id, record, field, value) => EditKeepsTables(s, p, id, record, field, value);
    case SetGeometry(p, e, g, base, newId) => GeometryKeepsTables(s, p, e, g, base, newId);
    case ApproveField(p, id) => ObservationKeepsTables(s, p, id);
    case _ =>
  }

  lemma EditKeepsTables(s: State, projectId: Uuid, id: Uuid, record: string, field: Option<Field>, value: Value)
    ensures var s' := EditItem(s, projectId, id, record, field, value).0; s'.cameras == s.cameras && s'.codes == s.codes
  {
  }

  lemma GeometryKeepsTables(s: State, projectId: Uuid, entityId: Uuid, geometry: Geometry, base: nat, newId: Uuid)
    ensures var s' := UpdateGeometry(s, projectId, entityId, geometry, base, newId).0; s'.cameras == s.cameras && s'.codes == s.codes
  {
  }

  lemma ObservationKeepsTables(s: State, projectId: Uuid, id: Uuid)
    ensures var s' := ApproveObservation(s, projectId, id).0; s'.cameras == s.cameras && s'.codes == s.codes
  {
  }

  lemma StepKeepsCodesIff(s: State, step: Step)
    requires CodesMatch(s)
    ensures CodesMatch(Next(s, step)) <==> StepKeepsCodes(s, step)
  {
    match step
    case Import(p, e, camera) =>
      assert (p, camera.payload.code) in s.codes ==> CodeStands(s, (p, camera.payload.code));
      ImportKeepsCodesIff(s, p, e, camera);
    case ApproveImport(p, id) => ApproveKeepsCodesIff(s, p, id);
    case _ =>
      OtherStepsKeepTables(s, step);
      SameCodes(s, Next(s, step));
  }

  /** Through a whole run index and codes are inverse, exactly when every direct import brings a known code or a new camera of its
      project, and every approval applies nothing or exchanges codes. */
  lemma {:induction false} CodesStayInverseIff(states: seq<State>, steps: seq<Step>, n: nat)
    requires Behaviour(states, steps) && n <= |steps|
    ensures MatchThroughout(states, n) <==> KeepThroughout(states, steps, n)
    decreases n
  {
    if n == 0 {
      StartMatches(states);
    } else {
      CodesStayInverseIff(states, steps, n - 1);
      OneMoreMatches(states, n);
      OneMoreKeeps(states, steps, n);
      if CodesMatch(states[n - 1]) {
        StepKeepsCodesIff(states[n - 1], steps[n - 1]);
      }
    }
  }

  ghost predicate MatchThroughout(states: seq<State>, n: nat) {
    n < |states| && forall i :: 0 <= i <= n ==> CodesMatch(states[i])
  }

  ghost predicate KeepThroughout(states: seq<State>, steps: seq<Step>, n: nat) {
    n <= |steps| < |states| && forall i :: 0 <= i < n ==> StepKeepsCodes(states[i], steps[i])
  }

  lemma StartMatches(states: seq<State>)
    requires states != [] && states[0] == EMPTY
    ensures MatchThroughout(states, 0)
  {
  }

  lemma OneMoreMatches(states: seq<State>, n: nat)
    requires 0 < n < |states|
    ensures MatchThroughout(states, n) <==> MatchThroughout(states, n - 1) && CodesMatch(states[n])
    ensures MatchThroughout(states, n - 1) ==> CodesMatch(states[n - 1])
  {
  }

  lemma OneMoreKeeps(states: seq<State>, steps: seq<Step>, n: nat)
    requires 0 < n <= |steps| < |states|
    ensures KeepThroughout(states, steps, n) <==> KeepThroughout(states, steps, n - 1) && StepKeepsCodes(states[n - 1], steps[n - 1])
  {
  }

  // --- A simple way to meet it -----------------------------------------------------------------------------

  /** Items on one entity have one code, and items with one code are on one entity. */
  ghost predicate CodesDistinct(items: seq<Item>) {
    forall i, k :: 0 <= i < |items| && 0 <= k < |items| ==>
      (items[i].entityId == items[k].entityId <==> items[i].patch.code == items[k].patch.code)
  }

  lemma {:induction false} FromItems(items: seq<Item>)
    ensures forall e :: e in CodeOf(items) ==> exists i :: 0 <= i < |items| && items[i].entityId == e && items[i].patch.code == CodeOf(items)[e]
    ensures forall c :: c in EntityOf(items) ==> exists i :: 0 <= i < |items| && items[i].patch.code == c && items[i].entityId == EntityOf(items)[c]
  {
    if items == [] {
    } else {
      var front := items[..|items| - 1];
      FromItems(front);
      assert forall i :: 0 <= i < |front| ==> front[i] == items[i];
    }
  }

  /** Distinct codes, each free or unchanged, are exchanged. */
  lemma DistinctCodesExchange(s: State, projectId: Uuid, items: seq<Item>)
    requires CodesMatch(s) && CodesDistinct(items) && forall i :: 0 <= i < |items| ==> KeepsCodes(s, projectId, items[i])
    ensures ExchangeCodes(s, projectId, items)
  {
    FromItems(items);
    SameItemsKnown(items);
    forall e | e in CodeOf(items) ensures EntityOf(items)[CodeOf(items)[e]] == e && OfProject(s, projectId, e) {
      var i :| 0 <= i < |items| && items[i].entityId == e && items[i].patch.code == CodeOf(items)[e];
      var k :| 0 <= k < |items| && items[k].patch.code == CodeOf(items)[e] && items[k].entityId == EntityOf(items)[CodeOf(items)[e]];
      assert KeepsCodes(s, projectId, items[i]);
    }
    forall c | c in EntityOf(items) ensures CodeOf(items)[EntityOf(items)[c]] == c && ((projectId, c) in s.codes ==> s.codes[(projectId, c)] == EntityOf(items)[c]) {
      var k :| 0 <= k < |items| && items[k].patch.code == c && items[k].entityId == EntityOf(items)[c];
      var i :| 0 <= i < |items| && items[i].entityId == EntityOf(items)[c] && items[i].patch.code == CodeOf(items)[EntityOf(items)[c]];
      assert KeepsCodes(s, projectId, items[k]);
      assert items[k].entityId in s.cameras ==> Indexed(s, items[k].entityId);
    }
    forall e | e in CodeOf(items) && e in s.cameras ensures s.cameras[e].payload.code in EntityOf(items) {
      var i :| 0 <= i < |items| && items[i].entityId == e && items[i].patch.code == CodeOf(items)[e];
      assert KeepsCodes(s, projectId, items[i]);
    }
  }
}
