/** What every run of the group operations keeps: as they are written, and as they are meant. */
module OrganizeTheorems {
  import opened Prelude
  import opened Graph
  import opened Organize

  // --- The invariant ------------------------------------------------------------------------------

  /** The edge set is exactly the relation read from every group's parent list. */
  ghost predicate EdgesMirrorParents(s: State) {
    forall c, p :: (c, p) in s.edges <==> c in s.groups && p in s.groups[c].parentIds
  }

  ghost predicate EdgesAreListed(s: State) {
    forall c, p :: (c, p) in s.edges ==> c in s.groups && p in s.groups[c].parentIds
  }

  /** Listed parents are groups of the same project. */
  ghost predicate ParentsWithinProject(s: State) {
    forall c, p :: c in s.groups && p in s.groups[c].parentIds ==> GroupError(s.groups, s.groups[c].projectId, p) == None
  }

  ghost predicate MembershipsWithinProject(s: State) {
    forall m :: m in s.memberships ==> m.groupId in s.groups && s.groups[m.groupId].projectId == m.projectId
  }

  ghost predicate ParentsSorted(s: State) {
    forall id :: id in s.groups ==> Ascending(s.groups[id].parentIds)
  }

  ghost predicate NamesDistinct(s: State) {
    forall a, b :: a in s.groups && b in s.groups && a != b && s.groups[a].projectId == s.groups[b].projectId ==>
      s.groups[a].name.folded != s.groups[b].name.folded
  }

  /** Kept by every run: the edges are acyclic and listed, and everything stays within its project. */
  ghost predicate Inv(s: State) {
    && Acyclic(s.edges) && EdgesAreListed(s) && ParentsWithinProject(s)
    && MembershipsWithinProject(s) && ParentsSorted(s) && NamesDistinct(s)
  }

  /** The invariant holds, and so does the agreement of edges and lists if it did before. */
  ghost predicate Keeps(s: State, s': State) {
    Inv(s') && (EdgesMirrorParents(s) ==> EdgesMirrorParents(s'))
  }

  // --- One request ----------------------------------------------------------------------------------

  lemma NewNodeStaysAcyclic(edges: Edges, node: Uuid, parents: set<Uuid>)
    requires Acyclic(edges) && node !in parents && forall x :: x in edges ==> x.0 != node && x.1 != node
    ensures Acyclic(AddEdges(edges, node, parents))
  {
    assert AddEdges(edges, node, parents) == Replace(edges, node, parents);
    ReplaceIsCyclicIff(edges, node, parents);
    if p :| p in parents && Reaches(edges, p, node) {
      ReachesByAnEdge(edges, p, node);
    }
  }

  /** The edges out of one group and its list are both given by the same parents, and nothing else changed. */
  ghost predicate Relisted(s: State, groupId: Uuid, parents: set<Uuid>, s': State) {
    && s'.groups.Keys == s.groups.Keys + {groupId}
    && (forall p :: p in s'.groups[groupId].parentIds <==> p in parents)
    && (forall c :: c in s.groups && c != groupId ==> s'.groups[c].parentIds == s.groups[c].parentIds)
    && (forall p :: (groupId, p) in s'.edges <==> p in parents)
    && (forall c, p :: c != groupId ==> ((c, p) in s'.edges <==> (c, p) in s.edges))
  }

  lemma RelistedAgrees(s: State, groupId: Uuid, parents: set<Uuid>, s': State)
    requires Relisted(s, groupId, parents, s')
    ensures EdgesAreListed(s) ==> EdgesAreListed(s')
    ensures EdgesMirrorParents(s) ==> EdgesMirrorParents(s')
  {
  }

  lemma CreateRelists(s: State, projectId: Uuid, name: Option<Name>, parentIds: seq<Uuid>, newId: Uuid)
    requires Inv(s) && newId !in s.groups && CreateError(s, projectId, name, parentIds) == None
    ensures Relisted(s, newId, SetOf(parentIds), CreateGroup(s, projectId, name, parentIds, newId).0)
  {
    assert forall p :: p in SortedIds(SetOf(parentIds)) <==> p in SetOf(parentIds);
  }

  lemma CreateKeepsInv(s: State, projectId: Uuid, name: Option<Name>, parentIds: seq<Uuid>, newId: Uuid)
    requires Inv(s) && newId !in s.groups
    ensures Keeps(s, CreateGroup(s, projectId, name, parentIds, newId).0)
  {
    var (s', outcome) := CreateGroup(s, projectId, name, parentIds, newId);
    if outcome == Done {
      var parents := SetOf(parentIds);
      NewIdHasNoEdges(s, newId);
      NewNodeStaysAcyclic(s.edges, newId, parents);
      CreateRelists(s, projectId, name, parentIds, newId);
      RelistedAgrees(s, newId, parents, s');
      CreateKeepsTheRest(s, projectId, name, parentIds, newId);
    }
  }

  lemma NewIdHasNoEdges(s: State, newId: Uuid)
    requires EdgesAreListed(s) && ParentsWithinProject(s) && newId !in s.groups
    ensures forall x :: x in s.edges ==> x.0 != newId && x.1 != newId
  {
    forall x | x in s.edges ensures x.0 != newId && x.1 != newId {
      assert x == (x.0, x.1);
    }
  }

  lemma CreateKeepsTheRest(s: State, projectId: Uuid, name: Option<Name>, parentIds: seq<Uuid>, newId: Uuid)
    requires Inv(s) && newId !in s.groups && CreateError(s, projectId, name, parentIds) == None
    ensures var s' := CreateGroup(s, projectId, name, parentIds, newId).0;
            ParentsWithinProject(s') && MembershipsWithinProject(s') && ParentsSorted(s') && NamesDistinct(s')
  {
    assert forall p :: p in SortedIds(SetOf(parentIds)) <==> p in SetOf(parentIds);
  }

  /** An accepted new name, parents and status, applied as meant. */
  ghost predicate Acceptable(s: State, groupId: Uuid, name: Name, parents: set<Uuid>) {
    && groupId in s.groups
    && !NameTaken(s.groups, s.groups[groupId].projectId, name, Some(groupId))
    && (forall p :: p in parents ==> GroupError(s.groups, s.groups[groupId].projectId, p) == None)
    && !ReachedFrom(s.edges, parents, groupId)
  }

  lemma RewriteKeepsTheRest(s: State, groupId: Uuid, name: Name, parents: set<Uuid>, status: GroupStatus, relink: bool)
    requires Inv(s) && Acceptable(s, groupId, name, parents)
    ensures var s' := Rewrite(s, groupId, name, parents, status, relink);
            ParentsWithinProject(s') && MembershipsWithinProject(s') && ParentsSorted(s') && NamesDistinct(s')
  {
    assert forall p :: p in SortedIds(parents) <==> p in parents;
  }

  lemma RewriteKeepsInv(s: State, groupId: Uuid, name: Name, parents: set<Uuid>, status: GroupStatus)
    requires Inv(s) && Acceptable(s, groupId, name, parents)
    ensures Keeps(s, Rewrite(s, groupId, name, parents, status, true))
  {
    var s' := Rewrite(s, groupId, name, parents, status, true);
    ReplaceIsCyclicIff(s.edges, groupId, parents);
    assert forall p :: p in SortedIds(parents) <==> p in parents;
    RelistedAgrees(s, groupId, parents, s');
    RewriteKeepsTheRest(s, groupId, name, parents, status, true);
  }

  /** Without new parents the list is rewritten to itself and the edges stay. */
  lemma RenameKeepsInv(s: State, groupId: Uuid, name: Name, status: GroupStatus)
    requires Inv(s) && groupId in s.groups && Acceptable(s, groupId, name, SetOf(s.groups[groupId].parentIds))
    ensures Keeps(s, Rewrite(s, groupId, name, SetOf(s.groups[groupId].parentIds), status, false))
  {
    var parents := SetOf(s.groups[groupId].parentIds);
    assert forall p :: p in SortedIds(parents) <==> p in s.groups[groupId].parentIds;
    RewriteKeepsTheRest(s, groupId, name, parents, status, false);
  }

  lemma UpdatedKeepsInv(s: State, projectId: Uuid, groupId: Uuid, u: GroupUpdate)
    requires Inv(s) && UpdateError(s, projectId, groupId, u) == None
    ensures Keeps(s, Updated(s, projectId, groupId, u))
  {
    var group := s.groups[groupId];
    if u.parentIds.Some? {
      RewriteKeepsInv(s, groupId, NewName(group, u), SetOf(NewParents(group, u)), NewStatus(group, u));
    } else {
      RenameKeepsInv(s, groupId, NewName(group, u), NewStatus(group, u));
    }
  }

  lemma MovedKeepsInv(s: State, projectId: Uuid, groupId: Uuid, parentIds: seq<Uuid>)
    requires Inv(s) && MoveError(s, projectId, groupId, parentIds) == None
    ensures Keeps(s, Moved(s, projectId, groupId, parentIds))
  {
    var group := s.groups[groupId];
    assert !NameTaken(s.groups, group.projectId, group.name, Some(groupId));
    RewriteKeepsInv(s, groupId, group.name, SetOf(parentIds), group.status);
  }

  /** Once the checks are passed: the invariant holds, and lists and edges still agree exactly when the group had no parents. */
  lemma RelinkingKeepsMirrorIff(s: State, groupId: Uuid, meant: State, s': State, outcome: Outcome)
    requires Inv(s) && groupId in s.groups && Keeps(s, meant) && Relinks(s, groupId, meant, s', outcome)
    ensures Inv(s')
    ensures EdgesMirrorParents(s) ==>
              (EdgesMirrorParents(s') <==> s.groups[groupId].parentIds == [])
              && (outcome == Done <==> s.groups[groupId].parentIds == [])
  {
    if HasOutEdge(s.edges, groupId) {
      FewerEdgesStayAcyclic(s.edges, s'.edges);
      var x :| x in s.edges && x.0 == groupId && s'.edges == s.edges - {x};
      assert x == (x.0, x.1) && x.1 in s.groups[groupId].parentIds;
    } else if s.groups[groupId].parentIds != [] {
      var p := s.groups[groupId].parentIds[0];
      assert (groupId, p) !in s.edges by {
        assert (groupId, p) in s.edges ==> (groupId, p).0 == groupId;
      }
    }
  }

  lemma {:induction false} WithoutStaysAscending(ids: seq<Uuid>, gone: Uuid)
    requires Ascending(ids)
    ensures Ascending(Without(ids, gone))
  {
    if ids == [] {
    } else {
      var last := |ids| - 1;
      WithoutStaysAscending(ids[..last], gone);
      var rest := Without(ids[..last], gone);
      forall i | 0 <= i < |rest| ensures rest[i] < ids[last] {
        assert rest[i] in rest;
      }
    }
  }

  lemma DetachedListsAreSorted(s: State, projectId: Uuid, groupId: Uuid, s': State)
    requires ParentsSorted(s) && Deleted(s, projectId, groupId, s')
    ensures ParentsSorted(s')
  {
    forall id | id in s'.groups ensures Ascending(s'.groups[id].parentIds) {
      WithoutStaysAscending(s.groups[id].parentIds, groupId);
    }
  }

  /** The lists that remain are those there were, less the deleted id. */
  lemma DetachedLists(s: State, projectId: Uuid, groupId: Uuid, s': State)
    requires ParentsWithinProject(s) && GroupError(s.groups, projectId, groupId) == None && Deleted(s, projectId, groupId, s')
    ensures forall c, p :: c in s'.groups ==> (p in s'.groups[c].parentIds <==> p in s.groups[c].parentIds && p != groupId)
  {
    forall c, p | c in s'.groups ensures p in s'.groups[c].parentIds <==> p in s.groups[c].parentIds && p != groupId {
      assert s'.groups[c] == Detach(s.groups[c], projectId, groupId);
      assert groupId in s.groups[c].parentIds ==> GroupError(s.groups, s.groups[c].projectId, groupId) == None;
    }
  }

  lemma DeleteKeepsAgreement(s: State, projectId: Uuid, groupId: Uuid, s': State)
    requires ParentsWithinProject(s) && GroupError(s.groups, projectId, groupId) == None && Deleted(s, projectId, groupId, s')
    ensures EdgesAreListed(s) ==> EdgesAreListed(s')
    ensures EdgesMirrorParents(s) ==> EdgesMirrorParents(s')
    ensures ParentsWithinProject(s')
  {
    DetachedLists(s, projectId, groupId, s');
    assert forall c, p :: (c, p) in s'.edges <==> (c, p) in s.edges && c != groupId && p != groupId;
  }

  lemma DeleteKeepsInv(s: State, projectId: Uuid, groupId: Uuid, s': State)
    requires Inv(s) && GroupError(s.groups, projectId, groupId) == None && Deleted(s, projectId, groupId, s')
    ensures Keeps(s, s')
  {
    FewerEdgesStayAcyclic(s.edges, s'.edges);
    DetachedListsAreSorted(s, projectId, groupId, s');
    DeleteKeepsAgreement(s, projectId, groupId, s');
  }

  // --- Runs ---------------------------------------------------------------------------------------

  datatype Step =
    | Create(projectId: Uuid, name: Option<Name>, parents: seq<Uuid>, newId: Uuid)
    | Update(projectId: Uuid, groupId: Uuid, update: GroupUpdate)
    | Move(projectId: Uuid, groupId: Uuid, parents: seq<Uuid>)
    | Delete(projectId: Uuid, groupId: Uuid)
    | Assign(projectId: Uuid, itemType: Option<ItemType>, items: seq<Uuid>, groupIds: seq<Uuid>, replace: bool)
    | Unassign(projectId: Uuid, itemType: Option<ItemType>, items: seq<Uuid>, groupIds: seq<Uuid>)
    | OtherChange(projects: map<Uuid, ProjectStatus>, cameras: map<Uuid, Uuid>)

  /** One request; a new group gets an id no group has, and a failing delete changes nothing. */
  ghost predicate Next(s: State, step: Step, s': State) {
    match step
    case Create(projectId, name, parents, newId) => newId !in s.groups && s' == CreateGroup(s, projectId, name, parents, newId).0
    case Update(projectId, groupId, u) => exists outcome :: UpdateGroup(s, projectId, groupId, u, s', outcome)
    case Move(projectId, groupId, parents) => exists outcome :: MoveGroup(s, projectId, groupId, parents, s', outcome)
    case Delete(projectId, groupId) =>
      if GroupError(s.groups, projectId, groupId).Some? then s' == s else Deleted(s, projectId, groupId, s')
    case Assign(projectId, itemType, items, groupIds, replace) => s' == AssignGroups(s, projectId, itemType, items, groupIds, replace).0
    case Unassign(projectId, itemType, items, groupIds) => s' == RemoveGroups(s, projectId, itemType, items, groupIds).0
    case OtherChange(projects, cameras) => s' == s.(projects := projects, cameras := cameras)
  }

  /** A request that gives new parents, passes every check, and finds the group with parents already. */
  ghost predicate Interrupts(s: State, step: Step) {
    match step
    case Update(projectId, groupId, u) =>
      UpdateError(s, projectId, groupId, u) == None && u.parentIds.Some? && s.groups[groupId].parentIds != []
    case Move(projectId, groupId, parents) =>
      MoveError(s, projectId, groupId, parents) == None && s.groups[groupId].parentIds != []
    case _ => false
  }

  lemma UpdateKeepsInv(s: State, projectId: Uuid, groupId: Uuid, u: GroupUpdate, s': State, outcome: Outcome)
    requires Inv(s) && UpdateGroup(s, projectId, groupId, u, s', outcome)
    ensures Inv(s')
    ensures EdgesMirrorParents(s) ==> (EdgesMirrorParents(s') <==> !Interrupts(s, Update(projectId, groupId, u)))
  {
    if UpdateError(s, projectId, groupId, u) == None {
      UpdatedKeepsInv(s, projectId, groupId, u);
      if u.parentIds.Some? {
        RelinkingKeepsMirrorIff(s, groupId, Updated(s, projectId, groupId, u), s', outcome);
      }
    }
  }

  lemma MoveKeepsInv(s: State, projectId: Uuid, groupId: Uuid, parents: seq<Uuid>, s': State, outcome: Outcome)
    requires Inv(s) && MoveGroup(s, projectId, groupId, parents, s', outcome)
    ensures Inv(s')
    ensures EdgesMirrorParents(s) ==> (EdgesMirrorParents(s') <==> !Interrupts(s, Move(projectId, groupId, parents)))
  {
    if MoveError(s, projectId, groupId, parents) == None {
      MovedKeepsInv(s, projectId, groupId, parents);
      RelinkingKeepsMirrorIff(s, groupId, Moved(s, projectId, groupId, parents), s', outcome);
    }
  }

  /** Every request keeps the invariant, and keeps edges and lists in agreement unless it is interrupted. */
  lemma StepKeepsInv(s: State, step: Step, s': State)
    requires Inv(s) && Next(s, step, s')
    ensures Inv(s')
    ensures EdgesMirrorParents(s) ==> (EdgesMirrorParents(s') <==> !Interrupts(s, step))
  {
    match step
    case Create(projectId, name, parents, newId) => CreateKeepsInv(s, projectId, name, parents, newId);
    case Update(projectId, groupId, u) =>
      var outcome :| UpdateGroup(s, projectId, groupId, u, s', outcome);
      UpdateKeepsInv(s, projectId, groupId, u, s', outcome);
    case Move(projectId, groupId, parents) =>
      var outcome :| MoveGroup(s, projectId, groupId, parents, s', outcome);
      MoveKeepsInv(s, projectId, groupId, parents, s', outcome);
    case Delete(projectId, groupId) =>
      if GroupError(s.groups, projectId, groupId) == None {
        DeleteKeepsInv(s, projectId, groupId, s');
      }
    case Assign(_, _, _, _, _) =>
    case Unassign(_, _, _, _) =>
    case OtherChange(_, _) =>
  }

  const EMPTY := State(map[], map[], map[], {}, {})

  lemma EmptyIsSound()
    ensures Inv(EMPTY) && EdgesMirrorParents(EMPTY)
  {
    if !Acyclic(EMPTY.edges) {
      CycleHasEdge(EMPTY.edges);
    }
  }

  ghost predicate Behaviour(states: seq<State>, steps: seq<Step>) {
    && |states| == |steps| + 1
    && states[0] == EMPTY
    && forall i :: 0 <= i < |steps| ==> Next(states[i], steps[i], states[i + 1])
  }

  /** In every reachable state the edges are acyclic and listed; and while no request was interrupted, the lists agree with them. */
  lemma {:induction false} BehaviourKeepsInv(states: seq<State>, steps: seq<Step>, n: nat)
    requires Behaviour(states, steps) && n <= |steps|
    ensures Inv(states[n])
    ensures (forall i :: 0 <= i < n ==> !Interrupts(states[i], steps[i])) ==> EdgesMirrorParents(states[n])
  {
    if n == 0 {
      EmptyIsSound();
    } else {
      BehaviourKeepsInv(states, steps, n - 1);
      StepKeepsInv(states[n - 1], steps[n - 1], states[n]);
    }
  }

  /** The first interrupted request of a run breaks the agreement. */
  lemma FirstInterruptionBreaksMirror(states: seq<State>, steps: seq<Step>, n: nat)
    requires Behaviour(states, steps) && n < |steps| && Interrupts(states[n], steps[n])
    requires forall i :: 0 <= i < n ==> !Interrupts(states[i], steps[i])
    ensures !EdgesMirrorParents(states[n + 1])
  {
    BehaviourKeepsInv(states, steps, n);
    StepKeepsInv(states[n], steps[n], states[n + 1]);
  }

  /** In every reachable state a move past its group checks is refused exactly when it would close a cycle of edges;
      otherwise it succeeds exactly when the group has no out-edges, and then has exactly the given ones. */
  lemma MoveOutcome(states: seq<State>, steps: seq<Step>, n: nat, projectId: Uuid, groupId: Uuid, parentIds: seq<Uuid>, s': State, outcome: Outcome)
    requires Behaviour(states, steps) && n <= |steps| && MoveGroup(states[n], projectId, groupId, parentIds, s', outcome)
    requires GroupError(states[n].groups, projectId, groupId) == None
    requires forall p :: p in parentIds ==> GroupError(states[n].groups, projectId, p) == None
    ensures outcome == Failed(Conflict) <==> !Acyclic(Replace(states[n].edges, groupId, SetOf(parentIds)))
    ensures outcome == Done <==> Acyclic(Replace(states[n].edges, groupId, SetOf(parentIds))) && !HasOutEdge(states[n].edges, groupId)
    ensures outcome == Done ==> s'.edges == Replace(states[n].edges, groupId, SetOf(parentIds))
  {
    BehaviourKeepsInv(states, steps, n);
    ReplaceIsCyclicIff(states[n].edges, groupId, SetOf(parentIds));
  }

  // --- As meant ---------------------------------------------------------------------------------------

  /** The same requests, with update and move replacing the group's edges as they are meant to. */
  ghost predicate MeantNext(s: State, step: Step, s': State) {
    match step
    case Update(projectId, groupId, u) =>
      s' == if UpdateError(s, projectId, groupId, u) == None then Updated(s, projectId, groupId, u) else s
    case Move(projectId, groupId, parents) =>
      s' == if MoveError(s, projectId, groupId, parents) == None then Moved(s, projectId, groupId, parents) else s
    case _ => Next(s, step, s')
  }

  ghost predicate MeantBehaviour(states: seq<State>, steps: seq<Step>) {
    && |states| == |steps| + 1
    && states[0] == EMPTY
    && forall i :: 0 <= i < |steps| ==> MeantNext(states[i], steps[i], states[i + 1])
  }

  lemma MeantStepKeepsInv(s: State, step: Step, s': State)
    requires Inv(s) && MeantNext(s, step, s')
    ensures Keeps(s, s')
  {
    match step
    case Update(projectId, groupId, u) =>
      if UpdateError(s, projectId, groupId, u) == None {
        UpdatedKeepsInv(s, projectId, groupId, u);
      }
    case Move(projectId, groupId, parents) =>
      if MoveError(s, projectId, groupId, parents) == None {
        MovedKeepsInv(s, projectId, groupId, parents);
      }
    case _ => StepKeepsInv(s, step, s');
  }

  /** Were the edges replaced as meant, every run would keep the lists and the edges in agreement. */
  lemma {:induction false} MeantBehaviourKeepsMirror(states: seq<State>, steps: seq<Step>, n: nat)
    requires MeantBehaviour(states, steps) && n <= |steps|
    ensures Inv(states[n]) && EdgesMirrorParents(states[n])
  {
    if n == 0 {
      EmptyIsSound();
    } else {
      MeantBehaviourKeepsMirror(states, steps, n - 1);
      MeantStepKeepsInv(states[n - 1], steps[n - 1], states[n]);
    }
  }

  /** ... and would refuse a move exactly when it would close a cycle. */
  lemma MeantMoveRefusedIffCyclic(states: seq<State>, steps: seq<Step>, n: nat, projectId: Uuid, groupId: Uuid, parentIds: seq<Uuid>)
    requires MeantBehaviour(states, steps) && n <= |steps|
    requires GroupError(states[n].groups, projectId, groupId) == None
    requires forall p :: p in parentIds ==> GroupError(states[n].groups, projectId, p) == None
    ensures MoveError(states[n], projectId, groupId, parentIds) == None <==> Acyclic(Replace(states[n].edges, groupId, SetOf(parentIds)))
  {
    MeantBehaviourKeepsMirror(states, steps, n);
    ReplaceIsCyclicIff(states[n].edges, groupId, SetOf(parentIds));
  }

  lemma UninterruptedIsMeant(s: State, step: Step, s': State)
    requires Inv(s) && EdgesMirrorParents(s) && Next(s, step, s') && !Interrupts(s, step)
    ensures MeantNext(s, step, s')
  {
    match step
    case Update(projectId, groupId, u) =>
      if HasOutEdge(s.edges, groupId) {
        HasOutEdgeMeansParents(s, groupId);
      }
    case Move(projectId, groupId, parents) =>
      if HasOutEdge(s.edges, groupId) {
        HasOutEdgeMeansParents(s, groupId);
      }
    case _ =>
  }

  lemma HasOutEdgeMeansParents(s: State, groupId: Uuid)
    requires EdgesAreListed(s) && HasOutEdge(s.edges, groupId)
    ensures groupId in s.groups && s.groups[groupId].parentIds != []
  {
    var x :| x in s.edges && x.0 == groupId;
    assert x == (x.0, x.1);
  }

  /** A run without interrupted requests is a run as meant. */
  lemma RunsWithoutInterruptionAreMeant(states: seq<State>, steps: seq<Step>)
    requires Behaviour(states, steps) && forall i :: 0 <= i < |steps| ==> !Interrupts(states[i], steps[i])
    ensures MeantBehaviour(states, steps)
  {
    forall i | 0 <= i < |steps| ensures MeantNext(states[i], steps[i], states[i + 1]) {
      BehaviourKeepsInv(states, steps, i);
      UninterruptedIsMeant(states[i], steps[i], states[i + 1]);
    }
  }

  // --- A run that is interrupted ------------------------------------------------------------------------

  const PROJECT: Uuid := 1
  const A: Uuid := 10
  const B: Uuid := 20

  function Named(text: string): Option<Name> {
    Some(Name(text, text))
  }

  /** A new project; A; B under A; B moved to the top, which is interrupted; then A moved under B. */
  const INTERRUPTED_RUN := [
    OtherChange(map[PROJECT := ProjectActive], map[]),
    Create(PROJECT, Named("a"), [], A),
    Create(PROJECT, Named("b"), [A], B),
    Move(PROJECT, B, []),
    Move(PROJECT, A, [B])
  ]

  lemma MoveOfBIsInterrupted(s: State, s': State)
    requires s.edges == {(B, A)} && s.groups.Keys == {A, B} && s.groups[B].projectId == PROJECT
    requires s' == s.(edges := {})
    ensures MoveError(s, PROJECT, B, []) == None && Next(s, Move(PROJECT, B, []), s')
  {
    assert SetOf([]) == {};
    assert (B, A) in s.edges && s.edges - {(B, A)} == {};
    assert MoveGroup(s, PROJECT, B, [], s', Failed(Interrupted));
  }

  lemma MoveOfAIsAccepted(s: State)
    requires s.edges == {} && s.groups.Keys == {A, B} && s.groups[A].projectId == s.groups[B].projectId == PROJECT
    ensures MoveError(s, PROJECT, A, [B]) == None && Next(s, Move(PROJECT, A, [B]), Moved(s, PROJECT, A, [B]))
  {
    assert GroupsError(s.groups, PROJECT, [B]) == None;
    if p :| p in SetOf([B]) && Reaches(s.edges, p, A) {
      ReachesByAnEdge(s.edges, p, A);
    }
    assert MoveGroup(s, PROJECT, A, [B], Moved(s, PROJECT, A, [B]), Done);
  }

  /** The two groups can be made. */
  lemma GroupsAreMade() returns (s1: State, s2: State, s3: State)
    ensures Next(EMPTY, INTERRUPTED_RUN[0], s1) && Next(s1, INTERRUPTED_RUN[1], s2) && Next(s2, INTERRUPTED_RUN[2], s3)
    ensures s3.edges == {(B, A)} && s3.groups.Keys == {A, B}
    ensures s3.groups[A].projectId == s3.groups[B].projectId == PROJECT && A in s3.groups[B].parentIds
  {
    s1 := EMPTY.(projects := map[PROJECT := ProjectActive]);
    s2 := CreateGroup(s1, PROJECT, Named("a"), [], A).0;
    assert SetOf([]) == {} && SetOf([A]) == {A};
    assert s2.edges == {} && s2.groups.Keys == {A};
    s3 := CreateGroup(s2, PROJECT, Named("b"), [A], B).0;
    assert GroupsError(s2.groups, PROJECT, [A]) == None;
    assert s3.edges == {(B, A)} && s3.groups.Keys == {A, B};
  }

  /** This run is possible, and ends with each of two groups listed as the other's parent, though the edges stay acyclic. */
  lemma InterruptedRun() returns (states: seq<State>)
    ensures Behaviour(states, INTERRUPTED_RUN)
    ensures Interrupts(states[3], INTERRUPTED_RUN[3]) && !EdgesMirrorParents(states[4])
    ensures var end := states[5];
            Acyclic(end.edges) && A in end.groups && B in end.groups && A in end.groups[B].parentIds && B in end.groups[A].parentIds
  {
    var s1, s2, s3 := GroupsAreMade();
    var s4 := s3.(edges := {});
    MoveOfBIsInterrupted(s3, s4);
    MoveOfAIsAccepted(s4);
    states := [EMPTY, s1, s2, s3, s4, Moved(s4, PROJECT, A, [B])];
    RunIsPossible(states, INTERRUPTED_RUN);
    assert (B, A) in s3.edges && (B, A) !in s4.edges;
    BehaviourKeepsInv(states, INTERRUPTED_RUN, 5);
    assert B in SetOf([B]);
  }

  lemma RunIsPossible(states: seq<State>, steps: seq<Step>)
    requires |steps| == 5 && |states| == 6 && states[0] == EMPTY
    requires Next(states[0], steps[0], states[1]) && Next(states[1], steps[1], states[2]) && Next(states[2], steps[2], states[3])
    requires Next(states[3], steps[3], states[4]) && Next(states[4], steps[4], states[5])
    ensures Behaviour(states, steps)
  {
  }
}
