/** What each group request does, told by what a reader of the groups and memberships sees before and after it. */
module OrganizeEffects {
  import opened Prelude
  import opened Graph
  import opened Organize
  import opened OrganizeTheorems

  // --- What can be seen of a group -----------------------------------------------------------------------

  predicate Has(s: State, projectId: Uuid, groupId: Uuid) {
    groupId in s.groups && s.groups[groupId].projectId == projectId
  }

  predicate Bears(s: State, projectId: Uuid, groupId: Uuid, folded: string) {
    Has(s, projectId, groupId) && s.groups[groupId].name.folded == folded
  }

  ghost predicate Free(s: State, projectId: Uuid, folded: string) {
    forall g :: !Bears(s, projectId, g, folded)
  }

  ghost predicate ListsParents(s: State, groupId: Uuid, parents: seq<Uuid>) {
    groupId in s.groups && forall p :: p in s.groups[groupId].parentIds <==> p in parents
  }

  /** The group has exactly the given parents, as edges. */
  ghost predicate PointsTo(s: State, groupId: Uuid, parents: seq<Uuid>) {
    forall p :: (groupId, p) in s.edges <==> p in parents
  }

  ghost predicate SameGroup(s: State, s': State, groupId: Uuid) {
    && (groupId in s.groups <==> groupId in s'.groups)
    && (groupId in s.groups ==> s'.groups[groupId] == s.groups[groupId])
    && forall p :: (groupId, p) in s'.edges <==> (groupId, p) in s.edges
  }

  ghost predicate SameBut(s: State, s': State, groupId: Uuid) {
    && s'.projects == s.projects && s'.cameras == s.cameras && s'.memberships == s.memberships
    && forall g :: g != groupId ==> SameGroup(s, s', g)
  }

  ghost predicate AreGroups(s: State, projectId: Uuid, ids: seq<Uuid>) {
    forall id :: id in ids ==> Has(s, projectId, id)
  }

  predicate OpenProject(s: State, projectId: Uuid) {
    projectId in s.projects && s.projects[projectId] != ProjectDeleted
  }

  lemma {:induction false} ChecksNeverInterrupt(s: State, projectId: Uuid, ids: seq<Uuid>)
    ensures GroupsError(s.groups, projectId, ids) != Some(Interrupted)
  {
    if ids == [] {
    } else {
      ChecksNeverInterrupt(s, projectId, ids[..|ids| - 1]);
    }
  }

  lemma GroupsAreChecked(s: State, projectId: Uuid, ids: seq<Uuid>)
    ensures GroupsError(s.groups, projectId, ids) == None <==> AreGroups(s, projectId, ids)
    ensures GroupsError(s.groups, projectId, ids) != Some(Interrupted)
  {
    ChecksNeverInterrupt(s, projectId, ids);
    assert forall id :: id in ids ==> (GroupError(s.groups, projectId, id) == None <==> Has(s, projectId, id));
  }

  lemma TakenMeansBorne(s: State, projectId: Uuid, name: Name, except: Option<Uuid>)
    ensures NameTaken(s.groups, projectId, name, except) <==> exists g: Uuid :: Bears(s, projectId, g, name.folded) && Some(g) != except
  {
    if NameTaken(s.groups, projectId, name, except) {
      var g :| g in s.groups && s.groups[g].projectId == projectId && Some(g) != except && s.groups[g].name.folded == name.folded;
      assert Bears(s, projectId, g, name.folded);
    }
  }

  // --- Creating ----------------------------------------------------------------------------------------------

  /** A group is created exactly in an open project, under a usable and free name, below groups of the project. */
  lemma CreatedIff(s: State, projectId: Uuid, name: Option<Name>, parentIds: seq<Uuid>, newId: Uuid)
    ensures CreateGroup(s, projectId, name, parentIds, newId).1 == Done
       <==> OpenProject(s, projectId) && name.Some? && Free(s, projectId, name.value.folded) && AreGroups(s, projectId, parentIds)
    ensures OpenProject(s, projectId) && name.Some? && !Free(s, projectId, name.value.folded) ==>
              CreateGroup(s, projectId, name, parentIds, newId).1 == Failed(Conflict)
  {
    GroupsAreChecked(s, projectId, parentIds);
    if name.Some? {
      TakenMeansBorne(s, projectId, name.value, None);
    }
  }

  /** It then is active, with the name and the parents asked for, in lists and edges alike, and nothing else changes; a refusal changes nothing. */
  lemma CreateTakesEffect(s: State, projectId: Uuid, name: Option<Name>, parentIds: seq<Uuid>, newId: Uuid)
    requires Inv(s) && newId !in s.groups
    ensures var (s', outcome) := CreateGroup(s, projectId, name, parentIds, newId);
            if outcome == Done then
              && SameBut(s, s', newId) && ListsParents(s', newId, parentIds) && PointsTo(s', newId, parentIds)
              && name.Some? && s'.groups[newId].(parentIds := []) == Group(projectId, name.value, [], Active)
            else s' == s
  {
    var (s', outcome) := CreateGroup(s, projectId, name, parentIds, newId);
    if outcome == Done {
      CreateRelists(s, projectId, name, parentIds, newId);
      NewIdHasNoEdges(s, newId);
    }
  }

  // --- Updating ------------------------------------------------------------------------------------------------

  predicate Refuses(outcome: Outcome) {
    outcome.Failed? && outcome.error != Interrupted
  }

  predicate Usable(u: GroupUpdate) {
    u != GroupUpdate(None, None, None) && u.name != Some(None) && u.status != Some(None)
  }

  /** The name the group would bear is borne by no other group of the project. */
  ghost predicate KeepsNamesApart(s: State, projectId: Uuid, groupId: Uuid, u: GroupUpdate) {
    u.name.Some? && u.name.value.Some? ==>
      forall g :: Bears(s, projectId, g, u.name.value.value.folded) ==> g == groupId
  }

  ghost predicate StaysAcyclic(s: State, groupId: Uuid, parents: seq<Uuid>) {
    Acyclic(Replace(s.edges, groupId, SetOf(parents)))
  }

  /** An update passes exactly for a group of the project, with something usable in it, a name no other group bears, parents
      that are groups of the project, and edges to the given or listed parents that close no cycle. */
  lemma UpdatePassesIff(s: State, projectId: Uuid, groupId: Uuid, u: GroupUpdate, s': State, outcome: Outcome)
    requires Inv(s) && UpdateGroup(s, projectId, groupId, u, s', outcome)
    ensures !Refuses(outcome)
       <==> && Has(s, projectId, groupId) && Usable(u) && KeepsNamesApart(s, projectId, groupId, u)
            && (u.parentIds.Some? ==> AreGroups(s, projectId, u.parentIds.value))
            && StaysAcyclic(s, groupId, if u.parentIds.Some? then u.parentIds.value else s.groups[groupId].parentIds)
    ensures Refuses(outcome) ==> s' == s
  {
    if Has(s, projectId, groupId) && u.name != Some(None) {
      var group := s.groups[groupId];
      var parents := NewParents(group, u);
      ReplaceIsCyclicIff(s.edges, groupId, SetOf(parents));
      GroupsAreChecked(s, projectId, parents);
      ListedAreGroups(s, projectId, groupId);
      NameIsChecked(s, projectId, groupId, u);
    }
  }

  lemma ListedAreGroups(s: State, projectId: Uuid, groupId: Uuid)
    requires Inv(s) && Has(s, projectId, groupId)
    ensures AreGroups(s, projectId, s.groups[groupId].parentIds)
  {
  }

  /** The name a group already has is no other group's, so only a given name can be taken. */
  lemma NameIsChecked(s: State, projectId: Uuid, groupId: Uuid, u: GroupUpdate)
    requires Inv(s) && Has(s, projectId, groupId) && u.name != Some(None)
    ensures NameTaken(s.groups, projectId, NewName(s.groups[groupId], u), Some(groupId)) <==> !KeepsNamesApart(s, projectId, groupId, u)
  {
    TakenMeansBorne(s, projectId, NewName(s.groups[groupId], u), Some(groupId));
  }

  /** A finished update leaves the group with the given name, status and parents where given and its own where not;
      its project, every other group and every membership are as before. */
  lemma UpdateTakesEffect(s: State, projectId: Uuid, groupId: Uuid, u: GroupUpdate, s': State)
    requires UpdateGroup(s, projectId, groupId, u, s', Done)
    ensures SameBut(s, s', groupId) && Has(s, projectId, groupId) && Has(s', projectId, groupId)
    ensures if u.name.Some? then u.name.value == Some(s'.groups[groupId].name) else s'.groups[groupId].name == s.groups[groupId].name
    ensures if u.status.Some? then u.status.value == Some(s'.groups[groupId].status) else s'.groups[groupId].status == s.groups[groupId].status
    ensures if u.parentIds.Some? then ListsParents(s', groupId, u.parentIds.value) && PointsTo(s', groupId, u.parentIds.value)
            else ListsParents(s', groupId, s.groups[groupId].parentIds) && s'.edges == s.edges
  {
    var parents := NewParents(s.groups[groupId], u);
    assert forall p :: p in SortedIds(SetOf(parents)) <==> p in SetOf(parents);
  }

  /** A finished move leaves the group with its name and status and exactly the given parents, and everything else as before. */
  lemma MoveTakesEffect(s: State, projectId: Uuid, groupId: Uuid, parentIds: seq<Uuid>, s': State)
    requires MoveGroup(s, projectId, groupId, parentIds, s', Done)
    ensures SameBut(s, s', groupId) && Has(s, projectId, groupId) && Has(s', projectId, groupId)
    ensures s'.groups[groupId].name == s.groups[groupId].name && s'.groups[groupId].status == s.groups[groupId].status
    ensures ListsParents(s', groupId, parentIds) && PointsTo(s', groupId, parentIds)
  {
    assert forall p :: p in SortedIds(SetOf(parentIds)) <==> p in SetOf(parentIds);
  }

  /** A move passes exactly for a group of the project, below groups of the project, where it closes no cycle. */
  lemma MovePassesIff(s: State, projectId: Uuid, groupId: Uuid, parentIds: seq<Uuid>, s': State, outcome: Outcome)
    requires Inv(s) && MoveGroup(s, projectId, groupId, parentIds, s', outcome)
    ensures !Refuses(outcome) <==> Has(s, projectId, groupId) && AreGroups(s, projectId, parentIds) && StaysAcyclic(s, groupId, parentIds)
    ensures Refuses(outcome) ==> s' == s
  {
    GroupsAreChecked(s, projectId, parentIds);
    ReplaceIsCyclicIff(s.edges, groupId, SetOf(parentIds));
  }

  /** Past its checks an update is done exactly if it gives no parents or the group has no out-edges; otherwise it is interrupted. */
  lemma UpdateDoneIff(s: State, projectId: Uuid, groupId: Uuid, u: GroupUpdate, s': State, outcome: Outcome)
    requires UpdateGroup(s, projectId, groupId, u, s', outcome) && !Refuses(outcome)
    ensures outcome == Done <==> u.parentIds == None || PointsTo(s, groupId, [])
    ensures outcome != Done ==> outcome == Failed(Interrupted) && LosesOneEdge(s, groupId, s')
  {
    if groupId in s.groups {
      GroupsAreChecked(s, projectId, NewParents(s.groups[groupId], u));
    }
    if HasOutEdge(s.edges, groupId) {
      var x :| x in s.edges && x.0 == groupId;
      assert x == (groupId, x.1) && !PointsTo(s, groupId, []);
    }
    if outcome != Done {
      DroppedEdgeIsLost(s, groupId, s');
    }
  }

  lemma MoveDoneIff(s: State, projectId: Uuid, groupId: Uuid, parentIds: seq<Uuid>, s': State, outcome: Outcome)
    requires MoveGroup(s, projectId, groupId, parentIds, s', outcome) && !Refuses(outcome)
    ensures outcome == Done <==> PointsTo(s, groupId, [])
    ensures outcome != Done ==> outcome == Failed(Interrupted) && LosesOneEdge(s, groupId, s')
  {
    GroupsAreChecked(s, projectId, parentIds);
    if HasOutEdge(s.edges, groupId) {
      var x :| x in s.edges && x.0 == groupId;
      assert x == (groupId, x.1) && !PointsTo(s, groupId, []);
    }
    if outcome != Done {
      DroppedEdgeIsLost(s, groupId, s');
    }
  }

  /** The group has lost one of its parents in the edges, and nothing else happened. */
  ghost predicate LosesOneEdge(s: State, groupId: Uuid, s': State) {
    && s' == s.(edges := s'.edges)
    && exists p :: (groupId, p) in s.edges && s'.edges == s.edges - {(groupId, p)}
  }

  lemma DroppedEdgeIsLost(s: State, groupId: Uuid, s': State)
    requires DropsOneEdge(s.edges, groupId, s'.edges) && s' == s.(edges := s'.edges)
    ensures LosesOneEdge(s, groupId, s')
  {
    var x :| x in s.edges && x.0 == groupId && s'.edges == s.edges - {x};
    assert x == (groupId, x.1);
  }

  /** In every run, once a rename is done its new name is taken, and the name the group had before is free if it differs:
      creating a group is refused for the one and, in an open project, succeeds for the other. */
  lemma RenamedNamesCount(states: seq<State>, steps: seq<Step>, n: nat, projectId: Uuid, groupId: Uuid, u: GroupUpdate,
                          name: Name, parents: seq<Uuid>, newId: Uuid)
    requires Behaviour(states, steps) && n < |steps| && steps[n] == Update(projectId, groupId, u)
    requires UpdateGroup(states[n], projectId, groupId, u, states[n + 1], Done) && u.name.Some? && u.name.value.Some?
    requires OpenProject(states[n + 1], projectId) && AreGroups(states[n + 1], projectId, parents)
    ensures name.folded == u.name.value.value.folded ==>
              CreateGroup(states[n + 1], projectId, Some(name), parents, newId).1 == Failed(Conflict)
    ensures name.folded == states[n].groups[groupId].name.folded != u.name.value.value.folded ==>
              CreateGroup(states[n + 1], projectId, Some(name), parents, newId).1 == Done
  {
    var s, s' := states[n], states[n + 1];
    BehaviourKeepsInv(states, steps, n);
    UpdateTakesEffect(s, projectId, groupId, u, s');
    CreatedIff(s', projectId, Some(name), parents, newId);
    if name.folded == u.name.value.value.folded {
      assert Bears(s', projectId, groupId, name.folded);
    } else if name.folded == s.groups[groupId].name.folded {
      FreedByRename(s, s', projectId, groupId);
    }
  }

  lemma FreedByRename(s: State, s': State, projectId: Uuid, groupId: Uuid)
    requires NamesDistinct(s) && SameBut(s, s', groupId) && Has(s, projectId, groupId) && Has(s', projectId, groupId)
    requires s'.groups[groupId].name.folded != s.groups[groupId].name.folded
    ensures Free(s', projectId, s.groups[groupId].name.folded)
  {
    forall g ensures !Bears(s', projectId, g, s.groups[groupId].name.folded) {
      assert g != groupId ==> SameGroup(s, s', g);
    }
  }

  // --- Deleting ---------------------------------------------------------------------------------------------------

  /** The group is gone from the other group's parents, which is as it was otherwise. */
  ghost predicate SameWithout(s: State, s': State, groupId: Uuid, other: Uuid) {
    && (other in s.groups <==> other in s'.groups)
    && (other in s.groups ==>
          && s'.groups[other].(parentIds := []) == s.groups[other].(parentIds := [])
          && forall p :: p in s'.groups[other].parentIds <==> p in s.groups[other].parentIds && p != groupId)
  }

  /** A deleted group is gone from everywhere: the groups, the parents of the others, the edges and the memberships.
      What is left is as before, and its name is free again. */
  lemma DeleteTakesEffect(s: State, projectId: Uuid, groupId: Uuid, s': State)
    requires Inv(s) && Has(s, projectId, groupId) && Next(s, Delete(projectId, groupId), s')
    ensures groupId !in s'.groups && s'.projects == s.projects && s'.cameras == s.cameras
    ensures forall other :: other != groupId ==> SameWithout(s, s', groupId, other)
    ensures forall c, p :: (c, p) in s'.edges <==> (c, p) in s.edges && c != groupId && p != groupId
    ensures forall m :: m in s'.memberships <==> m in s.memberships && m.groupId != groupId
    ensures Free(s', projectId, s.groups[groupId].name.folded)
  {
    DetachedLists(s, projectId, groupId, s');
    forall other | other != groupId ensures SameWithout(s, s', groupId, other) {
      assert other in s'.groups ==> s'.groups[other] == Detach(s.groups[other], projectId, groupId);
    }
    forall m ensures m in s'.memberships <==> m in s.memberships && m.groupId != groupId {
      assert m in s.memberships ==> s.groups[m.groupId].projectId == m.projectId;
    }
    forall g ensures !Bears(s', projectId, g, s.groups[groupId].name.folded) {
      assert g != groupId ==> SameWithout(s, s', groupId, g);
    }
  }

  /** A delete of anything else changes nothing. */
  lemma DeleteOfOthersIsRefused(s: State, projectId: Uuid, groupId: Uuid, s': State)
    requires !Has(s, projectId, groupId) && Next(s, Delete(projectId, groupId), s')
    ensures s' == s
  {
  }

  // --- Memberships -------------------------------------------------------------------------------------------------

  /** The membership of one of the items in one of the groups. */
  predicate Concerns(m: Membership, projectId: Uuid, itemType: ItemType, items: seq<Uuid>) {
    m.projectId == projectId && m.itemType == itemType && m.itemId in items
  }

  predicate OwnItems(s: State, projectId: Uuid, itemType: ItemType, items: seq<Uuid>) {
    itemType == Entity ==> forall id :: id in items && id in s.cameras ==> s.cameras[id] == projectId
  }

  /** The checks before any membership is touched. */
  ghost predicate Assignable(s: State, projectId: Uuid, itemType: Option<ItemType>, groupIds: seq<Uuid>) {
    OpenProject(s, projectId) && itemType.Some? && AreGroups(s, projectId, groupIds)
  }

  /** An assignment adds each item to each of the groups, and a replacing one first takes it out of all its groups; it is done
      exactly if the checks pass and no item is a camera of another project. With such an item nothing is added, but a
      replacing assignment has already taken the items out. */
  lemma AssignTakesEffect(s: State, projectId: Uuid, itemType: Option<ItemType>, items: seq<Uuid>, groupIds: seq<Uuid>, replace: bool, m: Membership)
    ensures var (s', outcome) := AssignGroups(s, projectId, itemType, items, groupIds, replace);
            && s' == s.(memberships := s'.memberships)
            && (outcome == Done <==> Assignable(s, projectId, itemType, groupIds) && OwnItems(s, projectId, itemType.value, items))
            && (m in s'.memberships
                <==> if !Assignable(s, projectId, itemType, groupIds) || !Concerns(m, projectId, itemType.value, items) then m in s.memberships
                     else (m in s.memberships && !replace) || (outcome == Done && m.groupId in groupIds))
  {
    GroupsAreChecked(s, projectId, groupIds);
    if Assignable(s, projectId, itemType, groupIds) {
      var (s', outcome) := AssignGroups(s, projectId, itemType, items, groupIds, replace);
      var added := Assigned(projectId, itemType.value, items, groupIds);
      assert m in added <==> Concerns(m, projectId, itemType.value, items) && m.groupId in groupIds by {
        assert m == Membership(m.projectId, m.itemType, m.itemId, m.groupId);
      }
    }
  }

  /** A removal takes exactly the items out of exactly the groups, in an open project. */
  lemma RemoveTakesEffect(s: State, projectId: Uuid, itemType: Option<ItemType>, items: seq<Uuid>, groupIds: seq<Uuid>, m: Membership)
    ensures var (s', outcome) := RemoveGroups(s, projectId, itemType, items, groupIds);
            && s' == s.(memberships := s'.memberships)
            && (outcome == Done <==> OpenProject(s, projectId) && itemType.Some?)
            && (m in s'.memberships
                <==> m in s.memberships && !(outcome == Done && Concerns(m, projectId, itemType.value, items) && m.groupId in groupIds))
  {
  }
}
