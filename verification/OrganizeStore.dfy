/** The group operations as the store runs them: group records and the edge set updated in place, a worklist cycle search. */
module OrganizeStore {
  import opened Prelude
  import opened Graph
  import opened Organize

  class OrganizeGroup {
    const id: Uuid
    const projectId: Uuid
    var name: Name
    var parentIds: seq<Uuid>
    var status: GroupStatus

    constructor (id: Uuid, projectId: Uuid, name: Name, parentIds: seq<Uuid>)
      ensures this.id == id && View() == Group(projectId, name, parentIds, Active)
    {
      this.id, this.projectId := id, projectId;
      this.name, this.parentIds, this.status := name, parentIds, Active;
    }

    function View(): Group
      reads this
    {
      Group(projectId, name, parentIds, status)
    }
  }

  class Store {
    var projects: map<Uuid, ProjectStatus>
    var cameras: map<Uuid, Uuid>
    var organizeGroups: map<Uuid, OrganizeGroup>
    var organizeGroupParents: Edges
    var organizeGroupMemberships: set<Membership>

    ghost predicate Valid()
      reads this`organizeGroups, organizeGroups.Values
    {
      forall id :: id in organizeGroups ==> organizeGroups[id].id == id
    }

    ghost function Groups(): map<Uuid, Group>
      reads this`organizeGroups, organizeGroups.Values
    {
      map id | id in organizeGroups :: organizeGroups[id].View()
    }

    ghost function View(): State
      reads this, organizeGroups.Values
    {
      State(projects, cameras, Groups(), organizeGroupParents, organizeGroupMemberships)
    }

    method ParentIds(groupId: Uuid) returns (r: set<Uuid>)
      ensures forall p :: p in r <==> (groupId, p) in organizeGroupParents
    {
      r := set x | x in organizeGroupParents && x.0 == groupId :: x.1;
      assert forall p :: (groupId, p) in organizeGroupParents ==> (groupId, p).1 in r;
    }

    /** The worklist search: terminates on every finite relation and is exact. */
    method WouldCreateCycle(groupId: Uuid, parentIds: set<Uuid>) returns (found: bool)
      ensures found <==> ReachedFrom(organizeGroupParents, parentIds, groupId)
    {
      var pending := SortedIds(parentIds);
      var visited: set<Uuid> := {};
      ghost var edges := organizeGroupParents;
      ghost var universe := parentIds + set x | x in edges :: x.1;
      StartSearch(edges, universe, parentIds, groupId, pending);
      while pending != []
        invariant Searching(edges, universe, parentIds, groupId, pending, visited)
        decreases universe - visited, |pending|
      {
        var current := pending[|pending| - 1];
        if current == groupId {
          return true;
        }
        if current in visited {
          SkipNode(edges, universe, parentIds, groupId, pending, visited);
          pending := pending[..|pending| - 1];
        } else {
          var parents := ParentIds(current);
          var next := SortedIds(parents);
          VisitNode(edges, universe, parentIds, groupId, pending, visited, next);
          visited := visited + {current};
          pending := pending[..|pending| - 1] + next;
        }
      }
      NothingLeft(edges, universe, parentIds, groupId, visited);
      return false;
    }

    method CreateGroup(projectId: Uuid, name: Option<Name>, parentIds: seq<Uuid>, newId: Uuid) returns (r: Outcome)
      requires Valid() && newId !in organizeGroups
      modifies this
      ensures Valid()
      ensures View() == Organize.CreateGroup(old(View()), projectId, name, parentIds, newId).0
      ensures r == Organize.CreateGroup(old(View()), projectId, name, parentIds, newId).1
    {
      var error := CheckCreate(projectId, name, parentIds);
      if error.Some? {
        return Failed(error.value);
      }
      var normalizedParents := SetOf(parentIds);
      PutGroup(newId, projectId, name.value, SortedIds(normalizedParents));
      organizeGroupParents := AddEdges(organizeGroupParents, newId, normalizedParents);
      r := Done;
    }

    method PutGroup(newId: Uuid, projectId: Uuid, name: Name, parentIds: seq<Uuid>)
      requires Valid()
      modifies this`organizeGroups
      ensures Valid()
      ensures View() == old(View()).(groups := old(Groups())[newId := Group(projectId, name, parentIds, Active)])
    {
      var group := new OrganizeGroup(newId, projectId, name, parentIds);
      organizeGroups := organizeGroups[newId := group];
      assert Groups() == old(Groups())[newId := group.View()];
    }

    method CheckCreate(projectId: Uuid, name: Option<Name>, parentIds: seq<Uuid>) returns (error: Option<OrganizeError>)
      requires Valid()
      ensures error == CreateError(View(), projectId, name, parentIds)
    {
      error := CheckProject(projectId);
      if error.Some? {
        return;
      }
      if name == None {
        return Some(Invalid);
      }
      var taken := CheckNameTaken(projectId, name.value, None);
      if taken {
        return Some(Conflict);
      }
      error := CheckGroups(projectId, parentIds);
    }

    method CheckItems(projectId: Uuid, itemType: Option<ItemType>) returns (error: Option<OrganizeError>)
      ensures error == ItemsError(View(), projectId, itemType)
    {
      error := CheckProject(projectId);
      if error == None && itemType == None {
        error := Some(Invalid);
      }
    }

    method CheckProject(projectId: Uuid) returns (error: Option<OrganizeError>)
      ensures error == ProjectError(View(), projectId)
    {
      if projectId !in projects {
        return Some(NotFound);
      }
      error := if projects[projectId] == ProjectDeleted then Some(Conflict) else None;
    }

    method CheckGroup(projectId: Uuid, groupId: Uuid) returns (error: Option<OrganizeError>)
      ensures error == GroupError(Groups(), projectId, groupId)
    {
      if groupId !in organizeGroups {
        return Some(NotFound);
      }
      error := if organizeGroups[groupId].projectId != projectId then Some(Conflict) else None;
    }

    method CheckGroups(projectId: Uuid, ids: seq<Uuid>) returns (error: Option<OrganizeError>)
      ensures error == GroupsError(Groups(), projectId, ids)
    {
      error := None;
      for i := 0 to |ids|
        invariant error == GroupsError(Groups(), projectId, ids[..i])
      {
        assert ids[..i + 1][..i] == ids[..i];
        if error == None {
          error := CheckGroup(projectId, ids[i]);
        }
      }
      assert ids[..|ids|] == ids;
    }

    method CheckNameTaken(projectId: Uuid, name: Name, except: Option<Uuid>) returns (taken: bool)
      requires Valid()
      ensures taken == NameTaken(Groups(), projectId, name, except)
    {
      taken := exists id :: id in organizeGroups && organizeGroups[id].projectId == projectId && Some(id) != except
                            && organizeGroups[id].name.folded == name.folded;
      assert forall id :: id in organizeGroups <==> id in Groups();
      assert forall id :: id in organizeGroups ==> Groups()[id] == organizeGroups[id].View();
    }

    method CheckUpdate(projectId: Uuid, groupId: Uuid, u: GroupUpdate) returns (error: Option<OrganizeError>)
      requires Valid()
      ensures error == UpdateError(View(), projectId, groupId, u)
    {
      error := CheckGroup(projectId, groupId);
      if error.Some? {
        return;
      }
      var group := organizeGroups[groupId];
      assert Groups()[groupId] == group.View();
      if u == GroupUpdate(None, None, None) || u.name == Some(None) {
        return Some(Invalid);
      }
      var taken := CheckNameTaken(projectId, if u.name.Some? then u.name.value.value else group.name, Some(groupId));
      if taken {
        return Some(Conflict);
      }
      error := CheckParents(projectId, groupId, if u.parentIds.Some? then u.parentIds.value else group.parentIds);
      if error == None && u.status == Some(None) {
        error := Some(Invalid);
      }
    }

    /** The parents must be groups of the project and close no cycle. */
    method CheckParents(projectId: Uuid, groupId: Uuid, parentIds: seq<Uuid>) returns (error: Option<OrganizeError>)
      ensures error == if GroupsError(Groups(), projectId, parentIds).Some? then GroupsError(Groups(), projectId, parentIds)
                       else if ReachedFrom(organizeGroupParents, SetOf(parentIds), groupId) then Some(Conflict) else None
    {
      error := CheckGroups(projectId, parentIds);
      if error == None {
        var cyclic := WouldCreateCycle(groupId, SetOf(parentIds));
        error := if cyclic then Some(Conflict) else None;
      }
    }

    method UpdateGroup(projectId: Uuid, groupId: Uuid, u: GroupUpdate) returns (r: Outcome)
      requires Valid()
      modifies this`organizeGroupParents, organizeGroups.Values
      ensures Valid()
      ensures Organize.UpdateGroup(old(View()), projectId, groupId, u, View(), r)
    {
      var error := CheckUpdate(projectId, groupId, u);
      if error.Some? {
        return Failed(error.value);
      }
      var group := organizeGroups[groupId];
      assert Groups()[groupId] == group.View();
      var newName := if u.name.Some? then u.name.value.value else group.name;
      var newParents := if u.parentIds.Some? then u.parentIds.value else group.parentIds;
      var newStatus := if u.status.Some? then u.status.value.value else group.status;
      if u.parentIds.Some? {
        r := RelinkAndWrite(groupId, newName, SetOf(newParents), newStatus);
      } else {
        WriteGroup(groupId, newName, SetOf(newParents), newStatus);
        r := Done;
      }
    }

    method MoveGroup(projectId: Uuid, groupId: Uuid, parentIds: seq<Uuid>) returns (r: Outcome)
      requires Valid()
      modifies this`organizeGroupParents, organizeGroups.Values
      ensures Valid()
      ensures Organize.MoveGroup(old(View()), projectId, groupId, parentIds, View(), r)
    {
      var error := CheckGroup(projectId, groupId);
      if error.Some? {
        return Failed(error.value);
      }
      error := CheckParents(projectId, groupId, parentIds);
      if error.Some? {
        return Failed(error.value);
      }
      var group := organizeGroups[groupId];
      assert Groups()[groupId] == group.View();
      r := RelinkAndWrite(groupId, group.name, SetOf(parentIds), group.status);
    }

    /** Discards the group's edges while iterating over the same set: the first one discarded ends the iteration with an error. */
    method DiscardOutEdges(groupId: Uuid) returns (interrupted: bool)
      modifies this`organizeGroupParents
      ensures interrupted == HasOutEdge(old(organizeGroupParents), groupId)
      ensures if interrupted then DropsOneEdge(old(organizeGroupParents), groupId, organizeGroupParents)
              else organizeGroupParents == old(organizeGroupParents)
    {
      var rest := organizeGroupParents;
      while rest != {}
        invariant organizeGroupParents == old(organizeGroupParents) && rest <= organizeGroupParents
        invariant forall x :: x in organizeGroupParents && x.0 == groupId ==> x in rest
        decreases rest
      {
        var x :| x in rest;
        if x.0 == groupId {
          organizeGroupParents := organizeGroupParents - {x};
          return true;
        }
        rest := rest - {x};
      }
      interrupted := false;
    }

    method RelinkAndWrite(groupId: Uuid, name: Name, parents: set<Uuid>, status: GroupStatus) returns (r: Outcome)
      requires Valid() && groupId in organizeGroups
      modifies this`organizeGroupParents, organizeGroups[groupId]
      ensures Valid()
      ensures groupId in old(Groups()) && Relinks(old(View()), groupId, Rewrite(old(View()), groupId, name, parents, status, true), View(), r)
    {
      ghost var before := View();
      var interrupted := DiscardOutEdges(groupId);
      assert Groups() == before.groups;
      if interrupted {
        return Failed(Interrupted);
      }
      AddParents(groupId, parents);
      WriteGroup(groupId, name, parents, status);
      r := Done;
    }

    method AddParents(groupId: Uuid, parents: set<Uuid>)
      requires !HasOutEdge(organizeGroupParents, groupId)
      modifies this`organizeGroupParents
      ensures View() == old(View()).(edges := Replace(old(organizeGroupParents), groupId, parents))
    {
      organizeGroupParents := AddEdges(organizeGroupParents, groupId, parents);
      assert organizeGroupParents == Replace(old(organizeGroupParents), groupId, parents);
    }

    method WriteGroup(groupId: Uuid, name: Name, parents: set<Uuid>, status: GroupStatus)
      requires Valid() && groupId in organizeGroups
      modifies organizeGroups[groupId]
      ensures Valid() && groupId in old(Groups()) && View() == Rewrite(old(View()), groupId, name, parents, status, false)
    {
      var group := organizeGroups[groupId];
      group.name := name;
      group.parentIds := SortedIds(parents);
      group.status := status;
      assert forall id :: id in organizeGroups && id != groupId ==> organizeGroups[id] != group;
      assert Groups() == old(Groups())[groupId := group.View()];
    }

    method DeleteGroup(projectId: Uuid, groupId: Uuid) returns (r: Outcome)
      requires Valid()
      modifies this, organizeGroups.Values
      ensures Valid()
      ensures match GroupError(old(Groups()), projectId, groupId)
              case Some(e) => r == Failed(e) && View() == old(View())
              case None => r == Done && Deleted(old(View()), projectId, groupId, View())
    {
      var error := CheckGroup(projectId, groupId);
      if error.Some? {
        return Failed(error.value);
      }
      organizeGroups := organizeGroups - {groupId};
      organizeGroupParents := set x | x in organizeGroupParents && x.0 != groupId && x.1 != groupId;
      DetachAll(projectId, groupId);
      organizeGroupMemberships := set m | m in organizeGroupMemberships && (m.projectId != projectId || m.groupId != groupId);
      r := Done;
    }

    /** The loop over the remaining groups that takes the deleted id out of their parent lists. */
    method DetachAll(projectId: Uuid, gone: Uuid)
      requires Valid()
      modifies organizeGroups.Values
      ensures Valid()
      ensures forall id :: id in organizeGroups ==> organizeGroups[id].View() == Detach(old(organizeGroups[id].View()), projectId, gone)
    {
      var rest := organizeGroups.Keys;
      while rest != {}
        invariant rest <= organizeGroups.Keys && Valid()
        invariant forall id :: id in organizeGroups ==> 
                    organizeGroups[id].View() ==
                      (if id in rest then old(organizeGroups[id].View()) else Detach(old(organizeGroups[id].View()), projectId, gone))
        decreases rest
      {
        var id :| id in rest;
        var group := organizeGroups[id];
        if group.projectId == projectId && gone in group.parentIds {
          group.parentIds := Without(group.parentIds, gone);
        } else if group.projectId == projectId {
          NothingToDetach(group.parentIds, gone);
        }
        rest := rest - {id};
      }
    }

    method AssignGroups(projectId: Uuid, itemType: Option<ItemType>, items: seq<Uuid>, groupIds: seq<Uuid>, replace: bool)
      returns (r: Outcome)
      modifies this`organizeGroupMemberships
      ensures View() == Organize.AssignGroups(old(View()), projectId, itemType, items, groupIds, replace).0
      ensures r == Organize.AssignGroups(old(View()), projectId, itemType, items, groupIds, replace).1
    {
      var error := CheckItems(projectId, itemType);
      if error == None {
        error := CheckGroups(projectId, groupIds);
      }
      if error.Some? {
        return Failed(error.value);
      }
      if replace {
        organizeGroupMemberships := Unassigned(organizeGroupMemberships, projectId, itemType.value, items);
      }
      if itemType.value == Entity && exists id :: id in items && id in cameras && cameras[id] != projectId {
        return Failed(Conflict);
      }
      organizeGroupMemberships := organizeGroupMemberships + Assigned(projectId, itemType.value, items, groupIds);
      r := Done;
    }

    method RemoveGroups(projectId: Uuid, itemType: Option<ItemType>, items: seq<Uuid>, groupIds: seq<Uuid>) returns (r: Outcome)
      modifies this`organizeGroupMemberships
      ensures View() == Organize.RemoveGroups(old(View()), projectId, itemType, items, groupIds).0
      ensures r == Organize.RemoveGroups(old(View()), projectId, itemType, items, groupIds).1
    {
      var error := CheckItems(projectId, itemType);
      if error.Some? {
        return Failed(error.value);
      }
      organizeGroupMemberships := set m | m in organizeGroupMemberships &&
          !(m.projectId == projectId && m.itemType == itemType.value && m.itemId in items && m.groupId in groupIds);
      r := Done;
    }
  }

  /** Seen nodes are reached from the starts, the group is not among the visited, and visited nodes are fully expanded. */
  ghost predicate Searching(edges: Edges, universe: set<Uuid>, starts: set<Uuid>, groupId: Uuid, pending: seq<Uuid>, visited: set<Uuid>) {
    && (forall x :: x in pending || x in visited ==> x in universe && ReachedFrom(edges, starts, x))
    && groupId !in visited
    && (forall p :: p in starts ==> p in visited || p in pending)
    && (forall x :: x in edges && x.0 in visited ==> x.1 in visited || x.1 in pending)
  }

  lemma StartSearch(edges: Edges, universe: set<Uuid>, starts: set<Uuid>, groupId: Uuid, pending: seq<Uuid>)
    requires starts <= universe && forall p :: p in pending <==> p in starts
    ensures Searching(edges, universe, starts, groupId, pending, {})
  {
    forall p | p in pending ensures ReachedFrom(edges, starts, p) {
      ReachesSelf(edges, p);
    }
  }

  lemma VisitNode(edges: Edges, universe: set<Uuid>, starts: set<Uuid>, groupId: Uuid, pending: seq<Uuid>, visited: set<Uuid>, next: seq<Uuid>)
    requires Searching(edges, universe, starts, groupId, pending, visited) && pending != [] && pending[|pending| - 1] != groupId
    requires forall p :: p in next <==> (pending[|pending| - 1], p) in edges
    requires forall x :: x in edges ==> x.1 in universe
    ensures pending[|pending| - 1] in universe
    ensures Searching(edges, universe, starts, groupId, pending[..|pending| - 1] + next, visited + {pending[|pending| - 1]})
  {
    var current, rest := pending[|pending| - 1], pending[..|pending| - 1];
    assert pending == rest + [current];
    assert current in pending && ReachedFrom(edges, starts, current);
    forall p | p in next ensures p in universe && ReachedFrom(edges, starts, p) {
      assert (current, p).1 in universe;
      var q :| q in starts && Reaches(edges, q, current);
      ReachesThen(edges, q, current, p);
    }
    forall x | x in edges && x.0 in visited + {current} ensures x.1 in visited + {current} || x.1 in rest + next {
      assert x == (x.0, x.1);
      assert x.0 in visited ==> x.1 in visited || x.1 in rest + [current];
    }
  }

  lemma SkipNode(edges: Edges, universe: set<Uuid>, starts: set<Uuid>, groupId: Uuid, pending: seq<Uuid>, visited: set<Uuid>)
    requires Searching(edges, universe, starts, groupId, pending, visited) && pending != [] && pending[|pending| - 1] in visited
    ensures Searching(edges, universe, starts, groupId, pending[..|pending| - 1], visited)
  {
    var current, rest := pending[|pending| - 1], pending[..|pending| - 1];
    assert pending == rest + [current];
    assert forall x :: x in pending <==> x in rest || x == current;
  }

  lemma NothingLeft(edges: Edges, universe: set<Uuid>, starts: set<Uuid>, groupId: Uuid, visited: set<Uuid>)
    requires Searching(edges, universe, starts, groupId, [], visited)
    ensures !ReachedFrom(edges, starts, groupId)
  {
    if q :| q in starts && Reaches(edges, q, groupId) {
      var path :| Connects(edges, path, q, groupId);
      ClosedUnderEdges(edges, visited, groupId, path);
    }
  }

  lemma {:induction false} NothingToDetach(ids: seq<Uuid>, gone: Uuid)
    requires gone !in ids
    ensures Without(ids, gone) == ids
  {
    if ids == [] {
    } else {
      NothingToDetach(ids[..|ids| - 1], gone);
    }
  }
}
