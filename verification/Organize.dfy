/** The group hierarchy on values: every operation as a function of the state, and what every run of them keeps. */
module Organize {
  import opened Prelude
  import opened Graph

  /** A normalised name and its case-folded form; an absent name is one that normalises to nothing. */
  datatype Name = Name(text: string, folded: string)

  datatype ProjectStatus = ProjectActive | ProjectArchived | ProjectDeleted
  datatype GroupStatus = Active | Archived
  datatype ItemType = Entity | SourceFile | Import

  datatype Group = Group(projectId: Uuid, name: Name, parentIds: seq<Uuid>, status: GroupStatus)

  datatype Membership = Membership(projectId: Uuid, itemType: ItemType, itemId: Uuid, groupId: Uuid)

  datatype State = State(
    projects: map<Uuid, ProjectStatus>,
    cameras: map<Uuid, Uuid>,
    groups: map<Uuid, Group>,
    edges: Edges,
    memberships: set<Membership>)

  /** `Interrupted`: the edge set changed while it was being iterated. */
  datatype OrganizeError = NotFound | Conflict | Invalid | Interrupted

  datatype Outcome = Done | Failed(error: OrganizeError)

  function SetOf(ids: seq<Uuid>): set<Uuid> {
    set id | id in ids
  }

  predicate Ascending(ids: seq<Uuid>) {
    forall i, j :: 0 <= i < j < |ids| ==> ids[i] < ids[j]
  }

  predicate IsLeast(ids: set<Uuid>, m: Uuid) {
    m in ids && forall x :: x in ids ==> m <= x
  }

  lemma {:induction false} LeastExists(ids: set<Uuid>)
    requires ids != {}
    ensures exists m :: IsLeast(ids, m)
  {
    var x :| x in ids;
    var rest := ids - {x};
    if rest == {} {
      assert ids == {x};
      assert IsLeast(ids, x);
    } else {
      LeastExists(rest);
      var y :| IsLeast(rest, y);
      assert ids == rest + {x};
      assert IsLeast(ids, if x <= y then x else y);
    }
  }

  function Least(ids: set<Uuid>): (m: Uuid)
    requires ids != {}
    ensures IsLeast(ids, m)
  {
    LeastExists(ids);
    var m :| IsLeast(ids, m);
    m
  }

  /** The ids in ascending order. */
  function SortedIds(ids: set<Uuid>): (r: seq<Uuid>)
    ensures Ascending(r)
    ensures forall x :: x in r <==> x in ids
  {
    if ids == {} then []
    else
      var m := Least(ids);
      [m] + SortedIds(ids - {m})
  }

  // --- Checks ---------------------------------------------------------------------------------

  function ProjectError(s: State, projectId: Uuid): Option<OrganizeError> {
    if projectId !in s.projects then Some(NotFound)
    else if s.projects[projectId] == ProjectDeleted then Some(Conflict) else None
  }

  function GroupError(groups: map<Uuid, Group>, projectId: Uuid, groupId: Uuid): Option<OrganizeError> {
    if groupId !in groups then Some(NotFound)
    else if groups[groupId].projectId != projectId then Some(Conflict) else None
  }

  /** The error of the first id that is no group of the project. */
  function GroupsError(groups: map<Uuid, Group>, projectId: Uuid, ids: seq<Uuid>): (r: Option<OrganizeError>)
    ensures r == None <==> forall id :: id in ids ==> GroupError(groups, projectId, id) == None
  {
    if ids == [] then None
    else
      var last := |ids| - 1;
      var earlier := GroupsError(groups, projectId, ids[..last]);
      assert ids == ids[..last] + [ids[last]];
      if earlier.Some? then earlier else GroupError(groups, projectId, ids[last])
  }

  predicate NameTaken(groups: map<Uuid, Group>, projectId: Uuid, name: Name, except: Option<Uuid>) {
    exists id :: id in groups && groups[id].projectId == projectId && Some(id) != except && groups[id].name.folded == name.folded
  }

  // --- Operations -----------------------------------------------------------------------------

  function AddEdges(edges: Edges, groupId: Uuid, parents: set<Uuid>): Edges {
    edges + set p | p in parents :: (groupId, p)
  }

  function CreateError(s: State, projectId: Uuid, name: Option<Name>, parentIds: seq<Uuid>): Option<OrganizeError> {
    if ProjectError(s, projectId).Some? then ProjectError(s, projectId)
    else if name == None then Some(Invalid)
    else if NameTaken(s.groups, projectId, name.value, None) then Some(Conflict)
    else GroupsError(s.groups, projectId, parentIds)
  }

  function CreateGroup(s: State, projectId: Uuid, name: Option<Name>, parentIds: seq<Uuid>, newId: Uuid): (State, Outcome) {
    match CreateError(s, projectId, name, parentIds)
    case Some(e) => (s, Failed(e))
    case None =>
      var parents := SetOf(parentIds);
      (s.(groups := s.groups[newId := Group(projectId, name.value, SortedIds(parents), Active)],
          edges := AddEdges(s.edges, newId, parents)), Done)
  }

  /** The effect shared by update and move: new name, parents and status of an existing group. */
  ghost function Rewrite(s: State, groupId: Uuid, name: Name, parents: set<Uuid>, status: GroupStatus, relink: bool): State
    requires groupId in s.groups
  {
    s.(groups := s.groups[groupId := s.groups[groupId].(name := name, parentIds := SortedIds(parents), status := status)],
       edges := if relink then Replace(s.edges, groupId, parents) else s.edges)
  }

  /** An absent argument leaves the attribute; a present one may be unusable (a blank name, an unknown status). */
  datatype GroupUpdate = GroupUpdate(name: Option<Option<Name>>, parentIds: Option<seq<Uuid>>, status: Option<Option<GroupStatus>>)

  function NewName(group: Group, u: GroupUpdate): Name
    requires u.name != Some(None)
  {
    if u.name.Some? then u.name.value.value else group.name
  }

  function NewParents(group: Group, u: GroupUpdate): seq<Uuid> {
    if u.parentIds.Some? then u.parentIds.value else group.parentIds
  }

  function NewStatus(group: Group, u: GroupUpdate): GroupStatus
    requires u.status != Some(None)
  {
    if u.status.Some? then u.status.value.value else group.status
  }

  /** Why an update is refused, in the order of the checks. */
  ghost function UpdateError(s: State, projectId: Uuid, groupId: Uuid, u: GroupUpdate): Option<OrganizeError> {
    if GroupError(s.groups, projectId, groupId).Some? then GroupError(s.groups, projectId, groupId)
    else if u == GroupUpdate(None, None, None) || u.name == Some(None) then Some(Invalid)
    else if NameTaken(s.groups, projectId, NewName(s.groups[groupId], u), Some(groupId)) then Some(Conflict)
    else if GroupsError(s.groups, projectId, NewParents(s.groups[groupId], u)).Some? then GroupsError(s.groups, projectId, NewParents(s.groups[groupId], u))
    else if ReachedFrom(s.edges, SetOf(NewParents(s.groups[groupId], u)), groupId) then Some(Conflict)
    else if u.status == Some(None) then Some(Invalid)
    else None
  }

  /** What an accepted update is meant to do. */
  ghost function Updated(s: State, projectId: Uuid, groupId: Uuid, u: GroupUpdate): State
    requires UpdateError(s, projectId, groupId, u) == None
  {
    var group := s.groups[groupId];
    Rewrite(s, groupId, NewName(group, u), SetOf(NewParents(group, u)), NewStatus(group, u), u.parentIds.Some?)
  }

  ghost function MoveError(s: State, projectId: Uuid, groupId: Uuid, parentIds: seq<Uuid>): Option<OrganizeError> {
    if GroupError(s.groups, projectId, groupId).Some? then GroupError(s.groups, projectId, groupId)
    else if GroupsError(s.groups, projectId, parentIds).Some? then GroupsError(s.groups, projectId, parentIds)
    else if ReachedFrom(s.edges, SetOf(parentIds), groupId) then Some(Conflict)
    else None
  }

  /** What an accepted move is meant to do. */
  ghost function Moved(s: State, projectId: Uuid, groupId: Uuid, parentIds: seq<Uuid>): State
    requires MoveError(s, projectId, groupId, parentIds) == None
  {
    Rewrite(s, groupId, s.groups[groupId].name, SetOf(parentIds), s.groups[groupId].status, true)
  }

  predicate HasOutEdge(edges: Edges, groupId: Uuid) {
    exists x :: x in edges && x.0 == groupId
  }

  ghost predicate DropsOneEdge(edges: Edges, groupId: Uuid, edges': Edges) {
    exists x :: x in edges && x.0 == groupId && edges' == edges - {x}
  }

  /**
   What happens once the checks are passed. The group's edges are discarded while the same set is iterated: without
   out-edges nothing is discarded and the meant effect follows; otherwise the first discarded edge ends the request.
   */
  ghost predicate Relinks(s: State, groupId: Uuid, meant: State, s': State, outcome: Outcome) {
    if HasOutEdge(s.edges, groupId)
    then outcome == Failed(Interrupted) && DropsOneEdge(s.edges, groupId, s'.edges) && s' == s.(edges := s'.edges)
    else outcome == Done && s' == meant
  }

  ghost predicate UpdateGroup(s: State, projectId: Uuid, groupId: Uuid, u: GroupUpdate, s': State, outcome: Outcome) {
    match UpdateError(s, projectId, groupId, u)
    case Some(e) => s' == s && outcome == Failed(e)
    case None =>
      var meant := Updated(s, projectId, groupId, u);
      if u.parentIds.Some? then Relinks(s, groupId, meant, s', outcome) else s' == meant && outcome == Done
  }

  ghost predicate MoveGroup(s: State, projectId: Uuid, groupId: Uuid, parentIds: seq<Uuid>, s': State, outcome: Outcome) {
    match MoveError(s, projectId, groupId, parentIds)
    case Some(e) => s' == s && outcome == Failed(e)
    case None => Relinks(s, groupId, Moved(s, projectId, groupId, parentIds), s', outcome)
  }

  function Without(ids: seq<Uuid>, gone: Uuid): (r: seq<Uuid>)
    ensures forall x :: x in r <==> x in ids && x != gone
  {
    if ids == [] then []
    else
      var last := |ids| - 1;
      assert ids == ids[..last] + [ids[last]];
      Without(ids[..last], gone) + (if ids[last] == gone then [] else [ids[last]])
  }

  function Detach(group: Group, projectId: Uuid, gone: Uuid): Group {
    if group.projectId == projectId then group.(parentIds := Without(group.parentIds, gone)) else group
  }

  /** Deleting drops the group, every edge at it, its id from the parents of its project's groups, and its memberships. */
  ghost predicate Deleted(s: State, projectId: Uuid, groupId: Uuid, s': State) {
    && s'.projects == s.projects && s'.cameras == s.cameras
    && s'.groups.Keys == s.groups.Keys - {groupId}
    && (forall id :: id in s'.groups ==> s'.groups[id] == Detach(s.groups[id], projectId, groupId))
    && s'.edges == (set x | x in s.edges && x.0 != groupId && x.1 != groupId)
    && s'.memberships == set m | m in s.memberships && (m.projectId != projectId || m.groupId != groupId)
  }

  /** Some item is a camera of another project. */
  predicate ForeignItem(s: State, projectId: Uuid, itemType: ItemType, items: seq<Uuid>) {
    itemType == Entity && exists id :: id in items && id in s.cameras && s.cameras[id] != projectId
  }

  function ItemsError(s: State, projectId: Uuid, itemType: Option<ItemType>): Option<OrganizeError> {
    if ProjectError(s, projectId).Some? then ProjectError(s, projectId)
    else if itemType == None then Some(Invalid) else None
  }

  function Assigned(projectId: Uuid, itemType: ItemType, items: seq<Uuid>, groupIds: seq<Uuid>): set<Membership> {
    set i, g | i in items && g in groupIds :: Membership(projectId, itemType, i, g)
  }

  function Unassigned(memberships: set<Membership>, projectId: Uuid, itemType: ItemType, items: seq<Uuid>): set<Membership> {
    set m | m in memberships && !(m.projectId == projectId && m.itemType == itemType && m.itemId in items)
  }

  /** A replacing assignment drops the items' memberships before it finds an item foreign. */
  function AssignGroups(s: State, projectId: Uuid, itemType: Option<ItemType>, items: seq<Uuid>, groupIds: seq<Uuid>, replace: bool)
    : (State, Outcome)
  {
    var error := if ItemsError(s, projectId, itemType).Some? then ItemsError(s, projectId, itemType)
                 else GroupsError(s.groups, projectId, groupIds);
    match error
    case Some(e) => (s, Failed(e))
    case None =>
      var kept := if replace then Unassigned(s.memberships, projectId, itemType.value, items) else s.memberships;
      if ForeignItem(s, projectId, itemType.value, items) then (s.(memberships := kept), Failed(Conflict))
      else (s.(memberships := kept + Assigned(projectId, itemType.value, items, groupIds)), Done)
  }

  function RemoveGroups(s: State, projectId: Uuid, itemType: Option<ItemType>, items: seq<Uuid>, groupIds: seq<Uuid>): (State, Outcome) {
    match ItemsError(s, projectId, itemType)
    case Some(e) => (s, Failed(e))
    case None =>
      (s.(memberships := set m | m in s.memberships &&
            !(m.projectId == projectId && m.itemType == itemType.value && m.itemId in items && m.groupId in groupIds)), Done)
  }
}
