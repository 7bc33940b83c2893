/** The same move sent again and again after it was interrupted. */
module OrganizeRetries {
  import opened Prelude
  import opened Graph
  import opened Organize
  import opened OrganizeTheorems

  function OutEdges(edges: Edges, g: Uuid): Edges {
    set x | x in edges && x.0 == g
  }

  ghost predicate Attempt(s: State, projectId: Uuid, groupId: Uuid, parentIds: seq<Uuid>, s': State) {
    exists outcome :: MoveGroup(s, projectId, groupId, parentIds, s', outcome)
  }

  /** The states between repeated attempts of one move. */
  ghost predicate Attempts(states: seq<State>, projectId: Uuid, groupId: Uuid, parentIds: seq<Uuid>) {
    states != [] && forall i :: 0 <= i < |states| - 1 ==> Attempt(states[i], projectId, groupId, parentIds, states[i + 1])
  }

  /** s' is s less some of the group's out-edges. */
  ghost predicate Thinned(s: State, groupId: Uuid, s': State) {
    && s' == s.(edges := s'.edges) && s'.edges <= s.edges
    && forall x :: x in s.edges && x.0 != groupId ==> x in s'.edges
  }

  lemma FewerEdgesReachLess(e: Edges, fewer: Edges, starts: set<Uuid>, b: Uuid)
    requires fewer <= e && ReachedFrom(fewer, starts, b)
    ensures ReachedFrom(e, starts, b)
  {
    var a :| a in starts && Reaches(fewer, a, b);
    var p :| Connects(fewer, p, a, b);
    assert Connects(e, p, a, b);
  }

  lemma ThinnedIsAccepted(s: State, projectId: Uuid, groupId: Uuid, parentIds: seq<Uuid>, s': State)
    requires MoveError(s, projectId, groupId, parentIds) == None && Thinned(s, groupId, s')
    ensures MoveError(s', projectId, groupId, parentIds) == None
    ensures Moved(s', projectId, groupId, parentIds) == Moved(s, projectId, groupId, parentIds)
  {
    if ReachedFrom(s'.edges, SetOf(parentIds), groupId) {
      FewerEdgesReachLess(s.edges, s'.edges, SetOf(parentIds), groupId);
    }
    assert Replace(s'.edges, groupId, SetOf(parentIds)) == Replace(s.edges, groupId, SetOf(parentIds));
  }

  /** One more attempt takes one more out-edge, while there is one. */
  lemma AttemptTakesOne(s: State, projectId: Uuid, groupId: Uuid, parentIds: seq<Uuid>, s': State)
    requires MoveError(s, projectId, groupId, parentIds) == None && Attempt(s, projectId, groupId, parentIds, s')
    requires OutEdges(s.edges, groupId) != {}
    ensures Thinned(s, groupId, s') && |OutEdges(s'.edges, groupId)| == |OutEdges(s.edges, groupId)| - 1
  {
    var y :| y in OutEdges(s.edges, groupId);
    assert HasOutEdge(s.edges, groupId);
    var x :| x in s.edges && x.0 == groupId && s'.edges == s.edges - {x};
    assert OutEdges(s'.edges, groupId) == OutEdges(s.edges, groupId) - {x};
  }

  lemma {:induction false} AttemptsThin(states: seq<State>, projectId: Uuid, groupId: Uuid, parentIds: seq<Uuid>, i: nat)
    requires Attempts(states, projectId, groupId, parentIds) && MoveError(states[0], projectId, groupId, parentIds) == None
    requires i < |states| && i <= |OutEdges(states[0].edges, groupId)|
    ensures Thinned(states[0], groupId, states[i])
    ensures |OutEdges(states[i].edges, groupId)| == |OutEdges(states[0].edges, groupId)| - i
    decreases i
  {
    if i == 0 {
    } else {
      AttemptsThin(states, projectId, groupId, parentIds, i - 1);
      ThinnedIsAccepted(states[0], projectId, groupId, parentIds, states[i - 1]);
      assert Attempt(states[i - 1], projectId, groupId, parentIds, states[i]);
      AttemptTakesOne(states[i - 1], projectId, groupId, parentIds, states[i]);
    }
  }

  /** An accepted move of a group with n out-edges, sent again and again, is interrupted n times and then ends as it was meant to. */
  lemma RepeatedMoveEndsAsMeant(states: seq<State>, projectId: Uuid, groupId: Uuid, parentIds: seq<Uuid>)
    requires Attempts(states, projectId, groupId, parentIds) && MoveError(states[0], projectId, groupId, parentIds) == None
    requires |OutEdges(states[0].edges, groupId)| + 1 < |states|
    ensures states[|OutEdges(states[0].edges, groupId)| + 1] == Moved(states[0], projectId, groupId, parentIds)
  {
    var n := |OutEdges(states[0].edges, groupId)|;
    AttemptsThin(states, projectId, groupId, parentIds, n);
    ThinnedIsAccepted(states[0], projectId, groupId, parentIds, states[n]);
    assert Attempt(states[n], projectId, groupId, parentIds, states[n + 1]);
    NoOutEdges(states[n].edges, groupId);
  }

  lemma NoOutEdges(edges: Edges, g: Uuid)
    ensures HasOutEdge(edges, g) <==> OutEdges(edges, g) != {}
  {
    if x :| x in edges && x.0 == g {
      assert x in OutEdges(edges, g);
    }
  }

  lemma ThinnedDisagrees(s: State, groupId: Uuid, s': State)
    requires EdgesMirrorParents(s) && Thinned(s, groupId, s') && |OutEdges(s'.edges, groupId)| < |OutEdges(s.edges, groupId)|
    ensures !EdgesMirrorParents(s')
  {
    var before, after := OutEdges(s.edges, groupId), OutEdges(s'.edges, groupId);
    assert before != after;
    var x :| x in before && x !in after;
    assert x == (x.0, x.1) && x.1 in s'.groups[x.0].parentIds;
  }

  /** Edges and parent lists that agreed before disagree from the first attempt on and agree again exactly after the last. */
  lemma AgreementReturnsAtTheEnd(states: seq<State>, projectId: Uuid, groupId: Uuid, parentIds: seq<Uuid>, i: nat)
    requires Attempts(states, projectId, groupId, parentIds) && MoveError(states[0], projectId, groupId, parentIds) == None
    requires Inv(states[0]) && EdgesMirrorParents(states[0])
    requires i < |states| && i <= |OutEdges(states[0].edges, groupId)| + 1
    ensures EdgesMirrorParents(states[i]) <==> i == 0 || i == |OutEdges(states[0].edges, groupId)| + 1
  {
    var n := |OutEdges(states[0].edges, groupId)|;
    if i == n + 1 {
      RepeatedMoveEndsAsMeant(states, projectId, groupId, parentIds);
      MovedKeepsInv(states[0], projectId, groupId, parentIds);
    } else if i > 0 {
      AttemptsThin(states, projectId, groupId, parentIds, i);
      ThinnedDisagrees(states[0], groupId, states[i]);
    }
  }
}
