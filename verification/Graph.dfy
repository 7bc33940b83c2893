/** Reachability and cycles in a finite relation, and what replacing one node's out-edges does to them. */
module Graph {
  import opened Prelude

  /** (child, parent) pairs. */
  type Edges = set<(Uuid, Uuid)>

  ghost predicate IsPath(e: Edges, p: seq<Uuid>) {
    p != [] && forall i :: 0 <= i < |p| - 1 ==> (p[i], p[i + 1]) in e
  }

  ghost predicate Connects(e: Edges, p: seq<Uuid>, a: Uuid, b: Uuid) {
    IsPath(e, p) && p[0] == a && p[|p| - 1] == b
  }

  ghost predicate Reaches(e: Edges, a: Uuid, b: Uuid) {
    exists p :: Connects(e, p, a, b)
  }

  ghost predicate ReachedFrom(e: Edges, starts: set<Uuid>, b: Uuid) {
    exists a :: a in starts && Reaches(e, a, b)
  }

  ghost predicate Acyclic(e: Edges) {
    forall p :: IsPath(e, p) && |p| >= 2 ==> p[0] != p[|p| - 1]
  }

  /** All out-edges of g dropped, then one to each new parent. */
  function Replace(e: Edges, g: Uuid, parents: set<Uuid>): Edges {
    (set x | x in e && x.0 != g) + (set p | p in parents :: (g, p))
  }

  lemma ReachesSelf(e: Edges, a: Uuid)
    ensures Reaches(e, a, a)
  {
    assert Connects(e, [a], a, a);
  }

  lemma ReachesThen(e: Edges, a: Uuid, b: Uuid, c: Uuid)
    requires Reaches(e, a, b) && (b, c) in e
    ensures Reaches(e, a, c)
  {
    var p :| Connects(e, p, a, b);
    assert Connects(e, p + [c], a, c);
  }

  lemma ReachesByAnEdge(e: Edges, a: Uuid, b: Uuid)
    requires Reaches(e, a, b) && a != b
    ensures exists x :: x in e && x.1 == b
  {
    var p :| Connects(e, p, a, b);
    assert (p[|p| - 2], p[|p| - 1]) in e;
  }

  lemma CycleHasEdge(e: Edges)
    requires !Acyclic(e)
    ensures e != {}
  {
    var p :| IsPath(e, p) && |p| >= 2 && p[0] == p[|p| - 1];
    assert (p[0], p[1]) in e;
  }

  /** Dropping edges creates no cycle. */
  lemma FewerEdgesStayAcyclic(e: Edges, fewer: Edges)
    requires Acyclic(e) && fewer <= e
    ensures Acyclic(fewer)
  {
    forall p | IsPath(fewer, p) && |p| >= 2 ensures p[0] != p[|p| - 1] {
      assert IsPath(e, p);
    }
  }

  /** A set that contains a path's start and is closed, before g, under e contains its end, or the path meets g. */
  lemma {:induction false} ClosedUnderEdges(e: Edges, s: set<Uuid>, g: Uuid, p: seq<Uuid>)
    requires IsPath(e, p) && p[0] in s && g !in s
    requires forall x :: x in e && x.0 in s ==> x.1 in s
    ensures p[|p| - 1] != g
  {
    if |p| == 1 {
    } else {
      assert (p[0], p[1]) in e;
      ClosedUnderEdges(e, s, g, p[1..]);
    }
  }

  /** Two relations that differ only in g's out-edges have the same paths up to the first visit of g. */
  lemma {:induction false} UpToFirstVisit(e: Edges, e': Edges, g: Uuid, p: seq<Uuid>)
    requires IsPath(e, p) && p[|p| - 1] == g
    requires forall x :: x in e && x.0 != g ==> x in e'
    ensures Reaches(e', p[0], g)
  {
    if p[0] == g {
      ReachesSelf(e', g);
    } else {
      assert (p[0], p[1]) in e;
      UpToFirstVisit(e, e', g, p[1..]);
      var q :| Connects(e', q, p[1], g);
      assert Connects(e', [p[0]] + q, p[0], g);
    }
  }

  /** A path that never leaves g uses none of g's out-edges. */
  lemma AvoidsOutEdges(e: Edges, g: Uuid, parents: set<Uuid>, c: seq<Uuid>)
    requires IsPath(Replace(e, g, parents), c)
    requires forall i :: 0 <= i < |c| - 1 ==> c[i] != g
    ensures IsPath(e, c)
  {
    forall i | 0 <= i < |c| - 1 ensures (c[i], c[i + 1]) in e {
      assert (c[i], c[i + 1]) in Replace(e, g, parents);
    }
  }

  /** Giving g the parents closes a cycle exactly when some parent already reaches g. */
  lemma ReplaceIsCyclicIff(e: Edges, g: Uuid, parents: set<Uuid>)
    requires Acyclic(e)
    ensures !Acyclic(Replace(e, g, parents)) <==> ReachedFrom(e, parents, g)
  {
    var e' := Replace(e, g, parents);
    if p :| p in parents && Reaches(e, p, g) {
      var path :| Connects(e, path, p, g);
      UpToFirstVisit(e, e', g, path);
      var back :| Connects(e', back, p, g);
      assert (g, p) in e';
      assert IsPath(e', [g] + back);
    }
    if !Acyclic(e') {
      var c :| IsPath(e', c) && |c| >= 2 && c[0] == c[|c| - 1];
      if i :| 0 <= i < |c| - 1 && c[i] == g {
        RotateCycle(e', c, i);
        var r := c[i..] + c[1..i + 1];
        assert (r[0], r[1]) in e';
        assert r[1] in parents;
        UpToFirstVisit(e', e, g, r[1..]);
      } else {
        AvoidsOutEdges(e, g, parents, c);
      }
    }
  }

  lemma RotateCycle(e: Edges, c: seq<Uuid>, i: nat)
    requires IsPath(e, c) && |c| >= 2 && c[0] == c[|c| - 1] && i < |c| - 1
    ensures var r := c[i..] + c[1..i + 1]; IsPath(e, r) && |r| >= 2 && r[0] == c[i] && r[|r| - 1] == c[i]
  {
    var r := c[i..] + c[1..i + 1];
    forall k | 0 <= k < |r| - 1 ensures (r[k], r[k + 1]) in e {
      if k < |c| - i - 1 {
        assert r[k] == c[i + k] && r[k + 1] == c[i + k + 1];
      } else {
        var j := k - (|c| - i - 1);
        assert r[k] == c[j] && r[k + 1] == c[j + 1];
      }
    }
  }
}
