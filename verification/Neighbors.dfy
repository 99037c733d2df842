/** What a set of nodes reaches in so many steps, for any step function. */
module Reachability {
  /** One more hop from these nodes. */
  function Widen<T>(step: set<T> -> set<T>, ids: set<T>): set<T> {
    ids + step(ids)
  }

  function Within<T>(step: set<T> -> set<T>, start: T, hops: nat): set<T> {
    if hops == 0 then {start} else Widen(step, Within(step, start, hops - 1))
  }

  lemma {:induction false} WithinGrows<T>(step: set<T> -> set<T>, start: T, hops: nat, more: nat)
    requires hops <= more
    ensures Within(step, start, hops) <= Within(step, start, more)
    decreases more
  {
    if hops < more {
      WithinGrows(step, start, hops, more - 1);
    }
  }

  /** With nothing new at a level there is nothing new at any later one. */
  lemma {:induction false} WithinStops<T>(step: set<T> -> set<T>, start: T, hops: nat, more: nat)
    requires hops <= more && Widen(step, Within(step, start, hops)) == Within(step, start, hops)
    ensures Within(step, start, more) == Within(step, start, hops)
    decreases more
  {
    if hops < more {
      WithinStops(step, start, hops, more - 1);
    }
  }

  lemma SameSet<T>(a: set<T>, b: set<T>)
    requires a <= b && b - a == {}
    ensures a == b
  {
    assert b == a + (b - a);
  }

  lemma Saturated<T>(step: set<T> -> set<T>, start: T, hop: nat, hops: nat)
    requires 0 < hop < hops && Within(step, start, hop) - Within(step, start, hop - 1) == {}
    ensures Within(step, start, hops) == Within(step, start, hop)
    ensures Within(step, start, hops - 1) == Within(step, start, hop - 1)
  {
    WithinGrows(step, start, hop - 1, hop);
    SameSet(Within(step, start, hop - 1), Within(step, start, hop));
    WithinStops(step, start, hop - 1, hops);
    WithinStops(step, start, hop - 1, hops - 1);
  }
}

/** The bounded, access-filtered traversal: what it returns with no limit, what a limit still
    guarantees, and that hidden rows cannot influence it. */
module Neighbors {
  import opened Domain
  import opened Order
  import opened Tables
  import opened Access
  import Reachability

  function EdgeGuard(row: EdgeRow): Guarded {
    Guarded(row.space, row.owner, row.visibility, "")
  }

  /** Who looks, and along which predicates (none listed: along all). */
  datatype View = View(denyTypes: seq<string>, caller: Caller, predicates: seq<string>)

  predicate SeesNode(v: View, t: Tables, id: EntityId) {
    id in t.entities && CanRead(v.denyTypes, v.caller, GuardOf(t.entities[id]))
  }

  /** The edge is visible on its own, wanted, and no self-loop. */
  predicate SeesEdge(v: View, t: Tables, e: EdgeId) {
    && e in t.edges && CanReadUntyped(v.caller, EdgeGuard(t.edges[e]))
    && (v.predicates == [] || t.edges[e].predicate_ in v.predicates)
    && t.edges[e].from != t.edges[e].to
  }

  predicate Touches(t: Tables, e: EdgeId, id: EntityId) {
    e in t.edges && (t.edges[e].from == id || t.edges[e].to == id)
  }

  function FarEnd(row: EdgeRow, id: EntityId): EntityId {
    if row.to == id then row.from else row.to
  }

  /** The rows of the incident-edge query at a node. */
  function IncidentEdges(v: View, t: Tables, id: EntityId): set<EdgeId> {
    set e | e in t.edges && SeesEdge(v, t, e) && Touches(t, e, id) && SeesNode(v, t, FarEnd(t.edges[e], id))
  }

  /** Some visible edge leads from id to a visible x. */
  predicate Linked(v: View, t: Tables, id: EntityId, x: EntityId) {
    exists e | e in t.edges :: e in IncidentEdges(v, t, id) && FarEnd(t.edges[e], id) == x
  }

  predicate LinkedFrom(v: View, t: Tables, ids: set<EntityId>, x: EntityId) {
    exists id | id in ids :: Linked(v, t, id, x)
  }

  predicate LeavesFrom(v: View, t: Tables, ids: set<EntityId>, e: EdgeId) {
    exists id | id in ids :: e in IncidentEdges(v, t, id)
  }

  function StepFrom(v: View, t: Tables, ids: set<EntityId>): set<EntityId> {
    set x | x in t.entities && LinkedFrom(v, t, ids, x)
  }

  function Steps(v: View, t: Tables): set<EntityId> -> set<EntityId> {
    ids => StepFrom(v, t, ids)
  }

  /** The nodes within so many hops along visible edges through visible nodes. */
  function Within(v: View, t: Tables, start: EntityId, hops: nat): set<EntityId> {
    Reachability.Within(Steps(v, t), start, hops)
  }

  function EdgesFrom(v: View, t: Tables, ids: set<EntityId>): set<EdgeId> {
    set e | e in t.edges && LeavesFrom(v, t, ids, e)
  }

  /** One hop at least, three at most. */
  function ClampHops(maxHops: int): (hops: nat)
    ensures 1 <= hops <= 3 && (1 <= maxHops <= 3 ==> hops == maxHops)
    ensures (maxHops < 1 ==> hops == 1) && (maxHops > 3 ==> hops == 3)
  {
    if maxHops <= 0 then 1 else if maxHops > 3 then 3 else maxHops
  }

  // ---- the query and this graph speak of the same rows ----

  /** The joined row of an edge and an entity. */
  function JoinedRow(t: Tables, e: EdgeId, other: EntityId): Row
    requires e in t.edges && other in t.entities
  {
    var er, nr := t.edges[e], t.entities[other];
    (c: Col) =>
      match c
      case Col(EdgeAlias, IdCol) => e
      case Col(EdgeAlias, VisibilityCol) => VisText(er.visibility)
      case Col(EdgeAlias, SpaceCol) => er.space
      case Col(EdgeAlias, OwnerCol) => er.owner
      case Col(EdgeAlias, FromCol) => er.from
      case Col(EdgeAlias, ToCol) => er.to
      case Col(EdgeAlias, PredicateCol) => er.predicate_
      case Col(NodeAlias, IdCol) => other
      case Col(NodeAlias, VisibilityCol) => VisText(nr.visibility)
      case Col(NodeAlias, SpaceCol) => nr.space
      case Col(NodeAlias, OwnerCol) => nr.owner
      case Col(NodeAlias, TypeCol) => nr.typ
      case _ => ""
  }

  /** Both adapters' incident-edge queries select exactly the edges of IncidentEdges, each joined
      to its far end, and besides them only self-loops, which the scan skips. */
  lemma QueryIsIncident(v: View, t: Tables, node: EntityId, e: EdgeId, other: EntityId)
    requires e in t.edges && other in t.entities
    requires t.edges[e].visibility.Valid() && t.entities[other].visibility.Valid()
    ensures Incident(FilterFor(v.denyTypes, v.caller), node, v.predicates, JoinedRow(t, e, other))
              && t.edges[e].from != t.edges[e].to
            <==> e in IncidentEdges(v, t, node) && other == FarEnd(t.edges[e], node)
  {
    var row := JoinedRow(t, e, other);
    FilterIsCanRead(v.denyTypes, v.caller, EdgeGuard(t.edges[e]), EdgeAlias, row);
    FilterIsCanRead(v.denyTypes, v.caller, GuardOf(t.entities[other]), NodeAlias, row);
  }

  // ---- the traversal ----

  /** incidentVisible: the rows come in whatever order the engine returns them. */
  method IncidentVisible(v: View, t: Tables, id: EntityId) returns (edges: seq<EdgeId>)
    ensures Distinct(edges) && forall e :: e in edges <==> e in IncidentEdges(v, t, id)
  {
    edges := [];
    var left := IncidentEdges(v, t, id);
    while left != {}
      invariant left <= IncidentEdges(v, t, id) && Distinct(edges)
      invariant forall e :: e in edges <==> e in IncidentEdges(v, t, id) && e !in left
      decreases |left|
    {
      var e :| e in left;
      left := left - {e};
      edges := edges + [e];
    }
  }

  datatype Subgraph = Subgraph(entities: seq<EntityId>, edges: seq<EdgeId>)

  ghost predicate Lists<T(!new)>(xs: seq<T>, s: set<T>) {
    Distinct(xs) && forall x :: x in xs <==> x in s
  }

  /** Nothing is listed twice, everything listed is seen, and every edge joins two listed entities. */
  ghost predicate Closed(v: View, t: Tables, sub: Subgraph) {
    && Distinct(sub.entities) && Distinct(sub.edges)
    && (forall id | id in sub.entities :: SeesNode(v, t, id))
    && (forall e | e in sub.edges ::
          SeesEdge(v, t, e) && t.edges[e].from in sub.entities && t.edges[e].to in sub.entities)
  }

  /** The answer without a limit. */
  ghost predicate Complete(v: View, t: Tables, start: EntityId, hops: nat, sub: Subgraph)
    requires hops > 0
  {
    && Lists(sub.entities, Within(v, t, start, hops))
    && Lists(sub.edges, EdgesFrom(v, t, Within(v, t, start, hops - 1)))
  }

  ghost predicate AllIn(sub: Subgraph, nodes: set<EntityId>, edges: set<EdgeId>) {
    (forall id | id in sub.entities :: id in nodes) && (forall e | e in sub.edges :: e in edges)
  }

  ghost predicate PartOf(v: View, t: Tables, start: EntityId, hops: nat, sub: Subgraph)
    requires hops > 0
  {
    AllIn(sub, Within(v, t, start, hops), EdgesFrom(v, t, Within(v, t, start, hops - 1)))
  }

  predicate Joins(t: Tables, e: EdgeId, a: EntityId, b: EntityId) {
    e in t.edges && ((t.edges[e].from == a && t.edges[e].to == b) || (t.edges[e].from == b && t.edges[e].to == a))
  }

  predicate JoinedAt(t: Tables, sub: Subgraph, i: nat)
    requires i < |sub.entities|
  {
    exists e | e in sub.edges :: exists j | 0 <= j < i :: Joins(t, e, sub.entities[j], sub.entities[i])
  }

  /** Everyone but the start is joined by a listed edge to somebody listed before. */
  predicate Joined(t: Tables, sub: Subgraph) {
    forall i: nat | 0 < i < |sub.entities| :: JoinedAt(t, sub, i)
  }

  /** Nearer entities come before farther ones. */
  ghost predicate ByDistance(v: View, t: Tables, start: EntityId, sub: Subgraph) {
    forall i, j, hops: nat | 0 <= i < j < |sub.entities| && sub.entities[j] in Within(v, t, start, hops) ::
      sub.entities[i] in Within(v, t, start, hops)
  }

  /** The walk was cut while it looked at the k-th entity: of those before it every visible edge is
      listed, and no edge is listed but theirs and some of the k-th. */
  ghost predicate CutAt(v: View, t: Tables, sub: Subgraph, k: nat) {
    && 0 < k <= |sub.entities|
    && (forall i | 0 <= i < k - 1 :: forall e | e in IncidentEdges(v, t, sub.entities[i]) :: e in sub.edges)
    && (forall e | e in sub.edges :: exists i :: 0 <= i < k && e in IncidentEdges(v, t, sub.entities[i]))
  }

  /** The traversal's working variables. */
  datatype Walk = Walk(sub: Subgraph, visited: set<EntityId>, seenEdges: set<EdgeId>, next: seq<EntityId>)

  /** The two sets mirror the two lists, which hold nothing twice. */
  ghost predicate Tallied(w: Walk) {
    Lists(w.sub.entities, w.visited) && Lists(w.sub.edges, w.seenEdges)
  }

  ghost predicate Consistent(v: View, t: Tables, w: Walk) {
    Closed(v, t, w.sub) && Tallied(w) && Joined(t, w.sub)
  }

  /** Still below the limit, or only the start has been taken. */
  predicate Room(limit: int, w: Walk) {
    limit > 0 ==> |w.sub.entities| == 1 || |w.sub.entities| < limit
  }

  /** A limit below two still lets one neighbour in. */
  function MostEntities(limit: int): int {
    if limit > 2 then limit else 2
  }

  predicate Full(limit: int, w: Walk) {
    limit > 0 && |w.sub.entities| == MostEntities(limit)
  }

  /** w' extends w by exactly these nodes and edges; next gained exactly the new nodes. */
  ghost predicate Gained(w: Walk, w': Walk, nodes: set<EntityId>, edges: set<EdgeId>) {
    && w'.visited == w.visited + nodes && w'.seenEdges == w.seenEdges + edges
    && (forall id :: id in w'.next <==> id in w.next || (id in nodes && id !in w.visited))
  }

  /** w' extends w by some of these nodes and edges. */
  ghost predicate GainedSome(w: Walk, w': Walk, nodes: set<EntityId>, edges: set<EdgeId>) {
    w.visited <= w'.visited <= w.visited + nodes && w.seenEdges <= w'.seenEdges <= w.seenEdges + edges
  }

  function Elems(es: seq<EdgeId>): set<EdgeId> {
    set e | e in es
  }

  function FarEnds(t: Tables, es: seq<EdgeId>, id: EntityId): set<EntityId> {
    set e | e in es && e in t.edges :: FarEnd(t.edges[e], id)
  }

  /** One row: record the edge unless seen, and its far end unless visited. */
  function Take(w: Walk, e: EdgeId, oid: EntityId): Walk {
    if e in w.seenEdges then w
    else
      var w1 := w.(seenEdges := w.seenEdges + {e}, sub := w.sub.(edges := w.sub.edges + [e]));
      if oid in w1.visited then w1
      else w1.(visited := w1.visited + {oid}, sub := w1.sub.(entities := w1.sub.entities + [oid]),
               next := w1.next + [oid])
  }

  lemma TakeJoins(t: Tables, nid: EntityId, w: Walk, e: EdgeId)
    requires Joined(t, w.sub) && nid in w.sub.entities && e in t.edges
             && (t.edges[e].from == nid || t.edges[e].to == nid)
    ensures Joined(t, Take(w, e, FarEnd(t.edges[e], nid)).sub)
  {
    var w' := Take(w, e, FarEnd(t.edges[e], nid));
    forall i: nat | 0 < i < |w'.sub.entities| ensures JoinedAt(t, w'.sub, i) {
      if i < |w.sub.entities| {
        assert JoinedAt(t, w.sub, i);
        var g :| g in w.sub.edges && exists j | 0 <= j < i :: Joins(t, g, w.sub.entities[j], w.sub.entities[i]);
        var j :| 0 <= j < i && Joins(t, g, w.sub.entities[j], w.sub.entities[i]);
        assert g in w'.sub.edges && Joins(t, g, w'.sub.entities[j], w'.sub.entities[i]);
      } else {
        var j :| 0 <= j < |w.sub.entities| && w.sub.entities[j] == nid;
        assert e in w'.sub.edges && Joins(t, e, w'.sub.entities[j], w'.sub.entities[i]);
      }
    }
  }

  lemma TakeKeeps(v: View, t: Tables, nid: EntityId, w: Walk, e: EdgeId)
    requires Consistent(v, t, w) && nid in w.visited && e in IncidentEdges(v, t, nid)
    ensures Consistent(v, t, Take(w, e, FarEnd(t.edges[e], nid)))
    ensures FarEnd(t.edges[e], nid) in Take(w, e, FarEnd(t.edges[e], nid)).visited
  {
    var oid := FarEnd(t.edges[e], nid);
    var w' := Take(w, e, oid);
    TakeJoins(t, nid, w, e);
    forall x ensures x in w'.visited <==> x in w'.sub.entities {
      assert x in w.visited <==> x in w.sub.entities;
    }
    forall x ensures x in w'.seenEdges <==> x in w'.sub.edges {
      assert x in w.seenEdges <==> x in w.sub.edges;
    }
  }

  lemma GainedStep(w0: Walk, w: Walk, nodes: set<EntityId>, edges: set<EdgeId>, e: EdgeId, oid: EntityId)
    requires Gained(w0, w, nodes, edges) && (e in w.seenEdges ==> oid in w.visited)
    ensures Gained(w0, Take(w, e, oid), nodes + {oid}, edges + {e})
  {
  }

  /** w' lists more entities after those of w, and they are what the next level gained. */
  predicate Continues(w: Walk, w': Walk) {
    w.sub.entities <= w'.sub.entities && w'.next == w.next + w'.sub.entities[|w.sub.entities|..]
  }

  lemma ContinuesTrans(a: Walk, b: Walk, c: Walk)
    requires Continues(a, b) && Continues(b, c)
    ensures Continues(a, c)
  {
    assert c.sub.entities[|a.sub.entities|..]
      == b.sub.entities[|a.sub.entities|..] + c.sub.entities[|b.sub.entities|..];
  }

  lemma TakeContinues(w0: Walk, w: Walk, e: EdgeId, oid: EntityId)
    requires Continues(w0, w)
    ensures Continues(w0, Take(w, e, oid))
  {
    assert Continues(w, Take(w, e, oid));
    ContinuesTrans(w0, w, Take(w, e, oid));
  }

  /** One frontier node: its rows in order, skipping seen edges and visited far ends, stopping
      right after the entity that reaches the limit. */
  method Expand(v: View, t: Tables, nid: EntityId, w0: Walk, limit: int) returns (w: Walk, full: bool)
    requires Consistent(v, t, w0) && nid in w0.visited && Room(limit, w0)
    ensures Consistent(v, t, w) && Continues(w0, w)
    ensures GainedSome(w0, w, StepFrom(v, t, {nid}), IncidentEdges(v, t, nid))
    ensures full ==> Full(limit, w)
    ensures !full ==> Room(limit, w) && Gained(w0, w, StepFrom(v, t, {nid}), IncidentEdges(v, t, nid))
  {
    var rows := IncidentVisible(v, t, nid);
    w, full := w0, false;
    for i := 0 to |rows|
      invariant Consistent(v, t, w) && Room(limit, w) && nid in w.visited && Continues(w0, w)
      invariant Gained(w0, w, FarEnds(t, rows[..i], nid), Elems(rows[..i]))
    {
      var e := rows[i];
      assert e in rows && e in IncidentEdges(v, t, nid);
      var oid := FarEnd(t.edges[e], nid);
      RowTaken(v, t, nid, w0, w, rows, i);
      TakeContinues(w0, w, e, oid);
      ghost var next := Take(w, e, oid);
      if e in w.seenEdges {
        continue;
      }
      w := w.(seenEdges := w.seenEdges + {e}, sub := w.sub.(edges := w.sub.edges + [e]));
      if oid in w.visited {
        continue;
      }
      w := w.(visited := w.visited + {oid}, sub := w.sub.(entities := w.sub.entities + [oid]), next := w.next + [oid]);
      assert w == next;
      if limit > 0 && |w.sub.entities| >= limit {
        RowsOfAll(v, t, rows, i + 1, nid);
        return w, true;
      }
    }
    assert rows[..|rows|] == rows;
    RowsOfAll(v, t, rows, |rows|, nid);
  }

  /** Taking the next row keeps the walk consistent, and gains what the rows so far give. */
  lemma RowTaken(v: View, t: Tables, nid: EntityId, w0: Walk, w: Walk, rows: seq<EdgeId>, i: nat)
    requires Consistent(v, t, w) && nid in w.visited && i < |rows| && rows[i] in IncidentEdges(v, t, nid)
    requires Gained(w0, w, FarEnds(t, rows[..i], nid), Elems(rows[..i]))
    ensures var w' := Take(w, rows[i], FarEnd(t.edges[rows[i]], nid));
      Consistent(v, t, w') && Gained(w0, w', FarEnds(t, rows[..i + 1], nid), Elems(rows[..i + 1]))
  {
    var e, oid := rows[i], FarEnd(t.edges[rows[i]], nid);
    RowsSnoc(t, rows, i, nid);
    TakeKeeps(v, t, nid, w, e);
    GainedStep(w0, w, FarEnds(t, rows[..i], nid), Elems(rows[..i]), e, oid);
  }

  lemma RowsSnoc(t: Tables, rows: seq<EdgeId>, i: nat, nid: EntityId)
    requires i < |rows| && rows[i] in t.edges
    ensures FarEnds(t, rows[..i + 1], nid) == FarEnds(t, rows[..i], nid) + {FarEnd(t.edges[rows[i]], nid)}
    ensures Elems(rows[..i + 1]) == Elems(rows[..i]) + {rows[i]}
  {
    assert rows[..i + 1] == rows[..i] + [rows[i]];
  }

  lemma RowsOfAll(v: View, t: Tables, rows: seq<EdgeId>, i: nat, nid: EntityId)
    requires i <= |rows| && forall e :: e in rows <==> e in IncidentEdges(v, t, nid)
    ensures FarEnds(t, rows[..i], nid) <= StepFrom(v, t, {nid}) && Elems(rows[..i]) <= IncidentEdges(v, t, nid)
    ensures i == |rows| ==>
              FarEnds(t, rows[..i], nid) == StepFrom(v, t, {nid}) && Elems(rows[..i]) == IncidentEdges(v, t, nid)
  {
    assert forall e | e in rows[..i] :: e in rows;
    if i == |rows| {
      assert rows[..i] == rows;
    }
  }

  // ---- a whole level, and all of them ----

  lemma StepFromSnoc(v: View, t: Tables, ids: set<EntityId>, id: EntityId)
    ensures StepFrom(v, t, ids + {id}) == StepFrom(v, t, ids) + StepFrom(v, t, {id})
    ensures EdgesFrom(v, t, ids + {id}) == EdgesFrom(v, t, ids) + IncidentEdges(v, t, id)
  {
  }

  lemma StepFromUnion(v: View, t: Tables, a: set<EntityId>, b: set<EntityId>)
    ensures StepFrom(v, t, a + b) == StepFrom(v, t, a) + StepFrom(v, t, b)
    ensures EdgesFrom(v, t, a + b) == EdgesFrom(v, t, a) + EdgesFrom(v, t, b)
  {
  }

  lemma GainedTrans(a: Walk, b: Walk, c: Walk, n1: set<EntityId>, e1: set<EdgeId>, n2: set<EntityId>, e2: set<EdgeId>)
    requires Gained(a, b, n1, e1)
    ensures Gained(b, c, n2, e2) ==> Gained(a, c, n1 + n2, e1 + e2)
    ensures GainedSome(b, c, n2, e2) ==> GainedSome(a, c, n1 + n2, e1 + e2)
  {
  }

  /** What part of the frontier gained is part of what the whole frontier gains. */
  lemma LevelStopped(v: View, t: Tables, w0: Walk, w: Walk, frontier: seq<EntityId>, i: nat)
    requires i <= |frontier|
    requires GainedSome(w0, w, StepFrom(v, t, Elems(frontier[..i])), EdgesFrom(v, t, Elems(frontier[..i])))
    ensures GainedSome(w0, w, StepFrom(v, t, Elems(frontier)), EdgesFrom(v, t, Elems(frontier)))
  {
    assert Elems(frontier) == Elems(frontier[..i]) + Elems(frontier[i..]) by {
      assert frontier == frontier[..i] + frontier[i..];
    }
    StepFromUnion(v, t, Elems(frontier[..i]), Elems(frontier[i..]));
  }

  /** One more node of the frontier. */
  lemma LevelNext(v: View, t: Tables, frontier: seq<EntityId>, j: nat)
    requires j < |frontier|
    ensures StepFrom(v, t, Elems(frontier[..j + 1]))
            == StepFrom(v, t, Elems(frontier[..j])) + StepFrom(v, t, {frontier[j]})
    ensures EdgesFrom(v, t, Elems(frontier[..j + 1]))
            == EdgesFrom(v, t, Elems(frontier[..j])) + IncidentEdges(v, t, frontier[j])
  {
    assert frontier[..j + 1] == frontier[..j] + [frontier[j]];
    assert Elems(frontier[..j + 1]) == Elems(frontier[..j]) + {frontier[j]};
    StepFromSnoc(v, t, Elems(frontier[..j]), frontier[j]);
  }

  /** Between the edges of the frontier's nodes before the last one looked at, and with that one's. */
  ghost predicate LookedAt(v: View, t: Tables, frontier: seq<EntityId>, w0: Walk, w: Walk, done: nat) {
    && 0 < done <= |frontier|
    && w0.seenEdges + EdgesFrom(v, t, Elems(frontier[..done - 1])) <= w.seenEdges
    && w.seenEdges <= w0.seenEdges + EdgesFrom(v, t, Elems(frontier[..done]))
  }

  method Level(v: View, t: Tables, frontier: seq<EntityId>, w0: Walk, limit: int)
    returns (w: Walk, full: bool, ghost done: nat)
    requires Consistent(v, t, w0) && Room(limit, w0) && Elems(frontier) <= w0.visited
    ensures Consistent(v, t, w) && Continues(w0, w)
    ensures GainedSome(w0, w, StepFrom(v, t, Elems(frontier)), EdgesFrom(v, t, Elems(frontier)))
    ensures full ==> Full(limit, w) && LookedAt(v, t, frontier, w0, w, done)
    ensures !full ==> Room(limit, w) && Gained(w0, w, StepFrom(v, t, Elems(frontier)), EdgesFrom(v, t, Elems(frontier)))
  {
    w, full, done := w0, false, 0;
    for j := 0 to |frontier|
      invariant Consistent(v, t, w) && Room(limit, w) && Continues(w0, w) && w0.visited <= w.visited
      invariant Gained(w0, w, StepFrom(v, t, Elems(frontier[..j])), EdgesFrom(v, t, Elems(frontier[..j])))
    {
      ghost var before := w;
      assert frontier[j] in Elems(frontier);
      w, full := Expand(v, t, frontier[j], w, limit);
      ContinuesTrans(w0, before, w);
      LevelNext(v, t, frontier, j);
      GainedTrans(w0, before, w, StepFrom(v, t, Elems(frontier[..j])), EdgesFrom(v, t, Elems(frontier[..j])),
                  StepFrom(v, t, {frontier[j]}), IncidentEdges(v, t, frontier[j]));
      if full {
        LevelStopped(v, t, w0, w, frontier, j + 1);
        done := j + 1;
        return;
      }
    }
    assert frontier[..|frontier|] == frontier;
  }

  /** The nodes of the level before, none before the first. */
  function Inner(v: View, t: Tables, start: EntityId, hop: nat): set<EntityId> {
    if hop == 0 then {} else Within(v, t, start, hop - 1)
  }

  ghost predicate AtLevel(v: View, t: Tables, start: EntityId, hop: nat, w: Walk, frontier: set<EntityId>) {
    && w.visited == Within(v, t, start, hop)
    && w.seenEdges == EdgesFrom(v, t, Inner(v, t, start, hop))
    && frontier == Within(v, t, start, hop) - Inner(v, t, start, hop)
  }

  lemma LevelAdvances(v: View, t: Tables, start: EntityId, hop: nat, w: Walk, w': Walk, frontier: set<EntityId>)
    requires AtLevel(v, t, start, hop, w, frontier) && w.next == []
    ensures Gained(w, w', StepFrom(v, t, frontier), EdgesFrom(v, t, frontier))
            ==> AtLevel(v, t, start, hop + 1, w', Elems(w'.next))
    ensures GainedSome(w, w', StepFrom(v, t, frontier), EdgesFrom(v, t, frontier)) ==>
      w'.visited <= Within(v, t, start, hop + 1) && w'.seenEdges <= EdgesFrom(v, t, Within(v, t, start, hop))
  {
    var inner := Inner(v, t, start, hop);
    assert Within(v, t, start, hop) == inner + frontier by {
      if hop > 0 {
        Reachability.WithinGrows(Steps(v, t), start, hop - 1, hop);
      }
    }
    StepFromUnion(v, t, inner, frontier);
    assert StepFrom(v, t, inner) <= Within(v, t, start, hop);
  }

  lemma EdgesFromMono(v: View, t: Tables, a: set<EntityId>, b: set<EntityId>)
    requires a <= b
    ensures EdgesFrom(v, t, a) <= EdgesFrom(v, t, b)
  {
  }

  lemma GrowsTo(v: View, t: Tables, start: EntityId, hop: nat, hops: nat)
    requires hop < hops
    ensures Within(v, t, start, hop + 1) <= Within(v, t, start, hops)
    ensures EdgesFrom(v, t, Within(v, t, start, hop)) <= EdgesFrom(v, t, Within(v, t, start, hops - 1))
  {
    Reachability.WithinGrows(Steps(v, t), start, hop + 1, hops);
    Reachability.WithinGrows(Steps(v, t), start, hop, hops - 1);
    EdgesFromMono(v, t, Within(v, t, start, hop), Within(v, t, start, hops - 1));
  }

  lemma IsPart(w: Walk, a: set<EntityId>, a': set<EntityId>, b: set<EdgeId>, b': set<EdgeId>)
    requires Tallied(w) && w.visited <= a <= a' && w.seenEdges <= b <= b'
    ensures AllIn(w.sub, a', b')
  {
  }

  lemma StoppedInside(v: View, t: Tables, start: EntityId, hop: nat, hops: nat, w: Walk)
    requires hop < hops && Tallied(w)
    requires w.visited <= Within(v, t, start, hop + 1) && w.seenEdges <= EdgesFrom(v, t, Within(v, t, start, hop))
    ensures PartOf(v, t, start, hops, w.sub)
  {
    GrowsTo(v, t, start, hop, hops);
    IsPart(w, Within(v, t, start, hop + 1), Within(v, t, start, hops),
           EdgesFrom(v, t, Within(v, t, start, hop)), EdgesFrom(v, t, Within(v, t, start, hops - 1)));
  }

  lemma FirstFrontier(v: View, t: Tables, start: EntityId, hop: nat, w: Walk, frontier: seq<EntityId>)
    requires AtLevel(v, t, start, hop, w, Elems(frontier))
    ensures hop == 0 ==> frontier != []
  {
    if hop == 0 {
      assert start in Elems(frontier);
    }
  }

  lemma LastLevel(v: View, t: Tables, start: EntityId, hop: nat, hops: nat, w: Walk, frontier: seq<EntityId>)
    requires hop <= hops && hops > 0 && AtLevel(v, t, start, hop, w, Elems(frontier))
    requires hop == hops || frontier == []
    ensures w.visited == Within(v, t, start, hops) && w.seenEdges == EdgesFrom(v, t, Within(v, t, start, hops - 1))
  {
    FirstFrontier(v, t, start, hop, w, frontier);
    if hop < hops {
      assert Elems(frontier) == {};
      Reachability.Saturated(Steps(v, t), start, hop, hops);
    }
  }

  lemma LevelsDone(v: View, t: Tables, start: EntityId, hop: nat, hops: nat, w: Walk, frontier: seq<EntityId>)
    requires hop <= hops && hops > 0 && Tallied(w) && AtLevel(v, t, start, hop, w, Elems(frontier))
    requires hop == hops || frontier == []
    ensures Complete(v, t, start, hops, w.sub) && PartOf(v, t, start, hops, w.sub)
  {
    LastLevel(v, t, start, hop, hops, w, frontier);
    IsPart(w, w.visited, w.visited, w.seenEdges, w.seenEdges);
  }

  lemma NewIsFarther(v: View, t: Tables, start: EntityId, hop: nat, x: EntityId, hops: nat)
    requires x !in Within(v, t, start, hop) && x in Within(v, t, start, hops)
    ensures hop < hops && Within(v, t, start, hop + 1) <= Within(v, t, start, hops)
  {
    if hops <= hop {
      Reachability.WithinGrows(Steps(v, t), start, hops, hop);
    }
    Reachability.WithinGrows(Steps(v, t), start, hop + 1, hops);
  }

  lemma NewIsNew(a: seq<EntityId>, b: seq<EntityId>, j: nat)
    requires a <= b && Distinct(b) && |a| <= j < |b|
    ensures b[j] !in a
  {
    assert forall m | 0 <= m < |a| :: a[m] == b[m] != b[j];
  }

  /** What the next level adds is farther than everything before it. */
  lemma FartherLast(v: View, t: Tables, start: EntityId, hop: nat, w: Walk, w': Walk)
    requires Tallied(w) && Tallied(w') && w.visited == Within(v, t, start, hop)
    requires ByDistance(v, t, start, w.sub)
    requires w.sub.entities <= w'.sub.entities && w'.visited <= Within(v, t, start, hop + 1)
    ensures ByDistance(v, t, start, w'.sub)
  {
    var a, b := w.sub.entities, w'.sub.entities;
    forall i, j, hops: nat | 0 <= i < j < |b| && b[j] in Within(v, t, start, hops)
      ensures b[i] in Within(v, t, start, hops)
    {
      if j < |a| {
        assert a[i] == b[i] && a[j] == b[j];
      } else {
        NewIsNew(a, b, j);
        NewIsFarther(v, t, start, hop, b[j], hops);
        assert b[i] in b && b[i] in w'.visited;
      }
    }
  }

  /** The frontier is the last stretch of the list, after the nodes looked at on earlier levels. */
  ghost predicate Lined(v: View, t: Tables, start: EntityId, hop: nat, w: Walk, frontier: seq<EntityId>, before: nat) {
    && before <= |w.sub.entities| && frontier == w.sub.entities[before..]
    && Elems(w.sub.entities[..before]) == Inner(v, t, start, hop)
  }

  lemma NextLined(v: View, t: Tables, start: EntityId, hop: nat, w: Walk, w': Walk)
    requires Tallied(w) && w.visited == Within(v, t, start, hop) && w.next == [] && Continues(w, w')
    ensures Lined(v, t, start, hop + 1, w', w'.next, |w.sub.entities|)
  {
    assert w'.sub.entities[..|w.sub.entities|] == w.sub.entities;
    assert Elems(w.sub.entities) == w.visited;
  }

  lemma ElemsSplit(xs: seq<EntityId>, before: nat, n: nat)
    requires before + n <= |xs|
    ensures Elems(xs[..before + n]) == Elems(xs[..before]) + Elems(xs[before..][..n])
  {
    assert xs[..before + n] == xs[..before] + xs[before..][..n];
  }

  /** The edges seen so far belong to the nodes looked at so far. */
  lemma CutThere(
    v: View, t: Tables, start: EntityId, hop: nat, w: Walk, w': Walk, frontier: seq<EntityId>, before: nat, done: nat)
    requires AtLevel(v, t, start, hop, w, Elems(frontier)) && Lined(v, t, start, hop, w, frontier, before)
    requires Tallied(w') && Continues(w, w') && LookedAt(v, t, frontier, w, w', done)
    ensures CutAt(v, t, w'.sub, before + done)
  {
    var a, b, k := w.sub.entities, w'.sub.entities, before + done;
    ElemsSplit(a, before, done - 1);
    ElemsSplit(a, before, done);
    assert a[..k] == b[..k] && a[..k - 1] == b[..k - 1];
    StepFromUnion(v, t, Inner(v, t, start, hop), Elems(frontier[..done - 1]));
    StepFromUnion(v, t, Inner(v, t, start, hop), Elems(frontier[..done]));
    CutBetween(v, t, w', k);
  }

  lemma CutBetween(v: View, t: Tables, w: Walk, k: nat)
    requires Tallied(w) && 0 < k <= |w.sub.entities|
    requires EdgesFrom(v, t, Elems(w.sub.entities[..k - 1])) <= w.seenEdges
    requires w.seenEdges <= EdgesFrom(v, t, Elems(w.sub.entities[..k]))
    ensures CutAt(v, t, w.sub, k)
  {
    var xs := w.sub.entities;
    forall i | 0 <= i < k - 1 ensures forall e | e in IncidentEdges(v, t, xs[i]) :: e in w.sub.edges {
      assert xs[..k - 1][i] == xs[i] && xs[i] in Elems(xs[..k - 1]);
      assert forall e | e in IncidentEdges(v, t, xs[i]) :: LeavesFrom(v, t, Elems(xs[..k - 1]), e);
    }
    forall e | e in w.sub.edges ensures exists i :: 0 <= i < k && e in IncidentEdges(v, t, xs[i]) {
      assert LeavesFrom(v, t, Elems(xs[..k]), e);
      var id :| id in Elems(xs[..k]) && e in IncidentEdges(v, t, id);
      var i :| 0 <= i < k && xs[..k][i] == id;
      assert xs[i] == id;
    }
  }

  /** Where the walk stands between two levels. */
  ghost predicate Between(v: View, t: Tables, start: EntityId, hop: nat, w: Walk, frontier: seq<EntityId>, inner: nat) {
    && AtLevel(v, t, start, hop, w, Elems(frontier)) && Lined(v, t, start, hop, w, frontier, inner)
    && ByDistance(v, t, start, w.sub)
  }

  lemma NextBetween(
    v: View, t: Tables, start: EntityId, hop: nat, w: Walk, w': Walk, frontier: seq<EntityId>, inner: nat)
    requires Between(v, t, start, hop, w, frontier, inner) && Tallied(w) && Tallied(w') && w.next == []
    requires Continues(w, w')
    requires Gained(w, w', StepFrom(v, t, Elems(frontier)), EdgesFrom(v, t, Elems(frontier)))
    ensures Between(v, t, start, hop + 1, w', w'.next, |w.sub.entities|)
  {
    LevelAdvances(v, t, start, hop, w, w', Elems(frontier));
    FartherLast(v, t, start, hop, w, w');
    NextLined(v, t, start, hop, w, w');
  }

  lemma Stopped(
    v: View, t: Tables, start: EntityId, hop: nat, hops: nat, w: Walk, w': Walk, frontier: seq<EntityId>, inner: nat,
    done: nat)
    requires hop < hops && Between(v, t, start, hop, w, frontier, inner) && Tallied(w) && Tallied(w') && w.next == []
    requires Continues(w, w') && LookedAt(v, t, frontier, w, w', done)
    requires GainedSome(w, w', StepFrom(v, t, Elems(frontier)), EdgesFrom(v, t, Elems(frontier)))
    ensures PartOf(v, t, start, hops, w'.sub) && ByDistance(v, t, start, w'.sub) && exists k :: CutAt(v, t, w'.sub, k)
  {
    LevelAdvances(v, t, start, hop, w, w', Elems(frontier));
    FartherLast(v, t, start, hop, w, w');
    StoppedInside(v, t, start, hop, hops, w');
    CutThere(v, t, start, hop, w, w', frontier, inner, done);
  }

  /** All within reach; or, under a limit, just as many entities as it lets in, the walk having been
      cut while it looked at one of them. Either way a closed part of what is in reach, the start and
      then nearer entities first, everyone joined to somebody listed before. */
  ghost predicate Answers(v: View, t: Tables, start: EntityId, hops: nat, limit: int, sub: Subgraph)
    requires hops > 0
  {
    && Closed(v, t, sub) && |sub.entities| > 0 && sub.entities[0] == start
    && PartOf(v, t, start, hops, sub) && Joined(t, sub) && ByDistance(v, t, start, sub)
    && (limit > 0 ==> |sub.entities| <= MostEntities(limit))
    && (|| Complete(v, t, start, hops, sub)
        || (limit > 0 && |sub.entities| == MostEntities(limit) && exists k :: CutAt(v, t, sub, k)))
  }

  /** Between two levels: sound, begun at the start, and not full. */
  ghost predicate Underway(
    v: View, t: Tables, start: EntityId, hop: nat, limit: int, w: Walk, frontier: seq<EntityId>, inner: nat)
  {
    && Consistent(v, t, w) && Room(limit, w) && |w.sub.entities| > 0 && w.sub.entities[0] == start
    && Between(v, t, start, hop, w, frontier, inner)
  }

  lemma StartUnderway(v: View, t: Tables, start: EntityId, limit: int)
    requires SeesNode(v, t, start)
    ensures Underway(v, t, start, 0, limit, Walk(Subgraph([start], []), {start}, {}, []), [start], 0)
  {
    assert EdgesFrom(v, t, {}) == {};
  }

  lemma ForgetNext(
    v: View, t: Tables, start: EntityId, hop: nat, limit: int, w: Walk, frontier: seq<EntityId>, inner: nat)
    requires Underway(v, t, start, hop, limit, w, frontier, inner)
    ensures Underway(v, t, start, hop, limit, w.(next := []), frontier, inner) && Elems(frontier) <= w.visited
  {
  }

  lemma NextUnderway(
    v: View, t: Tables, start: EntityId, hop: nat, limit: int, w: Walk, w': Walk, frontier: seq<EntityId>, inner: nat)
    requires Underway(v, t, start, hop, limit, w, frontier, inner) && w.next == []
    requires Consistent(v, t, w') && Room(limit, w') && Continues(w, w')
    requires Gained(w, w', StepFrom(v, t, Elems(frontier)), EdgesFrom(v, t, Elems(frontier)))
    ensures Underway(v, t, start, hop + 1, limit, w', w'.next, |w.sub.entities|)
  {
    NextBetween(v, t, start, hop, w, w', frontier, inner);
  }

  lemma StoppedAnswers(
    v: View, t: Tables, start: EntityId, hop: nat, hops: nat, limit: int, w: Walk, w': Walk, frontier: seq<EntityId>,
    inner: nat, done: nat)
    requires hop < hops && Underway(v, t, start, hop, limit, w, frontier, inner) && w.next == []
    requires Consistent(v, t, w') && Continues(w, w') && Full(limit, w') && LookedAt(v, t, frontier, w, w', done)
    requires GainedSome(w, w', StepFrom(v, t, Elems(frontier)), EdgesFrom(v, t, Elems(frontier)))
    ensures Answers(v, t, start, hops, limit, w'.sub)
  {
    Stopped(v, t, start, hop, hops, w, w', frontier, inner, done);
  }

  lemma DoneAnswers(
    v: View, t: Tables, start: EntityId, hop: nat, hops: nat, limit: int, w: Walk, frontier: seq<EntityId>, inner: nat)
    requires hop <= hops && hops > 0 && (hop == hops || frontier == [])
    requires Underway(v, t, start, hop, limit, w, frontier, inner)
    ensures Answers(v, t, start, hops, limit, w.sub)
  {
    LevelsDone(v, t, start, hop, hops, w, frontier);
  }

  /** Level after level, to the last hop, an empty frontier or the limit. */
  method Levels(v: View, t: Tables, start: EntityId, hops: nat, limit: int) returns (sub: Subgraph)
    requires SeesNode(v, t, start) && hops > 0
    ensures Answers(v, t, start, hops, limit, sub)
  {
    var w := Walk(Subgraph([start], []), {start}, {}, []);
    var frontier := [start];
    var hop := 0;
    ghost var inner: nat := 0;
    StartUnderway(v, t, start, limit);
    while hop < hops && |frontier| > 0
      invariant hop <= hops && Underway(v, t, start, hop, limit, w, frontier, inner)
      decreases hops - hop
    {
      ForgetNext(v, t, start, hop, limit, w, frontier, inner);
      ghost var before := w.(next := []);
      var full: bool;
      ghost var done: nat;
      w, full, done := Level(v, t, frontier, w.(next := []), limit);
      if full {
        StoppedAnswers(v, t, start, hop, hops, limit, before, w, frontier, inner, done);
        return w.sub;
      }
      NextUnderway(v, t, start, hop, limit, before, w, frontier, inner);
      frontier, inner := w.next, |before.sub.entities|;
      hop := hop + 1;
    }
    DoneAnswers(v, t, start, hop, hops, limit, w, frontier, inner);
    sub := w.sub;
  }

  /** Neighbors. */
  method Traverse(v: View, t: Tables, start: EntityId, maxHops: int, limit: int) returns (r: Option<Subgraph>)
    ensures r.None? <==> !SeesNode(v, t, start)
    ensures r.Some? ==> Answers(v, t, start, ClampHops(maxHops), limit, r.value)
  {
    var hops := maxHops;
    if hops <= 0 {
      hops := 1;
    }
    if hops > 3 {
      hops := 3;
    }
    if !SeesNode(v, t, start) {
      return None;
    }
    var sub := Levels(v, t, start, hops, limit);
    r := Some(sub);
  }

  // ---- what is hidden cannot matter ----

  /** The two stores hold the same visible nodes and the same visible edges between them. */
  ghost predicate SameVisiblePart(v: View, a: Tables, b: Tables) {
    && (forall id :: SeesNode(v, a, id) <==> SeesNode(v, b, id))
    && (forall e :: (SeesEdge(v, a, e) && SeesNode(v, a, a.edges[e].from) && SeesNode(v, a, a.edges[e].to))
              <==> (SeesEdge(v, b, e) && SeesNode(v, b, b.edges[e].from) && SeesNode(v, b, b.edges[e].to)))
    && (forall e | SeesEdge(v, a, e) && SeesNode(v, a, a.edges[e].from) && SeesNode(v, a, a.edges[e].to) ::
          a.edges[e].from == b.edges[e].from && a.edges[e].to == b.edges[e].to)
  }

  lemma SameIncident(v: View, a: Tables, b: Tables, id: EntityId)
    requires SameVisiblePart(v, a, b) && SeesNode(v, a, id)
    ensures IncidentEdges(v, a, id) == IncidentEdges(v, b, id)
    ensures forall e | e in IncidentEdges(v, a, id) :: FarEnd(a.edges[e], id) == FarEnd(b.edges[e], id)
  {
    forall e ensures e in IncidentEdges(v, a, id) <==> e in IncidentEdges(v, b, id) {
      if e in IncidentEdges(v, a, id) {
        assert SeesEdge(v, a, e) && SeesNode(v, a, a.edges[e].from) && SeesNode(v, a, a.edges[e].to);
      }
      if e in IncidentEdges(v, b, id) {
        assert SeesEdge(v, b, e) && SeesNode(v, b, b.edges[e].from) && SeesNode(v, b, b.edges[e].to);
      }
    }
    forall e | e in IncidentEdges(v, a, id) ensures FarEnd(a.edges[e], id) == FarEnd(b.edges[e], id) {
      assert SeesEdge(v, a, e) && SeesNode(v, a, a.edges[e].from) && SeesNode(v, a, a.edges[e].to);
    }
  }

  /** Stores that agree on what the caller may see give the same answer, whatever they hide. */
  lemma {:induction false} HiddenPartIrrelevant(v: View, a: Tables, b: Tables, start: EntityId, hops: nat)
    requires SameVisiblePart(v, a, b) && SeesNode(v, a, start)
    ensures Within(v, a, start, hops) == Within(v, b, start, hops)
    ensures EdgesFrom(v, a, Within(v, a, start, hops)) == EdgesFrom(v, b, Within(v, b, start, hops))
    ensures forall id | id in Within(v, a, start, hops) :: SeesNode(v, a, id)
  {
    if hops > 0 {
      HiddenPartIrrelevant(v, a, b, start, hops - 1);
      SameSteps(v, a, b, Within(v, a, start, hops - 1));
    }
    SameSteps(v, a, b, Within(v, a, start, hops));
  }

  lemma SameSteps(v: View, a: Tables, b: Tables, ids: set<EntityId>)
    requires SameVisiblePart(v, a, b) && forall id | id in ids :: SeesNode(v, a, id)
    ensures StepFrom(v, a, ids) == StepFrom(v, b, ids) && EdgesFrom(v, a, ids) == EdgesFrom(v, b, ids)
    ensures forall id | id in StepFrom(v, a, ids) :: SeesNode(v, a, id)
  {
    forall id | id in ids
      ensures IncidentEdges(v, a, id) == IncidentEdges(v, b, id)
      ensures forall e | e in IncidentEdges(v, a, id) :: FarEnd(a.edges[e], id) == FarEnd(b.edges[e], id)
    {
      SameIncident(v, a, b, id);
    }
  }
}
