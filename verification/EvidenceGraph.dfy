/** When the decision graph of a high-risk run is complete: the loops that decide it, proved against reachability. */
module EvidenceGraph {
  import opened Outcomes
  import opened EvidenceSpec

  datatype Node = Node(id: string, typ: string)

  datatype Edge = Edge(src: string, dst: string)

  const DECISION_LIKE := ["decision", "release", "schedule", "approval"]
  const REQUIRED := ["context", "policy", "approval", "schedule", "release", "tool"]

  // ----- What it means -----

  ghost predicate IsCause(edges: seq<Edge>, x: string, parent: string) {
    parent != "" && Edge(parent, x) in edges
  }

  ghost predicate Hop(edges: seq<Edge>, p: seq<string>, i: nat)
    requires i + 1 < |p|
  {
    IsCause(edges, p[i], p[i + 1])
  }

  /** `p` leads from its first node to one of its causes, edge by edge backwards; a blank cause is never followed. */
  ghost predicate CausePath(edges: seq<Edge>, p: seq<string>) {
    p != [] && forall i: nat | i + 1 < |p| :: Hop(edges, p, i)
  }

  /** `x` is `target` or a cause of it, near or far. */
  ghost predicate Causes(edges: seq<Edge>, target: string, x: string) {
    exists p: seq<string> :: CausePath(edges, p) && p[0] == target && p[|p| - 1] == x
  }

  predicate IsDecision(nodes: seq<Node>, id: string) {
    exists i :: 0 <= i < |nodes| && nodes[i].id == id && nodes[i].typ in DECISION_LIKE
  }

  /** A decision that leads to no decision. */
  predicate IsSink(nodes: seq<Node>, edges: seq<Edge>, id: string) {
    IsDecision(nodes, id) && forall i :: 0 <= i < |edges| ==> !(edges[i].src == id && IsDecision(nodes, edges[i].dst))
  }

  ghost predicate OnlySink(nodes: seq<Node>, edges: seq<Edge>, id: string) {
    IsSink(nodes, edges, id) && forall other :: IsSink(nodes, edges, other) ==> other == id
  }

  /** The type noted last for a node id. */
  function TypeOf(nodes: seq<Node>, id: string): Option<string> {
    if nodes == [] then None
    else if nodes[|nodes| - 1].id == id then Some(nodes[|nodes| - 1].typ)
    else TypeOf(nodes[..|nodes| - 1], id)
  }

  predicate SeenType(nodes: seq<Node>, typ: string) {
    exists i :: 0 <= i < |nodes| && nodes[i].typ == typ
  }

  function ChildOf(stableId: Event -> string, e: Event): string {
    if e.payload.node == "" then stableId(e) else e.payload.node
  }

  ghost predicate ParentsPresent(edges: seq<Edge>, stableId: Event -> string, events: seq<Event>) {
    forall i, j :: 0 <= i < |events| && 0 <= j < |events[i].payload.parents| ==>
      Edge(events[i].payload.parents[j], ChildOf(stableId, events[i])) in edges
  }

  ghost predicate TypeReaches(nodes: seq<Node>, edges: seq<Edge>, final: string, typ: string) {
    exists x :: Causes(edges, final, x) && TypeOf(nodes, x) == Some(typ)
  }

  /** There are nodes and edges, one final decision, every declared parent edge, and each required type seen leads to that decision. */
  ghost predicate Complete(nodes: seq<Node>, edges: seq<Edge>, stableId: Event -> string, events: seq<Event>) {
    && nodes != [] && edges != []
    && ParentsPresent(edges, stableId, events)
    && exists final :: OnlySink(nodes, edges, final) &&
         forall t :: t in REQUIRED && SeenType(nodes, t) ==> TypeReaches(nodes, edges, final, t)
  }

  // ----- The final decision -----

  method DecisionIds(nodes: seq<Node>) returns (ids: set<string>)
    ensures forall id :: id in ids <==> IsDecision(nodes, id)
  {
    ids := {};
    for i := 0 to |nodes|
      invariant forall id :: id in ids <==> exists n :: 0 <= n < i && nodes[n].id == id && nodes[n].typ in DECISION_LIKE
    {
      if nodes[i].typ in DECISION_LIKE { ids := ids + {nodes[i].id}; }
    }
  }

  method SelectFinalDecisionNode(nodes: seq<Node>, edges: seq<Edge>) returns (final: Option<string>)
    ensures final.Some? ==> OnlySink(nodes, edges, final.value)
    ensures final.None? ==> forall id :: !OnlySink(nodes, edges, id)
  {
    hide IsDecision;
    var decisions := DecisionIds(nodes);
    var leading: set<string> := {};
    for i := 0 to |edges|
      invariant forall id :: id in leading <==> exists n :: 0 <= n < i && edges[n].src == id && id in decisions && edges[n].dst in decisions
    {
      if edges[i].src in decisions && edges[i].dst in decisions { leading := leading + {edges[i].src}; }
    }
    var sinks := decisions - leading;
    assert forall id :: id in sinks <==> IsSink(nodes, edges, id);
    if sinks == {} { return None; }
    var id :| id in sinks;
    if sinks - {id} != {} {
      var other :| other in sinks - {id};
      assert other in sinks && other != id;
      return None;
    }
    return Some(id);
  }

  // ----- The ancestors -----

  lemma CausesItself(edges: seq<Edge>, x: string)
    ensures Causes(edges, x, x)
  {
    assert CausePath(edges, [x]);
  }

  lemma CausesStep(edges: seq<Edge>, target: string, x: string, parent: string)
    requires Causes(edges, target, x) && IsCause(edges, x, parent)
    ensures Causes(edges, target, parent)
  {
    var p :| CausePath(edges, p) && p[0] == target && p[|p| - 1] == x;
    var q := p + [parent];
    forall i: nat | i + 1 < |q| ensures Hop(edges, q, i) {
      if i + 1 < |p| { assert Hop(edges, p, i); }
    }
    assert CausePath(edges, q) && q[0] == target && q[|q| - 1] == parent;
  }

  /** A set that holds the target and the causes of all its members holds everything the target goes back to. */
  lemma {:induction false} ClosedHoldsAll(edges: seq<Edge>, target: string, closed: set<string>, p: seq<string>)
    requires target in closed && (forall x, parent :: x in closed && IsCause(edges, x, parent) ==> parent in closed)
    requires CausePath(edges, p) && p[0] == target
    ensures p[|p| - 1] in closed
  {
    if |p| > 1 {
      var q := p[..|p| - 1];
      forall i: nat | i + 1 < |q| ensures Hop(edges, q, i) { assert Hop(edges, p, i); }
      ClosedHoldsAll(edges, target, closed, q);
      assert Hop(edges, p, |p| - 2);
    }
  }

  /**
   * What one final decision means where causes come before what they cause: every decision of the run led to it, through
   * whatever came between.
   */
  lemma {:induction false} EveryDecisionLeads(nodes: seq<Node>, edges: seq<Edge>, rank: string -> int, top: int, final: string, d: string)
    requires forall i :: 0 <= i < |edges| ==> rank(edges[i].src) < rank(edges[i].dst) <= top
    requires OnlySink(nodes, edges, final) && IsDecision(nodes, d) && forall i :: 0 <= i < |nodes| ==> nodes[i].id != ""
    ensures Causes(edges, final, d)
    decreases top - rank(d)
  {
    hide Causes;
    if d == final {
      CausesItself(edges, d);
    } else {
      assert !IsSink(nodes, edges, d);
      var i :| 0 <= i < |edges| && edges[i].src == d && IsDecision(nodes, edges[i].dst);
      EveryDecisionLeads(nodes, edges, rank, top, final, edges[i].dst);
      assert edges[i] == Edge(d, edges[i].dst);
      CausesStep(edges, final, edges[i].dst, d);
    }
  }

  function Sources(edges: seq<Edge>): set<string> {
    set i | 0 <= i < |edges| :: edges[i].src
  }

  /** Who points to each node, in the order of the edges. */
  method Incoming(edges: seq<Edge>) returns (incoming: map<string, seq<string>>)
    ensures forall x, parent :: Edge(parent, x) in edges <==> x in incoming && parent in incoming[x]
  {
    incoming := map[];
    for i := 0 to |edges|
      invariant forall x, parent :: Edge(parent, x) in edges[..i] <==> x in incoming && parent in incoming[x]
    {
      var e := edges[i];
      assert edges[..i + 1] == edges[..i] + [e];
      incoming := incoming[e.dst := (if e.dst in incoming then incoming[e.dst] else []) + [e.src]];
    }
    assert edges[..|edges|] == edges;
  }

  /** The stack search ends with exactly the node and its causes. */
  method AncestorClosure(edges: seq<Edge>, final: string) returns (visited: set<string>)
    ensures forall x :: x in visited <==> Causes(edges, final, x)
  {
    hide Causes;
    var incoming := Incoming(edges);
    CausesItself(edges, final);
    visited := {final};
    var stack := [final];
    while stack != []
      invariant final in visited && (forall x :: x in stack ==> x in visited)
      invariant forall x :: x in visited ==> Causes(edges, final, x)
      invariant forall x, parent :: x in visited && x !in stack && IsCause(edges, x, parent) ==> parent in visited
      invariant visited <= Sources(edges) + {final}
      decreases |Sources(edges) + {final} - visited|, |stack|
    {
      var cur := stack[|stack| - 1];
      var rest := stack[..|stack| - 1];
      assert stack == rest + [cur];
      visited, stack := VisitParents(edges, final, if cur in incoming then incoming[cur] else [], cur, visited, rest);
    }
    forall x ensures x in visited <==> Causes(edges, final, x) {
      if Causes(edges, final, x) { CausesInside(edges, final, visited, x); }
    }
  }

  lemma CausesInside(edges: seq<Edge>, target: string, closed: set<string>, x: string)
    requires target in closed && (forall y, parent :: y in closed && IsCause(edges, y, parent) ==> parent in closed)
    requires Causes(edges, target, x)
    ensures x in closed
  {
    var p :| CausePath(edges, p) && p[0] == target && p[|p| - 1] == x;
    ClosedHoldsAll(edges, target, closed, p);
  }

  /** The parents of the node on top that were not met before are marked and pushed. */
  method VisitParents(edges: seq<Edge>, ghost final: string, parents: seq<string>, cur: string, seen: set<string>, rest: seq<string>)
    returns (visited: set<string>, stack: seq<string>)
    requires cur in seen && (forall x :: x in rest ==> x in seen) && seen <= Sources(edges) + {final}
    requires forall x :: x in seen ==> Causes(edges, final, x)
    requires forall x, parent :: x in seen && x !in rest && x != cur && IsCause(edges, x, parent) ==> parent in seen
    requires forall parent :: Edge(parent, cur) in edges <==> parent in parents
    ensures seen <= visited <= Sources(edges) + {final} && (forall x :: x in stack ==> x in visited)
    ensures forall x :: x in visited ==> Causes(edges, final, x)
    ensures forall x, parent :: x in visited && x !in stack && IsCause(edges, x, parent) ==> parent in visited
    ensures |Sources(edges) + {final} - visited| < |Sources(edges) + {final} - seen| || (visited == seen && stack == rest)
  {
    hide Causes;
    visited, stack := seen, rest;
    for i := 0 to |parents|
      invariant seen <= visited <= Sources(edges) + {final} && (forall x :: x in stack ==> x in visited) && rest <= stack
      invariant forall x :: x in visited ==> Causes(edges, final, x)
      invariant forall x :: x in visited && x !in seen ==> x in stack
      invariant forall n :: 0 <= n < i && parents[n] != "" ==> parents[n] in visited
      invariant |Sources(edges) + {final} - visited| < |Sources(edges) + {final} - seen| || (visited == seen && stack == rest)
    {
      var parent := parents[i];
      if parent != "" && parent !in visited {
        assert Edge(parent, cur) in edges;
        CausesStep(edges, final, cur, parent);
        SourceOf(edges, parent, cur);
        ghost var left := Sources(edges) + {final} - visited;
        visited := visited + {parent};
        assert Sources(edges) + {final} - visited == left - {parent};
        stack := stack + [parent];
      }
    }
    forall x, parent | x in visited && x !in stack && IsCause(edges, x, parent) ensures parent in visited {
      if x == cur { assert parent in parents; }
    }
  }

  lemma SourceOf(edges: seq<Edge>, parent: string, x: string)
    requires Edge(parent, x) in edges
    ensures parent in Sources(edges)
  {
    var i :| 0 <= i < |edges| && edges[i] == Edge(parent, x);
    assert edges[i].src == parent;
  }

  // ----- The checks around it -----

  method ParentEdgesPresent(edges: seq<Edge>, stableId: Event -> string, events: seq<Event>) returns (ok: bool)
    ensures ok == ParentsPresent(edges, stableId, events)
  {
    var edgeSet := set i | 0 <= i < |edges| :: edges[i];
    for i := 0 to |events|
      invariant forall n, j :: 0 <= n < i && 0 <= j < |events[n].payload.parents| ==>
        Edge(events[n].payload.parents[j], ChildOf(stableId, events[n])) in edges
    {
      var parents, child := events[i].payload.parents, ChildOf(stableId, events[i]);
      for j := 0 to |parents|
        invariant forall m :: 0 <= m < j ==> Edge(parents[m], child) in edges
      {
        if Edge(parents[j], child) !in edgeSet {
          assert Edge(events[i].payload.parents[j], ChildOf(stableId, events[i])) !in edges;
          return false;
        }
      }
    }
    return true;
  }

  method TypesById(nodes: seq<Node>) returns (types: map<string, string>)
    ensures forall id :: TypeOf(nodes, id) == if id in types then Some(types[id]) else None
  {
    types := map[];
    assert nodes[..0] == [];
    for i := 0 to |nodes|
      invariant forall id :: TypeOf(nodes[..i], id) == if id in types then Some(types[id]) else None
    {
      assert nodes[..i + 1][..i] == nodes[..i];
      types := types[nodes[i].id := nodes[i].typ];
    }
    assert nodes[..|nodes|] == nodes;
  }

  method HasType(nodes: seq<Node>, typ: string) returns (seen: bool)
    ensures seen == SeenType(nodes, typ)
  {
    for i := 0 to |nodes|
      invariant forall n :: 0 <= n < i ==> nodes[n].typ != typ
    {
      if nodes[i].typ == typ { return true; }
    }
    return false;
  }

  method HasTypeIn(types: map<string, string>, visited: set<string>, typ: string) returns (found: bool)
    ensures found == exists x :: x in visited && x in types && types[x] == typ
  {
    var todo := visited;
    while todo != {}
      invariant todo <= visited
      invariant forall x :: x in visited && x !in todo ==> !(x in types && types[x] == typ)
    {
      var x :| x in todo;
      todo := todo - {x};
      if x in types && types[x] == typ { return true; }
    }
    return false;
  }

  lemma TypeReachesIff(nodes: seq<Node>, edges: seq<Edge>, final: string, typ: string, types: map<string, string>, visited: set<string>)
    requires forall x :: x in visited <==> Causes(edges, final, x)
    requires forall id :: TypeOf(nodes, id) == if id in types then Some(types[id]) else None
    ensures TypeReaches(nodes, edges, final, typ) <==> exists x :: x in visited && x in types && types[x] == typ
  {
    hide Causes, TypeOf;
  }

  method RequiredTypesReach(nodes: seq<Node>, edges: seq<Edge>, final: string) returns (ok: bool)
    ensures ok == forall t :: t in REQUIRED && SeenType(nodes, t) ==> TypeReaches(nodes, edges, final, t)
  {
    hide Causes, TypeOf, SeenType, TypeReaches;
    var visited := AncestorClosure(edges, final);
    var types := TypesById(nodes);
    for i := 0 to |REQUIRED|
      invariant forall n :: 0 <= n < i && SeenType(nodes, REQUIRED[n]) ==> TypeReaches(nodes, edges, final, REQUIRED[n])
    {
      var seen := HasType(nodes, REQUIRED[i]);
      if seen {
        var found := HasTypeIn(types, visited, REQUIRED[i]);
        TypeReachesIff(nodes, edges, final, REQUIRED[i], types, visited);
        if !found {
          assert REQUIRED[i] in REQUIRED;
          return false;
        }
      }
    }
    return true;
  }

  /** The verdict for a run that may or may not need a graph. */
  method IsHighRiskGraphComplete(needsGraph: bool, nodes: seq<Node>, edges: seq<Edge>, stableId: Event -> string, events: seq<Event>)
    returns (complete: bool)
    ensures complete == (!needsGraph || Complete(nodes, edges, stableId, events))
  {
    hide OnlySink, ParentsPresent, TypeReaches, SeenType;
    if !needsGraph { return true; }
    if nodes == [] || edges == [] { return false; }
    var final := SelectFinalDecisionNode(nodes, edges);
    if final.None? { return false; }
    var present := ParentEdgesPresent(edges, stableId, events);
    if !present { return false; }
    complete := RequiredTypesReach(nodes, edges, final.value);
    SinkIsOne(nodes, edges, final.value);
  }

  lemma SinkIsOne(nodes: seq<Node>, edges: seq<Edge>, final: string)
    requires OnlySink(nodes, edges, final)
    ensures forall other :: OnlySink(nodes, edges, other) ==> other == final
  {
    hide IsSink;
  }
}
