/** The pipeline graph: creation refuses whatever would close a cycle, and the fleet
    checks the pipelines it selects once more. */
module Dag {
  import opened Base

  type Node = int
  type Edges = set<(Node, Node)>

  // ---------------------------------------------------------------- reachability

  ghost predicate IsPath(edges: Edges, p: seq<Node>) {
    p != [] && forall i :: 0 <= i < |p| - 1 ==> (p[i], p[i + 1]) in edges
  }

  ghost predicate PathFrom(edges: Edges, p: seq<Node>, a: Node, b: Node) {
    IsPath(edges, p) && p[0] == a && p[|p| - 1] == b
  }

  /** Some path, possibly empty, leads from `a` to `b`. */
  ghost predicate Reaches(edges: Edges, a: Node, b: Node) {
    exists p :: PathFrom(edges, p, a, b)
  }

  /** No edge lies on a cycle. */
  ghost predicate Acyclic(edges: Edges) {
    forall e :: e in edges ==> !Reaches(edges, e.1, e.0)
  }

  lemma ReachesSelf(edges: Edges, a: Node)
    ensures Reaches(edges, a, a)
  {
    assert PathFrom(edges, [a], a, a);
  }

  lemma ReachesJoin(edges: Edges, a: Node, b: Node, c: Node)
    requires Reaches(edges, a, b) && Reaches(edges, b, c)
    ensures Reaches(edges, a, c)
  {
    var p :| PathFrom(edges, p, a, b);
    var q :| PathFrom(edges, q, b, c);
    var j := p + q[1..];
    forall i | 0 <= i < |j| - 1 ensures (j[i], j[i + 1]) in edges {
      if i >= |p| - 1 { assert j[i + 1] == q[i - |p| + 2] && (i > |p| - 1 ==> j[i] == q[i - |p| + 1]); }
    }
    assert PathFrom(edges, j, a, c);
  }

  lemma ReachesStep(edges: Edges, a: Node, b: Node, c: Node)
    requires Reaches(edges, a, b) && (b, c) in edges
    ensures Reaches(edges, a, c)
  {
    assert PathFrom(edges, [b, c], b, c);
    ReachesJoin(edges, a, b, c);
  }

  lemma ReachesMore(edges: Edges, more: Edges, a: Node, b: Node)
    requires edges <= more && Reaches(edges, a, b)
    ensures Reaches(more, a, b)
  {
    var p :| PathFrom(edges, p, a, b);
    assert PathFrom(more, p, a, b);
  }

  ghost predicate Closed(edges: Edges, s: set<Node>) {
    forall e :: e in edges && e.0 in s ==> e.1 in s
  }

  /** What is reachable from inside a closed set is inside. */
  lemma ReachesInside(edges: Edges, s: set<Node>, a: Node, b: Node)
    requires Closed(edges, s) && a in s && Reaches(edges, a, b)
    ensures b in s
  {
    var p :| PathFrom(edges, p, a, b);
    PathInside(edges, s, p, |p| - 1);
  }

  lemma {:induction false} PathInside(edges: Edges, s: set<Node>, p: seq<Node>, i: nat)
    requires Closed(edges, s) && IsPath(edges, p) && p[0] in s && i < |p|
    ensures p[i] in s
  {
    if i > 0 {
      PathInside(edges, s, p, i - 1);
      assert (p[i - 1], p[i - 1 + 1]) in edges;
    }
  }

  // ---------------------------------------------------------------- creation

  /** A path through a graph with one more edge either avoids it or reaches its tail
      first and leaves from its head. */
  lemma {:induction false} OneMoreEdge(edges: Edges, s: Node, t: Node, p: seq<Node>)
    requires IsPath(edges + {(s, t)}, p)
    ensures Reaches(edges, p[0], p[|p| - 1]) || (Reaches(edges, p[0], s) && Reaches(edges, t, p[|p| - 1]))
    decreases |p|
  {
    if |p| == 1 {
      ReachesSelf(edges, p[0]);
    } else {
      var n := |p| - 1;
      var front := p[..n];
      var u, v := p[n - 1], p[n];
      assert IsPath(edges + {(s, t)}, front);
      OneMoreEdge(edges, s, t, front);
      assert (p[n - 1], p[n - 1 + 1]) in edges + {(s, t)};
      if (u, v) in edges {
        if Reaches(edges, p[0], u) { ReachesStep(edges, p[0], u, v); } else { ReachesStep(edges, t, u, v); }
      } else {
        ReachesSelf(edges, t);
      }
    }
  }

  /** Adding an edge to an acyclic graph keeps it acyclic exactly when its head does not
      reach its tail — so an edge from a node to itself never may be added. */
  lemma AcyclicIffNotReachable(edges: Edges, s: Node, t: Node)
    requires Acyclic(edges)
    ensures Acyclic(edges + {(s, t)}) <==> !Reaches(edges, t, s)
  {
    var more := edges + {(s, t)};
    if Reaches(edges, t, s) {
      ReachesMore(edges, more, t, s);
      assert (s, t) in more;
    } else {
      forall e | e in more ensures !Reaches(more, e.1, e.0) {
        if Reaches(more, e.1, e.0) { NoNewCycle(edges, s, t, e); }
      }
    }
  }

  lemma NoNewCycle(edges: Edges, s: Node, t: Node, e: (Node, Node))
    requires Acyclic(edges) && !Reaches(edges, t, s) && e in edges + {(s, t)}
    ensures !Reaches(edges + {(s, t)}, e.1, e.0)
  {
    var more := edges + {(s, t)};
    if Reaches(more, e.1, e.0) {
      var p :| PathFrom(more, p, e.1, e.0);
      OneMoreEdge(edges, s, t, p);
      if e in edges && Reaches(edges, e.1, s) && Reaches(edges, t, e.0) {
        ReachesStep(edges, t, e.0, e.1);
        ReachesJoin(edges, t, e.1, s);
      }
    }
  }

  datatype Endpoint = Kafka(stream: int) | Parquet(table: Node)

  datatype ErrorPolicy = Stall | Skip

  /** What a pipeline is under its name; a change in any field is another definition. */
  datatype Definition = Definition(source: Endpoint, target: Node, sql: string, policy: ErrorPolicy, eventTime: Option<string>)

  datatype PipelineError = Incomplete | Differs | NoSuchEndpoint | Cycle

  /** Unicode white space. */
  predicate White(c: char) {
    var n := c as int;
    || 0x9 <= n <= 0xD || n == 0x20 || n == 0x85 || n == 0xA0 || n == 0x1680
    || 0x2000 <= n <= 0x200A || n == 0x2028 || n == 0x2029 || n == 0x202F || n == 0x205F || n == 0x3000
  }

  function TrimStart(s: string): (r: string)
    ensures r == "" <==> forall i :: 0 <= i < |s| ==> White(s[i])
  {
    if s == "" || !White(s[0]) then s else TrimStart(s[1..])
  }

  /** Name and text say something and the ids can be ids. */
  predicate Complete(name: string, def: Definition) {
    && (exists i :: 0 <= i < |name| && !White(name[i]))
    && (exists i :: 0 <= i < |def.sql| && !White(def.sql[i]))
    && def.target > 0
    && match def.source
       case Kafka(k) => k > 0
       case Parquet(t) => t > 0
  }

  class PipelineCatalog {
    var streams: set<int>
    var tables: set<Node>
    var pipelines: map<string, Definition>

    constructor (streams: set<int>, tables: set<Node>)
      ensures this.streams == streams && this.tables == tables && pipelines == map[]
    {
      this.streams, this.tables, pipelines := streams, tables, map[];
    }

    /** The table-to-table edges. */
    function Graph(): Edges
      reads this
    {
      GraphOf(pipelines)
    }

    /** Both endpoints exist, the source in its declared kind. */
    predicate Known(def: Definition)
      reads this`streams, this`tables
    {
      && def.target in tables
      && match def.source
         case Kafka(k) => k in streams
         case Parquet(t) => t in tables
    }

    /** Everything reachable from `start`, as a recursive query accumulates it. */
    method Reachable(start: Node) returns (found: set<Node>)
      ensures forall n :: n in found <==> Reaches(Graph(), start, n)
    {
      var edges := Graph();
      found := {start};
      var frontier := {start};
      ReachesSelf(edges, start);
      ghost var nodes := {start} + set e | e in edges :: e.1;
      while frontier != {}
        invariant start in found && frontier <= found <= nodes
        invariant forall n :: n in found ==> Reaches(edges, start, n)
        invariant forall e :: e in edges && e.0 in found - frontier ==> e.1 in found
        decreases nodes - found, frontier
      {
        var next := set e | e in edges && e.0 in frontier :: e.1;
        forall n | n in next ensures Reaches(edges, start, n) {
          var e :| e in edges && e.0 in frontier && e.1 == n;
          ReachesStep(edges, start, e.0, n);
        }
        var fresh_ := next - found;
        assert forall e :: e in edges && e.0 in frontier ==> e.1 in next;
        if fresh_ != {} { assert fresh_ <= nodes - found; assert nodes - (found + fresh_) < nodes - found; }
        frontier, found := fresh_, found + fresh_;
      }
      assert Closed(edges, found);
      forall n ensures n in found <==> Reaches(edges, start, n) {
        if Reaches(edges, start, n) { ReachesInside(edges, found, start, n); }
      }
    }

    /** Creates a pipeline, or returns the one of this name and definition. It refuses, in
        this order and exactly then, a definition that is not complete, a name under
        another definition, an unknown endpoint, and a table-to-table pipeline that would
        close a cycle; a refusal changes nothing. */
    method EnsurePipeline(name: string, def: Definition) returns (r: Result<Definition, PipelineError>)
      requires Acyclic(Graph())
      modifies this`pipelines
      ensures Acyclic(Graph())
      ensures r.Ok? ==> r.value == def && pipelines == old(pipelines)[name := def]
      ensures r.Err? ==> pipelines == old(pipelines)
      ensures r == Err(Incomplete) <==> !Complete(name, def)
      ensures r == Err(Differs) <==> Complete(name, def) && name in old(pipelines) && old(pipelines)[name] != def
      ensures r == Err(NoSuchEndpoint) <==> (Complete(name, def) && name !in old(pipelines)
                                           && (def.target !in tables || (def.source.Kafka? && def.source.stream !in streams)
                                               || (def.source.Parquet? && def.source.table !in tables)))
      ensures r == Err(Cycle) <==> Complete(name, def) && name !in old(pipelines) && def.target in tables
                                   && def.source.Parquet? && def.source.table in tables
                                   && !Acyclic(old(Graph()) + {(def.source.table, def.target)})
    {
      var sourceId := match def.source case Kafka(k) => k case Parquet(t) => t;
      if TrimStart(name) == "" || TrimStart(def.sql) == "" || sourceId <= 0 || def.target <= 0 { return Err(Incomplete); }
      if name in pipelines {
        if pipelines[name] != def { return Err(Differs); }
        assert pipelines[name := def] == pipelines;
        return Ok(def);
      }
      if !Known(def) { return Err(NoSuchEndpoint); }
      GraphMore(pipelines, name, def);
      if def.source.Parquet? {
        var reachable := Reachable(def.target);
        AcyclicIffNotReachable(Graph(), def.source.table, def.target);
        if def.source.table in reachable { return Err(Cycle); }
      }
      assert Graph() + {} == Graph();
      pipelines := pipelines[name := def];
      return Ok(def);
    }
  }

  function GraphOf(pipelines: map<string, Definition>): Edges {
    set n | n in pipelines && pipelines[n].source.Parquet? :: (pipelines[n].source.table, pipelines[n].target)
  }

  lemma GraphMore(pipelines: map<string, Definition>, name: string, def: Definition)
    requires name !in pipelines
    ensures GraphOf(pipelines[name := def])
            == GraphOf(pipelines) + (if def.source.Parquet? then {(def.source.table, def.target)} else {})
  {
    var more := pipelines[name := def];
    forall e ensures e in GraphOf(more) <==> e in GraphOf(pipelines) + (if def.source.Parquet? then {(def.source.table, def.target)} else {}) {
      if e in GraphOf(pipelines) {
        var n :| n in pipelines && pipelines[n].source.Parquet? && (pipelines[n].source.table, pipelines[n].target) == e;
        assert n in more && more[n] == pipelines[n];
      }
      if def.source.Parquet? && e == (def.source.table, def.target) { assert more[name] == def; }
    }
  }

  // ---------------------------------------------------------------- the fleet's own check

  function EdgesOf(selected: seq<(Node, Node)>): Edges {
    set e | e in selected
  }

  function Targets(selected: seq<(Node, Node)>, node: Node): (r: seq<Node>)
    ensures forall n :: n in r <==> (node, n) in selected
  {
    if selected == [] then []
    else (if selected[0].0 == node then [selected[0].1] else []) + Targets(selected[1..], node)
  }

  /** Refuses a selection exactly when its graph has a cycle. */
  method SelectionHasCycle(selected: seq<(Node, Node)>) returns (cycle: bool)
    ensures cycle <==> !Acyclic(EdgesOf(selected))
  {
    for i := 0 to |selected|
      invariant forall k :: 0 <= k < i ==> !Reaches(EdgesOf(selected), selected[k].1, selected[k].0)
    {
      var found := Search(selected, selected[i].1, selected[i].0);
      if found {
        assert selected[i] in EdgesOf(selected);
        return true;
      }
    }
    return false;
  }

  /** The worklist search from `start`: pending nodes, visited nodes. */
  method Search(selected: seq<(Node, Node)>, start: Node, goal: Node) returns (found: bool)
    ensures found <==> Reaches(EdgesOf(selected), start, goal)
  {
    ghost var edges := EdgesOf(selected);
    ghost var nodes := {start} + set e | e in selected :: e.1;
    var pending := [start];
    var visited: set<Node> := {};
    ReachesSelf(edges, start);
    while pending != []
      invariant visited <= nodes && (forall n :: n in pending ==> n in nodes && Reaches(edges, start, n))
      invariant goal !in visited && (start in visited || start in pending)
      invariant forall e :: e in edges && e.0 in visited ==> e.1 in visited || e.1 in pending
      decreases nodes - visited, |pending|
    {
      var node := pending[|pending| - 1];
      ghost var was := pending;
      pending := pending[..|pending| - 1];
      assert forall n :: n in was ==> n == node || n in pending;
      assert node in was;
      if node == goal { return true; }
      if node !in visited {
        assert node in nodes - visited;
        visited := visited + {node};
        var more := Targets(selected, node);
        forall n | n in more ensures Reaches(edges, start, n) && n in nodes { ReachesStep(edges, start, node, n); assert (node, n).1 == n; }
        pending := pending + more;
      }
    }
    if Reaches(edges, start, goal) { ReachesInside(edges, visited, start, goal); }
    return false;
  }
}
