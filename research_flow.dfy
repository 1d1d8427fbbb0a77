/**
 * The research flowchart: a table of nodes, each naming the nodes it leads
 * to, from which the list of drawn edges is built; the colour and shape
 * lookups; and the node selection toggle.
 */
module ResearchFlow {
  import opened Optional
  import opened Collections

  datatype Node = Node(
    id: string, kind: string, title: string, subtitle: string,
    x: int, y: int, color: string, metrics: seq<string>, connects: seq<string>)

  /** The node table: entries in insertion order, each under its key. */
  type NodeTable = seq<(string, Node)>

  const Nodes: NodeTable := [
    ("start", Node("start", "start", "Research Initiated", "YU Benchmarking Project", 50, 5, "cyan",
      [], ["data-collection"])),
    ("data-collection", Node("data-collection", "process", "Data Collection", "6 Universities", 50, 18, "blue",
      ["2,260 IG posts", "3 TikTok accounts", "4 data sources"], ["instagram-analysis", "tiktok-analysis"])),
    ("instagram-analysis", Node("instagram-analysis", "process", "Instagram Analysis", "Follower & Engagement Data",
      25, 35, "pink", ["593K NYU followers", "15K YU followers", "39.5x gap"], ["gap-identification"])),
    ("tiktok-analysis", Node("tiktok-analysis", "process", "TikTok Analysis", "Platform Presence", 75, 35, "purple",
      ["3/6 active", "YU: Inactive", "2.28% weekly growth"], ["gap-identification"])),
    ("gap-identification", Node("gap-identification", "decision", "Critical Gaps?", "Analysis Results", 50, 50,
      "yellow", [], ["findings-critical", "findings-opportunities"])),
    ("findings-critical", Node("findings-critical", "data", "Critical Findings", "2 High Priority", 25, 63, "red",
      ["Instagram gap: -578K", "No TikTok presence"], ["strategy-immediate"])),
    ("findings-opportunities", Node("findings-opportunities", "data", "Opportunities", "2 Medium Priority", 75, 63,
      "green", ["Reels: 2.5x engagement", "Optimal time: Wed 8PM"], ["strategy-high"])),
    ("strategy-immediate", Node("strategy-immediate", "process", "Immediate Actions", "Priority: CRITICAL", 25, 78,
      "red", ["Launch TikTok", "Increase Reels 2-3/week"], ["projection"])),
    ("strategy-high", Node("strategy-high", "process", "High Priority Actions", "Priority: HIGH", 75, 78, "yellow",
      ["8-12 posts/week", "Study competitors"], ["projection"])),
    ("projection", Node("projection", "process", "Growth Projection", "6-Month Forecast", 50, 93, "green",
      ["Target: 25K followers", "+67% growth", "3.5% engagement"], ["end"])),
    ("end", Node("end", "end", "Implementation", "Action Protocol", 50, 105, "green", [], []))
  ]

  datatype Connection = Connection(from: string, to: string, fromX: int, fromY: int, toX: int, toY: int, color: string)

  /** An edge copies the source's id, position and colour and the target's id and position. */
  function Edge(source: Node, target: Node): Connection {
    Connection(source.id, target.id, source.x, source.y, target.x, target.y, source.color)
  }

  /** The edges from `source` to those of `targets` found in the table, in `targets` order. */
  function EdgesFrom(t: NodeTable, source: Node, targets: seq<string>): (r: seq<Connection>)
    ensures |r| <= |targets|
    ensures forall e :: e in r <==>
      exists k :: 0 <= k < |targets| && Lookup(t, targets[k]).Some? && e == Edge(source, Lookup(t, targets[k]).value)
  {
    if |targets| == 0 then []
    else
      var init, last := targets[..|targets| - 1], targets[|targets| - 1];
      assert forall k :: 0 <= k < |init| ==> init[k] == targets[k];
      EdgesFrom(t, source, init)
      + (match Lookup(t, last) case Some(n) => [Edge(source, n)] case None => [])
  }

  /** The edges of the nodes `ns`, node after node. */
  function AllEdges(t: NodeTable, ns: NodeTable): seq<Connection> {
    if |ns| == 0 then []
    else
      var last := ns[|ns| - 1].1;
      AllEdges(t, ns[..|ns| - 1]) + EdgesFrom(t, last, last.connects)
  }

  /** Edges of earlier nodes come before edges of later ones. */
  lemma {:induction false} AllEdgesAppend(t: NodeTable, a: NodeTable, b: NodeTable)
    ensures AllEdges(t, a + b) == AllEdges(t, a) + AllEdges(t, b)
    decreases |b|
  {
    if |b| > 0 {
      assert (a + b)[..|a + b| - 1] == a + b[..|b| - 1];
      AllEdgesAppend(t, a, b[..|b| - 1]);
    } else {
      assert a + b == a;
    }
  }

  /** An edge is drawn exactly for a listed target that exists. */
  lemma {:induction false} AllEdgesMembers(t: NodeTable, ns: NodeTable, e: Connection)
    ensures e in AllEdges(t, ns) <==>
      exists i, k :: 0 <= i < |ns| && 0 <= k < |ns[i].1.connects|
        && Lookup(t, ns[i].1.connects[k]).Some? && e == Edge(ns[i].1, Lookup(t, ns[i].1.connects[k]).value)
    decreases |ns|
  {
    if |ns| > 0 {
      var init := ns[..|ns| - 1];
      AllEdgesMembers(t, init, e);
      assert forall i :: 0 <= i < |init| ==> init[i] == ns[i];
      var n := ns[|ns| - 1].1;
      if e in EdgesFrom(t, n, n.connects) {
        var k :| 0 <= k < |n.connects| && Lookup(t, n.connects[k]).Some?
          && e == Edge(n, Lookup(t, n.connects[k]).value);
        assert ns[|ns| - 1].1 == n;
      }
    }
  }

  /** Every listed target of every node is in the table. */
  ghost predicate TargetsExist(t: NodeTable, ns: NodeTable) {
    forall i, k :: 0 <= i < |ns| && 0 <= k < |ns[i].1.connects| ==> Lookup(t, ns[i].1.connects[k]).Some?
  }

  function SumConnects(ns: NodeTable): nat {
    if |ns| == 0 then 0 else SumConnects(ns[..|ns| - 1]) + |ns[|ns| - 1].1.connects|
  }

  lemma {:induction false} EdgesFromAll(t: NodeTable, source: Node, targets: seq<string>)
    requires forall k :: 0 <= k < |targets| ==> Lookup(t, targets[k]).Some?
    ensures |EdgesFrom(t, source, targets)| == |targets|
    decreases |targets|
  {
    if |targets| > 0 {
      EdgesFromAll(t, source, targets[..|targets| - 1]);
    }
  }

  /** When every target exists, one edge is drawn per listed target. */
  lemma {:induction false} EdgeCount(t: NodeTable, ns: NodeTable)
    requires TargetsExist(t, ns)
    ensures |AllEdges(t, ns)| == SumConnects(ns)
    decreases |ns|
  {
    if |ns| > 0 {
      var init := ns[..|ns| - 1];
      assert forall i :: 0 <= i < |init| ==> init[i] == ns[i];
      EdgeCount(t, init);
      var n := ns[|ns| - 1].1;
      EdgesFromAll(t, n, n.connects);
    }
  }

  /** The table's keys are its nodes' ids. */
  lemma NodesKeyedById()
    ensures KeyedById(Nodes)
  {
  }

  lemma NodesTargetsExist()
    ensures TargetsExist(Nodes, Nodes)
  {
    var t := Nodes;
    forall i, k | 0 <= i < |t| && 0 <= k < |t[i].1.connects| ensures Lookup(t, t[i].1.connects[k]).Some? {
      NodeTargetExists(i, k);
    }
  }

  lemma NodeTargetExists(i: nat, k: nat)
    requires i < |Nodes| && k < |Nodes[i].1.connects|
    ensures Lookup(Nodes, Nodes[i].1.connects[k]).Some?
  {
    var t := Nodes;
    var c := t[i].1.connects[k];
    if i == 0 {
      assert c == t[1].0;
    } else if i == 1 {
      assert c == t[2].0 || c == t[3].0;
    } else if i == 2 || i == 3 {
      assert c == t[4].0;
    } else if i == 4 {
      assert c == t[5].0 || c == t[6].0;
    } else if i == 5 {
      assert c == t[7].0;
    } else if i == 6 {
      assert c == t[8].0;
    } else if i == 7 || i == 8 {
      assert c == t[9].0;
    } else if i == 9 {
      assert c == t[10].0;
    }
  }

  lemma SumConnectsStep(t: NodeTable, k: nat)
    requires k < |t|
    ensures SumConnects(t[..k + 1]) == SumConnects(t[..k]) + |t[k].1.connects|
  {
    assert t[..k + 1][..k] == t[..k];
  }

  /** The targets listed across the flowchart number twelve. */
  lemma NodesListTwelveTargets()
    ensures SumConnects(Nodes) == 12
  {
    var t := Nodes;
    assert t[..0] == [];
    SumConnectsStep(t, 0);
    SumConnectsStep(t, 1);
    SumConnectsStep(t, 2);
    SumConnectsStep(t, 3);
    SumConnectsStep(t, 4);
    SumConnectsStep(t, 5);
    SumConnectsStep(t, 6);
    SumConnectsStep(t, 7);
    SumConnectsStep(t, 8);
    SumConnectsStep(t, 9);
    SumConnectsStep(t, 10);
    assert t[..11] == t;
  }

  /** The flowchart draws twelve edges. */
  lemma FlowchartEdges()
    ensures |AllEdges(Nodes, Nodes)| == 12
  {
    NodesTargetsExist();
    EdgeCount(Nodes, Nodes);
    NodesListTwelveTargets();
  }

  /** Only the `end` node has no outgoing edge. */
  lemma OnlyEndIsTerminal()
    ensures forall i :: 0 <= i < |Nodes| ==> (|Nodes[i].1.connects| == 0 <==> Nodes[i].0 == "end")
  {
  }

  /** The connection builder: for each node in order, for each listed target that exists, one edge. */
  method BuildConnections(t: NodeTable) returns (conns: seq<Connection>)
    ensures conns == AllEdges(t, t)
    ensures TargetsExist(t, t) ==> |conns| == SumConnects(t)
  {
    conns := [];
    var i := 0;
    while i < |t|
      invariant 0 <= i <= |t|
      invariant conns == AllEdges(t, t[..i])
    {
      var node := t[i].1;
      var j := 0;
      ghost var before := conns;
      while j < |node.connects|
        invariant 0 <= j <= |node.connects|
        invariant conns == before + EdgesFrom(t, node, node.connects[..j])
      {
        var target := Lookup(t, node.connects[j]);
        if target.Some? {
          conns := conns + [Edge(node, target.value)];
        }
        assert node.connects[..j + 1][..j] == node.connects[..j];
        j := j + 1;
      }
      assert node.connects[..j] == node.connects;
      assert t[..i + 1][..i] == t[..i];
      i := i + 1;
    }
    assert t[..|t|] == t;
    if TargetsExist(t, t) {
      EdgeCount(t, t);
    }
  }

  datatype Palette = Cyan | Blue | Pink | Purple | Yellow | Red | Green

  /** `getNodeColor`: a named palette, cyan for any other name. */
  function NodeColor(color: string): (p: Palette)
    ensures p == Blue <==> color == "blue"
    ensures p == Red <==> color == "red"
    ensures p == Green <==> color == "green"
    ensures p == Pink <==> color == "pink"
    ensures p == Purple <==> color == "purple"
    ensures p == Yellow <==> color == "yellow"
    ensures p == Cyan <==> color !in {"blue", "pink", "purple", "yellow", "red", "green"}
  {
    match color
    case "cyan" => Cyan
    case "blue" => Blue
    case "pink" => Pink
    case "purple" => Purple
    case "yellow" => Yellow
    case "red" => Red
    case "green" => Green
    case _ => Cyan
  }

  /** `getNodeShape`: start and end round, decisions rotated, data skewed, anything else rounded-xl. */
  function NodeShape(kind: string): (r: string)
    ensures r == "rounded-full" <==> kind == "start" || kind == "end"
    ensures r == "rotate-45" <==> kind == "decision"
    ensures r == "rounded-lg skew-x-12" <==> kind == "data"
    ensures r == "rounded-xl" <==> kind !in {"start", "end", "decision", "data"}
  {
    match kind
    case "start" => "rounded-full"
    case "end" => "rounded-full"
    case "decision" => "rotate-45"
    case "data" => "rounded-lg skew-x-12"
    case _ => "rounded-xl"
  }

  /** The key that names an edge on hover: the two ids joined by '-'. */
  function HoverKey(from: string, to: string): string {
    from + "-" + to
  }

  /** An edge is drawn hovered when the hover key names it. */
  predicate Hovered(hovered: Option<string>, c: Connection) {
    hovered == Some(HoverKey(c.from, c.to))
  }

  /**
   * Two sources give the same key only with the same target, or when one
   * source id followed by '-' begins the other.
   */
  lemma HoverKeyOverlap(f1: string, t1: string, f2: string, t2: string)
    requires HoverKey(f1, t1) == HoverKey(f2, t2)
    ensures |f1| == |f2| ==> f1 == f2 && t1 == t2
    ensures |f1| < |f2| ==> f2[..|f1| + 1] == f1 + "-"
  {
    var k := HoverKey(f1, t1);
    assert k[..|f1|] == f1 && k[|f1|] == '-' && k[|f1| + 1..] == t1;
    assert k[..|f2|] == f2 && k[|f2|] == '-' && k[|f2| + 1..] == t2;
    if |f1| < |f2| {
      assert f2[..|f1| + 1] == k[..|f1| + 1] == f1 + "-";
    }
  }

  ghost predicate KeyedById(t: NodeTable) {
    forall i :: 0 <= i < |t| ==> t[i].0 == t[i].1.id
  }

  ghost predicate KeysUnique(t: NodeTable) {
    forall i, j :: 0 <= i < |t| && 0 <= j < |t| && t[i].0 == t[j].0 ==> i == j
  }

  /** No id followed by '-' begins another id, so keys of different sources never meet. */
  ghost predicate NoIdExtendsAnother(t: NodeTable) {
    forall i, j :: 0 <= i < |t| && 0 <= j < |t| && |t[i].0| < |t[j].0| ==> t[j].0[..|t[i].0| + 1] != t[i].0 + "-"
  }

  /** A drawn edge's ends are the ids of table entries, and the target is the entry under its id. */
  lemma EdgeEnds(t: NodeTable, c: Connection) returns (i: nat, m: nat)
    requires KeyedById(t) && c in AllEdges(t, t)
    ensures i < |t| && m < |t| && c == Edge(t[i].1, t[m].1)
    ensures c.from == t[i].0 && c.to == t[m].0
  {
    AllEdgesMembers(t, t, c);
    var i', k :| 0 <= i' < |t| && 0 <= k < |t[i'].1.connects|
      && Lookup(t, t[i'].1.connects[k]).Some? && c == Edge(t[i'].1, Lookup(t, t[i'].1.connects[k]).value);
    var n := Lookup(t, t[i'].1.connects[k]).value;
    var m' :| 0 <= m' < |t| && t[m'] == (t[i'].1.connects[k], n);
    i, m := i', m';
  }

  /** In a table with distinct, non-overlapping ids, a hover key names at most one drawn edge. */
  lemma HoverKeyNamesOneEdge(t: NodeTable, c1: Connection, c2: Connection)
    requires KeyedById(t) && KeysUnique(t) && NoIdExtendsAnother(t)
    requires c1 in AllEdges(t, t) && c2 in AllEdges(t, t)
    requires HoverKey(c1.from, c1.to) == HoverKey(c2.from, c2.to)
    ensures c1 == c2
  {
    var i1, m1 := EdgeEnds(t, c1);
    var i2, m2 := EdgeEnds(t, c2);
    var f1, f2 := t[i1].0, t[i2].0;
    HoverKeyOverlap(f1, c1.to, f2, c2.to);
    HoverKeyOverlap(f2, c2.to, f1, c1.to);
    assert !(|f1| < |f2|) && !(|f2| < |f1|);
    assert f1 == f2 && t[m1].0 == t[m2].0;
    assert i1 == i2 && m1 == m2;
  }

  /** The flowchart's ids, in table order. */
  const NodeIds: seq<string> := [
    "start", "data-collection", "instagram-analysis", "tiktok-analysis", "gap-identification",
    "findings-critical", "findings-opportunities", "strategy-immediate", "strategy-high",
    "projection", "end"
  ]

  lemma NodeIdsAre()
    ensures |Nodes| == |NodeIds| && forall i :: 0 <= i < |Nodes| ==> Nodes[i].0 == NodeIds[i]
  {
  }

  /** Two ids with the same first letter differ at the shorter one's length, where no '-' sits. */
  lemma NodeIdsApart(i: nat, j: nat)
    requires i < |NodeIds| && j < |NodeIds| && |NodeIds[i]| < |NodeIds[j]|
    ensures NodeIds[j][..|NodeIds[i]| + 1] != NodeIds[i] + "-"
  {
    var a, b := NodeIds[i], NodeIds[j];
    assert a[0] != b[0] || b[|a|] != '-';
    assert (a + "-")[0] == a[0] && (a + "-")[|a|] == '-';
  }

  /** The flowchart's ids are distinct and none extends another by '-'. */
  lemma NodesHoverSafe()
    ensures KeyedById(Nodes) && KeysUnique(Nodes) && NoIdExtendsAnother(Nodes) && TargetsExist(Nodes, Nodes)
  {
    NodesKeyedById();
    NodesTargetsExist();
    NodeIdsAre();
    forall i, j | 0 <= i < |Nodes| && 0 <= j < |Nodes| && |Nodes[i].0| < |Nodes[j].0|
      ensures Nodes[j].0[..|Nodes[i].0| + 1] != Nodes[i].0 + "-"
    {
      NodeIdsApart(i, j);
    }
    assert KeysUnique(Nodes) by {
      var ids := NodeIds;
      assert forall i, j :: 0 <= i < j < |ids| ==> ids[i] != ids[j];
    }
  }

  /**
   * Hovering a node with targets, in a table of distinct, non-overlapping
   * ids whose targets all exist, draws exactly one edge as hovered: the one
   * to the node's last target.
   */
  lemma HoverMarksOneEdge(t: NodeTable, i: nat)
    requires KeyedById(t) && KeysUnique(t) && NoIdExtendsAnother(t) && TargetsExist(t, t)
    requires i < |t| && |t[i].1.connects| > 0
    ensures var n := t[i].1;
      var key := Some(HoverKey(n.id, n.connects[|n.connects| - 1]));
      && (exists c :: c in AllEdges(t, t) && Hovered(key, c))
      && (forall c1, c2 ::
            c1 in AllEdges(t, t) && c2 in AllEdges(t, t) && Hovered(key, c1) && Hovered(key, c2) ==> c1 == c2)
  {
    var n := t[i].1;
    var k := |n.connects| - 1;
    var key := Some(HoverKey(n.id, n.connects[k]));
    var target := Lookup(t, n.connects[k]).value;
    var m :| 0 <= m < |t| && t[m] == (n.connects[k], target);
    var c := Edge(n, target);
    AllEdgesMembers(t, t, c);
    assert c in AllEdges(t, t) && Hovered(key, c);
    forall c1, c2 | c1 in AllEdges(t, t) && c2 in AllEdges(t, t) && Hovered(key, c1) && Hovered(key, c2)
      ensures c1 == c2
    {
      HoverKeyNamesOneEdge(t, c1, c2);
    }
  }

  /** On the flowchart, hovering any node with targets marks exactly one edge. */
  lemma FlowchartHoverMarksOneEdge(i: nat)
    requires i < |Nodes| && |Nodes[i].1.connects| > 0
    ensures var n := Nodes[i].1;
      var key := Some(HoverKey(n.id, n.connects[|n.connects| - 1]));
      && (exists c :: c in AllEdges(Nodes, Nodes) && Hovered(key, c))
      && (forall c1, c2 ::
            c1 in AllEdges(Nodes, Nodes) && c2 in AllEdges(Nodes, Nodes) && Hovered(key, c1) && Hovered(key, c2) ==> c1 == c2)
  {
    NodesHoverSafe();
    HoverMarksOneEdge(Nodes, i);
  }

  /** The view's selection and hovered edge. */
  class FlowView {
    var selectedNode: Option<string>
    var hoveredConnection: Option<string>

    constructor()
      ensures selectedNode == None && hoveredConnection == None
    {
      selectedNode, hoveredConnection := None, None;
    }

    /** A click selects the node, or clears the selection when it is the selected one. */
    method ClickNode(id: string)
      modifies this
      ensures selectedNode == (if old(selectedNode) == Some(id) then None else Some(id))
      ensures hoveredConnection == old(hoveredConnection)
    {
      if selectedNode == Some(id) {
        selectedNode := None;
      } else {
        selectedNode := Some(id);
      }
    }

    /** Hovering a node sets the hovered edge once per target, so the last target wins. */
    method MouseEnter(n: Node)
      modifies this
      ensures |n.connects| == 0 ==> hoveredConnection == old(hoveredConnection)
      ensures |n.connects| > 0 ==> hoveredConnection == Some(HoverKey(n.id, n.connects[|n.connects| - 1]))
      ensures selectedNode == old(selectedNode)
    {
      var j := 0;
      while j < |n.connects|
        invariant 0 <= j <= |n.connects|
        invariant j == 0 ==> hoveredConnection == old(hoveredConnection)
        invariant j > 0 ==> hoveredConnection == Some(HoverKey(n.id, n.connects[j - 1]))
        invariant selectedNode == old(selectedNode)
      {
        hoveredConnection := Some(HoverKey(n.id, n.connects[j]));
        j := j + 1;
      }
    }

    method MouseLeave()
      modifies this
      ensures hoveredConnection == None && selectedNode == old(selectedNode)
    {
      hoveredConnection := None;
    }
  }
}
