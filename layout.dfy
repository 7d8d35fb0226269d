/**
 * The grid layout the flowchart component computes in its effect: nodes are
 * placed row by row into one or two columns, edges are joined from the right
 * side of their source box to the left side of their target box, and the
 * container is sized to hold the grid.  All quantities are whole pixels.
 */
module Layout {
  import opened Wrappers
  import opened Domain

  const NodeWidth := 280
  const NodeHeight := 120
  const HorizontalGap := 60
  const VerticalGap := 40

  /** A node with its box. */
  datatype Box = Box(node: FlowchartNode, x: int, y: int, width: int, height: int)

  datatype Points = Points(x1: int, y1: int, x2: int, y2: int)

  /** An edge that survived the filter, with its end points. */
  datatype PlacedEdge = PlacedEdge(source: string, target: string, points: Points)

  datatype Grid = Grid(nodes: seq<Box>, edges: seq<PlacedEdge>)

  /**
   * What the effect does: return early (the layout stays as it was), throw (the
   * graph has nodes but no edge array, so `data.edges.map` fails), or store a
   * layout.
   */
  datatype Effect = Skip | Throw | SetLayout(grid: Grid)

  /** `isMobile ? 1 : Math.min(2, data.nodes.length)`. */
  function Columns(mobile: bool, n: nat): (c: nat)
    ensures n > 0 ==> 1 <= c <= 2
    ensures c == 2 <==> !mobile && n >= 2
  {
    if mobile then 1 else if n < 2 then n else 2
  }

  /**
   * Node `i` goes to column `i mod cols`, row `i div cols`: its box lies
   * within a row of `cols` boxes separated by gaps, in the band of row `i div cols`.
   */
  function Place(node: FlowchartNode, i: nat, cols: nat): (b: Box)
    requires cols > 0
    ensures b.node == node && b.width == NodeWidth && b.height == NodeHeight
    ensures b.x == (i % cols) * (NodeWidth + HorizontalGap) && b.y == (i / cols) * (NodeHeight + VerticalGap)
    ensures 0 <= b.x && b.x + b.width <= cols * (NodeWidth + HorizontalGap) - HorizontalGap
    ensures 0 <= b.y && b.y + b.height <= (i / cols + 1) * (NodeHeight + VerticalGap) - VerticalGap
  {
    var col, row := i % cols, i / cols;
    assert col * (NodeWidth + HorizontalGap) <= (cols - 1) * (NodeWidth + HorizontalGap);
    Box(node, col * (NodeWidth + HorizontalGap), row * (NodeHeight + VerticalGap), NodeWidth, NodeHeight)
  }

  /** Every box has the fixed node size. */
  predicate StandardSize(boxes: seq<Box>) {
    forall i :: 0 <= i < |boxes| ==> boxes[i].width == NodeWidth && boxes[i].height == NodeHeight
  }

  /** `data.nodes.map((node, i) => ...)`. */
  function PlaceAll(nodes: seq<FlowchartNode>, cols: nat): (r: seq<Box>)
    requires nodes == [] || cols > 0
    ensures |r| == |nodes|
    ensures forall i :: 0 <= i < |nodes| ==> r[i] == Place(nodes[i], i, cols)
    ensures StandardSize(r)
  {
    if nodes == [] then [] else PlaceAll(nodes[..|nodes| - 1], cols) + [Place(nodes[|nodes| - 1], |nodes| - 1, cols)]
  }

  /** Two boxes share no interior point. */
  predicate Disjoint(a: Box, b: Box) {
    a.x + a.width <= b.x || b.x + b.width <= a.x || a.y + a.height <= b.y || b.y + b.height <= a.y
  }

  /** Distinct indices get distinct cells, and cells are far enough apart that boxes never overlap. */
  lemma PlacesDisjoint(m: FlowchartNode, n: FlowchartNode, i: nat, j: nat, cols: nat)
    requires cols > 0 && i != j
    ensures Disjoint(Place(m, i, cols), Place(n, j, cols))
  {
  }

  /** The index of the last box carrying `id`, or -1 when there is none. */
  function LastIndex(boxes: seq<Box>, id: string): (i: int)
    ensures -1 <= i < |boxes|
    ensures i == -1 <==> forall j :: 0 <= j < |boxes| ==> boxes[j].node.id != id
    ensures i >= 0 ==> boxes[i].node.id == id && forall j :: i < j < |boxes| ==> boxes[j].node.id != id
  {
    if boxes == [] then -1
    else if boxes[|boxes| - 1].node.id == id then |boxes| - 1
    else
      assert forall j :: 0 <= j < |boxes| - 1 ==> boxes[..|boxes| - 1][j] == boxes[j];
      LastIndex(boxes[..|boxes| - 1], id)
  }

  /**
   * `new Map(positionedNodes.map(n => [n.id, n]))`: a later node with the same
   * id replaces an earlier one, so each id maps to the last node carrying it.
   */
  function NodeMap(boxes: seq<Box>): (m: map<string, Box>)
    ensures forall id :: id in m <==> LastIndex(boxes, id) >= 0
    ensures forall id :: id in m ==> m[id] == boxes[LastIndex(boxes, id)]
  {
    if boxes == [] then map[]
    else
      var b := boxes[|boxes| - 1];
      var prefix := boxes[..|boxes| - 1];
      assert forall id :: id != b.node.id ==> LastIndex(boxes, id) == LastIndex(prefix, id);
      assert forall j :: 0 <= j < |prefix| ==> prefix[j] == boxes[j];
      NodeMap(prefix)[b.node.id := b]
  }

  /** An edge whose two ends name a node. */
  predicate Known(e: FlowchartEdge, m: map<string, Box>) {
    e.source in m && e.target in m
  }

  /** The end points: the middle of the source's right side and the middle of the target's left side. */
  function Connect(e: FlowchartEdge, m: map<string, Box>): (r: PlacedEdge)
    requires Known(e, m)
    ensures r.source == e.source && r.target == e.target
    ensures var s, t := m[e.source], m[e.target];
            && r.points.x1 == s.x + s.width && r.points.y1 == s.y + s.height / 2
            && r.points.x2 == t.x && r.points.y2 == t.y + t.height / 2
    ensures var s, t := m[e.source], m[e.target];
            && (s.height >= 0 ==> s.y <= r.points.y1 <= s.y + s.height)
            && (t.height >= 0 ==> t.y <= r.points.y2 <= t.y + t.height)
  {
    var s, t := m[e.source], m[e.target];
    PlacedEdge(e.source, e.target, Points(s.x + s.width, s.y + s.height / 2, t.x, t.y + t.height / 2))
  }

  /** The indices of the edges whose two ends are known, in increasing order. */
  function Kept(edges: seq<FlowchartEdge>, m: map<string, Box>): (r: seq<nat>)
    ensures forall k :: 0 <= k < |r| ==> r[k] < |edges| && Known(edges[r[k]], m)
    ensures forall k, l :: 0 <= k < l < |r| ==> r[k] < r[l]
    ensures forall i :: 0 <= i < |edges| && Known(edges[i], m) ==> i in r
  {
    if edges == [] then []
    else
      var prior := Kept(edges[..|edges| - 1], m);
      assert forall i :: 0 <= i < |edges| - 1 ==> edges[..|edges| - 1][i] == edges[i];
      if Known(edges[|edges| - 1], m) then prior + [|edges| - 1] else prior
  }

  /** `data.edges.map(...).filter(e => e !== null)`. */
  function PlaceEdges(edges: seq<FlowchartEdge>, m: map<string, Box>): (r: seq<PlacedEdge>)
    ensures |r| == |Kept(edges, m)|
    ensures forall k :: 0 <= k < |r| ==> r[k] == Connect(edges[Kept(edges, m)[k]], m)
  {
    if edges == [] then []
    else
      var e := edges[|edges| - 1];
      var prefix := edges[..|edges| - 1];
      var prior := PlaceEdges(prefix, m);
      assert forall i :: 0 <= i < |edges| - 1 ==> prefix[i] == edges[i];
      assert Kept(edges, m) == if Known(e, m) then Kept(prefix, m) + [|edges| - 1] else Kept(prefix, m);
      if Known(e, m) then prior + [Connect(e, m)] else prior
  }

  /** The effect body. */
  function ComputeLayout(data: Option<FlowchartData>, mobile: bool): (r: Effect)
    ensures data.None? || data.value.nodes.None? ==> r == Skip
    ensures r == Throw <==> data.Some? && data.value.nodes.Some? && data.value.edges.None?
    ensures r.SetLayout? ==> data.Some? && data.value.nodes.Some? && data.value.edges.Some?
    ensures r.SetLayout? ==>
              var nodes := data.value.nodes.value;
              var cols := Columns(mobile, |nodes|);
              && |r.grid.nodes| == |nodes| && StandardSize(r.grid.nodes)
              && (forall i :: 0 <= i < |nodes| ==> r.grid.nodes[i] == Place(nodes[i], i, cols))
              && r.grid.edges == PlaceEdges(data.value.edges.value, NodeMap(r.grid.nodes))
  {
    if data.None? || data.value.nodes.None? then Skip
    else
      var nodes := data.value.nodes.value;
      if data.value.edges.None? then Throw
      else
        var boxes := PlaceAll(nodes, Columns(mobile, |nodes|));
        SetLayout(Grid(boxes, PlaceEdges(data.value.edges.value, NodeMap(boxes))))
  }

  /** `isMobile ? NODE_WIDTH : 2 * NODE_WIDTH + HORIZONTAL_GAP`. */
  function ContainerWidth(mobile: bool): (w: int)
    ensures w == if mobile then NodeWidth else 2 * NodeWidth + HorizontalGap
    ensures w == Columns(mobile, 2) * (NodeWidth + HorizontalGap) - HorizontalGap
  {
    if mobile then NodeWidth else 2 * NodeWidth + HorizontalGap
  }

  /** `Math.ceil(n / d)` for a positive whole divisor. */
  function CeilDiv(n: nat, d: nat): (q: nat)
    requires d > 0
    ensures (q - 1) * d < n <= q * d
  {
    (n + d - 1) / d
  }

  /** `Math.ceil(n / (isMobile ? 1 : 2)) * (NODE_HEIGHT + VERTICAL_GAP) - VERTICAL_GAP`. */
  function ContainerHeight(mobile: bool, n: nat): int {
    CeilDiv(n, if mobile then 1 else 2) * (NodeHeight + VerticalGap) - VerticalGap
  }

  /** No two node boxes of a computed layout overlap. */
  lemma LayoutNoOverlap(data: Option<FlowchartData>, mobile: bool, i: nat, j: nat)
    requires ComputeLayout(data, mobile).SetLayout?
    requires i < |ComputeLayout(data, mobile).grid.nodes| && j < |ComputeLayout(data, mobile).grid.nodes| && i != j
    ensures Disjoint(ComputeLayout(data, mobile).grid.nodes[i], ComputeLayout(data, mobile).grid.nodes[j])
  {
    var nodes := data.value.nodes.value;
    PlacesDisjoint(nodes[i], nodes[j], i, j, Columns(mobile, |nodes|));
  }

  /** Every node box of a computed layout lies inside the container. */
  lemma LayoutFits(data: Option<FlowchartData>, mobile: bool, i: nat)
    requires ComputeLayout(data, mobile).SetLayout?
    requires i < |ComputeLayout(data, mobile).grid.nodes|
    ensures var b, n := ComputeLayout(data, mobile).grid.nodes[i], |ComputeLayout(data, mobile).grid.nodes|;
            && 0 <= b.x && b.x + b.width <= ContainerWidth(mobile)
            && 0 <= b.y && b.y + b.height <= ContainerHeight(mobile, n)
  {
    var n := |data.value.nodes.value|;
    if mobile {
      assert CeilDiv(n, 1) == n;
    } else if n == 1 {
      assert CeilDiv(n, 2) == 1;
    } else {
      RowBound(i, n);
    }
  }

  /** On two columns, the row of index `i < n` is below `ceil(n / 2)`. */
  lemma RowBound(i: nat, n: nat)
    requires i < n
    ensures i / 2 + 1 <= CeilDiv(n, 2)
  {
  }

  /** An edge kept by `PlaceEdges` over boxes of the standard height joins the last boxes carrying its ids. */
  lemma EdgeEnds(boxes: seq<Box>, edges: seq<FlowchartEdge>, k: nat)
    requires StandardSize(boxes)
    requires k < |PlaceEdges(edges, NodeMap(boxes))|
    ensures var p := PlaceEdges(edges, NodeMap(boxes))[k];
            var s, t := LastIndex(boxes, p.source), LastIndex(boxes, p.target);
            && s >= 0 && t >= 0
            && p.points == Points(boxes[s].x + NodeWidth, boxes[s].y + NodeHeight / 2,
                                  boxes[t].x, boxes[t].y + NodeHeight / 2)
  {
    var m := NodeMap(boxes);
    ConnectEnds(boxes, edges[Kept(edges, m)[k]]);
  }

  /** An edge between known ids, over boxes of the standard size, joins the last boxes carrying those ids. */
  lemma ConnectEnds(boxes: seq<Box>, e: FlowchartEdge)
    requires StandardSize(boxes)
    requires Known(e, NodeMap(boxes))
    ensures var s, t := LastIndex(boxes, e.source), LastIndex(boxes, e.target);
            && s >= 0 && t >= 0
            && Connect(e, NodeMap(boxes)).points
               == Points(boxes[s].x + NodeWidth, boxes[s].y + NodeHeight / 2, boxes[t].x, boxes[t].y + NodeHeight / 2)
  {
    var m := NodeMap(boxes);
    var s, t := LastIndex(boxes, e.source), LastIndex(boxes, e.target);
    assert m[e.source] == boxes[s] && m[e.target] == boxes[t];
  }

  /**
   * Every drawn edge runs from the middle of the right side of the last node
   * carrying its source id to the middle of the left side of the last node
   * carrying its target id; both nodes exist.
   */
  lemma LayoutEdgeEnds(data: Option<FlowchartData>, mobile: bool, g: Grid, k: nat)
    requires ComputeLayout(data, mobile) == SetLayout(g)
    requires k < |g.edges|
    ensures var s, t := LastIndex(g.nodes, g.edges[k].source), LastIndex(g.nodes, g.edges[k].target);
            && s >= 0 && t >= 0
            && g.edges[k].points == Points(g.nodes[s].x + NodeWidth, g.nodes[s].y + NodeHeight / 2,
                                           g.nodes[t].x, g.nodes[t].y + NodeHeight / 2)
  {
    EdgeEnds(g.nodes, data.value.edges.value, k);
  }
}
