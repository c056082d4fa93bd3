/**
 The connections `connect_nodes` makes for each topology, in the order it makes them, against the
 number of connections the topology declares.
 */
module Topology {
  import opened RandomTopology

  datatype Kind =
    | Line
    | Ring
    | Mesh
    | Star
    | Grid(width: nat, height: nat)
    | Tree
    | Random(degree: nat, seed: Word)

  /** Node `from` dials node `to`. */
  datatype Edge = Edge(from: nat, to: nat)

  datatype Result = Connected(edges: seq<Edge>) | InvalidInput

  function Less(n: nat): nat { if n == 0 then 0 else n - 1 }

  /** `num_expected_connections`: both ends count a connection. */
  function NumExpected(kind: Kind, count: nat): nat {
    if count == 0 then 0 else
      match kind
      case Line => (count - 1) * 2
      case Ring => count * 2
      case Mesh => (count - 1) * count
      case Star => (count - 1) * 2
      case Grid(w, h) => (Less(w) * h + w * Less(h)) * 2
      case Tree => (count - 1) * 2
      case Random(degree, _) => count * degree * 2
  }

  /** When `connect_nodes` takes the request at all. */
  predicate Acceptable(kind: Kind, count: nat) {
    && count >= 2
    && (kind.Grid? ==> kind.width * kind.height == count)
    && (kind.Random? ==> kind.degree < count)
  }

  /** The connections a topology stands for. */
  predicate Belongs(kind: Kind, count: nat, e: Edge)
    requires Acceptable(kind, count) && !kind.Random?
  {
    match kind
    case Line => e.to == e.from + 1 < count
    case Ring => e.to == e.from + 1 < count || e == Edge(count - 1, 0)
    case Mesh => e.from < e.to < count
    case Star => 0 < e.from < count && e.to == 0
    case Grid(w, _) => (e.to == e.from + 1 && e.from % w + 1 < w && e.from < count) || e.to == e.from + w < count
    case Tree => (e.to == 2 * e.from + 1 || e.to == 2 * e.from + 2) && e.to < count
  }

  predicate SamePair(a: Edge, b: Edge) {
    a == b || a == Edge(b.to, b.from)
  }

  predicate Simple(edges: seq<Edge>) {
    forall a, b :: 0 <= a < b < |edges| ==> !SamePair(edges[a], edges[b])
  }

  predicate Proper(edges: seq<Edge>, count: nat) {
    forall e :: e in edges ==> e.from < count && e.to < count && e.from != e.to
  }

  /** The edges are listed once each. */
  predicate Once(edges: seq<Edge>) {
    forall a, b :: 0 <= a < b < |edges| ==> edges[a] != edges[b]
  }

  lemma OnceMore(edges: seq<Edge>, e: Edge)
    requires Once(edges) && e !in edges
    ensures Once(edges + [e])
  {
  }

  // ---- the loops --------------------------------------------------------------------------

  /** The edges of a topology that are dialled by the nodes before `i`, each once. */
  ghost predicate UpTo(kind: Kind, count: nat, edges: seq<Edge>, i: nat)
    requires Acceptable(kind, count) && !kind.Random?
  {
    Once(edges) && forall e :: e in edges <==> e.from < i && Belongs(kind, count, e)
  }

  method ConnectLine(count: nat) returns (edges: seq<Edge>)
    requires count >= 2
    ensures UpTo(Line, count, edges, count) && |edges| == count - 1
  {
    edges := [];
    for i := 0 to count - 1
      invariant |edges| == i && UpTo(Line, count, edges, i)
    {
      OnceMore(edges, Edge(i, i + 1));
      edges := edges + [Edge(i, i + 1)];
    }
  }

  method ConnectMesh(count: nat) returns (edges: seq<Edge>)
    requires count >= 2
    ensures UpTo(Mesh, count, edges, count) && |edges| * 2 == (count - 1) * count
  {
    edges := [];
    for i := 0 to count
      invariant |edges| * 2 == i * (2 * count - i - 1) && UpTo(Mesh, count, edges, i)
    {
      ghost var before := |edges|;
      for j := i + 1 to count
        invariant |edges| == before + j - i - 1 && Once(edges)
        invariant forall e :: e in edges <==> e.from < e.to < count && (e.from < i || (e.from == i && e.to < j))
      {
        OnceMore(edges, Edge(i, j));
        edges := edges + [Edge(i, j)];
      }
      MeshRow(i, count);
    }
  }

  lemma MeshRow(i: nat, count: nat)
    requires i < count
    ensures i * (2 * count - i - 1) + 2 * (count - 1 - i) == (i + 1) * (2 * count - (i + 1) - 1)
  {
  }

  method ConnectStar(count: nat) returns (edges: seq<Edge>)
    requires count >= 2
    ensures UpTo(Star, count, edges, count) && |edges| == count - 1
  {
    edges := [];
    for i := 1 to count
      invariant |edges| == i - 1 && UpTo(Star, count, edges, i)
    {
      OnceMore(edges, Edge(i, 0));
      edges := edges + [Edge(i, 0)];
    }
  }

  method ConnectTree(count: nat) returns (edges: seq<Edge>)
    requires count >= 2
    ensures UpTo(Tree, count, edges, count) && |edges| == count - 1
  {
    edges := [];
    for i := 0 to count
      invariant |edges| == (if 2 * i < count - 1 then 2 * i else count - 1) && UpTo(Tree, count, edges, i)
    {
      var left := 2 * i + 1;
      if left < count {
        OnceMore(edges, Edge(i, left));
        edges := edges + [Edge(i, left)];
      }
      var right := 2 * i + 2;
      if right < count {
        OnceMore(edges, Edge(i, right));
        edges := edges + [Edge(i, right)];
      }
    }
  }

  /** How many edges the rows before `row` dial: one to the right in all columns but the last, one
      downwards in all rows but the last. */
  function GridEdges(w: nat, h: nat, row: nat): int {
    row * (w - 1) + (if row < h then row else h - 1) * w
  }

  lemma AtLeastOnce(k: int, w: nat)
    requires k >= 1
    ensures k * w >= w
  {
  }

  lemma OneSplit(q: nat, r: nat, p: nat, s: nat, w: nat)
    requires q * w + r == p * w + s && r < w && s < w
    ensures q == p && r == s
  {
    assert (p - q) * w == p * w - q * w;
    assert (q - p) * w == q * w - p * w;
    if p > q {
      AtLeastOnce(p - q, w);
    } else if p < q {
      AtLeastOnce(q - p, w);
    }
  }

  /** Division and remainder are the only such pair. */
  lemma DivMod(q: nat, w: nat, r: nat)
    requires r < w
    ensures (q * w + r) / w == q && (q * w + r) % w == r
  {
    var x := q * w + r;
    OneSplit(q, r, x / w, x % w, w);
  }

  lemma Cell(w: nat, h: nat, row: nat, col: nat, base: nat)
    requires row < h && col < w && base == row * w
    ensures base + col < w * h && (base + col) % w == col
    ensures base + col + w < w * h <==> row + 1 < h
  {
    DivMod(row, w, col);
    AtLeastOnce(h - row, w);
    assert (h - row) * w == h * w - base;
    if row + 1 < h {
      AtLeastOnce(h - row - 1, w);
      assert (h - row - 1) * w == h * w - base - w;
    }
  }

  /** What cell `i` dials. */
  function CellEdges(w: nat, i: nat, right: bool, down: bool): seq<Edge> {
    (if right then [Edge(i, i + 1)] else []) + (if down then [Edge(i, i + w)] else [])
  }

  /** It completes the edges of the cells up to and including `i`. */
  lemma EdgesOfCell(w: nat, h: nat, count: nat, edges: seq<Edge>, i: nat)
    requires count >= 2 && w * h == count && i < count && UpTo(Grid(w, h), count, edges, i)
    ensures UpTo(Grid(w, h), count, edges + CellEdges(w, i, i % w + 1 < w, i + w < count), i + 1)
  {
    var right := if i % w + 1 < w then edges + [Edge(i, i + 1)] else edges;
    assert i + w < count ==> w == 1 || Edge(i, i + w) !in right;
    assert w == 1 ==> right == edges;
    assert edges + CellEdges(w, i, i % w + 1 < w, i + w < count)
        == if i + w < count then right + [Edge(i, i + w)] else right;
  }

  lemma GridCell(w: nat, h: nat, count: nat, edges: seq<Edge>, row: nat, col: nat)
    requires count >= 2 && w * h == count && row < h && col < w && UpTo(Grid(w, h), count, edges, row * w + col)
    ensures UpTo(Grid(w, h), count, edges + CellEdges(w, row * w + col, col + 1 < w, row + 1 < h), row * w + col + 1)
  {
    Cell(w, h, row, col, row * w);
    EdgesOfCell(w, h, count, edges, row * w + col);
  }

  lemma GridRow(w: nat, h: nat, row: nat)
    requires row < h && w > 0
    ensures row * w + w == (row + 1) * w
    ensures GridEdges(w, h, row) + (w - 1) + (if row + 1 < h then w else 0) == GridEdges(w, h, row + 1)
  {
    assert row * (w - 1) + (w - 1) == (row + 1) * (w - 1);
  }

  /** All rows together dial what the topology declares. */
  lemma GridTotal(w: nat, h: nat)
    requires w > 0 && h > 0
    ensures 2 * GridEdges(w, h, h) == NumExpected(Grid(w, h), w * h)
  {
    assert GridEdges(w, h, h) == h * (w - 1) + (h - 1) * w;
    assert w * h > 0;
  }

  lemma Positive(w: nat, h: nat)
    requires w * h >= 2
    ensures w > 0 && h > 0
  {
  }

  method ConnectGrid(w: nat, h: nat, count: nat) returns (edges: seq<Edge>)
    requires count >= 2 && w * h == count
    ensures UpTo(Grid(w, h), count, edges, count) && 2 * |edges| == NumExpected(Grid(w, h), count)
  {
    Positive(w, h);
    edges := [];
    var row := 0;
    ghost var cells := 0;
    while row < h
      invariant 0 <= row <= h && cells == row * w
      invariant |edges| == GridEdges(w, h, row) && UpTo(Grid(w, h), count, edges, cells)
    {
      edges := ConnectGridRow(w, h, count, row, edges);
      GridRow(w, h, row);
      row, cells := row + 1, cells + w;
    }
    GridTotal(w, h);
  }

  /** The inner loop of the grid. */
  method ConnectGridRow(w: nat, h: nat, count: nat, row: nat, earlier: seq<Edge>) returns (edges: seq<Edge>)
    requires count >= 2 && w * h == count && row < h && UpTo(Grid(w, h), count, earlier, row * w)
    ensures UpTo(Grid(w, h), count, edges, row * w + w)
    ensures |edges| == |earlier| + w - 1 + if row + 1 < h then w else 0
  {
    edges := earlier;
    var base := row * w;
    for col := 0 to w
      invariant |edges| == |earlier| + (if col < w then col else w - 1) + if row + 1 < h then col else 0
      invariant UpTo(Grid(w, h), count, edges, base + col)
    {
      GridCell(w, h, count, edges, row, col);
      ghost var before := edges;
      var i := base + col;
      if col + 1 < w {
        edges := edges + [Edge(i, i + 1)];
      }
      if row + 1 < h {
        edges := edges + [Edge(i, i + w)];
      }
      assert edges == before + CellEdges(w, i, col + 1 < w, row + 1 < h);
    }
  }

  /** Node `k / degree` dials the k-th edge: each node dials exactly `degree` peers. */
  predicate Dialled(edges: seq<Edge>, degree: nat) {
    forall k :: 0 <= k < |edges| ==> degree > 0 && edges[k].from == k / degree
  }

  /** The edges of the nodes before `i`, and those of node `i` to its first `k` targets. */
  ghost predicate DialledUpTo(edges: seq<Edge>, count: nat, degree: nat, i: nat, targets: seq<nat>, k: nat) {
    && k <= |targets| && |edges| == i * degree + k
    && Once(edges) && Proper(edges, count) && Dialled(edges, degree)
    && (forall e :: e in edges ==> e.from < i || (e.from == i && e.to in targets[..k]))
  }

  lemma DialOne(edges: seq<Edge>, count: nat, degree: nat, i: nat, targets: seq<nat>, k: nat)
    requires DialledUpTo(edges, count, degree, i, targets, k) && i < count && k < degree == |targets|
    requires targets[k] < count && targets[k] != i && targets[k] !in targets[..k]
    ensures DialledUpTo(edges + [Edge(i, targets[k])], count, degree, i, targets, k + 1)
  {
    DivMod(i, degree, k);
    OnceMore(edges, Edge(i, targets[k]));
    assert targets[..k + 1] == targets[..k] + [targets[k]];
  }

  lemma NextNode(edges: seq<Edge>, count: nat, degree: nat, i: nat, targets: seq<nat>)
    requires DialledUpTo(edges, count, degree, i, targets, degree)
    ensures DialledUpTo(edges, count, degree, i + 1, [], 0)
  {
    assert i * degree + degree == (i + 1) * degree;
  }

  lemma SameNode(edges: seq<Edge>, count: nat, degree: nat, i: nat, targets: seq<nat>)
    requires DialledUpTo(edges, count, degree, i, [], 0)
    ensures DialledUpTo(edges, count, degree, i, targets, 0)
  {
  }

  method ConnectRandom(count: nat, degree: nat, seed: Word) returns (edges: seq<Edge>)
    requires 2 <= count <= WORD / 2 && degree < count
    ensures |edges| == count * degree && Once(edges) && Proper(edges, count) && Dialled(edges, degree)
  {
    edges := [];
    for i := 0 to count
      invariant DialledUpTo(edges, count, degree, i, [], 0)
    {
      var targets, _, chosen := ChooseTargets(i, count, degree, seed);
      SameNode(edges, count, degree, i, targets);
      for k := 0 to degree
        invariant DialledUpTo(edges, count, degree, i, targets, k)
      {
        assert targets[k] !in targets[..k];
        DialOne(edges, count, degree, i, targets, k);
        edges := edges + [Edge(i, targets[k])];
      }
      NextNode(edges, count, degree, i, targets);
    }
  }

  // ---- the whole function -----------------------------------------------------------------

  lemma BelongingIsProper(kind: Kind, count: nat, e: Edge)
    requires Acceptable(kind, count) && !kind.Random? && Belongs(kind, count, e)
    ensures e.from < count && e.to < count && e.from != e.to
  {
    if kind.Grid? && e.to == e.from + 1 && e.from % kind.width + 1 < kind.width {
      LastColumn(kind.width, kind.height, e.from);
    }
  }

  /** A cell that is not in the last column has a right neighbour. */
  lemma LastColumn(w: nat, h: nat, i: nat)
    requires w > 0 && i < w * h && i % w + 1 < w
    ensures i + 1 < w * h
  {
    if i + 1 == w * h {
      assert (h - 1) * w + (w - 1) == i;
      DivMod(h - 1, w, w - 1);
    }
  }

  /** Two opposite connections belong to the same topology only in a ring of two. */
  lemma OppositeOnlyInTinyRing(kind: Kind, count: nat, e: Edge)
    requires Acceptable(kind, count) && !kind.Random?
    ensures Belongs(kind, count, e) && Belongs(kind, count, Edge(e.to, e.from)) ==> kind.Ring? && count == 2
  {
  }

  /** The listed edges never join the same two nodes twice, unless they are those of a ring of two. */
  lemma SimpleExactly(kind: Kind, count: nat, edges: seq<Edge>)
    requires Acceptable(kind, count) && !kind.Random? && UpTo(kind, count, edges, count)
    ensures Simple(edges) <==> !(kind.Ring? && count == 2)
  {
    forall a, b | 0 <= a < b < |edges| && SamePair(edges[a], edges[b])
      ensures kind.Ring? && count == 2
    {
      assert edges[a] in edges && edges[b] in edges;
      OppositeOnlyInTinyRing(kind, count, edges[a]);
    }
    if kind.Ring? && count == 2 {
      var a :| 0 <= a < |edges| && edges[a] == Edge(0, 1);
      var b :| 0 <= b < |edges| && edges[b] == Edge(1, 0);
      assert SamePair(edges[a], edges[b]) && SamePair(edges[b], edges[a]);
    }
  }

  method ConnectRing(count: nat) returns (edges: seq<Edge>)
    requires count >= 2
    ensures UpTo(Ring, count, edges, count) && |edges| == count
  {
    edges := ConnectLine(count);
    OnceMore(edges, Edge(count - 1, 0));
    edges := edges + [Edge(count - 1, 0)];
  }

  /** `connect_nodes`: rejected exactly when the request makes no sense; otherwise as many
      connections as declared, none of a node to itself, exactly those the topology stands for. */
  method ConnectNodes(kind: Kind, count: nat) returns (r: Result)
    requires count <= WORD / 2
    ensures r.InvalidInput? <==> !Acceptable(kind, count)
    ensures r.Connected? ==> 2 * |r.edges| == NumExpected(kind, count) && Proper(r.edges, count) && Once(r.edges)
    ensures r.Connected? && kind.Random? ==> Dialled(r.edges, kind.degree)
    ensures r.Connected? && !kind.Random? ==>
      && (forall e :: e in r.edges <==> Belongs(kind, count, e))
      && (Simple(r.edges) <==> !(kind.Ring? && count == 2))
  {
    if count < 2 || (kind.Grid? && kind.width * kind.height != count) || (kind.Random? && kind.degree >= count) {
      return InvalidInput;
    }
    var edges;
    match kind {
      case Line => edges := ConnectLine(count);
      case Ring => edges := ConnectRing(count);
      case Mesh => edges := ConnectMesh(count);
      case Star => edges := ConnectStar(count);
      case Grid(w, h) =>
        edges := ConnectGrid(w, h, count);
      case Tree => edges := ConnectTree(count);
      case Random(degree, seed) =>
        edges := ConnectRandom(count, degree, seed);
        return Connected(edges);
    }
    forall e
      ensures e in edges <==> Belongs(kind, count, e)
      ensures e in edges ==> e.from < count && e.to < count && e.from != e.to
    {
      if Belongs(kind, count, e) {
        BelongingIsProper(kind, count, e);
      }
    }
    SimpleExactly(kind, count, edges);
    return Connected(edges);
  }
}
