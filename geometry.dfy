/** The structured mesh generator: the axisymmetric r-z quad mesh with its
    node numbering, connectivity and boundary sets, the 1-D radial mesh, the
    quality metrics, and the uniform refinement of an axisymmetric mesh.
 */
module Mesh {
  import opened Wrappers
  import opened Analytic

  /** A node's coordinates (r, z, theta). */
  datatype Node = Node(r: real, z: real, theta: real)

  /** `VesselMesh`: nodes, element connectivity (node indices), named
      boundary node sets, and the element counts per direction (no
      circumferential elements for an axisymmetric mesh). */
  datatype VesselMesh = VesselMesh(
    nodes: seq<Node>,
    elements: seq<seq<nat>>,
    boundaryNodes: map<string, seq<nat>>,
    nRadial: nat,
    nAxial: nat,
    nCircumferential: nat)

  /** Every element's ids refer to existing nodes (numpy's fancy indexing
      raises otherwise). */
  predicate Indexable(nodes: seq<Node>, elements: seq<seq<nat>>)
  {
    forall k, l :: 0 <= k < |elements| && 0 <= l < |elements[k]| ==> elements[k][l] < |nodes|
  }

  // ------------------------------------------------------ node numbering

  /** The id of node (i, j): axial row i, radial column j, numbered row by row. */
  function NodeId(nRadial: nat, i: nat, j: nat): nat
  {
    i * (nRadial + 1) + j
  }

  /** Row i of a grid w wide ends before row i + 1 starts. */
  lemma RowBound(i: nat, rows: nat, w: nat, j: nat)
    requires i < rows && j < w
    ensures i * w + j < rows * w
  {
    assert (i + 1) * w == i * w + w;
    assert (i + 1) * w <= rows * w by {
      var d := rows - (i + 1);
      assert rows * w == (i + 1) * w + d * w;
    }
  }

  /** Node ids run from 0 to (n_r + 1)(n_a + 1) - 1. */
  lemma NodeIdInRange(nRadial: nat, nAxial: nat, i: nat, j: nat)
    requires i <= nAxial && j <= nRadial
    ensures NodeId(nRadial, i, j) < (nRadial + 1) * (nAxial + 1)
  {
    RowBound(i, nAxial + 1, nRadial + 1, j);
    assert (nAxial + 1) * (nRadial + 1) == (nRadial + 1) * (nAxial + 1);
  }

  /** A node of an earlier row has a smaller id. */
  lemma NodeIdOrdered(nRadial: nat, i: nat, j: nat, k: nat, l: nat)
    requires i < k && j <= nRadial
    ensures NodeId(nRadial, i, j) < NodeId(nRadial, k, l)
  {
    RowBound(i, k, nRadial + 1, j);
  }

  /** Distinct grid positions get distinct ids. */
  lemma NodeIdInjective(nRadial: nat, i: nat, j: nat, k: nat, l: nat)
    requires j <= nRadial && l <= nRadial
    ensures NodeId(nRadial, i, j) == NodeId(nRadial, k, l) <==> i == k && j == l
  {
    if i < k {
      NodeIdOrdered(nRadial, i, j, k, l);
    } else if k < i {
      NodeIdOrdered(nRadial, k, l, i, j);
    }
  }

  /** The counter-clockwise quad of cell (i, j). */
  function Quad(nRadial: nat, i: nat, j: nat): seq<nat>
  {
    [NodeId(nRadial, i, j), NodeId(nRadial, i, j + 1), NodeId(nRadial, i + 1, j + 1), NodeId(nRadial, i + 1, j)]
  }

  // ------------------------------------------------- the axisymmetric grid

  /** One axial row of nodes at height zv. */
  function RowNodes(r: seq<real>, zv: real): (row: seq<Node>)
    ensures |row| == |r|
  {
    seq(|r|, j requires 0 <= j < |r| => Node(r[j], zv, 0.0))
  }

  /** The first `rows` rows of nodes, row by row. */
  function GridNodes(r: seq<real>, z: seq<real>, rows: nat): (g: seq<Node>)
    requires rows <= |z|
    ensures |g| == rows * |r|
  {
    if rows == 0 then []
    else
      assert (rows - 1) * |r| + |r| == rows * |r|;
      GridNodes(r, z, rows - 1) + RowNodes(r, z[rows - 1])
  }

  /** Node (i, j) of the grid sits at (r[j], z[i], 0). */
  lemma {:induction false} GridNodesAt(r: seq<real>, z: seq<real>, rows: nat, i: nat, j: nat)
    requires rows <= |z| && i < rows && j < |r|
    ensures i * |r| + j < |GridNodes(r, z, rows)|
    ensures GridNodes(r, z, rows)[i * |r| + j] == Node(r[j], z[i], 0.0)
  {
    RowBound(i, rows, |r|, j);
    var prev := GridNodes(r, z, rows - 1);
    if i < rows - 1 {
      GridNodesAt(r, z, rows - 1, i, j);
      assert GridNodes(r, z, rows)[i * |r| + j] == prev[i * |r| + j];
    } else {
      assert GridNodes(r, z, rows)[i * |r| + j] == RowNodes(r, z[rows - 1])[j];
    }
  }

  /** Every node of the grid is node (i, j) for some row i and column j. */
  lemma {:induction false} GridNodesCovered(r: seq<real>, z: seq<real>, rows: nat, k: nat)
    requires rows <= |z| && k < |GridNodes(r, z, rows)|
    ensures exists i, j :: 0 <= i < rows && 0 <= j < |r| && GridNodes(r, z, rows)[k] == Node(r[j], z[i], 0.0)
  {
    var prev := GridNodes(r, z, rows - 1);
    if k < |prev| {
      GridNodesCovered(r, z, rows - 1, k);
      assert GridNodes(r, z, rows)[k] == prev[k];
    } else {
      var j := k - |prev|;
      assert GridNodes(r, z, rows)[k] == RowNodes(r, z[rows - 1])[j];
    }
  }

  /** One axial row of quads. */
  function RowQuads(nRadial: nat, i: nat): (row: seq<seq<nat>>)
    ensures |row| == nRadial
  {
    seq(nRadial, j requires 0 <= j < nRadial => Quad(nRadial, i, j))
  }

  /** The first `rows` rows of quads, row by row. */
  function QuadRows(nRadial: nat, rows: nat): (q: seq<seq<nat>>)
    ensures |q| == rows * nRadial
  {
    if rows == 0 then []
    else
      assert (rows - 1) * nRadial + nRadial == rows * nRadial;
      QuadRows(nRadial, rows - 1) + RowQuads(nRadial, rows - 1)
  }

  /** Element i·n_r + j is the quad of cell (i, j). */
  lemma {:induction false} QuadRowsAt(nRadial: nat, rows: nat, i: nat, j: nat)
    requires i < rows && j < nRadial
    ensures i * nRadial + j < |QuadRows(nRadial, rows)|
    ensures QuadRows(nRadial, rows)[i * nRadial + j] == Quad(nRadial, i, j)
  {
    RowBound(i, rows, nRadial, j);
    var prev := QuadRows(nRadial, rows - 1);
    if i < rows - 1 {
      QuadRowsAt(nRadial, rows - 1, i, j);
      assert QuadRows(nRadial, rows)[i * nRadial + j] == prev[i * nRadial + j];
    } else {
      assert QuadRows(nRadial, rows)[i * nRadial + j] == RowQuads(nRadial, rows - 1)[j];
    }
  }

  /** The quads of the first `rows` rows only use nodes of the first rows + 1 rows. */
  lemma {:induction false} QuadRowsInRange(nRadial: nat, rows: nat, k: nat, l: nat)
    requires k < |QuadRows(nRadial, rows)| && l < |QuadRows(nRadial, rows)[k]|
    ensures QuadRows(nRadial, rows)[k][l] < (nRadial + 1) * (rows + 1)
  {
    var prev := QuadRows(nRadial, rows - 1);
    if k < |prev| {
      QuadRowsInRange(nRadial, rows - 1, k, l);
      assert QuadRows(nRadial, rows)[k] == prev[k];
      assert (nRadial + 1) * rows <= (nRadial + 1) * (rows + 1);
    } else {
      var j := k - |prev|;
      assert QuadRows(nRadial, rows)[k] == Quad(nRadial, rows - 1, j);
      NodeIdInRange(nRadial, rows, rows - 1, j);
      NodeIdInRange(nRadial, rows, rows - 1, j + 1);
      NodeIdInRange(nRadial, rows, rows, j + 1);
      NodeIdInRange(nRadial, rows, rows, j);
    }
  }

  /** The boundary node sets: the inner (column 0) and outer (column n_r)
      surfaces, the bottom (row 0) and top (row n_a) edges. */
  function Boundaries(nRadial: nat, nAxial: nat): map<string, seq<nat>>
  {
    map[
      "inner" := seq(nAxial + 1, i requires 0 <= i <= nAxial => NodeId(nRadial, i, 0)),
      "outer" := seq(nAxial + 1, i requires 0 <= i <= nAxial => NodeId(nRadial, i, nRadial)),
      "bottom" := seq(nRadial + 1, j requires 0 <= j <= nRadial => NodeId(nRadial, 0, j)),
      "top" := seq(nRadial + 1, j requires 0 <= j <= nRadial => NodeId(nRadial, nAxial, j))]
  }

  /** The mesh `create_axisymmetric_mesh` builds. */
  function AxisymmetricMesh(innerRadius: real, outerRadius: real, length: real, nRadial: nat, nAxial: nat)
    : VesselMesh
  {
    VesselMesh(
      GridNodes(Linspace(innerRadius, outerRadius, nRadial + 1), Linspace(0.0, length, nAxial + 1), nAxial + 1),
      QuadRows(nRadial, nAxial), Boundaries(nRadial, nAxial), nRadial, nAxial, 0)
  }

  /** The counts of the axisymmetric mesh: (n_r + 1)(n_a + 1) nodes and
      n_r·n_a quads, every id in range, no circumferential elements, and
      the four boundary sets with n_a + 1 and n_r + 1 entries. */
  lemma AxisymmetricMeshCounts(innerRadius: real, outerRadius: real, length: real, nRadial: nat, nAxial: nat)
    ensures var m := AxisymmetricMesh(innerRadius, outerRadius, length, nRadial, nAxial);
      && |m.nodes| == (nRadial + 1) * (nAxial + 1)
      && |m.elements| == nRadial * nAxial
      && Indexable(m.nodes, m.elements)
      && m.nCircumferential == 0
      && m.boundaryNodes.Keys == {"inner", "outer", "bottom", "top"}
      && |m.boundaryNodes["inner"]| == nAxial + 1 && |m.boundaryNodes["outer"]| == nAxial + 1
      && |m.boundaryNodes["bottom"]| == nRadial + 1 && |m.boundaryNodes["top"]| == nRadial + 1
  {
    var m := AxisymmetricMesh(innerRadius, outerRadius, length, nRadial, nAxial);
    assert (nAxial + 1) * (nRadial + 1) == (nRadial + 1) * (nAxial + 1);
    assert nAxial * nRadial == nRadial * nAxial;
    forall k, l | 0 <= k < |m.elements| && 0 <= l < |m.elements[k]|
      ensures m.elements[k][l] < |m.nodes|
    {
      QuadRowsInRange(nRadial, nAxial, k, l);
    }
  }

  /** Node (i, j) of the axisymmetric mesh sits at (r_j, z_i, 0). */
  lemma AxisymmetricMeshNodes(innerRadius: real, outerRadius: real, length: real, nRadial: nat, nAxial: nat,
                              i: nat, j: nat)
    requires i <= nAxial && j <= nRadial
    ensures var m := AxisymmetricMesh(innerRadius, outerRadius, length, nRadial, nAxial);
      && NodeId(nRadial, i, j) < |m.nodes|
      && m.nodes[NodeId(nRadial, i, j)]
         == Node(Linspace(innerRadius, outerRadius, nRadial + 1)[j], Linspace(0.0, length, nAxial + 1)[i], 0.0)
  {
    GridNodesAt(Linspace(innerRadius, outerRadius, nRadial + 1), Linspace(0.0, length, nAxial + 1), nAxial + 1, i, j);
  }

  /** Element i·n_r + j of the axisymmetric mesh is the quad of cell (i, j). */
  lemma AxisymmetricMeshElements(innerRadius: real, outerRadius: real, length: real, nRadial: nat, nAxial: nat,
                                 i: nat, j: nat)
    requires i < nAxial && j < nRadial
    ensures var m := AxisymmetricMesh(innerRadius, outerRadius, length, nRadial, nAxial);
      i * nRadial + j < |m.elements| && m.elements[i * nRadial + j] == Quad(nRadial, i, j)
  {
    QuadRowsAt(nRadial, nAxial, i, j);
  }

  /** The node loop: nodes row by row (r fastest), each id recorded as the
      number of nodes placed before it. */
  method PlaceNodes(r: seq<real>, z: seq<real>) returns (nodes: seq<Node>, ids: map<(nat, nat), nat>)
    ensures nodes == GridNodes(r, z, |z|)
    ensures forall i: nat, j: nat :: (i, j) in ids <==> i < |z| && j < |r|
    ensures forall i: nat, j: nat :: (i, j) in ids ==> ids[(i, j)] == i * |r| + j
  {
    nodes, ids := [], map[];
    var i := 0;
    while i < |z|
      invariant 0 <= i <= |z|
      invariant nodes == GridNodes(r, z, i)
      invariant forall a: nat, b: nat :: (a, b) in ids <==> a < i && b < |r|
      invariant forall a: nat, b: nat :: (a, b) in ids ==> ids[(a, b)] == a * |r| + b
    {
      var j := 0;
      while j < |r|
        invariant 0 <= j <= |r|
        invariant nodes == GridNodes(r, z, i) + RowNodes(r, z[i])[..j]
        invariant forall a: nat, b: nat :: (a, b) in ids <==> (a < i && b < |r|) || (a == i && b < j)
        invariant forall a: nat, b: nat :: (a, b) in ids ==> ids[(a, b)] == a * |r| + b
      {
        ids := ids[(i, j) := |nodes|];
        nodes := nodes + [Node(r[j], z[i], 0.0)];
        assert RowNodes(r, z[i])[..j + 1] == RowNodes(r, z[i])[..j] + [Node(r[j], z[i], 0.0)];
        j := j + 1;
      }
      assert RowNodes(r, z[i])[..|r|] == RowNodes(r, z[i]);
      i := i + 1;
    }
  }

  /** The element loop: the quad of every cell, row by row, looked up
      through the recorded ids. */
  method ConnectQuads(nRadial: nat, nAxial: nat, ids: map<(nat, nat), nat>) returns (elements: seq<seq<nat>>)
    requires forall i: nat, j: nat :: i <= nAxial && j <= nRadial ==> (i, j) in ids
    requires forall i: nat, j: nat :: (i, j) in ids ==> ids[(i, j)] == NodeId(nRadial, i, j)
    ensures elements == QuadRows(nRadial, nAxial)
  {
    elements := [];
    var i := 0;
    while i < nAxial
      invariant 0 <= i <= nAxial
      invariant elements == QuadRows(nRadial, i)
    {
      var j := 0;
      while j < nRadial
        invariant 0 <= j <= nRadial
        invariant elements == QuadRows(nRadial, i) + RowQuads(nRadial, i)[..j]
      {
        var quad := [ids[(i, j)], ids[(i, j + 1)], ids[(i + 1, j + 1)], ids[(i + 1, j)]];
        assert quad == Quad(nRadial, i, j);
        elements := elements + [quad];
        assert RowQuads(nRadial, i)[..j + 1] == RowQuads(nRadial, i)[..j] + [quad];
        j := j + 1;
      }
      assert RowQuads(nRadial, i)[..nRadial] == RowQuads(nRadial, i);
      i := i + 1;
    }
  }

  /** `create_axisymmetric_mesh`. */
  method CreateAxisymmetricMesh(innerRadius: real, outerRadius: real, length: real, nRadial: nat, nAxial: nat)
    returns (m: VesselMesh)
    ensures m == AxisymmetricMesh(innerRadius, outerRadius, length, nRadial, nAxial)
  {
    var r := Linspace(innerRadius, outerRadius, nRadial + 1);
    var z := Linspace(0.0, length, nAxial + 1);
    var nodes, ids := PlaceNodes(r, z);
    var elements := ConnectQuads(nRadial, nAxial, ids);
    var inner := seq(nAxial + 1, i requires 0 <= i <= nAxial => ids[(i, 0)]);
    var outer := seq(nAxial + 1, i requires 0 <= i <= nAxial => ids[(i, nRadial)]);
    var bottom := seq(nRadial + 1, j requires 0 <= j <= nRadial => ids[(0, j)]);
    var top := seq(nRadial + 1, j requires 0 <= j <= nRadial => ids[(nAxial, j)]);
    var b := Boundaries(nRadial, nAxial);
    assert inner == b["inner"];
    assert outer == b["outer"];
    assert bottom == b["bottom"];
    assert top == b["top"];
    var boundary := map["inner" := inner, "outer" := outer, "bottom" := bottom, "top" := top];
    m := VesselMesh(nodes, elements, boundary, nRadial, nAxial, 0);
  }

  // ----------------------------------------------------------- the 1-D mesh

  /** `create_1d_radial_mesh`: n + 1 nodes along the radius and n line
      elements between neighbours. */
  function RadialMesh(innerRadius: real, outerRadius: real, nElements: nat): (m: VesselMesh)
    ensures |m.nodes| == nElements + 1 && |m.elements| == nElements
    ensures Indexable(m.nodes, m.elements)
    ensures forall i :: 0 <= i < nElements ==> m.elements[i] == [i, i + 1]
    ensures forall i :: 0 <= i < nElements - 1 ==> m.elements[i][1] == m.elements[i + 1][0]
    ensures m.nodes[0] == Node(innerRadius, 0.0, 0.0)
    ensures nElements >= 1 ==> m.nodes[nElements] == Node(outerRadius, 0.0, 0.0)
    ensures forall i :: 0 <= i <= nElements ==> m.nodes[i].z == 0.0 && m.nodes[i].theta == 0.0
    ensures m.boundaryNodes == map["inner" := [0], "outer" := [nElements]]
    ensures m.nRadial == nElements && m.nAxial == 0 && m.nCircumferential == 0
  {
    var r := Linspace(innerRadius, outerRadius, nElements + 1);
    VesselMesh(
      seq(nElements + 1, i requires 0 <= i <= nElements => Node(r[i], 0.0, 0.0)),
      seq(nElements, i requires 0 <= i < nElements => [i, i + 1]),
      map["inner" := [0], "outer" := [nElements]],
      nElements, 0, 0)
  }

  // ----------------------------------------------------------- the quality

  /** `np.linalg.norm(b - a)`. */
  function Distance(e: Elementary, a: Node, b: Node): real
  {
    e.sqrt(Square(b.r - a.r) + Square(b.z - a.z) + Square(b.theta - a.theta))
  }

  /** The size and aspect ratio of one element: for a line its length and
      1, for a quad its shortest edge and longest over shortest edge (1 for
      a degenerate quad); other elements are not measured. */
  function Measure(e: Elementary, nodes: seq<Node>, elem: seq<nat>): Option<(real, real)>
    requires forall l :: 0 <= l < |elem| ==> elem[l] < |nodes|
  {
    if |elem| == 2 then
      Some((Distance(e, nodes[elem[0]], nodes[elem[1]]), 1.0))
    else if |elem| == 4 then
      var e1 := Distance(e, nodes[elem[0]], nodes[elem[1]]);
      var e2 := Distance(e, nodes[elem[1]], nodes[elem[2]]);
      var e3 := Distance(e, nodes[elem[2]], nodes[elem[3]]);
      var e4 := Distance(e, nodes[elem[3]], nodes[elem[0]]);
      var minEdge := Min(Min(e1, e2), Min(e3, e4));
      var maxEdge := Max(Max(e1, e2), Max(e3, e4));
      Some((minEdge, if minEdge > 0.0 then maxEdge / minEdge else 1.0))
    else None
  }

  /** With a lawful square root sizes are non-negative and ratios at least 1. */
  lemma MeasureBounds(e: Elementary, nodes: seq<Node>, elem: seq<nat>)
    requires Lawful(e)
    requires forall l :: 0 <= l < |elem| ==> elem[l] < |nodes|
    ensures Measure(e, nodes, elem).Some? <==> |elem| == 2 || |elem| == 4
    ensures Measure(e, nodes, elem).Some? ==>
      Measure(e, nodes, elem).value.0 >= 0.0 && Measure(e, nodes, elem).value.1 >= 1.0
    ensures |elem| == 2 ==> Measure(e, nodes, elem).value.1 == 1.0
  {
    if |elem| == 4 {
      var e1 := Distance(e, nodes[elem[0]], nodes[elem[1]]);
      var e2 := Distance(e, nodes[elem[1]], nodes[elem[2]]);
      var e3 := Distance(e, nodes[elem[2]], nodes[elem[3]]);
      var e4 := Distance(e, nodes[elem[3]], nodes[elem[0]]);
      DistanceNonNegative(e, nodes[elem[0]], nodes[elem[1]]);
      DistanceNonNegative(e, nodes[elem[1]], nodes[elem[2]]);
      DistanceNonNegative(e, nodes[elem[2]], nodes[elem[3]]);
      DistanceNonNegative(e, nodes[elem[3]], nodes[elem[0]]);
      var minEdge := Min(Min(e1, e2), Min(e3, e4));
      var maxEdge := Max(Max(e1, e2), Max(e3, e4));
      if minEdge > 0.0 {
        RatioAtLeastOne(maxEdge, minEdge);
      }
    } else if |elem| == 2 {
      DistanceNonNegative(e, nodes[elem[0]], nodes[elem[1]]);
    }
  }

  /** Distances are non-negative. */
  lemma DistanceNonNegative(e: Elementary, a: Node, b: Node)
    requires Lawful(e)
    ensures Distance(e, a, b) >= 0.0
  {
    SquarePositive(b.r - a.r);
    SquarePositive(b.z - a.z);
    SquarePositive(b.theta - a.theta);
  }

  /** A longest edge over a positive shortest edge is at least 1. */
  lemma RatioAtLeastOne(longest: real, shortest: real)
    requires 0.0 < shortest <= longest
    ensures longest / shortest >= 1.0
  {
    var q := longest / shortest;
    assert q * shortest == longest;
    if q < 1.0 {
      ScaleOrder(q, 1.0, shortest);
    }
  }

  /** The measurements of the measured elements, in element order. */
  function Measurements(e: Elementary, nodes: seq<Node>, elements: seq<seq<nat>>): (ms: seq<(real, real)>)
    requires Indexable(nodes, elements)
    ensures |ms| <= |elements|
  {
    if elements == [] then []
    else
      var last := elements[|elements| - 1];
      assert forall l :: 0 <= l < |last| ==> last[l] < |nodes|;
      Measurements(e, nodes, elements[..|elements| - 1])
      + match Measure(e, nodes, last) case None => [] case Some(x) => [x]
  }

  /** A mesh of lines and quads measures every element. */
  lemma {:induction false} AllMeasured(e: Elementary, nodes: seq<Node>, elements: seq<seq<nat>>)
    requires Lawful(e) && Indexable(nodes, elements)
    requires forall k :: 0 <= k < |elements| ==> |elements[k]| == 2 || |elements[k]| == 4
    ensures |Measurements(e, nodes, elements)| == |elements|
  {
    if elements != [] {
      var last := elements[|elements| - 1];
      AllMeasured(e, nodes, elements[..|elements| - 1]);
      MeasureBounds(e, nodes, last);
    }
  }

  /** Every aspect ratio measured is at least 1 and every size non-negative. */
  lemma {:induction false} MeasurementsBounds(e: Elementary, nodes: seq<Node>, elements: seq<seq<nat>>)
    requires Lawful(e) && Indexable(nodes, elements)
    ensures forall k :: 0 <= k < |Measurements(e, nodes, elements)| ==>
      Measurements(e, nodes, elements)[k].0 >= 0.0 && Measurements(e, nodes, elements)[k].1 >= 1.0
  {
    if elements != [] {
      var last := elements[|elements| - 1];
      MeasurementsBounds(e, nodes, elements[..|elements| - 1]);
      MeasureBounds(e, nodes, last);
    }
  }

  /** The sizes and the aspect ratios of a list of measurements. */
  function Sizes(ms: seq<(real, real)>): (s: seq<real>)
  {
    seq(|ms|, k requires 0 <= k < |ms| => ms[k].0)
  }

  function Ratios(ms: seq<(real, real)>): (s: seq<real>)
  {
    seq(|ms|, k requires 0 <= k < |ms| => ms[k].1)
  }

  /** `calculate_mesh_quality`'s metrics. */
  datatype Quality = Quality(
    elementCount: nat, nodeCount: nat, minElementSize: real, maxElementSize: real, aspectRatio: real)

  /** The metrics of a list of measurements: the smallest and largest size
      and the mean ratio, or 0, 0 and 1 when nothing was measured. */
  function QualityOf(elementCount: nat, nodeCount: nat, ms: seq<(real, real)>): Quality
  {
    if |ms| == 0 then Quality(elementCount, nodeCount, 0.0, 0.0, 1.0)
    else Quality(elementCount, nodeCount, SeqMin(Sizes(ms)), SeqMax(Sizes(ms)), Sum(Ratios(ms)) / |ms| as real)
  }

  /** `calculate_mesh_quality`: the measuring loop over the elements. */
  method CalculateMeshQuality(e: Elementary, mesh: VesselMesh) returns (q: Quality)
    requires Indexable(mesh.nodes, mesh.elements)
    ensures q == QualityOf(|mesh.elements|, |mesh.nodes|, Measurements(e, mesh.nodes, mesh.elements))
  {
    var sizes: seq<real> := [];
    var ratios: seq<real> := [];
    ghost var ms: seq<(real, real)> := [];
    var k := 0;
    while k < |mesh.elements|
      invariant 0 <= k <= |mesh.elements|
      invariant ms == Measurements(e, mesh.nodes, mesh.elements[..k])
      invariant sizes == Sizes(ms) && ratios == Ratios(ms)
    {
      var elem := mesh.elements[k];
      MeasurementsStep(e, mesh.nodes, mesh.elements, k);
      var measured := Measure(e, mesh.nodes, elem);
      if measured.Some? {
        SizesRatiosAppend(ms, measured.value);
        ms := ms + [measured.value];
        sizes := sizes + [measured.value.0];
        ratios := ratios + [measured.value.1];
      }
      k := k + 1;
    }
    assert mesh.elements[..k] == mesh.elements;
    if |sizes| > 0 {
      q := Quality(|mesh.elements|, |mesh.nodes|, SeqMin(sizes), SeqMax(sizes), Sum(ratios) / |ratios| as real);
    } else {
      q := Quality(|mesh.elements|, |mesh.nodes|, 0.0, 0.0, 1.0);
    }
  }

  /** Measuring one more element of a mesh appends its measurement, if any. */
  lemma MeasurementsStep(e: Elementary, nodes: seq<Node>, elements: seq<seq<nat>>, k: nat)
    requires Indexable(nodes, elements) && k < |elements|
    ensures Indexable(nodes, elements[..k]) && Indexable(nodes, elements[..k + 1])
    ensures forall l :: 0 <= l < |elements[k]| ==> elements[k][l] < |nodes|
    ensures Measurements(e, nodes, elements[..k + 1])
         == Measurements(e, nodes, elements[..k])
            + match Measure(e, nodes, elements[k]) case None => [] case Some(x) => [x]
  {
    assert elements[..k + 1][..k] == elements[..k];
  }

  /** The sizes and ratios of one more measurement end with its parts. */
  lemma SizesRatiosAppend(ms: seq<(real, real)>, x: (real, real))
    ensures Sizes(ms + [x]) == Sizes(ms) + [x.0]
    ensures Ratios(ms + [x]) == Ratios(ms) + [x.1]
  {
  }

  /** The metrics count the mesh and are ordered: 0 <= min size <= max
      size and mean ratio >= 1. */
  lemma QualityBounds(e: Elementary, mesh: VesselMesh)
    requires Lawful(e) && Indexable(mesh.nodes, mesh.elements)
    ensures var q := QualityOf(|mesh.elements|, |mesh.nodes|, Measurements(e, mesh.nodes, mesh.elements));
      && q.elementCount == |mesh.elements| && q.nodeCount == |mesh.nodes|
      && 0.0 <= q.minElementSize <= q.maxElementSize
      && q.aspectRatio >= 1.0
  {
    var ms := Measurements(e, mesh.nodes, mesh.elements);
    MeasurementsBounds(e, mesh.nodes, mesh.elements);
    if |ms| > 0 {
      var s := Sizes(ms);
      assert SeqMin(s) >= 0.0;
      assert SeqMin(s) <= s[0] <= SeqMax(s);
      MeanAtLeastOne(Ratios(ms));
    }
  }

  /** A mesh of line elements only has mean aspect ratio exactly 1. */
  lemma LineMeshAspectOne(e: Elementary, mesh: VesselMesh)
    requires Lawful(e) && Indexable(mesh.nodes, mesh.elements)
    requires forall k :: 0 <= k < |mesh.elements| ==> |mesh.elements[k]| == 2
    ensures QualityOf(|mesh.elements|, |mesh.nodes|, Measurements(e, mesh.nodes, mesh.elements)).aspectRatio == 1.0
  {
    var ms := Measurements(e, mesh.nodes, mesh.elements);
    if |ms| > 0 {
      LinesRatioOne(e, mesh.nodes, mesh.elements);
      SumOfOnes(Ratios(ms));
      DivSelf(1.0, |ms| as real);
    }
  }

  /** Measuring lines only gives ratio 1 throughout. */
  lemma {:induction false} LinesRatioOne(e: Elementary, nodes: seq<Node>, elements: seq<seq<nat>>)
    requires Lawful(e) && Indexable(nodes, elements)
    requires forall k :: 0 <= k < |elements| ==> |elements[k]| == 2
    ensures forall k :: 0 <= k < |Measurements(e, nodes, elements)| ==> Measurements(e, nodes, elements)[k].1 == 1.0
  {
    if elements != [] {
      var last := elements[|elements| - 1];
      LinesRatioOne(e, nodes, elements[..|elements| - 1]);
      MeasureBounds(e, nodes, last);
    }
  }

  /** The mean of values that are all at least 1 is at least 1. */
  lemma MeanAtLeastOne(s: seq<real>)
    requires |s| > 0 && forall k :: 0 <= k < |s| ==> s[k] >= 1.0
    ensures Sum(s) / |s| as real >= 1.0
  {
    SumAtLeastLength(s);
    var n := |s| as real;
    var q := Sum(s) / n;
    assert q * n == Sum(s);
    if q < 1.0 {
      ScaleOrder(q, 1.0, n);
    }
  }

  /** A sum of values that are all at least 1 is at least their count. */
  lemma {:induction false} SumAtLeastLength(s: seq<real>)
    requires forall k :: 0 <= k < |s| ==> s[k] >= 1.0
    ensures Sum(s) >= |s| as real
  {
    if s != [] {
      SumAtLeastLength(s[1..]);
    }
  }

  // --------------------------------------------------------- refinement

  /** What numpy raises for the minimum of an empty array. */
  const EmptyMinimumError: string := "zero-size array to reduction operation minimum which has no identity"

  /** What refining a mesh with circumferential elements raises. */
  const NotImplemented3D: string := "3D mesh refinement not yet implemented"

  /** The radial and axial coordinates of the nodes. */
  function Radii(nodes: seq<Node>): (s: seq<real>)
  {
    seq(|nodes|, k requires 0 <= k < |nodes| => nodes[k].r)
  }

  function Heights(nodes: seq<Node>): (s: seq<real>)
  {
    seq(|nodes|, k requires 0 <= k < |nodes| => nodes[k].z)
  }

  /** `refine_mesh`: an axisymmetric mesh is rebuilt over the extent of its
      nodes with both counts multiplied by the factor. */
  function RefineMesh(mesh: VesselMesh, factor: nat): (r: Result<VesselMesh>)
    ensures r.Failure? <==> mesh.nCircumferential != 0 || |mesh.nodes| == 0
    ensures r.Failure? ==> r.error == if mesh.nCircumferential != 0 then NotImplemented3D else EmptyMinimumError
    ensures r.Success? ==> r.value == AxisymmetricMesh(SeqMin(Radii(mesh.nodes)), SeqMax(Radii(mesh.nodes)),
                                                       SeqMax(Heights(mesh.nodes)),
                                                       mesh.nRadial * factor, mesh.nAxial * factor)
  {
    if mesh.nCircumferential != 0 then Failure(NotImplemented3D)
    else if |mesh.nodes| == 0 then Failure(EmptyMinimumError)
    else
      Success(AxisymmetricMesh(SeqMin(Radii(mesh.nodes)), SeqMax(Radii(mesh.nodes)), SeqMax(Heights(mesh.nodes)),
                               mesh.nRadial * factor, mesh.nAxial * factor))
  }

  /** Refining multiplies the element count by the square of the factor. */
  lemma RefineCount(mesh: VesselMesh, factor: nat)
    requires mesh.nCircumferential == 0 && |mesh.nodes| > 0
    ensures var m := RefineMesh(mesh, factor).value;
      |m.elements| == mesh.nRadial * mesh.nAxial * (factor * factor)
      && m.nRadial == mesh.nRadial * factor && m.nAxial == mesh.nAxial * factor
  {
    var m := RefineMesh(mesh, factor).value;
    AxisymmetricMeshCounts(SeqMin(Radii(mesh.nodes)), SeqMax(Radii(mesh.nodes)), SeqMax(Heights(mesh.nodes)),
                          mesh.nRadial * factor, mesh.nAxial * factor);
    ScaledProduct(mesh.nRadial, mesh.nAxial, factor);
  }

  /** (a f)(b f) = a b f^2, kept apart from the mesh facts above. */
  lemma ScaledProduct(a: nat, b: nat, f: nat)
    ensures (a * f) * (b * f) == a * b * (f * f)
  {
    assert (a * f) * (b * f) == a * (f * (f * b));
  }

  /** A series with an entry x and nothing below it has minimum x; one with
      an entry x and nothing above it has maximum x. */
  lemma MinIs(s: seq<real>, x: real)
    requires x in s && forall k :: 0 <= k < |s| ==> x <= s[k]
    ensures SeqMin(s) == x
  {
    var k :| 0 <= k < |s| && s[k] == SeqMin(s);
    var l :| 0 <= l < |s| && s[l] == x;
    assert SeqMin(s) <= s[l];
  }

  lemma MaxIs(s: seq<real>, x: real)
    requires x in s && forall k :: 0 <= k < |s| ==> s[k] <= x
    ensures SeqMax(s) == x
  {
    var k :| 0 <= k < |s| && s[k] == SeqMax(s);
    var l :| 0 <= l < |s| && s[l] == x;
    assert s[l] <= SeqMax(s);
  }

  /** Refining a generated mesh with at least one cell per direction keeps
      its radii and length: the extent of its nodes is the one it was built
      over. */
  lemma RefineKeepsGeometry(innerRadius: real, outerRadius: real, length: real, nRadial: nat, nAxial: nat,
                            factor: nat)
    requires innerRadius <= outerRadius && 0.0 <= length
    requires nRadial >= 1 && nAxial >= 1
    ensures RefineMesh(AxisymmetricMesh(innerRadius, outerRadius, length, nRadial, nAxial), factor)
      == Success(AxisymmetricMesh(innerRadius, outerRadius, length, nRadial * factor, nAxial * factor))
  {
    var m := AxisymmetricMesh(innerRadius, outerRadius, length, nRadial, nAxial);
    var r := Linspace(innerRadius, outerRadius, nRadial + 1);
    var z := Linspace(0.0, length, nAxial + 1);
    AxisymmetricMeshCounts(innerRadius, outerRadius, length, nRadial, nAxial);
    AxisymmetricMeshNodes(innerRadius, outerRadius, length, nRadial, nAxial, 0, 0);
    AxisymmetricMeshNodes(innerRadius, outerRadius, length, nRadial, nAxial, 0, nRadial);
    AxisymmetricMeshNodes(innerRadius, outerRadius, length, nRadial, nAxial, nAxial, 0);
    var radii, heights := Radii(m.nodes), Heights(m.nodes);
    forall k | 0 <= k < |m.nodes|
      ensures innerRadius <= radii[k] <= outerRadius && 0.0 <= heights[k] <= length
    {
      GridNodesCovered(r, z, nAxial + 1, k);
      var i, j :| 0 <= i < nAxial + 1 && 0 <= j < |r| && m.nodes[k] == Node(r[j], z[i], 0.0);
      LinspaceBetween(innerRadius, outerRadius, nRadial + 1, j);
      LinspaceBetween(0.0, length, nAxial + 1, i);
    }
    assert radii[NodeId(nRadial, 0, 0)] == innerRadius;
    assert radii[NodeId(nRadial, 0, nRadial)] == outerRadius;
    assert heights[NodeId(nRadial, nAxial, 0)] == length;
    MinIs(radii, innerRadius);
    MaxIs(radii, outerRadius);
    MaxIs(heights, length);
  }
}
