/**
 * `generate_tube`: two sweeps over an (a+1) x (b+1) grid, an outer shell of
 * radius `radius` and an inner one of radius 0.85 * `radius`, each pushing one
 * vertex per grid sample and two triangles per grid cell, followed by tangent
 * assignment.
 *
 * The float geometry of a sample (sin/cos profile, bending, normal, texture
 * coordinate) is a parameter (`TubeGeometry`) and is never interpreted; what is
 * modelled is the order of pushes, the index function and the triangle list.
 */
module Procedural {
  import opened MeshLoader

  /** The arguments of `generate_tube`. */
  datatype TubeParams = TubeParams(length: real, radius: real, bend: real, a: int, b: int)

  /** What one grid sample pushes: a position, a normal and a texture coordinate. */
  datatype Vertex = Vertex(position: Float3, normal: Float3, uv: Float2)

  /** The float geometry of sample (i, j) of the shell of radius r. */
  type TubeGeometry = (TubeParams, int, int, real) -> Vertex

  /** The inner shell is swept at this fraction of the radius. */
  const InnerRatio: real := 0.85

  /** Triangle components are 32-bit signed integers: every index stays below this. */
  const IndexLimit: int := 0x8000_0000

  /** Iterations of `for (int i = 0; i <= n; i++)`. */
  function Steps(n: int): nat {
    if n < 0 then 0 else n + 1
  }

  /** Iterations of that loop that also satisfy `i < n`. */
  function Cells(n: int): nat {
    if n < 0 then 0 else n
  }

  function Min(x: int, y: int): int {
    if x <= y then x else y
  }

  /** Vertices one sweep pushes. */
  function ShellSize(p: TubeParams): nat {
    Steps(p.a) * Steps(p.b)
  }

  /** The `toidx` lambda: row-major position of sample (i, j), shifted by `start`. */
  function ToIdx(b: int, start: int, i: int, j: int): int {
    i * (b + 1) + j + start
  }

  // ---------------------------------------------------------------------------
  // What one sweep pushes, in push order

  /** The first `n` samples of row `i`. */
  function RowVertices(p: TubeParams, geom: TubeGeometry, r: real, i: int, n: nat): seq<Vertex> {
    seq(n, j => geom(p, i, j, r))
  }

  /** The samples of rows 0 .. m-1. */
  function GridVertices(p: TubeParams, geom: TubeGeometry, r: real, m: nat): seq<Vertex> {
    if m == 0 then []
    else GridVertices(p, geom, r, m - 1) + RowVertices(p, geom, r, m - 1, Steps(p.b))
  }

  function Positions(vs: seq<Vertex>): seq<Float3> {
    seq(|vs|, k requires 0 <= k < |vs| => vs[k].position)
  }

  function Normals(vs: seq<Vertex>): seq<Float3> {
    seq(|vs|, k requires 0 <= k < |vs| => vs[k].normal)
  }

  function Uvs(vs: seq<Vertex>): seq<Float2> {
    seq(|vs|, k requires 0 <= k < |vs| => vs[k].uv)
  }

  /** The two triangles of cell (i, j), in the order and winding they are emitted. */
  function CellTriangles(b: int, start: int, i: int, j: int): seq<Int3> {
    [Int3(ToIdx(b, start, i, j), ToIdx(b, start, i, j + 1), ToIdx(b, start, i + 1, j)),
     Int3(ToIdx(b, start, i + 1, j), ToIdx(b, start, i, j + 1), ToIdx(b, start, i + 1, j + 1))]
  }

  /** Triangles emitted by the first `n` samples of row `i`: one cell per sample with i < a and j < b. */
  function RowTriangles(a: int, b: int, start: int, i: int, n: nat): seq<Int3> {
    if n == 0 then []
    else
      RowTriangles(a, b, start, i, n - 1)
      + (if i < a && n - 1 < b then CellTriangles(b, start, i, n - 1) else [])
  }

  /** Triangles emitted by rows 0 .. m-1. */
  function GridTriangles(a: int, b: int, start: int, m: nat): seq<Int3> {
    if m == 0 then []
    else GridTriangles(a, b, start, m - 1) + RowTriangles(a, b, start, m - 1, Steps(b))
  }

  predicate InRange(t: Int3, lo: int, hi: int) {
    lo <= t.x < hi && lo <= t.y < hi && lo <= t.z < hi
  }

  predicate AllInRange(ts: seq<Int3>, lo: int, hi: int) {
    forall k :: 0 <= k < |ts| ==> InRange(ts[k], lo, hi)
  }

  // ---------------------------------------------------------------------------
  // The index function

  lemma MulMono(x: int, y: int, c: int)
    requires x <= y && c >= 0
    ensures x * c <= y * c
  {
    assert y * c - x * c == (y - x) * c;
  }

  /** Over the grid, `toidx` ranges over [start, start + (a+1)(b+1)). */
  lemma ToIdxRange(a: int, b: int, start: int, i: int, j: int)
    requires 0 <= i <= a && 0 <= j <= b
    ensures start <= ToIdx(b, start, i, j) < start + Steps(a) * Steps(b)
  {
    MulMono(i, a, b + 1);
    assert Steps(a) * Steps(b) == a * (b + 1) + (b + 1);
  }

  /** `toidx` is injective over the grid: no two samples share an index. */
  lemma ToIdxInjective(b: int, start: int, i: int, j: int, i': int, j': int)
    requires 0 <= i && 0 <= i' && 0 <= j <= b && 0 <= j' <= b
    requires ToIdx(b, start, i, j) == ToIdx(b, start, i', j')
    ensures i == i' && j == j'
  {
    if i < i' {
      MulMono(i + 1, i', b + 1);
      assert false;
    } else if i' < i {
      MulMono(i' + 1, i, b + 1);
      assert false;
    }
  }

  // ---------------------------------------------------------------------------
  // Shape of one sweep

  lemma {:induction false} GridVerticesLength(p: TubeParams, geom: TubeGeometry, r: real, m: nat)
    ensures |GridVertices(p, geom, r, m)| == m * Steps(p.b)
  {
    if m > 0 {
      GridVerticesLength(p, geom, r, m - 1);
      assert m * Steps(p.b) == (m - 1) * Steps(p.b) + Steps(p.b);
    }
  }

  /** Sample (i, j) is pushed at row-major position i(b+1)+j of the sweep: push order matches `toidx`. */
  lemma {:induction false} GridVertexAt(p: TubeParams, geom: TubeGeometry, r: real, m: nat, i: nat, j: nat)
    requires i < m && j <= p.b
    ensures |GridVertices(p, geom, r, m)| == m * Steps(p.b)
    ensures i * Steps(p.b) + j < m * Steps(p.b)
    ensures GridVertices(p, geom, r, m)[i * Steps(p.b) + j] == geom(p, i, j, r)
  {
    GridVerticesLength(p, geom, r, m);
    GridVerticesLength(p, geom, r, m - 1);
    MulMono(i + 1, m, Steps(p.b));
    if i < m - 1 {
      GridVertexAt(p, geom, r, m - 1, i, j);
    } else {
      assert i * Steps(p.b) == |GridVertices(p, geom, r, m - 1)|;
    }
  }

  lemma {:induction false} RowTrianglesShape(a: int, b: int, start: int, i: int, n: nat)
    ensures |RowTriangles(a, b, start, i, n)| == if i < a then 2 * Min(n, Cells(b)) else 0
  {
    if n > 0 {
      RowTrianglesShape(a, b, start, i, n - 1);
    }
  }

  /** Within its row, cell (i, j) contributes triangles 2j and 2j+1. */
  lemma {:induction false} RowTriangleAt(a: int, b: int, start: int, i: int, n: nat, j: nat)
    requires i < a && j < Min(n, Cells(b))
    ensures |RowTriangles(a, b, start, i, n)| == 2 * Min(n, Cells(b))
    ensures RowTriangles(a, b, start, i, n)[2 * j] == CellTriangles(b, start, i, j)[0]
    ensures RowTriangles(a, b, start, i, n)[2 * j + 1] == CellTriangles(b, start, i, j)[1]
  {
    RowTrianglesShape(a, b, start, i, n);
    RowTrianglesShape(a, b, start, i, n - 1);
    if j < n - 1 {
      RowTriangleAt(a, b, start, i, n - 1, j);
    }
  }

  lemma {:induction false} GridTrianglesLength(a: int, b: int, start: int, m: nat)
    requires m <= Steps(a)
    ensures |GridTriangles(a, b, start, m)| == 2 * Cells(b) * Min(m, Cells(a))
  {
    if m > 0 {
      GridTrianglesLength(a, b, start, m - 1);
      RowTrianglesShape(a, b, start, m - 1, Steps(b));
      if m - 1 < a {
        assert Min(m, Cells(a)) == Min(m - 1, Cells(a)) + 1;
      }
    }
  }

  /** One sweep emits 2ab triangles: two per cell with i < a and j < b. */
  lemma SweepTriangleCount(a: int, b: int, start: int)
    ensures |GridTriangles(a, b, start, Steps(a))| == 2 * Cells(a) * Cells(b)
  {
    GridTrianglesLength(a, b, start, Steps(a));
  }

  /**
   * Cell (i, j) of the sweep emits triangles 2(ib+j) and 2(ib+j)+1:
   * (toidx(i,j), toidx(i,j+1), toidx(i+1,j)) and then
   * (toidx(i+1,j), toidx(i,j+1), toidx(i+1,j+1)).
   */
  lemma {:induction false} GridTriangleAt(a: int, b: int, start: int, m: nat, i: nat, j: nat)
    requires m <= Steps(a) && i < Min(m, Cells(a)) && j < Cells(b)
    ensures 2 * (i * Cells(b) + j) + 1 < |GridTriangles(a, b, start, m)|
    ensures GridTriangles(a, b, start, m)[2 * (i * Cells(b) + j)] == CellTriangles(b, start, i, j)[0]
    ensures GridTriangles(a, b, start, m)[2 * (i * Cells(b) + j) + 1] == CellTriangles(b, start, i, j)[1]
  {
    GridTrianglesLength(a, b, start, m);
    GridTrianglesLength(a, b, start, m - 1);
    RowTrianglesShape(a, b, start, m - 1, Steps(b));
    MulMono(i + 1, Min(m, Cells(a)), Cells(b));
    if i < m - 1 {
      MulMono(i + 1, Min(m - 1, Cells(a)), Cells(b));
      GridTriangleAt(a, b, start, m - 1, i, j);
    } else {
      assert |GridTriangles(a, b, start, m - 1)| == 2 * (i * Cells(b));
      RowTriangleAt(a, b, start, i, Steps(b), j);
    }
  }

  lemma CellTrianglesInRange(a: int, b: int, start: int, i: int, j: int)
    requires 0 <= i < a && 0 <= j < b
    ensures AllInRange(CellTriangles(b, start, i, j), start, start + Steps(a) * Steps(b))
  {
    ToIdxRange(a, b, start, i, j);
    ToIdxRange(a, b, start, i + 1, j);
    ToIdxRange(a, b, start, i, j + 1);
    ToIdxRange(a, b, start, i + 1, j + 1);
  }

  lemma {:induction false} RowTrianglesInRange(a: int, b: int, start: int, i: int, n: nat)
    requires 0 <= i
    ensures AllInRange(RowTriangles(a, b, start, i, n), start, start + Steps(a) * Steps(b))
  {
    if n > 0 {
      RowTrianglesInRange(a, b, start, i, n - 1);
      if i < a && n - 1 < b {
        CellTrianglesInRange(a, b, start, i, n - 1);
      }
    }
  }

  /** Every index a sweep emits lies in [start, start + (a+1)(b+1)). */
  lemma {:induction false} GridTrianglesInRange(a: int, b: int, start: int, m: nat)
    ensures AllInRange(GridTriangles(a, b, start, m), start, start + Steps(a) * Steps(b))
  {
    if m > 0 {
      GridTrianglesInRange(a, b, start, m - 1);
      RowTrianglesInRange(a, b, start, m - 1, Steps(b));
    }
  }

  // ---------------------------------------------------------------------------
  // The sweeps and the driver

  /**
   * The `generate` lambda: for each sample, push its vertex and, below the last
   * row and column, the two triangles of its cell.
   */
  method Sweep(res: ObjMesh, p: TubeParams, geom: TubeGeometry, start: int, r: real) returns (out: ObjMesh)
    ensures out.name == res.name && out.tangents == res.tangents
    ensures out.positions == res.positions + Positions(GridVertices(p, geom, r, Steps(p.a)))
    ensures out.normals == res.normals + Normals(GridVertices(p, geom, r, Steps(p.a)))
    ensures out.uvs == res.uvs + Uvs(GridVertices(p, geom, r, Steps(p.a)))
    ensures out.indexes == res.indexes + GridTriangles(p.a, p.b, start, Steps(p.a))
  {
    out := res;
    ghost var vs: seq<Vertex> := [];
    var i := 0;
    while i <= p.a
      invariant 0 <= i <= Steps(p.a)
      invariant vs == GridVertices(p, geom, r, i)
      invariant out.name == res.name && out.tangents == res.tangents
      invariant out.positions == res.positions + Positions(vs)
      invariant out.normals == res.normals + Normals(vs)
      invariant out.uvs == res.uvs + Uvs(vs)
      invariant out.indexes == res.indexes + GridTriangles(p.a, p.b, start, i)
    {
      var j := 0;
      while j <= p.b
        invariant 0 <= j <= Steps(p.b)
        invariant vs == GridVertices(p, geom, r, i) + RowVertices(p, geom, r, i, j)
        invariant out.name == res.name && out.tangents == res.tangents
        invariant out.positions == res.positions + Positions(vs)
        invariant out.normals == res.normals + Normals(vs)
        invariant out.uvs == res.uvs + Uvs(vs)
        invariant out.indexes == res.indexes + GridTriangles(p.a, p.b, start, i)
                                 + RowTriangles(p.a, p.b, start, i, j)
      {
        var v := geom(p, i, j, r);
        out := out.(positions := out.positions + [v.position],
                    normals := out.normals + [v.normal],
                    uvs := out.uvs + [v.uv]);
        if i < p.a && j < p.b {
          var curr := ToIdx(p.b, start, i, j);
          var nextA := ToIdx(p.b, start, i + 1, j);
          var nextB := ToIdx(p.b, start, i, j + 1);
          var nextAB := ToIdx(p.b, start, i + 1, j + 1);
          out := out.(indexes := out.indexes + [Int3(curr, nextB, nextA), Int3(nextA, nextB, nextAB)]);
        }
        assert Positions(vs + [v]) == Positions(vs) + [v.position];
        assert Normals(vs + [v]) == Normals(vs) + [v.normal];
        assert Uvs(vs + [v]) == Uvs(vs) + [v.uv];
        assert RowVertices(p, geom, r, i, j + 1) == RowVertices(p, geom, r, i, j) + [v];
        vs := vs + [v];
        j := j + 1;
      }
      i := i + 1;
    }
  }

  /** The vertex stored at array position `k`. */
  function VertexAt(m: ObjMesh, k: int): Vertex
    requires 0 <= k < |m.positions| && k < |m.normals| && k < |m.uvs|
  {
    Vertex(m.positions[k], m.normals[k], m.uvs[k])
  }

  /** The mesh both sweeps leave behind, before tangents are assigned. */
  function Shells(p: TubeParams, geom: TubeGeometry): ObjMesh {
    var outer := GridVertices(p, geom, p.radius, Steps(p.a));
    var inner := GridVertices(p, geom, InnerRatio * p.radius, Steps(p.a));
    ObjMesh("",
      GridTriangles(p.a, p.b, 0, Steps(p.a)) + GridTriangles(p.a, p.b, ShellSize(p), Steps(p.a)),
      Positions(outer) + Positions(inner),
      Normals(outer) + Normals(inner),
      Uvs(outer) + Uvs(inner),
      [])
  }

  /**
   * The sample of every grid point (i, j) of one shell sits at `toidx(i, j)`
   * for that shell's `start`.
   */
  predicate ShellPlaced(p: TubeParams, geom: TubeGeometry, m: ObjMesh, start: int, r: real) {
    forall i, j :: 0 <= i <= p.a && 0 <= j <= p.b ==>
      && 0 <= ToIdx(p.b, start, i, j) < |m.positions|
      && ToIdx(p.b, start, i, j) < |m.normals|
      && ToIdx(p.b, start, i, j) < |m.uvs|
      && VertexAt(m, ToIdx(p.b, start, i, j)) == geom(p, i, j, r)
  }

  /** `m` is the mesh both sweeps leave, whatever its tangents. */
  predicate FromShells(p: TubeParams, geom: TubeGeometry, m: ObjMesh) {
    m == Shells(p, geom).(tangents := m.tangents)
  }

  /** Each sweep appends (a+1)(b+1) entries to positions, normals and uvs, and 2ab triangles. */
  lemma ShellsCounts(p: TubeParams, geom: TubeGeometry, m: ObjMesh)
    requires FromShells(p, geom, m)
    ensures |m.positions| == |m.normals| == |m.uvs| == 2 * ShellSize(p)
    ensures |m.indexes| == 4 * Cells(p.a) * Cells(p.b)
  {
    GridVerticesLength(p, geom, p.radius, Steps(p.a));
    GridVerticesLength(p, geom, InnerRatio * p.radius, Steps(p.a));
    SweepTriangleCount(p.a, p.b, 0);
    SweepTriangleCount(p.a, p.b, ShellSize(p));
  }

  /**
   * Outer-shell triangles reference only outer-shell vertices and inner-shell
   * triangles only inner-shell ones; so every index is valid.
   */
  lemma ShellsIndexRanges(p: TubeParams, geom: TubeGeometry, m: ObjMesh)
    requires FromShells(p, geom, m)
    ensures |m.indexes| % 2 == 0
    ensures forall k :: 0 <= k < |m.indexes| / 2 ==> InRange(m.indexes[k], 0, ShellSize(p))
    ensures forall k :: |m.indexes| / 2 <= k < |m.indexes| ==>
      InRange(m.indexes[k], ShellSize(p), 2 * ShellSize(p))
    ensures ValidIndexes(m)
  {
    ShellsCounts(p, geom, m);
    var outer := GridTriangles(p.a, p.b, 0, Steps(p.a));
    var inner := GridTriangles(p.a, p.b, ShellSize(p), Steps(p.a));
    SweepTriangleCount(p.a, p.b, 0);
    SweepTriangleCount(p.a, p.b, ShellSize(p));
    GridTrianglesInRange(p.a, p.b, 0, Steps(p.a));
    GridTrianglesInRange(p.a, p.b, ShellSize(p), Steps(p.a));
    assert m.indexes == outer + inner;
    assert |outer| == |inner| == |m.indexes| / 2;
    forall k | 0 <= k < |m.indexes|
      ensures ValidTriangle(m, m.indexes[k])
    {
      if k < |outer| {
        assert InRange(outer[k], 0, ShellSize(p));
      } else {
        assert InRange(inner[k - |outer|], ShellSize(p), 2 * ShellSize(p));
      }
    }
  }

  /**
   * The vertex at `toidx(i, j)` is the one sample (i, j) computed: for the outer
   * shell with start 0, for the inner one with start (a+1)(b+1).
   */
  lemma ShellsPlaced(p: TubeParams, geom: TubeGeometry, m: ObjMesh)
    requires FromShells(p, geom, m)
    ensures ShellPlaced(p, geom, m, 0, p.radius)
    ensures ShellPlaced(p, geom, m, ShellSize(p), InnerRatio * p.radius)
  {
    ShellsCounts(p, geom, m);
    var outer := GridVertices(p, geom, p.radius, Steps(p.a));
    var inner := GridVertices(p, geom, InnerRatio * p.radius, Steps(p.a));
    GridVerticesLength(p, geom, p.radius, Steps(p.a));
    forall i, j | 0 <= i <= p.a && 0 <= j <= p.b
      ensures 0 <= ToIdx(p.b, 0, i, j) < ShellSize(p)
      ensures VertexAt(m, ToIdx(p.b, 0, i, j)) == geom(p, i, j, p.radius)
      ensures VertexAt(m, ToIdx(p.b, ShellSize(p), i, j)) == geom(p, i, j, InnerRatio * p.radius)
    {
      ToIdxRange(p.a, p.b, 0, i, j);
      GridVertexAt(p, geom, p.radius, Steps(p.a), i, j);
      GridVertexAt(p, geom, InnerRatio * p.radius, Steps(p.a), i, j);
      var k := ToIdx(p.b, 0, i, j);
      assert k == i * Steps(p.b) + j;
      assert ToIdx(p.b, ShellSize(p), i, j) == |outer| + k;
    }
  }

  /**
   * `generate_tube`: an outer sweep at `radius` with start 0, then an inner sweep
   * at 0.85 `radius` with start set to the vertex count so far, then tangents.
   */
  method GenerateTube(p: TubeParams, geom: TubeGeometry, formula: TangentFormula) returns (res: ObjMesh)
    requires 2 * ShellSize(p) <= IndexLimit
    ensures FromShells(p, geom, res) && ValidIndexes(res)
    ensures |res.positions| == |res.normals| == |res.uvs| == |res.tangents| == 2 * ShellSize(p)
    ensures |res.indexes| == 4 * Cells(p.a) * Cells(p.b)
    ensures forall k :: 0 <= k < |res.indexes| / 2 ==> InRange(res.indexes[k], 0, ShellSize(p))
    ensures forall k :: |res.indexes| / 2 <= k < |res.indexes| ==>
      InRange(res.indexes[k], ShellSize(p), 2 * ShellSize(p))
    ensures ShellPlaced(p, geom, res, 0, p.radius)
    ensures ShellPlaced(p, geom, res, ShellSize(p), InnerRatio * p.radius)
    ensures res.tangents == TangentsAfter(res, formula, |res.indexes|)
  {
    res := ObjMesh("", [], [], [], [], []);
    var start := 0;
    res := Sweep(res, p, geom, start, p.radius);
    GridVerticesLength(p, geom, p.radius, Steps(p.a));
    start := |res.positions|;
    res := Sweep(res, p, geom, start, InnerRatio * p.radius);
    assert [] + Positions(GridVertices(p, geom, p.radius, Steps(p.a)))
        == Positions(GridVertices(p, geom, p.radius, Steps(p.a)));
    assert FromShells(p, geom, res);
    ShellsIndexRanges(p, geom, res);
    ghost var shells := res;
    res := CalculateTangents(res, formula);
    TangentsAfterIgnoresTangents(shells, res.tangents, formula, |res.indexes|);
    assert FromShells(p, geom, res);
    ShellsCounts(p, geom, res);
    ShellsIndexRanges(p, geom, res);
    ShellsPlaced(p, geom, res);
  }
}
