/**
 * The indexed mesh (`obj_mesh`), its tangent assignment, the grouping of a flat
 * OBJ index list into triangles, and the consumer side of the asynchronous loader.
 *
 * Floating-point values are carried as reals; the float formula that gives one
 * corner its tangent is a parameter (`TangentFormula`) and is never interpreted.
 */
module MeshLoader {
  import opened Wrappers

  datatype Float2 = Float2(x: real, y: real)
  datatype Float3 = Float3(x: real, y: real, z: real)
  /** One triangle: three vertex indices, in winding order. */
  datatype Int3 = Int3(x: int, y: int, z: int)

  const Zero3: Float3 := Float3(0.0, 0.0, 0.0)

  /** Parallel per-vertex arrays and a triangle list. */
  datatype ObjMesh = ObjMesh(
    name: string,
    indexes: seq<Int3>,
    positions: seq<Float3>,
    normals: seq<Float3>,
    uvs: seq<Float2>,
    tangents: seq<Float3>)

  type ObjFile = seq<ObjMesh>

  /** The tangent of corner v0 of triangle (v0, v1, v2) with texture coordinates (uv0, uv1, uv2). */
  type TangentFormula = (Float3, Float3, Float3, Float2, Float2, Float2) -> Float3

  // ---------------------------------------------------------------------------
  // Tangent assignment

  /** `v` may be used to read both `positions` and `uvs`. */
  predicate ValidCorner(m: ObjMesh, v: int) {
    0 <= v < |m.positions| && v < |m.uvs|
  }

  predicate ValidTriangle(m: ObjMesh, t: Int3) {
    ValidCorner(m, t.x) && ValidCorner(m, t.y) && ValidCorner(m, t.z)
  }

  predicate ValidIndexes(m: ObjMesh) {
    forall k :: 0 <= k < |m.indexes| ==> ValidTriangle(m, m.indexes[k])
  }

  predicate Mentions(t: Int3, v: int) {
    t.x == v || t.y == v || t.z == v
  }

  /**
   * The tangents of corners x, y and z of `t`. Corner y and corner z are computed
   * from the cyclic rotations (v1, v2, v0) and (v2, v0, v1) of the corners, with
   * the texture coordinates rotated alike.
   */
  function CornerTangents(m: ObjMesh, formula: TangentFormula, t: Int3): (Float3, Float3, Float3)
    requires ValidTriangle(m, t)
  {
    var v0, v1, v2 := m.positions[t.x], m.positions[t.y], m.positions[t.z];
    var uv0, uv1, uv2 := m.uvs[t.x], m.uvs[t.y], m.uvs[t.z];
    (formula(v0, v1, v2, uv0, uv1, uv2),
     formula(v1, v2, v0, uv1, uv2, uv0),
     formula(v2, v0, v1, uv2, uv0, uv1))
  }

  /** Rotating a triangle's corners rotates its corner tangents with them. */
  lemma CornerTangentsRotate(m: ObjMesh, formula: TangentFormula, t: Int3)
    requires ValidTriangle(m, t)
    ensures CornerTangents(m, formula, Int3(t.y, t.z, t.x)).0 == CornerTangents(m, formula, t).1
    ensures CornerTangents(m, formula, Int3(t.z, t.x, t.y)).0 == CornerTangents(m, formula, t).2
  {
  }

  /**
   * The tangent array after the first `k` triangles have written their corners:
   * it starts as one zero vector per position, and each triangle overwrites the
   * entries of corner x, then y, then z.
   */
  function TangentsAfter(m: ObjMesh, formula: TangentFormula, k: nat): (ts: seq<Float3>)
    requires ValidIndexes(m) && k <= |m.indexes|
    ensures |ts| == |m.positions|
  {
    if k == 0 then seq(|m.positions|, _ => Zero3)
    else
      var ts := TangentsAfter(m, formula, k - 1);
      var t := m.indexes[k - 1];
      var cs := CornerTangents(m, formula, t);
      ts[t.x := cs.0][t.y := cs.1][t.z := cs.2]
  }

  /** The tangents computed depend on indexes, positions and uvs only, not on the old tangents. */
  lemma {:induction false} TangentsAfterIgnoresTangents(m: ObjMesh, ts: seq<Float3>, formula: TangentFormula, k: nat)
    requires ValidIndexes(m) && k <= |m.indexes|
    ensures ValidIndexes(m.(tangents := ts))
    ensures TangentsAfter(m.(tangents := ts), formula, k) == TangentsAfter(m, formula, k)
  {
    if k > 0 {
      TangentsAfterIgnoresTangents(m, ts, formula, k - 1);
    }
  }

  /** The tangent triangle `t` leaves on vertex `v`: that of the last of its corners equal to `v`. */
  function CornerValue(m: ObjMesh, formula: TangentFormula, t: Int3, v: int): Float3
    requires ValidTriangle(m, t) && Mentions(t, v)
  {
    var cs := CornerTangents(m, formula, t);
    if t.z == v then cs.2 else if t.y == v then cs.1 else cs.0
  }

  /** The last of the first `k` triangles that mentions `v`, if any. */
  function LastMention(idx: seq<Int3>, v: int, k: nat): (r: Option<nat>)
    requires k <= |idx|
    ensures r.None? ==> forall n :: 0 <= n < k ==> !Mentions(idx[n], v)
    ensures r.Some? ==> r.value < k && Mentions(idx[r.value], v)
    ensures r.Some? ==> forall n :: r.value < n < k ==> !Mentions(idx[n], v)
  {
    if k == 0 then None
    else if Mentions(idx[k - 1], v) then Some(k - 1)
    else LastMention(idx, v, k - 1)
  }

  /** Reference definition: zero when no triangle mentions `v`, else the last writer's value. */
  function ExpectedTangent(m: ObjMesh, formula: TangentFormula, v: int): Float3
    requires ValidIndexes(m)
  {
    match LastMention(m.indexes, v, |m.indexes|)
    case None => Zero3
    case Some(n) => CornerValue(m, formula, m.indexes[n], v)
  }

  /** A vertex that none of the first `k` triangles mentions keeps the zero tangent. */
  lemma {:induction false} UntouchedVertexKeepsZero(m: ObjMesh, formula: TangentFormula, k: nat, v: int)
    requires ValidIndexes(m) && k <= |m.indexes| && 0 <= v < |m.positions|
    requires forall n :: 0 <= n < k ==> !Mentions(m.indexes[n], v)
    ensures TangentsAfter(m, formula, k)[v] == Zero3
  {
    if k > 0 {
      UntouchedVertexKeepsZero(m, formula, k - 1, v);
    }
  }

  /** The last triangle (among the first `k`) that mentions `v` decides its tangent. */
  lemma {:induction false} LastTriangleWins(m: ObjMesh, formula: TangentFormula, k: nat, n: nat, v: int)
    requires ValidIndexes(m) && n < k <= |m.indexes| && Mentions(m.indexes[n], v)
    requires forall n' :: n < n' < k ==> !Mentions(m.indexes[n'], v)
    ensures TangentsAfter(m, formula, k)[v] == CornerValue(m, formula, m.indexes[n], v)
  {
    if n < k - 1 {
      LastTriangleWins(m, formula, k - 1, n, v);
    }
  }

  /** Every vertex's tangent is the one the reference definition gives. */
  lemma TangentsAreLastWriter(m: ObjMesh, formula: TangentFormula, v: int)
    requires ValidIndexes(m) && 0 <= v < |m.positions|
    ensures TangentsAfter(m, formula, |m.indexes|)[v] == ExpectedTangent(m, formula, v)
  {
    match LastMention(m.indexes, v, |m.indexes|)
    case None =>
      UntouchedVertexKeepsZero(m, formula, |m.indexes|, v);
    case Some(n) =>
      LastTriangleWins(m, formula, |m.indexes|, n, v);
  }

  /**
   * `obj_mesh::calculate_tangents`: a zeroed tangent per position, overwritten
   * triangle by triangle; only `tangents` is replaced.
   */
  method CalculateTangents(m: ObjMesh, formula: TangentFormula) returns (r: ObjMesh)
    requires ValidIndexes(m)
    ensures r == m.(tangents := TangentsAfter(m, formula, |m.indexes|))
    ensures |r.tangents| == |m.positions|
    ensures forall v :: 0 <= v < |m.positions| ==> r.tangents[v] == ExpectedTangent(m, formula, v)
  {
    var tangents := new Float3[|m.positions|](_ => Zero3);
    var i := 0;
    while i < |m.indexes|
      invariant 0 <= i <= |m.indexes|
      invariant tangents[..] == TangentsAfter(m, formula, i)
    {
      var t := m.indexes[i];
      var v0, v1, v2 := m.positions[t.x], m.positions[t.y], m.positions[t.z];
      var uv0, uv1, uv2 := m.uvs[t.x], m.uvs[t.y], m.uvs[t.z];
      ghost var before := tangents[..];
      tangents[t.x] := formula(v0, v1, v2, uv0, uv1, uv2);
      tangents[t.y] := formula(v1, v2, v0, uv1, uv2, uv0);
      tangents[t.z] := formula(v2, v0, v1, uv2, uv0, uv1);
      assert tangents[..] == before[t.x := formula(v0, v1, v2, uv0, uv1, uv2)]
                                   [t.y := formula(v1, v2, v0, uv1, uv2, uv0)]
                                   [t.z := formula(v2, v0, v1, uv2, uv0, uv1)];
      i := i + 1;
    }
    r := m.(tangents := tangents[..]);
    forall v | 0 <= v < |m.positions|
      ensures r.tangents[v] == ExpectedTangent(m, formula, v)
    {
      TangentsAreLastWriter(m, formula, v);
    }
  }

  // ---------------------------------------------------------------------------
  // Grouping a flat index list into triangles

  /** The flat index list a triangle list stands for. */
  function Flatten(ts: seq<Int3>): (s: seq<int>)
    ensures |s| == 3 * |ts|
  {
    if ts == [] then []
    else
      var t := ts[|ts| - 1];
      Flatten(ts[..|ts| - 1]) + [t.x, t.y, t.z]
  }

  /**
   * The loop of `thread_proc` that reads the parser's flat index list three at a
   * time into triangles.
   */
  method GroupIndices(indices: seq<int>) returns (idx: seq<Int3>)
    requires |indices| % 3 == 0
    ensures 3 * |idx| == |indices|
    ensures forall k :: 0 <= k < |idx| ==>
      idx[k] == Int3(indices[3 * k], indices[3 * k + 1], indices[3 * k + 2])
    ensures Flatten(idx) == indices
  {
    idx := [];
    var i := 0;
    while i < |indices|
      invariant 0 <= i <= |indices| && i == 3 * |idx|
      invariant forall k :: 0 <= k < |idx| ==>
        idx[k] == Int3(indices[3 * k], indices[3 * k + 1], indices[3 * k + 2])
      invariant Flatten(idx) == indices[..i]
    {
      var t := Int3(indices[i], indices[i + 1], indices[i + 2]);
      assert (idx + [t])[..|idx|] == idx;
      idx := idx + [t];
      i := i + 3;
    }
    assert indices[..i] == indices;
  }

  // ---------------------------------------------------------------------------
  // The consumer side of the asynchronous loader

  /** What the consumer holds: the latch, the stored result and the results queued for it. */
  datatype LoaderState = LoaderState(ready: bool, result: ObjFile, queue: seq<ObjFile>)

  /** One `ready()` call: unless already latched, take a queued result if there is one. */
  function Poll(s: LoaderState): LoaderState {
    if s.ready then s
    else if s.queue != [] then LoaderState(true, s.queue[0], s.queue[1..])
    else s
  }

  /** `n` consecutive `ready()` calls. */
  function Polls(s: LoaderState, n: nat): LoaderState
    decreases n
  {
    if n == 0 then s else Polls(Poll(s), n - 1)
  }

  /** Once latched, further polls change nothing: no result is dequeued again. */
  lemma {:induction false} LatchedStaysLatched(s: LoaderState, n: nat)
    requires s.ready
    ensures Polls(s, n) == s
  {
    if n > 0 {
      LatchedStaysLatched(s, n - 1);
    }
  }

  /** Polling again after a poll gives what the first poll gave. */
  lemma {:induction false} RepeatedPollsAgree(s: LoaderState, n: nat)
    requires n >= 1
    ensures Polls(s, n) == Poll(s)
    ensures Poll(s).ready <==> s.ready || s.queue != []
    ensures !s.ready && s.queue != [] ==> Poll(s).result == s.queue[0]
    decreases n
  {
    var t := Poll(s);
    if n > 1 {
      RepeatedPollsAgree(t, n - 1);
      assert Poll(t) == t;
    }
  }

  class Loader {
    var ready: bool
    var result: ObjFile
    /** Results the worker has published and the consumer has not taken. */
    var queue: seq<ObjFile>

    function State(): LoaderState
      reads this
    {
      LoaderState(ready, result, queue)
    }

    constructor ()
      ensures !ready && result == [] && queue == []
    {
      ready := false;
      result := [];
      queue := [];
    }

    /** The worker's single `enqueue` of its finished result. */
    method Publish(file: ObjFile)
      modifies this
      ensures ready == old(ready) && result == old(result)
      ensures queue == old(queue) + [file]
    {
      queue := queue + [file];
    }

    /** `loader::ready`: latches on the first queued result. */
    method Ready() returns (b: bool)
      modifies this
      ensures State() == Poll(old(State()))
      ensures b == ready
      ensures old(ready) ==> b && unchanged(this)
    {
      if !ready {
        if queue != [] {
          result := queue[0];
          queue := queue[1..];
          ready := true;
        }
      }
      b := ready;
    }

    /** `loader::get`: the stored result, or the exception when not ready. */
    method Get() returns (r: Result<ObjFile, string>)
      modifies this
      ensures State() == Poll(old(State()))
      ensures r == if ready then Success(result) else Failure("Results are not ready!")
    {
      var b := Ready();
      if !b {
        return Failure("Results are not ready!");
      }
      r := Success(result);
    }
  }
}
