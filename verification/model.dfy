/**
 * `model`: picks the mesh of a loaded OBJ file whose name matches the model's
 * id (or the first mesh, for the id "*"), scales its positions into the unit
 * sphere and keeps the vertex arrays that get drawn.
 *
 * The squared length, square root and division are single-precision operations
 * in the system; the model receives them as `FloatOps` and states results in
 * terms of them.
 */
module ModelMesh {
  import opened Wrappers
  import opened MeshLoader

  /**
   * The floating-point operations `model::create` uses: the squared length
   * `x*x + y*y + z*z` of a position, the square root and the division.
   */
  datatype FloatOps = FloatOps(squaredLength: Float3 -> real, sqrt: real -> real, div: (real, real) -> real)

  /** The vertex arrays handed to a `vao`, with the counts passed beside them. */
  datatype Vao = Vao(
    positions: seq<Float3>,
    uvs: seq<Float2>,
    normals: seq<Float3>,
    tangents: seq<Float3>,
    vertexCount: int,
    indexes: seq<Int3>,
    indexCount: int)

  /** The running maximum `model::create` keeps: `init` folded with every squared length by `std::max`. */
  function MaxSquaredLength(ps: seq<Float3>, init: real, ops: FloatOps): (r: real)
    ensures r >= init
    ensures forall k :: 0 <= k < |ps| ==> ops.squaredLength(ps[k]) <= r
    ensures r == init || exists k :: 0 <= k < |ps| && r == ops.squaredLength(ps[k])
  {
    if ps == [] then init
    else
      var m := MaxSquaredLength(ps[..|ps| - 1], init, ops);
      var length := ops.squaredLength(ps[|ps| - 1]);
      if length < m then m else length
  }

  /** A position with each coordinate divided by `scale`. */
  function Divided(p: Float3, scale: real, ops: FloatOps): Float3 {
    Float3(ops.div(p.x, scale), ops.div(p.y, scale), ops.div(p.z, scale))
  }

  /** Every position divided by `scale`. */
  function Scaled(ps: seq<Float3>, scale: real, ops: FloatOps): (r: seq<Float3>)
    ensures |r| == |ps|
  {
    seq(|ps|, k requires 0 <= k < |ps| => Divided(ps[k], scale, ops))
  }

  /** The geometry built from a mesh: its positions scaled, every other array as loaded. */
  function VaoOf(mesh: ObjMesh, scale: real, ops: FloatOps): Vao {
    Vao(Scaled(mesh.positions, scale, ops), mesh.uvs, mesh.normals, mesh.tangents,
        |mesh.positions|, mesh.indexes, |mesh.indexes|)
  }

  /** The part of a model `create` changes: the id, the scale (`_max`) and the geometry. */
  datatype Selection = Selection(id: string, scale: real, geometry: Option<Vao>)

  predicate Matches(id: string, name: string) {
    name == id || id == "*"
  }

  /** One iteration of `create`'s loop: a matching mesh takes over the id, the scale and the geometry. */
  function Visit(s: Selection, mesh: ObjMesh, ops: FloatOps): Selection {
    if Matches(s.id, mesh.name) then
      var scale := ops.sqrt(MaxSquaredLength(mesh.positions, s.scale, ops));
      Selection(mesh.name, scale, Some(VaoOf(mesh, scale, ops)))
    else s
  }

  /** `create` over a whole file: the meshes visited in order. */
  function Select(file: ObjFile, s: Selection, ops: FloatOps): Selection {
    if file == [] then s
    else Visit(Select(file[..|file| - 1], s, ops), file[|file| - 1], ops)
  }

  /** The index of the last mesh called `name`, if any. */
  function LastNamed(file: ObjFile, name: string): (r: Option<nat>)
    ensures r.None? ==> forall k :: 0 <= k < |file| ==> file[k].name != name
    ensures r.Some? ==> r.value < |file| && file[r.value].name == name
    ensures r.Some? ==> forall k :: r.value < k < |file| ==> file[k].name != name
  {
    if file == [] then None
    else if file[|file| - 1].name == name then Some(|file| - 1)
    else LastNamed(file[..|file| - 1], name)
  }

  /** The first mesh is visited first: `create` over a file is `create` over its tail after one step. */
  lemma {:induction false} SelectFirst(file: ObjFile, s: Selection, ops: FloatOps)
    requires file != []
    ensures Select(file, s, ops) == Select(file[1..], Visit(s, file[0], ops), ops)
    decreases |file|
  {
    var n := |file|;
    if n > 1 {
      SelectFirst(file[..n - 1], s, ops);
      assert file[..n - 1][1..] == file[1..][..n - 2];
      assert file[1..][n - 2] == file[n - 1];
    }
  }

  /**
   * The id ends as it was or as the name of a mesh of the file: a named model
   * keeps its id, and the wildcard takes the name of the first mesh (unless
   * that mesh is itself called "*").
   */
  lemma {:induction false} SelectId(file: ObjFile, s: Selection, ops: FloatOps)
    ensures Select(file, s, ops).id == s.id || exists k :: 0 <= k < |file| && Select(file, s, ops).id == file[k].name
    ensures s.id != "*" ==> Select(file, s, ops).id == s.id
    ensures s.id == "*" && file != [] && file[0].name != "*" ==> Select(file, s, ops).id == file[0].name
    decreases |file|
  {
    if file != [] {
      SelectId(file[..|file| - 1], s, ops);
    }
  }

  /**
   * For a named model: without a mesh of that name nothing changes; otherwise
   * the geometry is the last such mesh, scaled by the square root of its
   * largest squared length (at least the scale before it).
   */
  lemma {:induction false} SelectLastNamed(file: ObjFile, s: Selection, ops: FloatOps)
    requires s.id != "*"
    ensures LastNamed(file, s.id).None? ==> Select(file, s, ops) == s
    ensures LastNamed(file, s.id).Some? ==>
      var m := LastNamed(file, s.id).value;
      var r := Select(file, s, ops);
      && r.id == s.id
      && r.scale == ops.sqrt(MaxSquaredLength(file[m].positions, Select(file[..m], s, ops).scale, ops))
      && r.geometry == Some(VaoOf(file[m], r.scale, ops))
    decreases |file|
  {
    if file != [] {
      var n := |file|;
      var prefix := file[..n - 1];
      SelectId(prefix, s, ops);
      SelectLastNamed(prefix, s, ops);
      if file[n - 1].name != s.id {
        var last := LastNamed(prefix, s.id);
        if last.Some? {
          assert prefix[..last.value] == file[..last.value];
        }
      }
    }
  }

  /**
   * For the wildcard id: the id binds to the first mesh's name (when that name
   * is not itself "*"). After that only meshes of that name match, so the
   * geometry comes from the last mesh of that name, which is the first mesh
   * when no later mesh shares its name.
   */
  lemma WildcardGeometry(file: ObjFile, s: Selection, ops: FloatOps)
    requires s.id == "*" && file != [] && file[0].name != "*"
    ensures Select(file, s, ops).id == file[0].name
    ensures LastNamed(file[1..], file[0].name).None? ==> Select(file, s, ops) == Visit(s, file[0], ops)
    ensures LastNamed(file[1..], file[0].name).Some? ==>
      var m := LastNamed(file[1..], file[0].name).value;
      var r := Select(file, s, ops);
      r.geometry == Some(VaoOf(file[1..][m], r.scale, ops))
  {
    SelectFirst(file, s, ops);
    SelectLastNamed(file[1..], Visit(s, file[0], ops), ops);
    SelectId(file, s, ops);
  }

  /** The first loop of `model::create`: the running maximum of the squared lengths, starting from `init`. */
  method LargestSquaredLength(positions: seq<Float3>, init: real, ops: FloatOps) returns (m: real)
    ensures m == MaxSquaredLength(positions, init, ops)
  {
    m := init;
    var j := 0;
    while j < |positions|
      invariant 0 <= j <= |positions|
      invariant m == MaxSquaredLength(positions[..j], init, ops)
    {
      var p := positions[j];
      var length := ops.squaredLength(p);
      assert positions[..j + 1][..j] == positions[..j];
      m := if length < m then m else length;
      j := j + 1;
    }
    assert positions[..j] == positions;
  }

  /** The second loop of `model::create`: divides a copy of the positions, one coordinate at a time. */
  method ScaleDown(ps: seq<Float3>, scale: real, ops: FloatOps) returns (positions: seq<Float3>)
    ensures positions == Scaled(ps, scale, ops)
  {
    positions := ps;
    var j := 0;
    while j < |positions|
      invariant 0 <= j <= |positions| && |positions| == |ps|
      invariant forall k :: 0 <= k < j ==> positions[k] == Divided(ps[k], scale, ops)
      invariant forall k :: j <= k < |positions| ==> positions[k] == ps[k]
    {
      var p := positions[j];
      positions := positions[j := Float3(ops.div(p.x, scale), ops.div(p.y, scale), ops.div(p.z, scale))];
      j := j + 1;
    }
  }

  /** `model`: an id to look for, a visibility flag, and what `create` selected. */
  class Model {
    var id: string
    var visible: bool
    /** `_max`: after `create`, the length that scales the geometry into the unit sphere. */
    var scale: real
    var geometry: Option<Vao>
    /** `_vertex_count`: set by nothing in the model. */
    var vertexCount: int

    function Current(): Selection
      reads this
    {
      Selection(id, scale, geometry)
    }

    /** `model(id)`: visible, with no geometry and a zero scale. */
    constructor (id: string)
      ensures this.id == id && visible && scale == 0.0 && geometry == None && vertexCount == 0
    {
      this.id := id;
      visible := true;
      scale := 0.0;
      geometry := None;
      vertexCount := 0;
    }

    /** `model::create`: visits every mesh of the file in order. */
    method Create(file: ObjFile, ops: FloatOps)
      modifies this
      ensures Current() == Select(file, old(Current()), ops)
      ensures visible == old(visible) && vertexCount == old(vertexCount)
    {
      var i := 0;
      while i < |file|
        invariant 0 <= i <= |file|
        invariant Current() == Select(file[..i], old(Current()), ops)
        invariant visible == old(visible) && vertexCount == old(vertexCount)
      {
        var mesh := file[i];
        assert file[..i + 1][..i] == file[..i];
        if mesh.name == id || id == "*" {
          id := mesh.name;
          scale := LargestSquaredLength(mesh.positions, scale, ops);
          scale := ops.sqrt(scale);
          var positions := ScaleDown(mesh.positions, scale, ops);
          geometry := Some(Vao(positions, mesh.uvs, mesh.normals, mesh.tangents,
                               |mesh.positions|, mesh.indexes, |mesh.indexes|));
        }
        i := i + 1;
      }
      assert file[..i] == file;
    }

    /** `model::render`: draws the geometry when there is one and the model is visible. */
    method Render() returns (drawn: Option<Vao>)
      ensures drawn.Some? <==> geometry.Some? && visible
      ensures drawn.Some? ==> drawn == geometry
    {
      if geometry.None? {
        return None;
      }
      drawn := if visible then geometry else None;
    }
  }
}
