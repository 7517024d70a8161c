# shader_playground core, modelled in Dafny

This project models the non-graphical logic of shader_playground, a C++/OpenGL
sandbox, and proves properties of it:

- **Tube mesh builder** (`generate_tube`, module `Procedural`). Two sweeps over an
  (a+1) x (b+1) grid build an outer shell and an inner shell. Each sweep pushes one
  vertex per grid sample and two triangles per grid cell, using the row-major index
  function `toidx`. Tangents are assigned at the end.
- **Indexed mesh** (`obj_mesh`, module `MeshLoader`). This covers:
  - the tangent assignment `calculate_tangents`, where the last writer wins;
  - the grouping of a flat OBJ index list into triangles;
  - the consumer side of the asynchronous loader, the `ready()`/`get()` latch.
- **Path and matrix helpers** (`get_directory`, `identity_matrix`, module `Util`).
- **Texture upload** (`texture`, module `TextureUpload`). This covers:
  - the decision table from (channels, bits per channel) to a storage format, or the
    "Unsupported image format!" error;
  - the filter choice from the `linear`/`mipmap` options;
  - the bind, upload and unbind sequence, recorded as data.
- **Texture registry** (`textures`, `texture_object`, module `TextureRegistry`). An
  append-only table of texture objects, addressed by 32-bit handles, whose textures can
  be released and reloaded.
- **Model mesh selection** (`model`, module `ModelMesh`). It picks the mesh whose name
  matches the model id; the id `"*"` binds to the first mesh name. It scales that
  mesh's positions by the root of the larger of the previous scale and that mesh's
  largest squared length, and keeps the arrays that get drawn. `render` draws only a visible model that has geometry.

Floating-point geometry is never interpreted. The model carries floats as reals, and
the float formulas are parameters:

- `TubeGeometry` gives the vertex of one grid sample.
- `TangentFormula` gives the tangent of one triangle corner.
- `FloatOps` gives the squared length, the square root and the division of
  `model::create`.

Every property is therefore stated for all such formulas.

GL calls are recorded as the choices they make: the image a texture holds, and the
bind/unbind calls issued (`GlCall`). Files the image decoder can read are a parameter
(`FileSystem`, a map from names to decoded channel counts and sizes).

The source ships a stale `src/texture.h`: it has no `set_options` and a different
`upload` signature. This model follows `src/texture.cpp`, which is where `upload` and
`set_options` are defined.

## Model

| member | source | states |
|---|---|---|
| MeshLoader.CornerTangentsRotate | src/loader.cpp:90-92 | Corners y and z get the formula applied to the cyclic rotations (v1,v2,v0) and (v2,v0,v1) of the triangle, with the texture coordinates rotated the same way |
| MeshLoader.TangentsAfter | src/loader.cpp:52 | The tangent array after any number of triangles has exactly one entry per position |
| MeshLoader.TangentsAfterIgnoresTangents | src/loader.cpp:50-95 | The assignment never reads the old tangents: the result is the same whatever tangents the mesh held |
| MeshLoader.LastMention | src/loader.cpp:80-93 | Finds the last triangle among the first k that mentions vertex v, or reports that none does |
| MeshLoader.UntouchedVertexKeepsZero | src/loader.cpp:52 | A vertex that no triangle mentions keeps the zero tangent |
| MeshLoader.LastTriangleWins | src/loader.cpp:80-93 | A vertex's tangent comes from the last triangle in index order that mentions it; within that triangle, z is written after y and y after x, so the later corner wins |
| MeshLoader.TangentsAreLastWriter | src/loader.cpp:80-94 | Every vertex's final tangent is the last writer's corner value, or zero when nothing writes it |
| MeshLoader.CalculateTangents | src/loader.cpp:50-95 | Replaces only `tangents`, with one entry per position; each entry is the last writer's value |
| MeshLoader.Flatten | src/loader.cpp:32-34 | Flattening triangles gives three indices per triangle |
| MeshLoader.GroupIndices | src/loader.cpp:32-34 | Groups one triangle per three indices; triangle k is (indices[3k], indices[3k+1], indices[3k+2]); flattening them gives back the input |
| MeshLoader.LatchedStaysLatched | src/loader.cpp:109-119 | Once ready, any number of further polls changes nothing and dequeues nothing |
| MeshLoader.RepeatedPollsAgree | src/loader.cpp:109-119 | Polling n >= 1 times equals polling once. The result is ready iff it was ready or something was queued. A newly latched result is the head of the queue |
| MeshLoader.Loader.constructor | src/loader.cpp:121-125 | A new loader is not ready, holds an empty result and has nothing queued |
| MeshLoader.Loader.Publish | src/loader.cpp:47 | The worker's enqueue appends one result and leaves the latch and the stored result alone |
| MeshLoader.Loader.Ready | src/loader.cpp:109-119 | One poll of the latch: returns the new latch. When already ready it changes nothing |
| MeshLoader.Loader.Get | src/loader.cpp:103-107 | Polls, then returns the stored result if ready, else fails with "Results are not ready!" |
| Procedural.ToIdxRange | src/procedural.cpp:15-17 | For 0<=i<=a and 0<=j<=b, toidx(i,j) lies in [start, start+(a+1)(b+1)) |
| Procedural.ToIdxInjective | src/procedural.cpp:15-17 | toidx is injective on 0<=i, 0<=j<=b |
| Procedural.GridVerticesLength | src/procedural.cpp:20-23 | m rows of the sweep push m(b+1) vertices |
| Procedural.GridVertexAt | src/procedural.cpp:20-23 | The vertex pushed at step (i,j) is at position i(b+1)+j of the sweep's output, which is where toidx points |
| Procedural.RowTrianglesShape | src/procedural.cpp:88-96 | A row pushes two triangles per cell when i<a, and none on the last row |
| Procedural.RowTriangleAt | src/procedural.cpp:88-96 | Triangles 2j and 2j+1 of row i are those of cell (i,j) |
| Procedural.GridTrianglesLength | src/procedural.cpp:88-96 | The first m rows push 2b triangles per row with i<a |
| Procedural.SweepTriangleCount | src/procedural.cpp:88-96 | One sweep pushes exactly 2ab triangles (none when a or b is not positive) |
| Procedural.GridTriangleAt | src/procedural.cpp:90-95 | Triangles 2(ib+j) and 2(ib+j)+1 of a sweep are (toidx(i,j), toidx(i,j+1), toidx(i+1,j)) and (toidx(i+1,j), toidx(i,j+1), toidx(i+1,j+1)) |
| Procedural.CellTrianglesInRange | src/procedural.cpp:88-96 | The two triangles of a cell with i<a and j<b index only the sweep's own vertices |
| Procedural.RowTrianglesInRange | src/procedural.cpp:88-96 | Every triangle of a row indexes only the sweep's own vertices |
| Procedural.GridTrianglesInRange | src/procedural.cpp:88-96 | Every triangle of a sweep indexes only the sweep's own vertices |
| Procedural.Sweep | src/procedural.cpp:19-99 | The `generate` lambda appends the sweep's vertices, in push order, to positions, normals and uvs. It appends its triangles to indexes and leaves name and tangents alone |
| Procedural.ShellsCounts | src/procedural.cpp:101-103 | Two sweeps give 2(a+1)(b+1) positions, normals and uvs, and 4ab triangles |
| Procedural.ShellsIndexRanges | src/procedural.cpp:101-103 | Outer-shell triangles index [0,S) and inner-shell triangles index [S,2S), where S=(a+1)(b+1). Every index is valid for positions and uvs |
| Procedural.ShellsPlaced | src/procedural.cpp:101-103 | Sample (i,j) of the outer shell is at toidx(i,j) with start 0. Sample (i,j) of the inner shell, at 0.85 radius, is at toidx(i,j) with start S |
| Procedural.GenerateTube | src/procedural.cpp:5-108 | Everything above for the returned mesh. Its tangents have one entry per position and are the last-writer assignment of its own triangles |
| Util.LastSeparator | src/util.cpp:16 | `find_last_of("\\/")`: the index of the last '/' or '\\', or none |
| Util.GetDirectory | src/util.cpp:14-20 | Returns "" when there is no separator. Otherwise it returns a strict prefix that is followed by a separator, with no separator after it |
| Util.DirectoryOfJoin | src/util.cpp:14-20 | The directory of dir + "/" + file, for a separator-free file, is dir |
| Util.IdentityMatrix | src/util.cpp:64-71 | A 4x4 matrix with 1 on the diagonal and 0 elsewhere, hence symmetric |
| TextureUpload.StorageFor | src/texture.cpp:53-73 | Accepts exactly (3,8), (4,8), (1,8), (1,16) and (1,32); anything else fails with "Unsupported image format!". The source layout has the given channel count and width. 32 bits selects depth storage with float data. Single-channel 8/16-bit data is a red source in RGB storage |
| TextureUpload.SamplingFor | src/texture.cpp:75-85 | The mag filter is always linear. Without mipmaps the min filter is linear iff `linear` and no LOD bias is set. With mipmaps it is linear-mipmap-linear, mipmaps are generated and the bias is -1 |
| TextureUpload.MipmapIgnoresLinear | src/texture.cpp:80-85 | With mipmaps the `linear` option makes no difference |
| TextureUpload.Texture.constructor | src/texture.cpp:28-31 | A new texture holds no image |
| TextureUpload.Texture.SetOptions | src/texture.cpp:17-21 | Stores the two flags and leaves the image alone |
| TextureUpload.Texture.Upload | src/texture.cpp:49-88 | Succeeds iff the format is supported. On success it binds unit 0, stores the image in the chosen format with the sampling the options select, then unbinds. On failure the image is unchanged and the texture stays bound. The options are unchanged either way |
| TextureUpload.Texture.UploadFile | src/texture.cpp:38-47 | A missing file fails with "Texture file not found!" before any GL call. Otherwise the decoded file is uploaded as 8-bit channels |
| TextureRegistry.TextureObject.constructor | src/textures.h:16-21 | Keeps name and file, with a fresh empty texture. The options start linear with mipmaps, and the object is not open (the defaults on line 46) |
| TextureRegistry.TextureObject.Release | src/textures.h:27 | Drops the texture and nothing else |
| TextureRegistry.TextureObject.Reload | src/textures.h:29-37 | Always installs a fresh texture. With a file it first copies the options into it, then uploads the file. It fails exactly when the file is missing or unsupported |
| TextureRegistry.Textures.constructor | src/textures.h:95 | The table starts empty |
| TextureRegistry.Textures.AddTexture | src/textures.h:63-67 | Appends one fresh object and keeps the earlier entries. The handle is the old size narrowed to 32 bits |
| TextureRegistry.Textures.AddNamedTexture | src/textures.h:68-71 | Same as AddTexture with the file "" |
| TextureRegistry.Textures.Get | src/textures.h:82-85 | Returns the texture of entry h.index |
| TextureRegistry.Textures.WithTexture | src/textures.h:73-80 | The action's calls run between binding the entry's texture to the slot and unbinding it |
| TextureRegistry.Textures.ReloadAll | src/textures.h:87-91 | Reloads the entries in table order, each once. On the first failure it stops: earlier entries are reloaded, the failing entry has its fresh texture, later entries are untouched. The failure's message is the failing entry's: "Texture file not found!" for a missing file, "Unsupported image format!" otherwise |
| ModelMesh.MaxSquaredLength | src/model.cpp:20-24 | The running maximum is at least its start and at least every squared length, and it equals one of them |
| ModelMesh.LastNamed | src/model.cpp:5-7 | Finds the last mesh with a given name, or reports that there is none |
| ModelMesh.SelectFirst | src/model.cpp:5 | The meshes are visited from the first one on |
| ModelMesh.SelectId | src/model.cpp:7-9 | The id ends as it was or as some mesh's name. A named model keeps its id. "*" becomes the first mesh's name (unless that name is itself "*") |
| ModelMesh.SelectLastNamed | src/model.cpp:5-41 | For a named model: with no mesh of that name nothing changes. Otherwise the geometry is built from the last such mesh, with its arrays and counts, and its positions are divided by the new scale. The scale is the root of that mesh's largest squared length, compared against the scale before it |
| ModelMesh.WildcardGeometry | src/model.cpp:5-41 | For the id "*" (and a first mesh not itself named "*"): the id becomes the first mesh's name. The geometry comes from the last later mesh of that name, or from the first mesh when no later mesh shares its name |
| ModelMesh.LargestSquaredLength | src/model.cpp:20-24 | The first loop computes the running maximum of squared lengths |
| ModelMesh.ScaleDown | src/model.cpp:26-31 | The second loop divides every coordinate of a copy of the positions by the scale |
| ModelMesh.Model.constructor | src/model.h:11-25 | A new model is visible, with no geometry and zero scale and vertex count |
| ModelMesh.Model.Create | src/model.cpp:3-42 | Id, scale and geometry become the fold of all meshes in order. Visibility and vertex count are unchanged |
| ModelMesh.Model.Render | src/model.cpp:44-48 | Draws iff there is geometry and the model is visible, and then draws that geometry |

## Left out

- Float geometry is not modelled: the sin/cos tube profile, bending, normals and texture coordinates (src/procedural.cpp:22-86), the per-corner tangent formula (src/loader.cpp:54-78), and the squared length, square root and division in `model::create` (src/model.cpp:22-30). They are parameters, and no property depends on their values or on float rounding. Float values are carried as reals, so NaN is not represented: the `std::max` comparisons of src/model.cpp:23 are exact comparisons of whatever the squared-length operation returns.
- Procedural.GenerateTube: the inner radius is `InnerRatio * radius` in exact reals, not a single-precision product. `ti = i / a` and `tj = j / b` (which divide by zero for a or b of 0) lie inside the geometry parameter. The model therefore needs no a >= 1 or b >= 1; non-positive a or b simply push no triangles.
- Procedural.GenerateTube requires 2(a+1)(b+1) <= 2^31, so that the `int` indices cannot overflow.
- Procedural.GenerateTube takes `a` and `b` as unbounded integers. The source's loop counters are 32-bit, so `a` equal to 2^31-1 overflows `i <= a`. With `b` negative, the model returns an empty mesh for that input.
- The worker thread, the OBJ parser, the progress callback and the lock-free queue (src/loader.cpp:4-31, 35-48, 121-125) are not modelled; only the index grouping of lines 32-34 is. `Loader.Publish` stands for the worker's enqueue; the queue is a sequence of published results.
- MeshLoader.GroupIndices requires a multiple of 3 indices, because the source reads past the end otherwise. The parser's unsigned indices are taken as integers.
- MeshLoader.Loader.Get returns the result as a value; changes made through the returned reference are not modelled.
- TextureUpload.Texture.constructor leaves `linear` and `mipmap` unspecified. The shipped header does not declare them, so their initial values are not visible.
- The GL objects are not modelled: texture names, their deletion, pixel data, `vao` construction and drawing. `Model.Render` returns the geometry it would draw.
- TextureUpload.Texture.UploadFile takes the decoded files as a map: reading and decoding with the image library, and `file_exists`, are not modelled. The map makes "the file exists" and "the file decodes" one fact. A file that exists but that the decoder rejects, which returns no pixels and leaves the size and channel count unset (src/texture.cpp:44), cannot be represented.
- TextureRegistry.Textures.WithTexture models the action as the GL calls it makes; its other effects are not modelled.
- TextureRegistry.Textures.ReloadAll requires the entries to be distinct objects, which holds for every table built by `add_texture` (its contract keeps `Distinct`).
- TextureRegistry.Textures.Get and TextureRegistry.TextureObject.Get require an unreleased texture. Dereferencing a released one is undefined in the source.
- Consecutive handles follow from AddTexture's contract: each handle is the previous one plus 1, modulo 2^32. They increase strictly only while the table stays below 2^32 entries.
- The input meshes of `model::create` are values here, so they cannot be modified. The source scales a copy as well.
- Accessors with no logic are the fields themselves: `get_name`, `linear()`, `mipmap()`, `is_open()`, `get_texture_objects`, `get_scale` and `vertex_count`.
- The diffuse-texture upload commented out in src/model.cpp:10-17 is not modelled.
- Util.GetDirectory and Util.LastSeparator take a `string` as the byte sequence of a `std::string`: `find_last_of` compares bytes, so under a multibyte code page such as Shift-JIS a 0x5C byte inside a character counts as a separator. The model does not represent encodings.
- The projection matrices, `to_rad`, `read_all_text` and `file_exists` in src/util.cpp are not modelled.
