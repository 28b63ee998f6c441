# Mesh import and keyboard transform of the OBJ wireframe viewer

This project models the two pieces of logic in the viewer's `main.cpp`.
Everything else in that file drives the windowing and graphics libraries.

- **Mesh flattening** (`loadOBJ`) is in `mesh.dfy`, module `Mesh`. The OBJ
  parser's result is an input value, `LoadResult`: a success flag, the flat
  position array `attrib.vertices`, and the shapes, each a list of face corners
  with a `vertexIndex`. The two growable global vectors `vertices` and
  `indices` are the `seq` fields of class `MeshBuffers`. `LoadObj` runs the
  nested loop over shapes and corners. `AppendCorners` is the inner loop.
  Both are proved against three specification functions:
  - `Corners` flattens the shapes, in shape order and then corner order.
  - `Gather` picks the position triple of each corner.
  - `IndexRun` gives the run of pushed index values.
  The index buffer holds 32-bit unsigned integers. The pushed value is the
  vector's size, so it is modelled modulo 2^32. It is the identity while the
  buffer has at most 2^32 entries. Positions are copied and never computed on,
  so their element type is a type parameter.
- **Keyboard mapping** (`processInput`) is in `input.dfy`, module `Input`. The
  global transform values are the fields of class `TransformState`. The
  window's close flag is the field of class `Window`. `ProcessInput` tests the
  eleven keys in the program's order. It is split into one method per group of
  keys, following the source's own sections: translation, scale, Z axis and
  Y axis. Its new state is given by the pure function `Step`. The fields are
  `real`. The properties stated are those that do not depend on float
  rounding: which field a key moves, in which direction, with no clamping, and
  that every other field stays unchanged.

A failed parse returns early and leaves both buffers as they were
(main.cpp:45-48). In the program they are still empty at that point, because
`loadOBJ` runs once, at start-up (main.cpp:188).

## Model

| member | source | states |
|---|---|---|
| Mesh.MeshBuffers.LoadObj | main.cpp:38-59 | A failed parse leaves both buffers exactly as they were. A successful parse appends the gathered triples of all corners to `vertices`, in shape-then-corner order, and appends one index per corner to `indices`. The old contents stay as a prefix. The invariant of three position values per index, with each index equal to its own slot, is preserved. The caller must keep every vertex index in bounds, because the code does not check it. |
| Mesh.MeshBuffers.AppendCorners | main.cpp:51-57 | The inner loop appends three position values for each corner of one shape, and pushes the buffer's current length, reduced to 32 bits, once per corner. |
| Mesh.MeshBuffers.constructor | main.cpp:35-36 | Both global buffers start empty and satisfy the buffer invariant. |
| Mesh.Gather | main.cpp:52-54 | The gathered positions have exactly three values per corner. |
| Mesh.IndexRun | main.cpp:56 | Value k of the pushed run is its own slot, `start + k`, taken modulo 2^32. |
| Mesh.GatherAt | main.cpp:52-54 | Triple k of the gathered positions is `attrib.vertices[3v]`, `[3v+1]` and `[3v+2]`, where v is the vertex index of corner k. |
| Mesh.CornersAt | main.cpp:50-51 | Corner j of shape i sits at slot `|Corners(shapes[..i])| + j` of the flattened corner list, so shapes come in order and corners in order within each shape. |
| Mesh.FlattenedTriple | main.cpp:50-55 | The triple copied for corner j of shape i is the position picked by that corner's vertex index. It sits at the slot given by shape-then-corner order. |
| Mesh.CornersCount | main.cpp:50-51 | The number of flattened corners equals the sum of the shapes' corner counts. So a load grows `indices` by that sum and `vertices` by three times it. |
| Mesh.CornersInBoundsOfShapes | main.cpp:52-54 | If every shape's corners index inside the position array, so does every flattened corner. |
| Mesh.CornersPrefix | main.cpp:50 | The corners of the first m shapes are a prefix of the flattened corner list. |
| Mesh.GatherPrefix | main.cpp:51-54 | Gathering a prefix of the corners yields a prefix of the gathered positions. |
| Mesh.GatherAppend | main.cpp:50-55 | Gathering two corner lists one after the other is the same as gathering their concatenation. |
| Mesh.IndexRunAppend | main.cpp:56 | Pushing a + b indices is one run of a pushes followed by a run of b pushes, the second starting at the length reached. |
| Mesh.ShapeStep | main.cpp:50-58 | One pass of the outer loop takes buffers that hold the first s shapes to buffers that hold the first s + 1 shapes. |
| Mesh.AppendKeepsValid | main.cpp:52-56 | Appending a gathered run and the matching index run keeps three values per index and keeps every index equal to its slot. |
| Mesh.IndicesIdentity | main.cpp:56 | While the index buffer has at most 2^32 entries, `indices[i] == i` at every position. |
| Input.Step | main.cpp:66-93 | After one frame, each of the five fields goes up when only its raise key is held, goes down when only its lower key is held, and is unchanged when neither key is held. This holds with no bound on the old value. The z translation never changes. |
| Input.UpKeyMovesOnlyItsField | main.cpp:68-91 | Holding W, D, R, Q or Z alone raises translation y, translation x, scale, angle Z or angle Y, respectively, and leaves every other field unchanged. |
| Input.DownKeyMovesOnlyItsField | main.cpp:70-93 | Holding S, A, F, E or C alone lowers its field, and leaves every other field unchanged. |
| Input.OtherKeysKeepTransform | main.cpp:63-64 | Escape and unrecognised keys leave the transform unchanged. |
| Input.FieldsIndependent | main.cpp:66-93 | Each field's new value depends only on whether its own two keys are held. |
| Input.TransformState.ProcessInput | main.cpp:62-94 | The new transform is `Step` of the old transform. The close flag becomes set when Escape is held, and otherwise keeps its value. |
| Input.TransformState.MoveByKeys | main.cpp:66-75 | W and S update translation y, and A and D update translation x, in that order. |
| Input.TransformState.ScaleByKeys | main.cpp:77-81 | R and F update the scale factor. |
| Input.TransformState.RotateZByKeys | main.cpp:83-87 | Q and E update the Z rotation angle. |
| Input.TransformState.RotateYByKeys | main.cpp:89-93 | Z and C update the Y rotation angle. |
| Input.TransformState.constructor | main.cpp:30-33 | The initial transform has zero translation, zero angles and scale 6. |

## Left out

- The OBJ tokeniser (`tinyobj::LoadObj`, main.cpp:44) is a foreign library. Its result is taken as input, and only the position references of face corners are modelled.
- All GLFW, GLEW and OpenGL calls are left out: window and context set-up, event polling, buffer upload, the draw call and teardown (main.cpp:137-155, 170-218). They are foreign side effects.
- Shader compilation and linking (main.cpp:97-134) are left out. They are driver calls that only log on failure.
- The frame loop in `run` (main.cpp:194-210) is left out. It is driven by I/O. Its only state is the close flag, which `ProcessInput` models.
- `updateTransform` (main.cpp:158-167) is left out. It uses float trigonometry and matrix products.
- Error-stream messages (main.cpp:46, 107, 127, 184) are not modelled.
- Key polling is a parameter: the set of keys held in this frame. The GLFW window is an abstract close flag (class `Window`), which starts cleared; nothing else of the window is modelled.
- Input.Step: the fields are reals, not 32-bit floats, so the steps 0.01 and 30 are added exactly. With floats, a step can be lost to rounding when the value is large, so "raises" becomes "does not lower". Exact accumulation over several frames is not claimed.
- Mesh.MeshBuffers.LoadObj: `3 * vertex_index + k` overflows `int` only when the position array holds more than 2^31 values; the model, with unbounded integers, does not capture that undefined behaviour and reads `positions[3v + k]` there.
- Mesh.MeshBuffers.LoadObj: a vector's growth failing for lack of memory is not modelled.
