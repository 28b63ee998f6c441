// Flattening of a parsed OBJ mesh into a position buffer and an index buffer.
//
// The OBJ parser is external: its result (success flag, flat position array,
// shapes made of face corners) is an input here. The element type T of the
// position array is generic, because positions are only ever copied.

module Mesh {

  /** The index buffer holds 32-bit unsigned integers; a larger size wraps. */
  const IndexModulus: nat := 0x1_0000_0000

  /** One face corner as the parser reports it; only the position reference is used. */
  datatype Corner = Corner(vertexIndex: int)

  /** A shape is the list of face corners of its mesh, in file order. */
  datatype Shape = Shape(indices: seq<Corner>)

  /** The parser's attribute arrays: positions, three values per vertex. */
  datatype Attrib<T> = Attrib(vertices: seq<T>)

  /** What the parser hands back: whether it succeeded, the attributes, the shapes. */
  datatype LoadResult<T> = LoadResult(ok: bool, attrib: Attrib<T>, shapes: seq<Shape>)

  /** The three reads made for corner c stay inside the position array. */
  predicate InBounds<T>(positions: seq<T>, c: Corner) {
    0 <= c.vertexIndex && 3 * c.vertexIndex + 2 < |positions|
  }

  predicate CornersInBounds<T>(positions: seq<T>, cs: seq<Corner>) {
    forall k :: 0 <= k < |cs| ==> InBounds(positions, cs[k])
  }

  predicate ShapesInBounds<T>(positions: seq<T>, shapes: seq<Shape>) {
    forall i, j :: 0 <= i < |shapes| && 0 <= j < |shapes[i].indices| ==>
      InBounds(positions, shapes[i].indices[j])
  }

  /** All corners of all shapes, shape by shape, corners in order within a shape. */
  function Corners(shapes: seq<Shape>): (cs: seq<Corner>)
  {
    if shapes == [] then [] else Corners(shapes[..|shapes| - 1]) + shapes[|shapes| - 1].indices
  }

  /** Independent count of the corners: the sum of the shapes' corner list lengths. */
  function TotalCorners(shapes: seq<Shape>): (n: nat)
  {
    if shapes == [] then 0 else |shapes[0].indices| + TotalCorners(shapes[1..])
  }

  /** The position triple that corner c refers to. */
  function Position<T>(positions: seq<T>, c: Corner): (p: seq<T>)
    requires InBounds(positions, c)
    ensures |p| == 3
  {
    var v := c.vertexIndex;
    [positions[3 * v], positions[3 * v + 1], positions[3 * v + 2]]
  }

  /** The positions copied for a run of corners, three values per corner. */
  function Gather<T>(positions: seq<T>, cs: seq<Corner>): (r: seq<T>)
    requires CornersInBounds(positions, cs)
    ensures |r| == 3 * |cs|
  {
    if cs == [] then [] else Gather(positions, cs[..|cs| - 1]) + Position(positions, cs[|cs| - 1])
  }

  /** The n index values pushed when the index buffer starts out with length start. */
  function IndexRun(start: nat, n: nat): (r: seq<nat>)
    ensures |r| == n
    ensures forall k :: 0 <= k < n ==> r[k] == (start + k) % IndexModulus
  {
    if n == 0 then [] else IndexRun(start, n - 1) + [(start + n - 1) % IndexModulus]
  }

  /** Buffer invariant: three position values per index, and each index names its own slot. */
  predicate BuffersValid<T>(vertices: seq<T>, indices: seq<nat>) {
    |vertices| == 3 * |indices| &&
    forall i :: 0 <= i < |indices| ==> indices[i] == i % IndexModulus
  }

  // ---------------------------------------------------------------------------
  // Properties of the specification functions

  /** If every shape's corners are in bounds, so is the flattened corner list. */
  lemma {:induction false} CornersInBoundsOfShapes<T>(positions: seq<T>, shapes: seq<Shape>)
    requires ShapesInBounds(positions, shapes)
    ensures CornersInBounds(positions, Corners(shapes))
  {
    if shapes != [] {
      var init := shapes[..|shapes| - 1];
      assert ShapesInBounds(positions, init) by {
        forall i, j | 0 <= i < |init| && 0 <= j < |init[i].indices|
          ensures InBounds(positions, init[i].indices[j])
        {
          assert init[i] == shapes[i];
        }
      }
      CornersInBoundsOfShapes(positions, init);
      var last := shapes[|shapes| - 1].indices;
      var all := Corners(init) + last;
      forall k | 0 <= k < |all| ensures InBounds(positions, all[k]) {
        if k >= |Corners(init)| {
          assert all[k] == shapes[|shapes| - 1].indices[k - |Corners(init)|];
        }
      }
    }
  }

  /** The flattened corner list has exactly as many entries as the shapes have corners. */
  lemma {:induction false} CornersCount(shapes: seq<Shape>)
    ensures |Corners(shapes)| == TotalCorners(shapes)
  {
    if shapes != [] {
      CornersCount(shapes[..|shapes| - 1]);
      TotalCornersSnoc(shapes[..|shapes| - 1], shapes[|shapes| - 1]);
      assert shapes[..|shapes| - 1] + [shapes[|shapes| - 1]] == shapes;
    }
  }

  lemma {:induction false} TotalCornersSnoc(shapes: seq<Shape>, s: Shape)
    ensures TotalCorners(shapes + [s]) == TotalCorners(shapes) + |s.indices|
  {
    if shapes != [] {
      assert (shapes + [s])[1..] == shapes[1..] + [s];
      TotalCornersSnoc(shapes[1..], s);
    } else {
      assert ([] + [s])[1..] == [];
    }
  }

  /** The corners of the first m shapes come first in the flattened list. */
  lemma {:induction false} CornersPrefix(shapes: seq<Shape>, m: nat)
    requires m <= |shapes|
    ensures Corners(shapes[..m]) <= Corners(shapes)
  {
    if m < |shapes| {
      var init := shapes[..|shapes| - 1];
      assert init[..m] == shapes[..m];
      CornersPrefix(init, m);
    } else {
      assert shapes[..m] == shapes;
    }
  }

  /**
   * Shape order then corner order: corner j of shape i sits right after the
   * corners of shapes 0 .. i-1 in the flattened list.
   */
  lemma CornersAt(shapes: seq<Shape>, i: nat, j: nat)
    requires i < |shapes| && j < |shapes[i].indices|
    ensures |Corners(shapes[..i])| + j < |Corners(shapes)|
    ensures Corners(shapes)[|Corners(shapes[..i])| + j] == shapes[i].indices[j]
  {
    CornersPrefix(shapes, i + 1);
    CornersStep(shapes, i);
  }

  /** Gathering a prefix of the corners gives a prefix of the gathered positions. */
  lemma {:induction false} GatherPrefix<T>(positions: seq<T>, cs: seq<Corner>, m: nat)
    requires CornersInBounds(positions, cs) && m <= |cs|
    ensures CornersInBounds(positions, cs[..m])
    ensures Gather(positions, cs[..m]) <= Gather(positions, cs)
  {
    assert CornersInBounds(positions, cs[..m]) by {
      forall k | 0 <= k < m ensures InBounds(positions, cs[..m][k]) {
        assert cs[..m][k] == cs[k];
      }
    }
    if m < |cs| {
      var init := cs[..|cs| - 1];
      assert init[..m] == cs[..m];
      assert CornersInBounds(positions, init) by {
        forall k | 0 <= k < |init| ensures InBounds(positions, init[k]) {
          assert init[k] == cs[k];
        }
      }
      GatherPrefix(positions, init, m);
    } else {
      assert cs[..m] == cs;
    }
  }

  /** The k-th triple of gathered positions is the position of the k-th corner. */
  lemma GatherAt<T>(positions: seq<T>, cs: seq<Corner>, k: nat)
    requires CornersInBounds(positions, cs) && k < |cs|
    ensures InBounds(positions, cs[k])
    ensures Gather(positions, cs)[3 * k .. 3 * k + 3] == Position(positions, cs[k])
  {
    GatherPrefix(positions, cs, k + 1);
    var pre := cs[..k + 1];
    assert pre[..k] == cs[..k];
    assert pre[k] == cs[k];
    assert Gather(positions, pre) == Gather(positions, cs[..k]) + Position(positions, cs[k]);
  }

  /** Taking one more shape appends its corners to the flattened list. */
  lemma CornersStep(shapes: seq<Shape>, s: nat)
    requires s < |shapes|
    ensures Corners(shapes[..s + 1]) == Corners(shapes[..s]) + shapes[s].indices
  {
    assert shapes[..s + 1][..s] == shapes[..s];
  }

  /** One more corner extends the gathered positions by its triple. */
  lemma GatherStep<T>(positions: seq<T>, corners: seq<Corner>, c: nat)
    requires c < |corners| && CornersInBounds(positions, corners)
    ensures CornersInBounds(positions, corners[..c]) && CornersInBounds(positions, corners[..c + 1])
    ensures Gather(positions, corners[..c + 1])
         == Gather(positions, corners[..c]) + Position(positions, corners[c])
  {
    GatherPrefix(positions, corners, c);
    GatherPrefix(positions, corners, c + 1);
    assert corners[..c + 1][..c] == corners[..c];
  }

  /** Gathering a concatenation gathers each part. */
  lemma {:induction false} GatherAppend<T>(positions: seq<T>, xs: seq<Corner>, ys: seq<Corner>)
    requires CornersInBounds(positions, xs) && CornersInBounds(positions, ys)
    ensures CornersInBounds(positions, xs + ys)
    ensures Gather(positions, xs + ys) == Gather(positions, xs) + Gather(positions, ys)
  {
    assert CornersInBounds(positions, xs + ys) by {
      forall k | 0 <= k < |xs + ys| ensures InBounds(positions, (xs + ys)[k]) {
        if k >= |xs| { assert (xs + ys)[k] == ys[k - |xs|]; }
      }
    }
    if ys == [] {
      assert xs + ys == xs;
    } else {
      var init := ys[..|ys| - 1];
      assert CornersInBounds(positions, init) by {
        forall k | 0 <= k < |init| ensures InBounds(positions, init[k]) {
          assert init[k] == ys[k];
        }
      }
      GatherAppend(positions, xs, init);
      assert (xs + ys)[..|xs + ys| - 1] == xs + init;
      assert (xs + ys)[|xs + ys| - 1] == ys[|ys| - 1];
    }
  }

  /** The index run for a + b entries is the run for a followed by the run for b. */
  lemma IndexRunAppend(start: nat, a: nat, b: nat, n: nat)
    requires n == a + b
    ensures IndexRun(start, n) == IndexRun(start, a) + IndexRun(start + a, b)
  {
    var l, r := IndexRun(start, n), IndexRun(start, a) + IndexRun(start + a, b);
    assert |l| == |r|;
    forall k | 0 <= k < |l| ensures l[k] == r[k] {
      if k >= a {
        assert r[k] == IndexRun(start + a, b)[k - a];
      }
    }
  }

  /**
   * One pass of the loader's outer loop: if the buffers held the first s
   * shapes and then received shape s, they hold the first s + 1 shapes.
   */
  lemma ShapeStep<T>(positions: seq<T>, shapes: seq<Shape>, s: nat,
                     v0: seq<T>, i0: seq<nat>, v1: seq<T>, i1: seq<nat>, v2: seq<T>, i2: seq<nat>)
    requires s < |shapes|
    requires CornersInBounds(positions, Corners(shapes[..s]))
    requires CornersInBounds(positions, shapes[s].indices)
    requires v1 == v0 + Gather(positions, Corners(shapes[..s]))
    requires i1 == i0 + IndexRun(|i0|, |Corners(shapes[..s])|)
    requires v2 == v1 + Gather(positions, shapes[s].indices)
    requires i2 == i1 + IndexRun(|i1|, |shapes[s].indices|)
    ensures CornersInBounds(positions, Corners(shapes[..s + 1]))
    ensures v2 == v0 + Gather(positions, Corners(shapes[..s + 1]))
    ensures i2 == i0 + IndexRun(|i0|, |Corners(shapes[..s + 1])|)
  {
    var done, corners := Corners(shapes[..s]), shapes[s].indices;
    CornersStep(shapes, s);
    GatherAppend(positions, done, corners);
    AppendAssoc(v0, Gather(positions, done), Gather(positions, corners));
    IndexExtend(i0, i1, i2, |done|, |corners|, |Corners(shapes[..s + 1])|);
  }

  /** Two index runs appended one after the other form a single run. */
  lemma IndexExtend(i0: seq<nat>, i1: seq<nat>, i2: seq<nat>, a: nat, b: nat, n: nat)
    requires n == a + b
    requires i1 == i0 + IndexRun(|i0|, a)
    requires i2 == i1 + IndexRun(|i1|, b)
    ensures i2 == i0 + IndexRun(|i0|, n)
  {
    var ra, rb := IndexRun(|i0|, a), IndexRun(|i0| + a, b);
    assert |i1| == |i0| + a;
    assert i2 == (i0 + ra) + rb;
    IndexRunAppend(|i0|, a, b, n);
    AppendAssoc(i0, ra, rb);
  }

  /**
   * Concatenation regrouped. Stated apart so that the loop-step lemmas do not
   * search for it next to the recursive definitions, which is costly.
   */
  lemma AppendAssoc<U>(a: seq<U>, b: seq<U>, c: seq<U>)
    ensures (a + b) + c == a + (b + c)
  {
  }

  /**
   * The triple copied for corner j of shape i is the position that corner's
   * vertex index selects, at the slot given by shape-then-corner order.
   */
  lemma FlattenedTriple<T>(positions: seq<T>, shapes: seq<Shape>, i: nat, j: nat)
    requires ShapesInBounds(positions, shapes)
    requires i < |shapes| && j < |shapes[i].indices|
    ensures CornersInBounds(positions, Corners(shapes))
    ensures var k := |Corners(shapes[..i])| + j;
      3 * k + 3 <= |Gather(positions, Corners(shapes))| &&
      Gather(positions, Corners(shapes))[3 * k .. 3 * k + 3] == Position(positions, shapes[i].indices[j])
  {
    CornersInBoundsOfShapes(positions, shapes);
    CornersAt(shapes, i, j);
    GatherAt(positions, Corners(shapes), |Corners(shapes[..i])| + j);
  }

  /** Appending a gathered run and its index run keeps the buffer invariant. */
  lemma AppendKeepsValid<T>(vertices: seq<T>, indices: seq<nat>, positions: seq<T>, cs: seq<Corner>)
    requires BuffersValid(vertices, indices) && CornersInBounds(positions, cs)
    ensures BuffersValid(vertices + Gather(positions, cs), indices + IndexRun(|indices|, |cs|))
  {
    var run := IndexRun(|indices|, |cs|);
    var all := indices + run;
    forall i | 0 <= i < |all| ensures all[i] == i % IndexModulus {
      if i >= |indices| {
        assert all[i] == run[i - |indices|];
      }
    }
  }

  /** While the buffer has at most 2^32 entries, the index buffer is the identity. */
  lemma IndicesIdentity<T>(vertices: seq<T>, indices: seq<nat>, i: nat)
    requires BuffersValid(vertices, indices) && |indices| <= IndexModulus && i < |indices|
    ensures indices[i] == i
  {
  }

  // ---------------------------------------------------------------------------
  // The two growable buffers that the loader appends to

  class MeshBuffers<T> {
    var vertices: seq<T>
    var indices: seq<nat>

    ghost predicate Valid()
      reads this
    {
      BuffersValid(vertices, indices)
    }

    constructor ()
      ensures vertices == [] && indices == [] && Valid()
    {
      vertices := [];
      indices := [];
    }

    /**
     * Appends every corner of every shape: its three position values to
     * vertices and the current index count to indices. A failed parse changes
     * nothing. The parser's vertex indices are not checked, so the caller must
     * supply references that stay inside the position array.
     */
    method LoadObj(result: LoadResult<T>)
      requires result.ok ==> ShapesInBounds(result.attrib.vertices, result.shapes)
      modifies this
      ensures !result.ok ==> vertices == old(vertices) && indices == old(indices)
      ensures result.ok ==>
        CornersInBounds(result.attrib.vertices, Corners(result.shapes)) &&
        vertices == old(vertices) + Gather(result.attrib.vertices, Corners(result.shapes)) &&
        indices == old(indices) + IndexRun(|old(indices)|, |Corners(result.shapes)|)
      ensures old(vertices) <= vertices && old(indices) <= indices
      ensures old(Valid()) ==> Valid()
    {
      if !result.ok {
        return;
      }
      var positions := result.attrib.vertices;
      var shapes := result.shapes;
      ghost var v0, i0 := vertices, indices;
      CornersInBoundsOfShapes(positions, shapes);

      var s := 0;
      while s < |shapes|
        invariant 0 <= s <= |shapes|
        invariant CornersInBounds(positions, Corners(shapes[..s]))
        invariant vertices == v0 + Gather(positions, Corners(shapes[..s]))
        invariant indices == i0 + IndexRun(|i0|, |Corners(shapes[..s])|)
      {
        ghost var v1, i1 := vertices, indices;
        AppendCorners(positions, shapes[s].indices);
        ShapeStep(positions, shapes, s, v0, i0, v1, i1, vertices, indices);
        s := s + 1;
      }
      assert shapes[..s] == shapes;
      if old(Valid()) {
        AppendKeepsValid(v0, i0, positions, Corners(shapes));
      }
    }

    /**
     * The inner loop of the loader: appends the corners of one shape, three
     * position values and one index per corner.
     */
    method AppendCorners(positions: seq<T>, corners: seq<Corner>)
      requires CornersInBounds(positions, corners)
      modifies this
      ensures vertices == old(vertices) + Gather(positions, corners)
      ensures indices == old(indices) + IndexRun(|old(indices)|, |corners|)
    {
      ghost var v0, i0 := vertices, indices;
      var c := 0;
      while c < |corners|
        invariant 0 <= c <= |corners|
        invariant CornersInBounds(positions, corners[..c])
        invariant vertices == v0 + Gather(positions, corners[..c])
        invariant indices == i0 + IndexRun(|i0|, c)
      {
        var v := corners[c].vertexIndex;
        ghost var before := vertices;
        vertices := vertices + [positions[3 * v + 0]];
        vertices := vertices + [positions[3 * v + 1]];
        vertices := vertices + [positions[3 * v + 2]];
        assert vertices == before + Position(positions, corners[c]);
        assert IndexRun(|i0|, c + 1) == IndexRun(|i0|, c) + [(|i0| + c) % IndexModulus];
        indices := indices + [|indices| % IndexModulus];
        GatherStep(positions, corners, c);
        c := c + 1;
      }
      assert corners[..c] == corners;
    }
  }
}
