/**
 * The host program's start-up bookkeeping: flattening the loaded mesh into
 * one vertex per index entry with identity indices, and laying the memory
 * store's blocks out back to back in one allocation.
 */
module Startup {
  import opened Common

  // ---------------------------------------------------------------------
  // Mesh flattening
  // ---------------------------------------------------------------------

  datatype Vec2 = Vec2(x: real, y: real)
  datatype Vec3 = Vec3(x: real, y: real, z: real)

  /** A `Vertex` of the renderer's mesh: position, texture coordinate and colour. */
  datatype Vertex = Vertex(pos: Vec3, uv: Vec2, color: Vec3)

  /** One index entry of an OBJ face: which position and which texture coordinate it uses. */
  datatype MeshIndex = MeshIndex(vertexIndex: nat, texcoordIndex: nat)

  /** The loader's attribute arrays: three reals per position, two per texture coordinate. */
  datatype Attributes = Attributes(positions: seq<real>, texcoords: seq<real>)

  /** A shape of the loaded file: its index entries. */
  datatype Shape = Shape(indices: seq<MeshIndex>)

  /** Every index entry of every shape points into the attribute arrays. */
  predicate IndicesInRange(attrib: Attributes, shapes: seq<Shape>)
  {
    forall s, k :: 0 <= s < |shapes| && 0 <= k < |shapes[s].indices| ==>
      3 * shapes[s].indices[k].vertexIndex + 2 < |attrib.positions| &&
      2 * shapes[s].indices[k].texcoordIndex + 1 < |attrib.texcoords|
  }

  /** The vertex built for one index entry; the texture's v axis is flipped. */
  function VertexOf(attrib: Attributes, index: MeshIndex): (v: Vertex)
    requires 3 * index.vertexIndex + 2 < |attrib.positions| && 2 * index.texcoordIndex + 1 < |attrib.texcoords|
    ensures v.uv.y + attrib.texcoords[2 * index.texcoordIndex + 1] == 1.0
    ensures v.color == Vec3(1.0, 1.0, 1.0)
  {
    Vertex(Vec3(attrib.positions[3 * index.vertexIndex], attrib.positions[3 * index.vertexIndex + 1],
                attrib.positions[3 * index.vertexIndex + 2]),
           Vec2(attrib.texcoords[2 * index.texcoordIndex], 1.0 - attrib.texcoords[2 * index.texcoordIndex + 1]),
           Vec3(1.0, 1.0, 1.0))
  }

  /** The number of index entries over all shapes. */
  function IndexEntries(shapes: seq<Shape>): nat
  {
    if shapes == [] then 0 else IndexEntries(shapes[..|shapes| - 1]) + |shapes[|shapes| - 1].indices|
  }

  /** The vertices of the index entries `indices[..k]` of one shape. */
  function ShapeVertices(attrib: Attributes, indices: seq<MeshIndex>, k: nat): seq<Vertex>
    requires k <= |indices|
    requires forall j :: 0 <= j < |indices| ==>
      3 * indices[j].vertexIndex + 2 < |attrib.positions| && 2 * indices[j].texcoordIndex + 1 < |attrib.texcoords|
  {
    if k == 0 then [] else ShapeVertices(attrib, indices, k - 1) + [VertexOf(attrib, indices[k - 1])]
  }

  /** The flattened mesh: the vertices of every shape's index entries, shape after shape. */
  function MeshVertices(attrib: Attributes, shapes: seq<Shape>): seq<Vertex>
    requires IndicesInRange(attrib, shapes)
  {
    if shapes == [] then []
    else
      var last := shapes[|shapes| - 1];
      assert forall k :: 0 <= k < |last.indices| ==> last.indices[k] == shapes[|shapes| - 1].indices[k];
      MeshVertices(attrib, shapes[..|shapes| - 1]) + ShapeVertices(attrib, last.indices, |last.indices|)
  }

  lemma {:induction false} ShapeVerticesLength(attrib: Attributes, indices: seq<MeshIndex>, k: nat)
    requires k <= |indices|
    requires forall j :: 0 <= j < |indices| ==>
      3 * indices[j].vertexIndex + 2 < |attrib.positions| && 2 * indices[j].texcoordIndex + 1 < |attrib.texcoords|
    ensures |ShapeVertices(attrib, indices, k)| == k
  {
    if k > 0 {
      ShapeVerticesLength(attrib, indices, k - 1);
    }
  }

  /** The flattened mesh has one vertex per index entry. */
  lemma {:induction false} MeshVerticesLength(attrib: Attributes, shapes: seq<Shape>)
    requires IndicesInRange(attrib, shapes)
    ensures |MeshVertices(attrib, shapes)| == IndexEntries(shapes)
  {
    if shapes != [] {
      var last := shapes[|shapes| - 1];
      MeshVerticesLength(attrib, shapes[..|shapes| - 1]);
      ShapeVerticesLength(attrib, last.indices, |last.indices|);
    }
  }

  lemma {:induction false} ShapeVertexAt(attrib: Attributes, indices: seq<MeshIndex>, k: nat, j: nat)
    requires j < k <= |indices|
    requires forall i :: 0 <= i < |indices| ==>
      3 * indices[i].vertexIndex + 2 < |attrib.positions| && 2 * indices[i].texcoordIndex + 1 < |attrib.texcoords|
    ensures |ShapeVertices(attrib, indices, k)| == k
    ensures ShapeVertices(attrib, indices, k)[j] == VertexOf(attrib, indices[j])
  {
    ShapeVerticesLength(attrib, indices, k);
    if j < k - 1 {
      ShapeVertexAt(attrib, indices, k - 1, j);
    } else {
      ShapeVerticesLength(attrib, indices, k - 1);
    }
  }

  /**
   * The vertex built for index entry `k` of shape `s` sits right after the
   * vertices of the shapes before it: the mesh is flattened in order.
   */
  lemma {:induction false} MeshVertexAt(attrib: Attributes, shapes: seq<Shape>, s: nat, k: nat)
    requires IndicesInRange(attrib, shapes)
    requires s < |shapes| && k < |shapes[s].indices|
    ensures IndexEntries(shapes[..s]) + k < |MeshVertices(attrib, shapes)|
    ensures MeshVertices(attrib, shapes)[IndexEntries(shapes[..s]) + k] == VertexOf(attrib, shapes[s].indices[k])
  {
    var n := |shapes| - 1;
    var init := shapes[..n];
    var last := shapes[n];
    MeshVerticesLength(attrib, init);
    MeshVerticesLength(attrib, shapes);
    if s == n {
      assert init == shapes[..s];
      ShapeVertexAt(attrib, last.indices, |last.indices|, k);
    } else {
      assert init[..s] == shapes[..s];
      MeshVertexAt(attrib, init, s, k);
      assert init[s] == shapes[s];
    }
  }

  /** The index buffer entry for position `i`: the vector's size, cast to `u32`. */
  function IdentityIndices(n: nat): (r: seq<u32>)
    ensures |r| == n
    ensures forall i :: 0 <= i < n ==> r[i] == ToU32(i)
    ensures n <= U32_MODULUS ==> forall i :: 0 <= i < n ==> r[i] == i
  {
    seq(n, i requires 0 <= i < n => ToU32(i))
  }

  /**
   * The mesh loop: one vertex pushed per index entry of every shape, in
   * order, with the index buffer numbering the vertices 0, 1, 2, ...
   * (each as a `u32`). The counts handed to the renderer are the two
   * sizes, cast to `u32`.
   */
  method FlattenMesh(attrib: Attributes, shapes: seq<Shape>)
    returns (vertices: seq<Vertex>, indices: seq<u32>, vertexCount: u32, indexCount: u32)
    requires IndicesInRange(attrib, shapes)
    ensures vertices == MeshVertices(attrib, shapes)
    ensures indices == IdentityIndices(IndexEntries(shapes))
    ensures |vertices| == |indices| == IndexEntries(shapes)
    ensures vertexCount == indexCount == ToU32(IndexEntries(shapes))
  {
    vertices := [];
    indices := [];
    for s := 0 to |shapes|
      invariant vertices == MeshVertices(attrib, shapes[..s])
      invariant indices == IdentityIndices(|vertices|)
    {
      var shape := shapes[s];
      ghost var before := vertices;
      for k := 0 to |shape.indices|
        invariant vertices == before + ShapeVertices(attrib, shape.indices, k)
        invariant indices == IdentityIndices(|vertices|)
      {
        vertices := vertices + [VertexOf(attrib, shape.indices[k])];
        indices := indices + [ToU32(|indices|)];
      }
      assert shapes[..s + 1][..s] == shapes[..s];
    }
    assert shapes[..|shapes|] == shapes;
    MeshVerticesLength(attrib, shapes);
    vertexCount := ToU32(|vertices|);
    indexCount := ToU32(|indices|);
  }

  // ---------------------------------------------------------------------
  // Memory-store layout
  // ---------------------------------------------------------------------

  /** `Megabytes(n)`: n mebibytes. */
  function Megabytes(n: nat): nat
  {
    n * 1024 * 1024
  }

  /** The sizes of the game, asset and frame blocks, in `blocks` order. */
  function StoreSizes(): seq<nat>
  {
    [Megabytes(8), Megabytes(8), Megabytes(2)]
  }

  /** The sum of `sizes[..n]`. */
  function SizeBefore(sizes: seq<nat>, n: nat): nat
    requires n <= |sizes|
  {
    if n == 0 then 0 else SizeBefore(sizes, n - 1) + sizes[n - 1]
  }

  lemma {:induction false} SizeBeforeGrows(sizes: seq<nat>, i: nat, j: nat)
    requires i <= j <= |sizes|
    ensures SizeBefore(sizes, i) <= SizeBefore(sizes, j)
    decreases j
  {
    if i < j {
      SizeBeforeGrows(sizes, i, j - 1);
    }
  }

  /** The first layout loop: the allocation's size is the sum of the block sizes. */
  method TotalSize(sizes: seq<nat>) returns (total: nat)
    ensures total == SizeBefore(sizes, |sizes|)
  {
    total := 0;
    for i := 0 to |sizes|
      invariant total == SizeBefore(sizes, i)
    {
      total := total + sizes[i];
    }
  }

  /** The addresses of the first `n` blocks when laid out from `base`. */
  function Starts(sizes: seq<nat>, base: nat, n: nat): seq<nat>
    requires n <= |sizes|
  {
    if n == 0 then [] else Starts(sizes, base, n - 1) + [base + SizeBefore(sizes, n - 1)]
  }

  /** Block `i` starts at `base` plus the sizes of the blocks before it. */
  lemma {:induction false} StartsAt(sizes: seq<nat>, base: nat, n: nat, i: nat)
    requires i < n <= |sizes|
    ensures |Starts(sizes, base, n)| == n
    ensures Starts(sizes, base, n)[i] == base + SizeBefore(sizes, i)
  {
    if i < n - 1 {
      StartsAt(sizes, base, n - 1, i);
    } else if n > 1 {
      StartsAt(sizes, base, n - 1, 0);
    }
  }

  /**
   * The second layout loop: the walker starts at the allocation's base and
   * hands each block the address right after the block before it.
   */
  method BlockStarts(sizes: seq<nat>, base: nat) returns (starts: seq<nat>)
    ensures starts == Starts(sizes, base, |sizes|)
  {
    var walker := base;
    starts := [];
    for i := 0 to |sizes|
      invariant walker == base + SizeBefore(sizes, i)
      invariant starts == Starts(sizes, base, i)
    {
      starts := starts + [walker];
      walker := walker + sizes[i];
    }
  }

  /** The two layout loops together: each block starts after the ones before it, and the total is the sum of all sizes. */
  method LayoutMemory(sizes: seq<nat>, base: nat) returns (total: nat, starts: seq<nat>)
    ensures total == SizeBefore(sizes, |sizes|)
    ensures |starts| == |sizes|
    ensures forall i :: 0 <= i < |sizes| ==> starts[i] == base + SizeBefore(sizes, i)
  {
    total := TotalSize(sizes);
    starts := BlockStarts(sizes, base);
    forall i | 0 <= i < |sizes|
      ensures |starts| == |sizes| && starts[i] == base + SizeBefore(sizes, i)
    {
      StartsAt(sizes, base, |sizes|, i);
    }
    if sizes == [] {
      assert starts == [];
    }
  }

  /**
   * The laid-out blocks are contiguous (each starts where the one before it
   * ends), pairwise disjoint, and all within the allocation.
   */
  lemma {:induction false} BlocksPartitionStore(sizes: seq<nat>, base: nat, i: nat, j: nat)
    requires i < j < |sizes|
    ensures base + SizeBefore(sizes, i) + sizes[i] <= base + SizeBefore(sizes, j)
    ensures j == i + 1 ==> base + SizeBefore(sizes, i) + sizes[i] == base + SizeBefore(sizes, j)
    ensures base + SizeBefore(sizes, j) + sizes[j] <= base + SizeBefore(sizes, |sizes|)
  {
    SizeBeforeGrows(sizes, i + 1, j);
    SizeBeforeGrows(sizes, j + 1, |sizes|);
  }

  /** The memory store takes 18 MiB, with the asset block 8 MiB in and the frame block 16 MiB in. */
  lemma StoreLayout()
    ensures SizeBefore(StoreSizes(), 3) == Megabytes(18)
    ensures SizeBefore(StoreSizes(), 1) == Megabytes(8) && SizeBefore(StoreSizes(), 2) == Megabytes(16)
  {
  }
}
