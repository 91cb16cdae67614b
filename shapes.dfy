/** The two immutable values the caller sees: the initial shape it supplies and the
    generated model it receives (src/client/wrap.h:138-208, src/client/wrap.cpp:87-102). */
module Shapes {
  import opened Values

  /** An input shape. Either inline geometry (a flat list of vertex coordinate
      triples, the face-vertex indices and the vertex count of each face) or the
      path of a geometry file; `pathFlag` says which. It never changes once built. */
  datatype InitialShape = InitialShape(
    vertices: seq<Double>,
    indices: seq<uint32>,
    faceCounts: seq<uint32>,
    path: string,
    pathFlag: bool)
  {
    /** `getVertexCount`: the number of coordinates (three per vertex). */
    function VertexCount(): (n: nat)
      ensures n == |vertices|
    { |vertices| }

    /** `getIndexCount`: the number of face-vertex indices. */
    function IndexCount(): (n: nat)
      ensures n == |indices|
    { |indices| }

    /** `getFaceCountsCount`: the number of faces. */
    function FaceCountsCount(): (n: nat)
      ensures n == |faceCounts|
    { |faceCounts| }
  }

  /** The constructor from explicit geometry: the three lists are kept as given and
      the shape is an inline one with an empty path. */
  function FromGeometry(vert: seq<Double>, ind: seq<uint32>, faceCnt: seq<uint32>): (s: InitialShape)
    ensures s.vertices == vert && s.indices == ind && s.faceCounts == faceCnt
    ensures s.VertexCount() == |vert| && s.IndexCount() == |ind| && s.FaceCountsCount() == |faceCnt|
    ensures !s.pathFlag && s.path == ""
  {
    InitialShape(vert, ind, faceCnt, "", false)
  }

  /** The constructor from a file path: no inline geometry, the path flag is set. */
  function FromPath(path: string): (s: InitialShape)
    ensures s.pathFlag && s.path == path
    ensures s.VertexCount() == 0 && s.IndexCount() == 0 && s.FaceCountsCount() == 0
  {
    InitialShape([], [], [], path, true)
  }

  /** The constructor from vertices alone. It synthesises the topology of one polygon
      through all vertices in order: the indices are `std::iota` from the literal 0
      over `|vert| / 3` slots, and there is a single face whose vertex count is that
      number cast to `uint32_t`. The literal makes the running counter a 32-bit `int`,
      which is incremented once after every slot; with 2^31 slots or more it overflows,
      which C++ leaves undefined, so the model accepts only fewer slots than that. The
      indices are then exactly 0, 1, ..., n-1 and the one face uses every index. */
  method FromVertices(vert: seq<Double>) returns (s: InitialShape)
    requires |vert| / 3 < 0x8000_0000
    ensures s.vertices == vert && !s.pathFlag && s.path == ""
    ensures s.IndexCount() == |vert| / 3
    ensures forall k :: 0 <= k < |s.indices| ==> s.indices[k] as int == k
    ensures s.FaceCountsCount() == 1 && s.faceCounts[0] as int == s.IndexCount()
  {
    var n := |vert| / 3;
    var indices: seq<uint32> := [];
    var value: int32 := 0;
    while |indices| < n
      invariant |indices| <= n
      invariant value as int == |indices|
      invariant forall k :: 0 <= k < |indices| ==> indices[k] as int == k
    {
      indices := indices + [value as uint32];
      value := value + 1;
    }
    s := InitialShape(vert, indices, [n as uint32], "", false);
  }

  /** A generated model: the index of the initial shape it came from, its geometry
      and its report. Its accessors return the constructor's arguments unchanged. */
  datatype GeneratedModel = GeneratedModel(
    initialShapeIndex: nat,
    vertices: seq<Double>,
    indices: seq<uint32>,
    faces: seq<uint32>,
    report: Report)
}
