/** The mesh record and its decoding into a MeshData (include/utilities.h).

    A record is one line of the dataset as numbers:
      [0]                      timestamp (used by the loader as the map key, not stored here)
      [1..3]                   sun position in the inertial frame
      [4..12]                  the 3x3 rotation matrix, one ROW after the other
      [13 .. 13+T-1]           one shadow value per triangle
      [13+T+9i+3j+k]           coordinate k of corner j of triangle i
    where T = (length - 13) / 10, rounded down. */
module Mesh {
  import opened Common

  /** One GPU vertex: position, shadow factor, synthetic temperature. */
  datatype Vertex = Vertex(position: Vec3, shadow: real, temperature: real)

  datatype VisualizationMode = Wireframe | Shadow | Temperature

  /** The enum's underlying integer (WIREFRAME = 0, SHADOW = 1, TEMPERATURE = 2). */
  function ModeValue(mode: VisualizationMode): int
  {
    match mode
    case Wireframe => 0
    case Shadow => 1
    case Temperature => 2
  }

  /** The conversion VisualizationMode(n) for the three enumerated values. */
  function ModeOf(n: int): (mode: VisualizationMode)
    requires 0 <= n <= 2
    ensures ModeValue(mode) == n
  {
    if n == 0 then Wireframe else if n == 1 then Shadow else Temperature
  }

  /** The numbering is a bijection between the three modes and 0..2. */
  lemma ModeNumbering(mode: VisualizationMode)
    ensures 0 <= ModeValue(mode) <= 2
    ensures ModeOf(ModeValue(mode)) == mode
  {
  }

  /** A glm::mat3, stored as glm stores it: by columns. */
  datatype Mat3 = Mat3(col0: Vec3, col1: Vec3, col2: Vec3)

  /** glm's matrix-vector product for a column-major matrix. */
  function MulMatVec(m: Mat3, v: Vec3): Vec3
  {
    Add(Add(Scale(m.col0, v.x), Scale(m.col1, v.y)), Scale(m.col2, v.z))
  }

  datatype MeshData = MeshData(vertices: seq<Vertex>, sunPosition: Vec3)

  const HeaderLength: nat := 13
  const ShadowStart: nat := 13

  /** T = (len - 13) / 10 with integer division. */
  function TriangleCount(len: nat): (t: nat)
    requires len >= HeaderLength
    ensures HeaderLength + 10 * t <= len < HeaderLength + 10 * t + 10
  {
    (len - HeaderLength) / 10
  }

  /** Index of coordinate k of corner j of triangle i when the record holds t triangles. */
  function CoordinateIndex(t: nat, i: nat, j: nat, k: nat): nat
  {
    HeaderLength + t + 9 * i + 3 * j + k
  }

  /** Every position read stays after the shadow block and inside the record; the largest
      one, for the last coordinate of the last corner of the last triangle, is 13 + 10T - 1. */
  lemma CoordinateInRecord(len: nat, i: nat, j: nat, k: nat)
    requires len >= HeaderLength
    requires i < TriangleCount(len) && j < 3 && k < 3
    ensures ShadowStart + TriangleCount(len) <= CoordinateIndex(TriangleCount(len), i, j, k) < len
    ensures ShadowStart + i < ShadowStart + TriangleCount(len)
    ensures CoordinateIndex(TriangleCount(len), TriangleCount(len) - 1, 2, 2)
            == HeaderLength + 10 * TriangleCount(len) - 1
  {
  }

  function SunInertial(record: seq<real>): Vec3
    requires |record| >= HeaderLength
  {
    Vec3(record[1], record[2], record[3])
  }

  /** The rotation matrix as the source builds it: glm::mat3 takes columns, and the
      columns are (r4, r7, r10), (r5, r8, r11), (r6, r9, r12). */
  function RotationOf(record: seq<real>): Mat3
    requires |record| >= HeaderLength
  {
    Mat3(Vec3(record[4], record[7], record[10]),
         Vec3(record[5], record[8], record[11]),
         Vec3(record[6], record[9], record[12]))
  }

  function SunPosition(record: seq<real>): Vec3
    requires |record| >= HeaderLength
  {
    MulMatVec(RotationOf(record), SunInertial(record))
  }

  /** Passing rows as columns to glm makes the record's nine values the matrix in row-major
      order: component r of the sun vector is the dot product of record[4+3r .. 6+3r] with
      the inertial sun vector. */
  lemma SunPositionRowMajor(record: seq<real>)
    requires |record| >= HeaderLength
    ensures SunPosition(record).x == record[4] * record[1] + record[5] * record[2] + record[6] * record[3]
    ensures SunPosition(record).y == record[7] * record[1] + record[8] * record[2] + record[9] * record[3]
    ensures SunPosition(record).z == record[10] * record[1] + record[11] * record[2] + record[12] * record[3]
  {
  }

  /** Corner j of triangle i: its position from the coordinate block, the triangle's shadow
      value and the synthetic temperature i / T. */
  function VertexOf(record: seq<real>, i: nat, j: nat): Vertex
    requires |record| >= HeaderLength
    requires i < TriangleCount(|record|) && j < 3
  {
    var t := TriangleCount(|record|);
    CoordinateInRecord(|record|, i, j, 0);
    CoordinateInRecord(|record|, i, j, 2);
    Vertex(Vec3(record[CoordinateIndex(t, i, j, 0)],
                record[CoordinateIndex(t, i, j, 1)],
                record[CoordinateIndex(t, i, j, 2)]),
           record[ShadowStart + i],
           i as real / t as real)
  }

  lemma CornerSplit(k: nat, t: nat)
    requires k < 3 * t
    ensures k / 3 < t && k % 3 < 3 && k == 3 * (k / 3) + k % 3
  {
  }

  /** The decoded mesh: 3T vertices, triangle-major then corner order. */
  function MeshOf(record: seq<real>): MeshData
    requires |record| >= HeaderLength
  {
    var t := TriangleCount(|record|);
    MeshData(seq(3 * t, k requires 0 <= k < 3 * t =>
                          CornerSplit(k, t); VertexOf(record, k / 3, k % 3)),
             SunPosition(record))
  }

  /** The MeshData constructor: nested loops over triangles and corners, pushing one vertex
      per corner. */
  method DecodeRecord(record: seq<real>) returns (mesh: MeshData)
    requires |record| >= HeaderLength
    ensures mesh == MeshOf(record)
  {
    var sunPositionInertial := Vec3(record[1], record[2], record[3]);
    var rotationMatrix := Mat3(Vec3(record[4], record[7], record[10]),
                               Vec3(record[5], record[8], record[11]),
                               Vec3(record[6], record[9], record[12]));
    var sunPosition := MulMatVec(rotationMatrix, sunPositionInertial);

    var numberOfTriangles := (|record| - 13) / 10;
    var triangleStartIndex := 13 + numberOfTriangles;
    var colorStartIndex := 13;
    var vertices: seq<Vertex> := [];
    for i := 0 to numberOfTriangles
      invariant |vertices| == 3 * i
      invariant forall k :: 0 <= k < 3 * i ==> vertices[k] == VertexOf(record, k / 3, k % 3)
    {
      var temperature := i as real / numberOfTriangles as real;
      for j := 0 to 3
        invariant |vertices| == 3 * i + j
        invariant forall k :: 0 <= k < 3 * i + j ==> vertices[k] == VertexOf(record, k / 3, k % 3)
      {
        CoordinateInRecord(|record|, i, j, 2);
        var position := Vec3(record[triangleStartIndex + 9 * i + 3 * j],
                             record[triangleStartIndex + 1 + 9 * i + 3 * j],
                             record[triangleStartIndex + 2 + 9 * i + 3 * j]);
        vertices := vertices + [Vertex(position, record[colorStartIndex + i], temperature)];
        assert (3 * i + j) / 3 == i && (3 * i + j) % 3 == j;
      }
    }
    mesh := MeshData(vertices, sunPosition);
  }

  /** Exactly 3T vertices, so the count is a multiple of three. */
  lemma VertexCount(record: seq<real>)
    requires |record| >= HeaderLength
    ensures |MeshOf(record).vertices| == 3 * TriangleCount(|record|)
    ensures |MeshOf(record).vertices| % 3 == 0
  {
  }

  /** Vertex 3i+j is corner j of triangle i: its position is read from the coordinate
      block, and all three corners of triangle i carry shadow record[13+i] and temperature i/T. */
  lemma VertexLayout(record: seq<real>, i: nat, j: nat)
    requires |record| >= HeaderLength
    requires i < TriangleCount(|record|) && j < 3
    ensures 3 * i + j < |MeshOf(record).vertices|
    ensures var t := TriangleCount(|record|);
            var v := MeshOf(record).vertices[3 * i + j];
            && v.position == Vec3(record[13 + t + 9 * i + 3 * j],
                                  record[13 + t + 9 * i + 3 * j + 1],
                                  record[13 + t + 9 * i + 3 * j + 2])
            && v.shadow == record[13 + i]
            && v.temperature == i as real / t as real
  {
    assert (3 * i + j) / 3 == i && (3 * i + j) % 3 == j;
  }

  /** The synthetic temperatures lie in [0, 1), start at 0 and never decrease along the
      vertex sequence. */
  lemma TemperatureRamp(record: seq<real>, k1: nat, k2: nat)
    requires |record| >= HeaderLength
    requires k1 <= k2 < |MeshOf(record).vertices|
    ensures var vs := MeshOf(record).vertices;
            && vs[0].temperature == 0.0
            && 0.0 <= vs[k1].temperature <= vs[k2].temperature < 1.0
  {
    var t := TriangleCount(|record|);
    var i1, i2 := k1 / 3, k2 / 3;
    assert i1 <= i2 < t;
    assert i2 as real < t as real;
    DivideMonotone(i1 as real, i2 as real, t as real);
    DivideBelowOne(i2 as real, t as real);
  }

  lemma DivideMonotone(a: real, b: real, d: real)
    requires 0.0 <= a <= b && d > 0.0
    ensures 0.0 <= a / d <= b / d
  {
  }

  lemma DivideBelowOne(a: real, d: real)
    requires 0.0 <= a < d
    ensures a / d < 1.0
  {
  }

  /** Tokens past 13 + 10T are ignored: up to nine trailing values do not change the mesh. */
  lemma TrailingValuesIgnored(record: seq<real>)
    requires |record| >= HeaderLength
    ensures var n := HeaderLength + 10 * TriangleCount(|record|);
            && n <= |record|
            && TriangleCount(n) == TriangleCount(|record|)
            && MeshOf(record[..n]) == MeshOf(record)
  {
    var n := HeaderLength + 10 * TriangleCount(|record|);
    var a, b := MeshOf(record[..n]), MeshOf(record);
    assert |a.vertices| == |b.vertices|;
    forall k | 0 <= k < |a.vertices| ensures a.vertices[k] == b.vertices[k] {
      CornerSplit(k, TriangleCount(n));
      CoordinateInRecord(n, k / 3, k % 3, 2);
    }
  }

  /** The timestamp at index 0 is not part of the decoded mesh. */
  lemma TimestampNotStored(record: seq<real>, timestamp: real)
    requires |record| >= HeaderLength
    ensures MeshOf(record[0 := timestamp]) == MeshOf(record)
  {
    var a, b := MeshOf(record[0 := timestamp]), MeshOf(record);
    forall k | 0 <= k < |a.vertices| ensures a.vertices[k] == b.vertices[k] {
      CornerSplit(k, TriangleCount(|record|));
      CoordinateInRecord(|record|, k / 3, k % 3, 0);
    }
  }

  /** A 33-value record holds two triangles whose temperatures read 0, 0, 0, 1/2, 1/2, 1/2. */
  lemma TwoTriangleTemperatures(record: seq<real>)
    requires |record| == 33
    ensures |MeshOf(record).vertices| == 6
    ensures forall k :: 0 <= k < 3 ==> MeshOf(record).vertices[k].temperature == 0.0
    ensures forall k :: 3 <= k < 6 ==> MeshOf(record).vertices[k].temperature == 0.5
  {
    assert TriangleCount(33) == 2;
  }
}
