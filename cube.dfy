/**
 * The cube mesh every marker and point is drawn with: 36 vertices, two
 * triangles on each of the six faces of the cube [-1, 1]^3, all of one colour.
 */
module CubeGeometry {
  import opened Colors

  /** A position with integer coordinates; the cube's corners are its only values here. */
  datatype Point = Point(x: int, y: int, z: int)

  /** `VertexPositionColor`: a position and the colour it is drawn with. */
  datatype Vertex = Vertex(position: Point, color: Color)

  const TopLeftFront: Point := Point(-1, 1, -1)
  const TopRightFront: Point := Point(1, 1, -1)
  const TopLeftBack: Point := Point(-1, 1, 1)
  const TopRightBack: Point := Point(1, 1, 1)

  const BotLeftFront: Point := Point(-1, -1, -1)
  const BotRightFront: Point := Point(1, -1, -1)
  const BotLeftBack: Point := Point(-1, -1, 1)
  const BotRightBack: Point := Point(1, -1, 1)

  /** The corner slot `i` of the mesh holds: a corner of the face its block of six lies on. */
  function Slot(i: int): (p: Point)
    requires 0 <= i < 36
    ensures IsCorner(p) && OnFace(p, BlockFace(i / 6))
  {
    match i
    case 0 => TopLeftFront
    case 1 => BotLeftFront
    case 2 => TopRightFront
    case 3 => BotLeftFront
    case 4 => BotRightFront
    case 5 => TopRightFront
    case 6 => TopLeftBack
    case 7 => TopRightBack
    case 8 => BotLeftBack
    case 9 => BotLeftBack
    case 10 => TopRightBack
    case 11 => BotRightBack
    case 12 => TopLeftFront
    case 13 => TopRightBack
    case 14 => TopLeftBack
    case 15 => TopLeftFront
    case 16 => TopRightFront
    case 17 => TopRightBack
    case 18 => BotLeftFront
    case 19 => BotLeftBack
    case 20 => BotRightBack
    case 21 => BotLeftFront
    case 22 => BotRightBack
    case 23 => BotRightFront
    case 24 => TopLeftFront
    case 25 => BotLeftBack
    case 26 => BotLeftFront
    case 27 => TopLeftBack
    case 28 => BotLeftBack
    case 29 => TopLeftFront
    case 30 => TopRightFront
    case 31 => BotRightFront
    case 32 => BotRightBack
    case 33 => TopRightBack
    case 34 => TopRightFront
    case 35 => BotRightBack
  }

  /** The number of triangles the mesh is drawn as (`model.Length / 3`). */
  function TriangleCount(mesh: seq<Vertex>): (n: nat)
    ensures 3 * n <= |mesh| < 3 * n + 3
  {
    |mesh| / 3
  }

  /** The mesh `BuildCube` fills in, as a value. */
  function CubeMesh(c: Color): (mesh: seq<Vertex>)
    ensures |mesh| == 36 && TriangleCount(mesh) == 12
    ensures forall i | 0 <= i < |mesh| :: mesh[i].color == c
  {
    seq(36, i requires 0 <= i < 36 => Vertex(Slot(i), c))
  }

  /** Writes the six slots `first .. first + 5` of one face's block. */
  method WriteFace(arr: array<Vertex>, first: nat, corners: seq<Point>, c: Color)
    requires first + 6 <= arr.Length && |corners| == 6
    modifies arr
    ensures forall i | 0 <= i < arr.Length ::
              arr[i] == if first <= i < first + 6 then Vertex(corners[i - first], c) else old(arr[i])
  {
    arr[first] := Vertex(corners[0], c);
    arr[first + 1] := Vertex(corners[1], c);
    arr[first + 2] := Vertex(corners[2], c);
    arr[first + 3] := Vertex(corners[3], c);
    arr[first + 4] := Vertex(corners[4], c);
    arr[first + 5] := Vertex(corners[5], c);
  }

  /** Allocates the 36-slot array and writes every slot with a corner and `cubeColor`. */
  method BuildCube(cubeColor: Color) returns (arr: array<Vertex>)
    ensures fresh(arr) && arr[..] == CubeMesh(cubeColor)
  {
    arr := new Vertex[36];
    WriteFace(arr, 0, [TopLeftFront, BotLeftFront, TopRightFront, BotLeftFront, BotRightFront, TopRightFront], cubeColor);
    WriteFace(arr, 6, [TopLeftBack, TopRightBack, BotLeftBack, BotLeftBack, TopRightBack, BotRightBack], cubeColor);
    WriteFace(arr, 12, [TopLeftFront, TopRightBack, TopLeftBack, TopLeftFront, TopRightFront, TopRightBack], cubeColor);
    WriteFace(arr, 18, [BotLeftFront, BotLeftBack, BotRightBack, BotLeftFront, BotRightBack, BotRightFront], cubeColor);
    WriteFace(arr, 24, [TopLeftFront, BotLeftBack, BotLeftFront, TopLeftBack, BotLeftBack, TopLeftFront], cubeColor);
    WriteFace(arr, 30, [TopRightFront, BotRightFront, BotRightBack, TopRightBack, TopRightFront, BotRightBack], cubeColor);
    forall i | 0 <= i < 36 ensures arr[i] == Vertex(Slot(i), cubeColor) {
      SlotCases(i);
    }
    assert arr[..] == CubeMesh(cubeColor);
  }

  lemma SlotCases(i: int)
    requires 0 <= i < 36
    ensures i == 0 || i == 1 || i == 2 || i == 3 || i == 4 || i == 5 || i == 6 || i == 7 || i == 8 || i == 9 || i == 10 || i == 11 || i == 12 || i == 13 || i == 14 || i == 15 || i == 16 || i == 17 || i == 18 || i == 19 || i == 20 || i == 21 || i == 22 || i == 23 || i == 24 || i == 25 || i == 26 || i == 27 || i == 28 || i == 29 || i == 30 || i == 31 || i == 32 || i == 33 || i == 34 || i == 35
  {
  }

  lemma TriangleCases(t: int)
    requires 0 <= t < 12
    ensures t == 0 || t == 1 || t == 2 || t == 3 || t == 4 || t == 5 || t == 6 || t == 7 || t == 8 || t == 9 || t == 10 || t == 11
  {
  }

  // Geometry of the mesh

  predicate IsCorner(p: Point) {
    (p.x == -1 || p.x == 1) && (p.y == -1 || p.y == 1) && (p.z == -1 || p.z == 1)
  }

  datatype Axis = X | Y | Z

  /** The face of the cube where the coordinate on `axis` equals `side` (-1 or 1). */
  datatype Face = Face(axis: Axis, side: int)

  function Coordinate(p: Point, a: Axis): int {
    match a
    case X => p.x
    case Y => p.y
    case Z => p.z
  }

  predicate OnFace(p: Point, f: Face) {
    Coordinate(p, f.axis) == f.side
  }

  /** The unit vector pointing out of the cube through face `f`. */
  function Outward(f: Face): Point {
    match f.axis
    case X => Point(f.side, 0, 0)
    case Y => Point(0, f.side, 0)
    case Z => Point(0, 0, f.side)
  }

  /** The face block `f` (slots 6f .. 6f + 5) lies on: back, front, top, bottom, left, right. */
  function BlockFace(f: int): Face
    requires 0 <= f < 6
  {
    match f
    case 0 => Face(Z, -1)
    case 1 => Face(Z, 1)
    case 2 => Face(Y, 1)
    case 3 => Face(Y, -1)
    case 4 => Face(X, -1)
    case 5 => Face(X, 1)
  }

  function Sub(p: Point, q: Point): Point {
    Point(p.x - q.x, p.y - q.y, p.z - q.z)
  }

  function Cross(u: Point, v: Point): Point {
    Point(u.y * v.z - u.z * v.y, u.z * v.x - u.x * v.z, u.x * v.y - u.y * v.x)
  }

  function Dot(u: Point, v: Point): int {
    u.x * v.x + u.y * v.y + u.z * v.z
  }

  /** The normal (b - a) × (c - a) of the triangle a, b, c. */
  function Normal(a: Point, b: Point, c: Point): Point {
    Cross(Sub(b, a), Sub(c, a))
  }

  /** The normal of the triangle in slots 3t, 3t + 1, 3t + 2. */
  function TriangleNormal(mesh: seq<Vertex>, t: nat): Point
    requires 3 * t + 2 < |mesh|
  {
    Normal(mesh[3 * t].position, mesh[3 * t + 1].position, mesh[3 * t + 2].position)
  }

  function Scale(k: int, p: Point): Point {
    Point(k * p.x, k * p.y, k * p.z)
  }

  /** The eight corners of the cube. */
  const AllCorners: set<Point> := {
    TopLeftFront, TopRightFront, TopLeftBack, TopRightBack,
    BotLeftFront, BotRightFront, BotLeftBack, BotRightBack
  }

  /** Every vertex sits on one of the eight corners, each coordinate -1 or 1. */
  lemma {:induction false} CubeCorners(c: Color)
    ensures forall i | 0 <= i < 36 :: CubeMesh(c)[i].position in AllCorners
    ensures forall p | p in AllCorners :: IsCorner(p)
  {
    forall i | 0 <= i < 36 ensures CubeMesh(c)[i].position in AllCorners {
      SlotCases(i);
    }
  }

  /** Slot i lies on the face of its block, `BlockFace(i / 6)`. */
  lemma {:induction false} CubeFaces(c: Color)
    ensures forall i | 0 <= i < 36 :: OnFace(CubeMesh(c)[i].position, BlockFace(i / 6))
  {
    forall i | 0 <= i < 36 ensures OnFace(CubeMesh(c)[i].position, BlockFace(i / 6)) {
      SlotCases(i);
    }
  }

  lemma BackSlotValues()
    ensures Slot(0) == Point(-1, 1, -1) &&
            Slot(1) == Point(-1, -1, -1) &&
            Slot(2) == Point(1, 1, -1) &&
            Slot(3) == Point(-1, -1, -1) &&
            Slot(4) == Point(1, -1, -1) &&
            Slot(5) == Point(1, 1, -1)
  {
  }

  lemma FrontSlotValues()
    ensures Slot(6) == Point(-1, 1, 1) &&
            Slot(7) == Point(1, 1, 1) &&
            Slot(8) == Point(-1, -1, 1) &&
            Slot(9) == Point(-1, -1, 1) &&
            Slot(10) == Point(1, 1, 1) &&
            Slot(11) == Point(1, -1, 1)
  {
  }

  lemma TopSlotValues()
    ensures Slot(12) == Point(-1, 1, -1) &&
            Slot(13) == Point(1, 1, 1) &&
            Slot(14) == Point(-1, 1, 1) &&
            Slot(15) == Point(-1, 1, -1) &&
            Slot(16) == Point(1, 1, -1) &&
            Slot(17) == Point(1, 1, 1)
  {
  }

  lemma BottomSlotValues()
    ensures Slot(18) == Point(-1, -1, -1) &&
            Slot(19) == Point(-1, -1, 1) &&
            Slot(20) == Point(1, -1, 1) &&
            Slot(21) == Point(-1, -1, -1) &&
            Slot(22) == Point(1, -1, 1) &&
            Slot(23) == Point(1, -1, -1)
  {
  }

  lemma LeftSlotValues()
    ensures Slot(24) == Point(-1, 1, -1) &&
            Slot(25) == Point(-1, -1, 1) &&
            Slot(26) == Point(-1, -1, -1) &&
            Slot(27) == Point(-1, 1, 1) &&
            Slot(28) == Point(-1, -1, 1) &&
            Slot(29) == Point(-1, 1, -1)
  {
  }

  lemma RightSlotValues()
    ensures Slot(30) == Point(1, 1, -1) &&
            Slot(31) == Point(1, -1, -1) &&
            Slot(32) == Point(1, -1, 1) &&
            Slot(33) == Point(1, 1, 1) &&
            Slot(34) == Point(1, 1, -1) &&
            Slot(35) == Point(1, -1, 1)
  {
  }

  lemma NormalOf(a: Point, b: Point, c: Point, n: Point)
    requires n == Point((b.y - a.y) * (c.z - a.z) - (b.z - a.z) * (c.y - a.y),
                        (b.z - a.z) * (c.x - a.x) - (b.x - a.x) * (c.z - a.z),
                        (b.x - a.x) * (c.y - a.y) - (b.y - a.y) * (c.x - a.x))
    ensures Normal(a, b, c) == n
  {
  }

  /** Triangle t of the layout has the inward normal of its face. */
  lemma SlotWinding(t: int)
    requires 0 <= t < 12
    ensures Normal(Slot(3 * t), Slot(3 * t + 1), Slot(3 * t + 2)) == Scale(-4, Outward(BlockFace(t / 2)))
  {
    BackSlotValues();
    FrontSlotValues();
    TopSlotValues();
    BottomSlotValues();
    LeftSlotValues();
    RightSlotValues();
    TriangleCases(t);
    NormalOf(Slot(3 * t), Slot(3 * t + 1), Slot(3 * t + 2), Scale(-4, Outward(BlockFace(t / 2))));
  }

  /** Four times the inward direction of a face has dot product -4 with its outward direction. */
  lemma InwardDot(f: Face)
    requires f.side == -1 || f.side == 1
    ensures Dot(Scale(-4, Outward(f)), Outward(f)) == -4
  {
  }

  /**
   * Every triangle is wound the same way: its normal is four times the inward
   * direction of its face, so it points at the cube's centre.
   */
  lemma {:induction false} CubeWinding(c: Color)
    ensures forall t | 0 <= t < 12 ::
              TriangleNormal(CubeMesh(c), t) == Scale(-4, Outward(BlockFace(t / 2)))
              && Dot(TriangleNormal(CubeMesh(c), t), Outward(BlockFace(t / 2))) < 0
  {
    var m := CubeMesh(c);
    forall t | 0 <= t < 12
      ensures TriangleNormal(m, t) == Scale(-4, Outward(BlockFace(t / 2)))
      ensures Dot(TriangleNormal(m, t), Outward(BlockFace(t / 2))) < 0
    {
      assert m[3 * t].position == Slot(3 * t);
      assert m[3 * t + 1].position == Slot(3 * t + 1);
      assert m[3 * t + 2].position == Slot(3 * t + 2);
      SlotWinding(t);
      InwardDot(BlockFace(t / 2));
    }
  }
}
