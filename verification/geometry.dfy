/**
 * Geometry values a PRIM, OBST or INSU chunk decodes to: the 3x4 affine
 * transform in column-major storage, the local and world bounding boxes, and
 * one of the primitive payloads. Sphere (kind 9) has no payload variant: the
 * text reader never produces one.
 */
module RevGeometry {
  import opened Wrappers

  datatype Vec2 = Vec2(x: real, y: real)
  datatype Vec3 = Vec3(x: real, y: real, z: real)

  /** Axis-aligned box: min corner, max corner. */
  datatype BBox = BBox(min: Vec3, max: Vec3)

  datatype GeometryType = Primitive | Obstruction | Insulation

  /** One contour of a facet polygon: `verticesN` positions and as many normals, three floats each. */
  datatype Contour = Contour(verticesN: nat, vertices: seq<real>, normals: seq<real>)

  datatype Polygon = Polygon(contoursN: nat, contours: seq<Contour>)

  datatype Payload =
    | Unset
    | Pyramid(bottom: Vec2, top: Vec2, offset: Vec2, height: real)
    | Box(lengths: Vec3)
    | RectangularTorus(innerRadius: real, outerRadius: real, height: real, angle: real)
    | CircularTorus(torusOffset: real, radius: real, angle: real)
    | EllipticalDish(baseRadius: real, height: real)
    | SphericalDish(baseRadius: real, height: real)
    | Snout(radiusB: real, radiusT: real, height: real, snoutOffset: Vec2, bshear: Vec2, tshear: Vec2)
    | Cylinder(radius: real, height: real)
    | Line(a: real, b: real)
    | FacetGroup(polygonsN: nat, polygons: seq<Polygon>)

  /**
   * Everything a primitive chunk stores in its geometry except the
   * transparency, which comes from the enclosing Group.
   */
  datatype GeometryBody = GeometryBody(
    geometryType: GeometryType,
    matrix: seq<real>,
    bboxLocal: BBox,
    bboxWorld: BBox,
    payload: Payload)

  /** The body of a geometry that has been created but not yet filled in. */
  function EmptyBody(): GeometryBody
  {
    var zero := Vec3(0.0, 0.0, 0.0);
    GeometryBody(Primitive, seq(12, _ => 0.0), BBox(zero, zero), BBox(zero, zero), Unset)
  }

  /** The geometry classification a chunk id selects. */
  function GeometryTypeOf(id: string): (r: Option<GeometryType>)
    ensures r.Some? <==> id == "PRIM" || id == "OBST" || id == "INSU"
    ensures r == Some(Primitive) <==> id == "PRIM"
    ensures r == Some(Obstruction) <==> id == "OBST"
    ensures r == Some(Insulation) <==> id == "INSU"
  {
    if id == "PRIM" then Some(Primitive)
    else if id == "OBST" then Some(Obstruction)
    else if id == "INSU" then Some(Insulation)
    else None
  }

  /** The three geometry ids are none of the structural chunk ids. */
  lemma GeometryIdsDistinct(id: string)
    requires GeometryTypeOf(id).Some?
    ensures id != "HEAD" && id != "MODL" && id != "CNTB" && id != "CNTE" && id != "END:"
  {
  }

  // ---------------------------------------------------------------- transform

  /** Entry (r, c) of a 3x4 matrix read row by row, as it appears in the stream. */
  function RowEntry(rows: seq<real>, r: nat, c: nat): real
    requires |rows| == 12 && r < 3 && c < 4
  {
    rows[4 * r + c]
  }

  /** Entry (r, c) of a 3x4 matrix stored column-major. */
  function MatrixEntry(m: seq<real>, r: nat, c: nat): real
    requires |m| == 12 && r < 3 && c < 4
  {
    m[3 * c + r]
  }

  /** Transposes the twelve values read row by row into column-major storage. */
  function ColumnMajor(rows: seq<real>): (m: seq<real>)
    requires |rows| == 12
    ensures |m| == 12
    ensures forall r: nat, c: nat :: r < 3 && c < 4 ==> MatrixEntry(m, r, c) == RowEntry(rows, r, c)
  {
    [rows[0], rows[4], rows[8],
     rows[1], rows[5], rows[9],
     rows[2], rows[6], rows[10],
     rows[3], rows[7], rows[11]]
  }

  /** The affine map of a column-major 3x4 matrix applied to a point. */
  function Apply(m: seq<real>, v: Vec3): Vec3
    requires |m| == 12
  {
    Vec3(m[0] * v.x + m[3] * v.y + m[6] * v.z + m[9],
         m[1] * v.x + m[4] * v.y + m[7] * v.z + m[10],
         m[2] * v.x + m[5] * v.y + m[8] * v.z + m[11])
  }

  function Min(a: real, b: real): real { if a <= b then a else b }
  function Max(a: real, b: real): real { if a <= b then b else a }

  function Lo(a: Vec3, b: Vec3): Vec3 { Vec3(Min(a.x, b.x), Min(a.y, b.y), Min(a.z, b.z)) }
  function Hi(a: Vec3, b: Vec3): Vec3 { Vec3(Max(a.x, b.x), Max(a.y, b.y), Max(a.z, b.z)) }

  /** The box spanned by two boxes. */
  function Hull(a: BBox, b: BBox): BBox { BBox(Lo(a.min, b.min), Hi(a.max, b.max)) }

  function Point(v: Vec3): BBox { BBox(v, v) }

  /**
   * World box of a local box under an affine transform: the box spanned by
   * the eight transformed corners.
   */
  function TransformBox(m: seq<real>, b: BBox): BBox
    requires |m| == 12
  {
    var (l, h) := (b.min, b.max);
    Hull(Hull(Hull(Point(Apply(m, Vec3(l.x, l.y, l.z))), Point(Apply(m, Vec3(h.x, l.y, l.z)))),
              Hull(Point(Apply(m, Vec3(l.x, h.y, l.z))), Point(Apply(m, Vec3(h.x, h.y, l.z))))),
         Hull(Hull(Point(Apply(m, Vec3(l.x, l.y, h.z))), Point(Apply(m, Vec3(h.x, l.y, h.z)))),
              Hull(Point(Apply(m, Vec3(l.x, h.y, h.z))), Point(Apply(m, Vec3(h.x, h.y, h.z))))))
  }

  /** The six floats of a bounding box record: min xyz, then max xyz. */
  function BoxOf(v: seq<real>): BBox
    requires |v| == 6
  {
    BBox(Vec3(v[0], v[1], v[2]), Vec3(v[3], v[4], v[5]))
  }

  predicate WellFormedBox(b: BBox)
  {
    b.min.x <= b.max.x && b.min.y <= b.max.y && b.min.z <= b.max.z
  }

  /** The matrix of a pure translation, written row by row as the stream carries it. */
  function TranslationRows(t: Vec3): seq<real>
  {
    [1.0, 0.0, 0.0, t.x,
     0.0, 1.0, 0.0, t.y,
     0.0, 0.0, 1.0, t.z]
  }

  function Shift(b: BBox, t: Vec3): BBox
  {
    BBox(Vec3(b.min.x + t.x, b.min.y + t.y, b.min.z + t.z), Vec3(b.max.x + t.x, b.max.y + t.y, b.max.z + t.z))
  }

  /**
   * Rows [1,0,0,tx], [0,1,0,ty], [0,0,1,tz] put the translation in storage
   * slots 9..11, the transform maps the origin to it, and a box moves by it.
   */
  lemma TranslationLayout(t: Vec3, b: BBox)
    requires WellFormedBox(b)
    ensures var m := ColumnMajor(TranslationRows(t));
      && m[9..12] == [t.x, t.y, t.z]
      && Apply(m, Vec3(0.0, 0.0, 0.0)) == t
      && TransformBox(m, b) == Shift(b, t)
  {
  }

  /** The identity transform leaves a well-formed box unchanged. */
  lemma IdentityKeepsBox(b: BBox)
    requires WellFormedBox(b)
    ensures TransformBox(ColumnMajor(TranslationRows(Vec3(0.0, 0.0, 0.0))), b) == b
  {
  }

  // ---------------------------------------------------------------- fixed-size payloads

  /** Kinds whose payload is a fixed number of floats. */
  predicate IsFixedKind(kind: nat) { 1 <= kind <= 8 || kind == 10 }

  /** How many floats each fixed-size kind reads. */
  function FixedCount(kind: nat): nat
    requires IsFixedKind(kind)
  {
    match kind
    case 1 => 7   // Pyramid
    case 2 => 3   // Box
    case 3 => 4   // RectangularTorus
    case 4 => 3   // CircularTorus
    case 5 => 2   // EllipticalDish
    case 6 => 2   // SphericalDish
    case 7 => 9   // Snout
    case 8 => 2   // Cylinder
    case 10 => 2  // Line
  }

  /** The stored fields of a fixed-size payload, in the order the stream carries them. */
  function Params(pl: Payload): seq<real>
  {
    match pl
    case Pyramid(b, t, o, h) => [b.x, b.y, t.x, t.y, o.x, o.y, h]
    case Box(l) => [l.x, l.y, l.z]
    case RectangularTorus(ri, ro, h, a) => [ri, ro, h, a]
    case CircularTorus(o, r, a) => [o, r, a]
    case EllipticalDish(r, h) => [r, h]
    case SphericalDish(r, h) => [r, h]
    case Snout(rb, rt, h, o, bs, ts) => [rb, rt, h, o.x, o.y, bs.x, bs.y, ts.x, ts.y]
    case Cylinder(r, h) => [r, h]
    case Line(a, b) => [a, b]
    case _ => []
  }

  /** The primitive kind number a payload stands for (0 for a payload not yet read). */
  function KindOf(pl: Payload): nat
  {
    match pl
    case Unset => 0
    case Pyramid(_, _, _, _) => 1
    case Box(_) => 2
    case RectangularTorus(_, _, _, _) => 3
    case CircularTorus(_, _, _) => 4
    case EllipticalDish(_, _) => 5
    case SphericalDish(_, _) => 6
    case Snout(_, _, _, _, _, _) => 7
    case Cylinder(_, _) => 8
    case Line(_, _) => 10
    case FacetGroup(_, _) => 11
  }

  /** Builds a fixed-size payload from its floats in stream order. */
  function PayloadOf(kind: nat, v: seq<real>): (pl: Payload)
    requires IsFixedKind(kind) && |v| == FixedCount(kind)
    ensures KindOf(pl) == kind && Params(pl) == v
  {
    match kind
    case 1 => Pyramid(Vec2(v[0], v[1]), Vec2(v[2], v[3]), Vec2(v[4], v[5]), v[6])
    case 2 => Box(Vec3(v[0], v[1], v[2]))
    case 3 => RectangularTorus(v[0], v[1], v[2], v[3])
    case 4 => CircularTorus(v[0], v[1], v[2])
    case 5 => EllipticalDish(v[0], v[1])
    case 6 => SphericalDish(v[0], v[1])
    case 7 => Snout(v[0], v[1], v[2], Vec2(v[3], v[4]), Vec2(v[5], v[6]), Vec2(v[7], v[8]))
    case 8 => Cylinder(v[0], v[1])
    case 10 => Line(v[0], v[1])
  }

  // ---------------------------------------------------------------- facet groups

  predicate ContourSized(c: Contour)
  {
    |c.vertices| == 3 * c.verticesN && |c.normals| == 3 * c.verticesN
  }

  predicate PolygonSized(p: Polygon)
  {
    |p.contours| == p.contoursN && forall i :: 0 <= i < |p.contours| ==> ContourSized(p.contours[i])
  }

  /** Every array of a facet group holds exactly as many entries as its count says. */
  predicate WellSized(pl: Payload)
  {
    pl.FacetGroup? ==>
      |pl.polygons| == pl.polygonsN && forall i :: 0 <= i < |pl.polygons| ==> PolygonSized(pl.polygons[i])
  }

  /** Position `vi` of a contour: floats 3vi .. 3vi+2 of its vertex array. */
  function Position(c: Contour, vi: nat): seq<real>
    requires ContourSized(c) && vi < c.verticesN
  {
    c.vertices[3 * vi..3 * vi + 3]
  }

  /** Normal `vi` of a contour: floats 3vi .. 3vi+2 of its normal array. */
  function Normal(c: Contour, vi: nat): seq<real>
    requires ContourSized(c) && vi < c.verticesN
  {
    c.normals[3 * vi..3 * vi + 3]
  }
}
