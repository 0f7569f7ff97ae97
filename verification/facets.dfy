/**
 * The FacetGroup payload as a producer prints it: the polygon count, then
 * per polygon its contour count, per contour its vertex count, each on a
 * line of its own, then per vertex a position record and a normal record,
 * each " x y z" on a line of its own. The proofs below read such text back
 * with the reference functions of the decoder.
 */
module RevFacetsPrinted {
  import opened Wrappers
  import opened RevErrors
  import opened RevLexer
  import opened RevGeometry
  import opened RevDecode
  import opened RevPrinted

  /** Three integer coordinates, printed as floats without a fraction. */
  datatype Point = Point(x: nat, y: nat, z: nat)

  /** A vertex of a contour: its position and its normal. */
  datatype Vertex = Vertex(pos: Point, nrm: Point)

  function Reals(pt: Point): (r: seq<real>)
    ensures |r| == 3
  {
    [pt.x as real, pt.y as real, pt.z as real]
  }

  /** One coordinate of a record: a space and the number. */
  function Field(d: nat): (r: string)
    ensures |r| == 1 + |Decimal(d)| && r[0] == ' '
  {
    " " + Decimal(d)
  }

  /** One record: " x y z" and a line feed. */
  function Rec3(pt: Point): (r: string)
    ensures |r| == |Field(pt.x)| + |Field(pt.y)| + |Field(pt.z)| + 1
  {
    Field(pt.x) + (Field(pt.y) + (Field(pt.z) + "\n"))
  }

  /** A count on a line of its own. */
  function CountLine(n: nat): (r: string)
    ensures |r| == |Decimal(n)| + 1
  {
    Decimal(n) + "\n"
  }

  function VertexText(v: Vertex): string
  {
    Rec3(v.pos) + Rec3(v.nrm)
  }

  function VerticesText(vs: seq<Vertex>): string
  {
    if vs == [] then "" else VertexText(vs[0]) + VerticesText(vs[1..])
  }

  /** The vertex array of a contour: the positions, three floats each, in order. */
  function Positions(vs: seq<Vertex>): (r: seq<real>)
    ensures |r| == 3 * |vs|
  {
    if vs == [] then [] else Reals(vs[0].pos) + Positions(vs[1..])
  }

  /** The normal array of a contour: the normals, three floats each, in order. */
  function Normals(vs: seq<Vertex>): (r: seq<real>)
    ensures |r| == 3 * |vs|
  {
    if vs == [] then [] else Reals(vs[0].nrm) + Normals(vs[1..])
  }

  /** A facet group of one polygon with one contour through `vs`. */
  function FacetText(vs: seq<Vertex>): string
  {
    CountLine(1) + (CountLine(1) + (CountLine(|vs|) + VerticesText(vs)))
  }

  /** `t` sits in `s` at `p`, character by character. */
  predicate Occurs(s: string, p: nat, t: string)
    decreases |t|
  {
    p + |t| <= |s| && (t == [] || (s[p] == t[0] && Occurs(s, p + 1, t[1..])))
  }

  lemma {:induction false} OccursSlice(s: string, p: nat, t: string)
    ensures Occurs(s, p, t) <==> p + |t| <= |s| && s[p..p + |t|] == t
    decreases |t|
  {
    if t != [] && p + |t| <= |s| {
      OccursSlice(s, p + 1, t[1..]);
      assert s[p..p + |t|] == [s[p]] + s[p + 1..p + |t|];
      assert t == [t[0]] + t[1..];
    }
  }

  lemma OccursAt(s: string, pre: string, t: string, rest: string)
    requires s == pre + t + rest
    ensures Occurs(s, |pre|, t)
  {
    OccursSlice(s, |pre|, t);
    assert s[|pre|..|pre| + |t|] == t;
  }

  lemma OccursSplit(s: string, p: nat, t: string, u: string)
    requires Occurs(s, p, t + u)
    ensures Occurs(s, p, t) && Occurs(s, p + |t|, u)
  {
    OccursSlice(s, p, t + u);
    OccursSlice(s, p, t);
    OccursSlice(s, p + |t|, u);
    var w := s[p..p + |t| + |u|];
    assert s[p..p + |t|] == w[..|t|] && w[..|t|] == t;
    assert s[p + |t|..p + |t| + |u|] == w[|t|..] && w[|t|..] == u;
  }

  /**
   * A field ending at `q`, followed by a space or a line feed, reads back
   * with `read_f32` as the number it prints.
   */
  lemma FieldRead(s: string, p: nat, d: nat, q: nat, u: string)
    requires q == p + |Field(d)| && Occurs(s, p, Field(d) + u) && u != [] && (u[0] == ' ' || u[0] == '\n')
    ensures FloatAt(s, p) == Some((d as real, q))
  {
    FieldAround(s, p, d, q, u);
    FloatIn(s, s[..p], d, s[q..], p, q);
  }

  /** `FloatAtPrinted` for a string known to be cut that way. */
  lemma FloatIn(s: string, pre: string, d: nat, post: string, p: nat, q: nat)
    requires s == pre + Spaces(1) + Decimal(d) + post && p == |pre| && q == |pre| + 1 + |Decimal(d)|
    requires post == [] || !(IsDigit(post[0]) || post[0] in ".eE")
    ensures FloatAt(s, p) == Some((d as real, q))
  {
    FloatAtPrinted(pre, 1, d, post);
  }

  /** `s` cut around a field that is followed by a space or a line feed. */
  lemma FieldAround(s: string, p: nat, d: nat, q: nat, u: string)
    requires q == p + |Field(d)| && Occurs(s, p, Field(d) + u) && u != [] && (u[0] == ' ' || u[0] == '\n')
    ensures q <= |s| && s == s[..p] + Spaces(1) + Decimal(d) + s[q..] && |s[..p]| == p
    ensures q == |s[..p]| + 1 + |Decimal(d)|
    ensures s[q..] == [] || !(IsDigit(s[q..][0]) || s[q..][0] in ".eE")
  {
    OccursSplit(s, p, Field(d), u);
    OccursSlice(s, p, Field(d));
    OccursSlice(s, q, u);
    assert Spaces(1) == " ";
    assert s[p..q] == Spaces(1) + Decimal(d);
    assert s == s[..p] + s[p..q] + s[q..];
    assert s[q..][0] == u[0];
  }

  /** One step of `FloatsFrom` once the next float is known. */
  lemma FloatsStep(s: string, p: nat, n: nat, acc: seq<real>, x: real, q: nat)
    requires p <= |s| && n > 0 && FloatAt(s, p) == Some((x, q))
    ensures FloatsFrom(s, p, n, acc) == FloatsFrom(s, q, n - 1, acc + [x])
  {
  }

  /** The three floats of a record in a row, each known. */
  lemma ThreeFloats(s: string, p: nat, acc: seq<real>, pt: Point, p1: nat, p2: nat, p3: nat)
    requires p <= |s| && p1 <= |s| && p2 <= |s|
    requires FloatAt(s, p) == Some((pt.x as real, p1)) && FloatAt(s, p1) == Some((pt.y as real, p2))
    requires FloatAt(s, p2) == Some((pt.z as real, p3))
    ensures FloatsFrom(s, p, 3, acc) == Some((acc + Reals(pt), p3))
  {
    var x, y, z := pt.x as real, pt.y as real, pt.z as real;
    FloatsStep(s, p, 3, acc, x, p1);
    FloatsStep(s, p1, 2, acc + [x], y, p2);
    FloatsStep(s, p2, 1, acc + [x] + [y], z, p3);
    Snoc3(acc, x, y, z);
  }

  lemma Snoc3(acc: seq<real>, x: real, y: real, z: real)
    ensures acc + [x] + [y] + [z] == acc + [x, y, z]
  {
  }

  /** A line feed at `p` is skipped. */
  lemma FeedSkip(s: string, p: nat, q: nat)
    requires p < |s| && s[p] == '\n' && q == p + 1
    ensures EolSkip(s, p) == q
  {
    assert NewlineFrom(s, p) == p;
  }

  /** Where the fields of a record and its line feed sit. */
  lemma Rec3Parts(s: string, p: nat, pt: Point, p1: nat, p2: nat, p3: nat)
    requires Occurs(s, p, Rec3(pt))
    requires p1 == p + |Field(pt.x)| && p2 == p1 + |Field(pt.y)| && p3 + 1 == p + |Rec3(pt)|
    ensures p <= |s| && p1 <= |s| && p2 <= |s| && p3 < |s| && p3 == p2 + |Field(pt.z)|
    ensures Occurs(s, p, Field(pt.x) + (Field(pt.y) + (Field(pt.z) + "\n")))
    ensures Occurs(s, p1, Field(pt.y) + (Field(pt.z) + "\n"))
    ensures Occurs(s, p2, Field(pt.z) + "\n")
    ensures (Field(pt.y) + (Field(pt.z) + "\n")) != [] && (Field(pt.y) + (Field(pt.z) + "\n"))[0] == ' '
    ensures (Field(pt.z) + "\n") != [] && (Field(pt.z) + "\n")[0] == ' '
    ensures s[p3] == '\n'
  {
    OccursSplit(s, p, Field(pt.x), Field(pt.y) + (Field(pt.z) + "\n"));
    OccursSplit(s, p1, Field(pt.y), Field(pt.z) + "\n");
    OccursSplit(s, p2, Field(pt.z), "\n");
  }

  /**
   * A record reads back as its three floats `x`, ending at its line feed `e`,
   * and that line feed is skipped to `next`.
   */
  lemma Rec3Read(s: string, p: nat, pt: Point, acc: seq<real>, x: seq<real>, e: nat, next: nat)
    requires Occurs(s, p, Rec3(pt)) && x == Reals(pt) && next == p + |Rec3(pt)| && e + 1 == next
    ensures p <= e < next <= |s|
    ensures FloatsFrom(s, p, 3, acc) == Some((acc + x, e)) && EolSkip(s, e) == next
  {
    var p1 := p + |Field(pt.x)|;
    var p2 := p1 + |Field(pt.y)|;
    Rec3Parts(s, p, pt, p1, p2, e);
    FeedSkip(s, e, next);
    FieldRead(s, p, pt.x, p1, Field(pt.y) + (Field(pt.z) + "\n"));
    FieldRead(s, p1, pt.y, p2, Field(pt.z) + "\n");
    FieldRead(s, p2, pt.z, e, "\n");
    ThreeFloats(s, p, acc, pt, p1, p2, e);
  }

  /**
   * A count line reads back with `read_u32`, ending at its line feed `e`,
   * and that line feed is skipped to `next`.
   */
  lemma CountRead(s: string, p: nat, n: nat, e: nat, next: nat)
    requires Occurs(s, p, CountLine(n)) && n <= MaxU32 && next == p + |CountLine(n)| && e + 1 == next
    ensures next <= |s| && U32At(s, p) == Some((n, e)) && EolSkip(s, e) == next
  {
    OccursSplit(s, p, Decimal(n), "\n");
    OccursSlice(s, p, Decimal(n));
    forall i | p <= i < e
      ensures IsDigit(s[i])
    {
      assert s[i] == Decimal(n)[i - p];
    }
    DecValueOfDecimal(n);
    U32AtDigits(s, p, p, e);
    FeedSkip(s, e, next);
  }

  /**
   * A printed vertex reads back as its position `x` and its normal `y`, and
   * the reading goes on at `e`, right after its text.
   */
  lemma VertexRead(s: string, p: nat, v: Vertex, x: seq<real>, y: seq<real>, e: nat)
    requires Occurs(s, p, VertexText(v))
    requires x == Reals(v.pos) && y == Reals(v.nrm) && e == p + |VertexText(v)|
    ensures VertexAt(s, p) == Ok((x, y, e))
  {
    var q := p + |Rec3(v.pos)|;
    assert q + |Rec3(v.nrm)| == e;
    OccursSplit(s, p, Rec3(v.pos), Rec3(v.nrm));
    RecordsRead(s, p, v.pos, v.nrm, x, y, q - 1, q, e - 1, e);
  }

  /** Two records in a row read back as one vertex. */
  lemma RecordsRead(s: string, p: nat, a: Point, b: Point, x: seq<real>, y: seq<real>,
                    e1: nat, q: nat, e2: nat, e: nat)
    requires Occurs(s, p, Rec3(a)) && Occurs(s, q, Rec3(b)) && x == Reals(a) && y == Reals(b)
    requires e1 + 1 == q == p + |Rec3(a)| && e2 + 1 == e == q + |Rec3(b)|
    ensures VertexAt(s, p) == Ok((x, y, e))
  {
    Rec3Read(s, p, a, [], x, e1, q);
    Rec3Read(s, q, b, x, y, e2, e);
    VertexFromRecords(s, p, x, e1, q, y, e2, e);
  }

  /** A vertex is read once both of its records are. */
  lemma VertexFromRecords(s: string, p: nat, x: seq<real>, e1: nat, q: nat, y: seq<real>, e2: nat, e: nat)
    requires p <= |s| && e1 <= |s| && q <= |s| && e2 <= |s| && |x| == 3 && |y| == 3
    requires FloatsFrom(s, p, 3, []) == Some(([] + x, e1)) && EolSkip(s, e1) == q
    requires FloatsFrom(s, q, 3, x) == Some((x + y, e2)) && EolSkip(s, e2) == e
    ensures VertexAt(s, p) == Ok((x, y, e))
  {
    Halves(x, y);
    assert VertexRuns[1..] == [Run(3, FacetGroupBadNormal)];
    assert RunsAt(s, p, VertexRuns, []) == RunsAt(s, q, VertexRuns[1..], x);
  }

  lemma Halves(x: seq<real>, y: seq<real>)
    requires |x| == 3
    ensures [] + x == x && (x + y)[..3] == x && (x + y)[3..] == y
  {
  }

  /**
   * The printed vertices of a contour read back in order: the reading goes
   * on at `e`, right after them, with their positions and normals appended
   * to the arrays (`w`).
   */
  lemma {:induction false} VerticesRead(s: string, p: nat, vs: seq<Vertex>, g: PolygonsSoFar, c: ContoursSoFar,
                                        v: VerticesSoFar, e: nat, w: VerticesSoFar)
    requires Occurs(s, p, VerticesText(vs))
    requires AllPolygonsSized(g.done) && |c.done| + c.left + 1 == c.count && AllContoursSized(c.done)
    requires VerticesOk(v) && v.left == |vs|
    requires e == p + |VerticesText(vs)|
    requires w == VerticesSoFar(v.count, 0, v.vertices + Positions(vs), v.normals + Normals(vs))
    ensures p <= |s| && e <= |s| && VerticesOk(w)
    ensures VerticesFrom(s, p, g, c, v) == VerticesFrom(s, e, g, c, w)
    decreases |vs|, 1
  {
    if vs == [] {
      assert v.vertices + [] == v.vertices && v.normals + [] == v.normals;
    } else {
      VerticesReadCons(s, p, vs, g, c, v, e, w);
    }
  }

  /** `VerticesRead` for a first vertex followed by the others. */
  lemma {:induction false} VerticesReadCons(s: string, p: nat, vs: seq<Vertex>, g: PolygonsSoFar, c: ContoursSoFar,
                                            v: VerticesSoFar, e: nat, w: VerticesSoFar)
    requires Occurs(s, p, VerticesText(vs)) && vs != []
    requires AllPolygonsSized(g.done) && |c.done| + c.left + 1 == c.count && AllContoursSized(c.done)
    requires VerticesOk(v) && v.left == |vs|
    requires e == p + |VerticesText(vs)|
    requires w == VerticesSoFar(v.count, 0, v.vertices + Positions(vs), v.normals + Normals(vs))
    ensures VerticesOk(w) && VerticesFrom(s, p, g, c, v) == VerticesFrom(s, e, g, c, w)
    decreases |vs|, 0
  {
    var x, y := Reals(vs[0].pos), Reals(vs[0].nrm);
    var q := p + |VertexText(vs[0])|;
    var v' := VerticesSoFar(v.count, v.left - 1, v.vertices + x, v.normals + y);
    ArraysStep(vs, v.vertices, v.normals);
    OccursSplit(s, p, VertexText(vs[0]), VerticesText(vs[1..]));
    VerticesRead(s, q, vs[1..], g, c, v', e, w);
    VertexReadStep(s, p, vs[0], g, c, v, x, y, q);
  }

  /** The arrays after the first vertex, then after the others, are those after all of them. */
  lemma ArraysStep(vs: seq<Vertex>, xs: seq<real>, ys: seq<real>)
    requires vs != []
    ensures (xs + Reals(vs[0].pos)) + Positions(vs[1..]) == xs + Positions(vs)
    ensures (ys + Reals(vs[0].nrm)) + Normals(vs[1..]) == ys + Normals(vs)
  {
  }

  /** A printed vertex is one step of `VerticesFrom`. */
  lemma VertexReadStep(s: string, p: nat, a: Vertex, g: PolygonsSoFar, c: ContoursSoFar, v: VerticesSoFar,
                       x: seq<real>, y: seq<real>, q: nat)
    requires Occurs(s, p, VertexText(a)) && x == Reals(a.pos) && y == Reals(a.nrm) && q == p + |VertexText(a)|
    requires AllPolygonsSized(g.done) && |c.done| + c.left + 1 == c.count && AllContoursSized(c.done)
    requires VerticesOk(v) && v.left > 0
    ensures p <= |s| && q <= |s| && VerticesOk(VerticesSoFar(v.count, v.left - 1, v.vertices + x, v.normals + y))
    ensures VerticesFrom(s, p, g, c, v) == VerticesFrom(s, q, g, c, VerticesSoFar(v.count, v.left - 1, v.vertices + x, v.normals + y))
  {
    VertexRead(s, p, a, x, y, q);
    VertexStep(s, p, g, c, v);
  }

  /**
   * A printed facet group of one polygon with one contour reads back as
   * exactly that group, ending right after its text.
   */
  lemma FacetGroupRead(vs: seq<Vertex>, rest: string)
    requires |vs| <= MaxU32
    ensures (FacetGroupAt(FacetText(vs) + rest, 0)
             == Ok((FacetGroup(1, [Polygon(1, [Contour(|vs|, Positions(vs), Normals(vs))])]), |FacetText(vs)|)))
  {
    var s := FacetText(vs) + rest;
    OccursAt(s, [], FacetText(vs), rest);
    FacetGroupIn(s, vs, |vs|, Positions(vs), Normals(vs), |FacetText(vs)|);
  }

  /** `FacetGroupRead` for a facet group printed at the start of `s`. */
  lemma FacetGroupIn(s: string, vs: seq<Vertex>, n: nat, xs: seq<real>, ys: seq<real>, e: nat)
    requires Occurs(s, 0, FacetText(vs)) && n == |vs| <= MaxU32
    requires xs == Positions(vs) && ys == Normals(vs) && e == |FacetText(vs)|
    ensures FacetGroupAt(s, 0) == Ok((FacetGroup(1, [Polygon(1, [Contour(n, xs, ys)])]), e))
  {
    FacetTextParts(s, vs, n);
    FacetLinesRead(s, vs, n, xs, ys, 4 + |CountLine(n)|, e);
  }

  /** Where the lines of a printed facet group sit. */
  lemma FacetTextParts(s: string, vs: seq<Vertex>, n: nat)
    requires Occurs(s, 0, FacetText(vs)) && n == |vs|
    ensures Occurs(s, 0, CountLine(1)) && Occurs(s, 2, CountLine(1)) && Occurs(s, 4, CountLine(n))
    ensures Occurs(s, 4 + |CountLine(n)|, VerticesText(vs))
    ensures |FacetText(vs)| == 4 + |CountLine(n)| + |VerticesText(vs)|
  {
    OneLine();
    FourParts(s, CountLine(1), CountLine(1), CountLine(n), VerticesText(vs));
  }

  /** Where four texts printed in a row at the start of `s` sit, the first two of length 2. */
  lemma FourParts(s: string, a: string, b: string, c: string, d: string)
    requires Occurs(s, 0, a + (b + (c + d))) && |a| == 2 && |b| == 2
    ensures Occurs(s, 0, a) && Occurs(s, 2, b) && Occurs(s, 4, c) && Occurs(s, 4 + |c|, d)
  {
    OccursSplit(s, 0, a, b + (c + d));
    OccursSplit(s, 2, b, c + d);
    OccursSplit(s, 4, c, d);
  }

  lemma OneLine()
    ensures |CountLine(1)| == 2
  {
    assert Decimal(1) == "1";
  }

  /** The three count lines and the vertices of a printed facet group, each read back. */
  lemma FacetLinesRead(s: string, vs: seq<Vertex>, n: nat, xs: seq<real>, ys: seq<real>, p2: nat, e: nat)
    requires Occurs(s, 0, CountLine(1)) && Occurs(s, 2, CountLine(1)) && Occurs(s, 4, CountLine(n))
    requires Occurs(s, p2, VerticesText(vs)) && p2 == 4 + |CountLine(n)| && e == p2 + |VerticesText(vs)|
    requires n == |vs| <= MaxU32 && xs == Positions(vs) && ys == Normals(vs)
    ensures FacetGroupAt(s, 0) == Ok((FacetGroup(1, [Polygon(1, [Contour(n, xs, ys)])]), e))
  {
    assert [] + Positions(vs) == xs && [] + Normals(vs) == ys;
    var g0 := PolygonsSoFar(0, []);
    VerticesRead(s, p2, vs, g0, ContoursSoFar(1, 0, []), VerticesSoFar(n, n, [], []), e, VerticesSoFar(n, 0, xs, ys));
    CountRead(s, 0, 1, 1, 2);
    CountRead(s, 2, 1, 3, 4);
    CountRead(s, 4, n, p2 - 1, p2);
    GroupOfOneContour(s, n, p2 - 1, p2, xs, ys, e);
  }

  /**
   * The counts "1", "1" and `n` on their lines, then the vertices of the
   * one contour up to `e`: one polygon of one contour, ending at `e`.
   */
  lemma GroupOfOneContour(s: string, n: nat, e2: nat, p2: nat, xs: seq<real>, ys: seq<real>, e: nat)
    requires 4 <= e2 < p2 <= e <= |s| && |xs| == 3 * n && |ys| == 3 * n
    requires U32At(s, 0) == Some((1, 1)) && EolSkip(s, 1) == 2
    requires U32At(s, 2) == Some((1, 3)) && EolSkip(s, 3) == 4
    requires U32At(s, 4) == Some((n, e2)) && EolSkip(s, e2) == p2
    requires (VerticesFrom(s, p2, PolygonsSoFar(0, []), ContoursSoFar(1, 0, []), VerticesSoFar(n, n, [], []))
              == VerticesFrom(s, e, PolygonsSoFar(0, []), ContoursSoFar(1, 0, []), VerticesSoFar(n, 0, xs, ys)))
    ensures FacetGroupAt(s, 0) == Ok((FacetGroup(1, [Polygon(1, [Contour(n, xs, ys)])]), e))
  {
    var g0 := PolygonsSoFar(0, []);
    var contour := Contour(n, xs, ys);
    var polygon := Polygon(1, [contour]);
    assert [] + [contour] == [contour] && [] + [polygon] == [polygon];
    assert AllContoursSized([contour]) && AllPolygonsSized([polygon]);
    OpenPolygon(s, 2, PolygonsSoFar(1, []), 1, 3);
    OpenContour(s, 4, g0, ContoursSoFar(1, 1, []), n, e2);
    CloseContour(s, e, g0, 1, 0, [], n, xs, ys);
    ClosePolygon(s, e, 0, [], 1, [contour]);
    PolygonsDone(s, e, [polygon]);
    GroupFromPolygons(s, 1, 1, [polygon], e);
  }

  /** With no polygon left, the reading of polygons ends where it is. */
  lemma PolygonsDone(s: string, p: nat, done: seq<Polygon>)
    requires p <= |s| && AllPolygonsSized(done)
    ensures PolygonsFrom(s, p, PolygonsSoFar(0, done)) == Ok((done, p))
  {
  }

  /** A facet group is its polygon count and the polygons read after it. */
  lemma GroupFromPolygons(s: string, n: nat, q: nat, ps: seq<Polygon>, e: nat)
    requires q < |s| && U32At(s, 0) == Some((n, q)) && EolSkip(s, q) <= |s|
    requires PolygonsFrom(s, EolSkip(s, q), PolygonsSoFar(n, [])) == Ok((ps, e))
    ensures FacetGroupAt(s, 0) == Ok((FacetGroup(n, ps), e))
  {
  }

  /** The floats of `vs[i]` are the entries 3i .. 3i+2 of the arrays. */
  lemma {:induction false} ArraysAt(vs: seq<Vertex>, i: nat)
    requires i < |vs|
    ensures Positions(vs)[3 * i..3 * i + 3] == Reals(vs[i].pos)
    ensures Normals(vs)[3 * i..3 * i + 3] == Reals(vs[i].nrm)
  {
    if i > 0 {
      ArraysAt(vs[1..], i - 1);
      assert Positions(vs)[3 * i..3 * i + 3] == Positions(vs[1..])[3 * (i - 1)..3 * (i - 1) + 3];
      assert Normals(vs)[3 * i..3 * i + 3] == Normals(vs[1..])[3 * (i - 1)..3 * (i - 1) + 3];
    }
  }

  /**
   * The group read from printed text holds, at every vertex index of its
   * contour, the position and the normal printed for that vertex.
   */
  lemma FacetGroupLayout(vs: seq<Vertex>, rest: string)
    requires |vs| <= MaxU32
    ensures var r := FacetGroupAt(FacetText(vs) + rest, 0);
      && r.Ok? && r.value.1 == |FacetText(vs)| && r.value.0.polygonsN == 1 && |r.value.0.polygons| == 1
      && r.value.0.polygons[0].contoursN == 1 && |r.value.0.polygons[0].contours| == 1
      && var c := r.value.0.polygons[0].contours[0];
         && c.verticesN == |vs| && ContourSized(c)
         && forall i :: 0 <= i < |vs| ==> Position(c, i) == Reals(vs[i].pos) && Normal(c, i) == Reals(vs[i].nrm)
  {
    FacetGroupRead(vs, rest);
    forall i | 0 <= i < |vs|
      ensures Positions(vs)[3 * i..3 * i + 3] == Reals(vs[i].pos)
      ensures Normals(vs)[3 * i..3 * i + 3] == Reals(vs[i].nrm)
    {
      ArraysAt(vs, i);
    }
  }

  /**
   * "1", "1", "2", then two vertices of two records each: one polygon with
   * one contour of two vertices, whose positions and normals are the printed
   * floats in order.
   */
  lemma TwoVertexGroup(a: Vertex, b: Vertex, rest: string)
    ensures var s := "1\n1\n2\n" + Rec3(a.pos) + Rec3(a.nrm) + Rec3(b.pos) + Rec3(b.nrm) + rest;
      var r := FacetGroupAt(s, 0);
      && r.Ok? && r.value.1 == |s| - |rest|
      && r.value.0.polygonsN == 1 && |r.value.0.polygons| == 1
      && r.value.0.polygons[0].contoursN == 1 && |r.value.0.polygons[0].contours| == 1
      && var c := r.value.0.polygons[0].contours[0];
         && c.verticesN == 2 && ContourSized(c)
         && Position(c, 0) == Reals(a.pos) && Normal(c, 0) == Reals(a.nrm)
         && Position(c, 1) == Reals(b.pos) && Normal(c, 1) == Reals(b.nrm)
  {
    var vs := [a, b];
    assert vs[0] == a && vs[1] == b;
    TwoVertexText(a, b, rest);
    FacetGroupLayout(vs, rest);
  }

  lemma TwoVertexText(a: Vertex, b: Vertex, rest: string)
    ensures ("1\n1\n2\n" + Rec3(a.pos) + Rec3(a.nrm) + Rec3(b.pos) + Rec3(b.nrm) + rest
             == FacetText([a, b]) + rest)
  {
    var v := Rec3(a.pos) + Rec3(a.nrm) + Rec3(b.pos) + Rec3(b.nrm);
    TwoVerticesText(a, b);
    CountsText(v);
    Regroup("1\n1\n2\n", Rec3(a.pos), Rec3(a.nrm), Rec3(b.pos), Rec3(b.nrm), rest);
  }

  lemma TwoVerticesText(a: Vertex, b: Vertex)
    ensures VerticesText([a, b]) == Rec3(a.pos) + Rec3(a.nrm) + Rec3(b.pos) + Rec3(b.nrm)
  {
    assert [a, b][1..] == [b] && [b][1..] == [];
    assert VerticesText([b]) == VertexText(b) + "";
  }

  lemma CountsText(v: string)
    ensures CountLine(1) + (CountLine(1) + (CountLine(2) + v)) == "1\n1\n2\n" + v
  {
    assert CountLine(1) == "1\n" && CountLine(2) == "2\n";
  }

  lemma Regroup(h: string, r1: string, r2: string, r3: string, r4: string, rest: string)
    ensures h + r1 + r2 + r3 + r4 + rest == (h + (r1 + r2 + r3 + r4)) + rest
  {
  }
}
