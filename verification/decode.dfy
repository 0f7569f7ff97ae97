/**
 * Decoding of the body of a PRIM, OBST or INSU chunk: the primitive kind,
 * three matrix rows, the local bounding box and the kind's payload. The
 * floats of the fixed-size records are read in runs, each run followed by
 * an optional line ending; a run that comes up short fails with the error
 * its record names. A FacetGroup payload is a tree of counts, each count
 * sizing the array that follows it.
 */
module RevDecode {
  import opened Wrappers
  import opened RevLexer
  import opened RevErrors
  import opened RevGeometry

  /** `count` floats on one record, and the error reported when one is missing. */
  datatype Run = Run(count: nat, err: Error)

  function Total(runs: seq<Run>): nat
  {
    if runs == [] then 0 else runs[0].count + Total(runs[1..])
  }

  /** Reads `n` more floats after `acc`; `None` as soon as one is missing. */
  function FloatsFrom(s: string, p: nat, n: nat, acc: seq<real>): (r: Option<(seq<real>, nat)>)
    requires p <= |s|
    ensures r.Some? ==> |r.value.0| == |acc| + n
    ensures r.Some? ==> p <= r.value.1 <= |s|
    decreases n
  {
    if n == 0 then Some((acc, p))
    else match FloatAt(s, p)
      case None => None
      case Some((x, q)) => FloatsFrom(s, q, n - 1, acc + [x])
  }

  /**
   * Reads the runs in order, appending their floats to `acc`, and skips one
   * optional line ending after each run.
   */
  function RunsAt(s: string, p: nat, runs: seq<Run>, acc: seq<real>): (r: Result<(seq<real>, nat), Error>)
    requires p <= |s|
    ensures r.Ok? ==> |r.value.0| == |acc| + Total(runs)
    ensures r.Ok? ==> p <= r.value.1 <= |s|
    ensures r.Err? ==> exists i :: 0 <= i < |runs| && r.error == runs[i].err
    decreases |runs|
  {
    if runs == [] then Ok((acc, p))
    else match FloatsFrom(s, p, runs[0].count, acc)
      case None => Err(runs[0].err)
      case Some((v, q)) =>
        var r := RunsAt(s, EolSkip(s, q), runs[1..], v);
        assert r.Err? ==> exists i :: 0 <= i < |runs| && r.error == runs[i].err by {
          if r.Err? {
            var i :| 0 <= i < |runs[1..]| && r.error == runs[1..][i].err;
            assert runs[1..][i] == runs[i + 1];
          }
        }
        r
  }

  /** Reads `n` floats with `read_f32`, one after the other, appending them to `acc`. */
  method ReadFloats(s: string, p: nat, n: nat, acc: seq<real>) returns (r: Option<(seq<real>, nat)>)
    requires p <= |s|
    ensures r == FloatsFrom(s, p, n, acc)
    decreases n
  {
    if n == 0 {
      r := Some((acc, p));
    } else {
      var f := ReadF32(s, p);
      if f.None? {
        r := None;
      } else {
        r := ReadFloats(s, f.value.1, n - 1, acc + [f.value.0]);
      }
    }
  }

  method ReadRuns(s: string, p: nat, runs: seq<Run>) returns (r: Result<(seq<real>, nat), Error>)
    requires p <= |s|
    ensures r == RunsAt(s, p, runs, [])
  {
    var vals: seq<real> := [];
    var q: nat := p;
    var j := 0;
    ghost var rest := runs;
    while j < |runs|
      invariant 0 <= j <= |runs| && q <= |s| && rest == runs[j..]
      invariant RunsAt(s, p, runs, []) == RunsAt(s, q, rest, vals)
    {
      var v := ReadFloats(s, q, runs[j].count, vals);
      if v.None? {
        return Err(runs[j].err);
      }
      assert runs[j..][1..] == runs[j + 1..];
      q := SkipEol(s, v.value.1);
      vals := v.value.0;
      j, rest := j + 1, rest[1..];
    }
    return Ok((vals, q));
  }

  // ---------------------------------------------------------------- record layouts

  const MatrixRuns: seq<Run> :=
    [Run(4, PrimMissingMatrixRow(0)), Run(4, PrimMissingMatrixRow(1)), Run(4, PrimMissingMatrixRow(2))]

  const BBoxRuns: seq<Run> := [Run(3, PrimMissingBBoxLocal), Run(3, PrimMissingBBoxLocal)]

  /** A vertex of a facet contour: its position record, then its normal record. */
  const VertexRuns: seq<Run> := [Run(3, FacetGroupBadVertex), Run(3, FacetGroupBadNormal)]

  /** The records of each fixed-size payload, with the error each one reports. */
  function KindRuns(kind: nat): (runs: seq<Run>)
    requires IsFixedKind(kind)
    ensures Total(runs) == FixedCount(kind)
  {
    match kind
    case 1 => [Run(4, PyramidBadBottomTop), Run(3, PyramidBadOffsetHeight)]
    case 2 => [Run(3, BoxBadLengths)]
    case 3 => [Run(4, RectangularTorusBadParams)]
    case 4 => [Run(3, CircularTorusBadParams)]
    case 5 => [Run(2, EllipticalDishBadParams)]
    case 6 => [Run(2, SphericalDishBadParams)]
    case 7 => [Run(5, SnoutBadFirstLine), Run(4, SnoutBadShear)]
    case 8 => [Run(2, CylinderBadParams)]
    case 10 => [Run(2, LineBadParams)]
  }

  // ---------------------------------------------------------------- facet groups

  /*
   * A FacetGroup payload is read by three nested loops: polygons, the
   * contours of each polygon, the vertices of each contour. The reference
   * functions below follow those loops as three mutually recursive steps,
   * each carrying the state of the loops around it.
   */

  /** The outer loop: polygons still to read, and those read so far. */
  datatype PolygonsSoFar = PolygonsSoFar(left: nat, done: seq<Polygon>)

  /** The middle loop: the polygon's contour count, contours still to read, and those read so far. */
  datatype ContoursSoFar = ContoursSoFar(count: nat, left: nat, done: seq<Contour>)

  /** The inner loop: the contour's vertex count, vertices still to read, and the arrays so far. */
  datatype VerticesSoFar = VerticesSoFar(count: nat, left: nat, vertices: seq<real>, normals: seq<real>)

  predicate AllContoursSized(cs: seq<Contour>)
  {
    forall i :: 0 <= i < |cs| ==> ContourSized(cs[i])
  }

  predicate AllPolygonsSized(ps: seq<Polygon>)
  {
    forall i :: 0 <= i < |ps| ==> PolygonSized(ps[i])
  }

  /** The contours of the open polygon, with room for the rest of its count. */
  predicate ContoursOk(c: ContoursSoFar)
  {
    |c.done| + c.left == c.count && AllContoursSized(c.done)
  }

  /** The arrays of the open contour hold three floats per vertex read. */
  predicate VerticesOk(v: VerticesSoFar)
  {
    v.left <= v.count && |v.vertices| == 3 * (v.count - v.left) && |v.normals| == 3 * (v.count - v.left)
  }

  /**
   * One polygon of `PolygonsFrom`: its contour count and line ending, then
   * its contours up to `q2`, after which the reading goes on with that
   * polygon added to those read.
   */
  lemma PolygonStep(s: string, p: nat, g: PolygonsSoFar, n: nat, q: nat, q2: nat, done: seq<Contour>)
    requires p <= |s| && q2 <= |s| && AllPolygonsSized(g.done) && g.left > 0 && U32At(s, p) == Some((n, q))
    requires |done| == n && AllContoursSized(done)
    requires (ContoursFrom(s, EolSkip(s, q), PolygonsSoFar(g.left - 1, g.done), ContoursSoFar(n, n, []))
              == ContoursFrom(s, q2, PolygonsSoFar(g.left - 1, g.done), ContoursSoFar(n, 0, done)))
    ensures AllPolygonsSized(g.done + [Polygon(n, done)])
    ensures PolygonsFrom(s, p, g) == PolygonsFrom(s, q2, PolygonsSoFar(g.left - 1, g.done + [Polygon(n, done)]))
  {
    OpenPolygon(s, p, g, n, q);
    ClosePolygon(s, q2, g.left - 1, g.done, n, done);
  }

  /** The first step of `PolygonsFrom` when a polygon is left: its contour count, then its contours. */
  lemma OpenPolygon(s: string, p: nat, g: PolygonsSoFar, n: nat, q: nat)
    requires p <= |s| && AllPolygonsSized(g.done) && g.left > 0 && U32At(s, p) == Some((n, q))
    ensures (PolygonsFrom(s, p, g)
             == ContoursFrom(s, EolSkip(s, q), PolygonsSoFar(g.left - 1, g.done), ContoursSoFar(n, n, [])))
  {
  }

  /** A polygon whose contours are all read joins the polygons read so far. */
  lemma ClosePolygon(s: string, p: nat, left: nat, done: seq<Polygon>, n: nat, contours: seq<Contour>)
    requires p <= |s| && AllPolygonsSized(done) && |contours| == n && AllContoursSized(contours)
    ensures AllPolygonsSized(done + [Polygon(n, contours)])
    ensures (ContoursFrom(s, p, PolygonsSoFar(left, done), ContoursSoFar(n, 0, contours))
             == PolygonsFrom(s, p, PolygonsSoFar(left, done + [Polygon(n, contours)])))
  {
    var done' := done + [Polygon(n, contours)];
    assert forall i :: 0 <= i < |done| ==> done'[i] == done[i];
  }

  /**
   * One contour of `ContoursFrom`: its vertex count and line ending, then
   * its vertices up to `q2`, after which the reading goes on with that
   * contour added to those of the open polygon.
   */
  lemma ContourStep(s: string, p: nat, g: PolygonsSoFar, c: ContoursSoFar, n: nat, q: nat, q2: nat,
                    vs: seq<real>, ns: seq<real>)
    requires p <= |s| && q2 <= |s| && AllPolygonsSized(g.done) && ContoursOk(c) && c.left > 0
    requires U32At(s, p) == Some((n, q)) && |vs| == 3 * n && |ns| == 3 * n
    requires (VerticesFrom(s, EolSkip(s, q), g, ContoursSoFar(c.count, c.left - 1, c.done), VerticesSoFar(n, n, [], []))
              == VerticesFrom(s, q2, g, ContoursSoFar(c.count, c.left - 1, c.done), VerticesSoFar(n, 0, vs, ns)))
    ensures ContoursOk(ContoursSoFar(c.count, c.left - 1, c.done + [Contour(n, vs, ns)]))
    ensures ContoursFrom(s, p, g, c) == ContoursFrom(s, q2, g, ContoursSoFar(c.count, c.left - 1, c.done + [Contour(n, vs, ns)]))
  {
    OpenContour(s, p, g, c, n, q);
    CloseContour(s, q2, g, c.count, c.left - 1, c.done, n, vs, ns);
  }

  /** The first step of `ContoursFrom` when a contour is left: its vertex count, then its vertices. */
  lemma OpenContour(s: string, p: nat, g: PolygonsSoFar, c: ContoursSoFar, n: nat, q: nat)
    requires p <= |s| && AllPolygonsSized(g.done) && ContoursOk(c) && c.left > 0 && U32At(s, p) == Some((n, q))
    ensures (ContoursFrom(s, p, g, c)
             == VerticesFrom(s, EolSkip(s, q), g, ContoursSoFar(c.count, c.left - 1, c.done), VerticesSoFar(n, n, [], [])))
  {
  }

  /** A contour whose vertices are all read joins the contours of the open polygon. */
  lemma CloseContour(s: string, p: nat, g: PolygonsSoFar, count: nat, left: nat, done: seq<Contour>,
                     n: nat, vs: seq<real>, ns: seq<real>)
    requires p <= |s| && AllPolygonsSized(g.done) && |done| + left + 1 == count && AllContoursSized(done)
    requires |vs| == 3 * n && |ns| == 3 * n
    ensures ContoursOk(ContoursSoFar(count, left, done + [Contour(n, vs, ns)]))
    ensures (VerticesFrom(s, p, g, ContoursSoFar(count, left, done), VerticesSoFar(n, 0, vs, ns))
             == ContoursFrom(s, p, g, ContoursSoFar(count, left, done + [Contour(n, vs, ns)])))
  {
    var done' := done + [Contour(n, vs, ns)];
    assert forall i :: 0 <= i < |done| ==> done'[i] == done[i];
  }

  /** One vertex: a position record, then a normal record. */
  function VertexAt(s: string, p: nat): (r: Result<(seq<real>, seq<real>, nat), Error>)
    requires p <= |s|
    ensures r.Ok? ==> |r.value.0| == 3 && |r.value.1| == 3 && p <= r.value.2 <= |s|
    ensures r.Err? ==> r.error == FacetGroupBadVertex || r.error == FacetGroupBadNormal
  {
    match RunsAt(s, p, VertexRuns, [])
    case Err(e) => Err(e)
    case Ok((v, q)) => Ok((v[..3], v[3..], q))
  }

  /** `next` is `open` with the vertex at `q` appended; that vertex ends at `e`. */
  predicate TakesVertex(s: string, q: nat, open: VerticesSoFar, e: nat, next: VerticesSoFar)
    requires q <= |s|
  {
    VertexAt(s, q).Ok? && e == VertexAt(s, q).value.2
    && next.vertices == open.vertices + VertexAt(s, q).value.0
    && next.normals == open.normals + VertexAt(s, q).value.1
  }

  /** Reads the rest of the facet group, starting with the next polygon's contour count. */
  function PolygonsFrom(s: string, p: nat, g: PolygonsSoFar): (r: Result<(seq<Polygon>, nat), Error>)
    requires p <= |s| && AllPolygonsSized(g.done)
    ensures r.Ok? ==> |r.value.0| == |g.done| + g.left && AllPolygonsSized(r.value.0)
    ensures r.Ok? ==> p <= r.value.1 <= |s|
    decreases g.left, 0, 0, 0, 0
  {
    if g.left == 0 then Ok((g.done, p))
    else match U32At(s, p)
      case None => Err(FacetGroupMissingContours)
      case Some((n, q)) => ContoursFrom(s, EolSkip(s, q), PolygonsSoFar(g.left - 1, g.done), ContoursSoFar(n, n, []))
  }

  /** Reads the rest of the open polygon, starting with the next contour's vertex count, then the rest of the group. */
  function ContoursFrom(s: string, p: nat, g: PolygonsSoFar, c: ContoursSoFar): (r: Result<(seq<Polygon>, nat), Error>)
    requires p <= |s| && AllPolygonsSized(g.done) && ContoursOk(c)
    ensures r.Ok? ==> |r.value.0| == |g.done| + 1 + g.left && AllPolygonsSized(r.value.0)
    ensures r.Ok? ==> p <= r.value.1 <= |s|
    decreases g.left, 1, c.left, 0, 0
  {
    if c.left == 0 then
      var done := g.done + [Polygon(c.count, c.done)];
      assert AllPolygonsSized(done) by {
        assert forall i :: 0 <= i < |g.done| ==> done[i] == g.done[i];
      }
      PolygonsFrom(s, p, PolygonsSoFar(g.left, done))
    else match U32At(s, p)
      case None => Err(FacetGroupMissingVertices)
      case Some((n, q)) =>
        VerticesFrom(s, EolSkip(s, q), g, ContoursSoFar(c.count, c.left - 1, c.done), VerticesSoFar(n, n, [], []))
  }

  /** Reads the rest of the open contour, then the rest of its polygon and of the group. */
  function VerticesFrom(s: string, p: nat, g: PolygonsSoFar, c: ContoursSoFar, v: VerticesSoFar)
    : (r: Result<(seq<Polygon>, nat), Error>)
    requires p <= |s| && AllPolygonsSized(g.done) && |c.done| + c.left + 1 == c.count && AllContoursSized(c.done)
    requires VerticesOk(v)
    ensures r.Ok? ==> |r.value.0| == |g.done| + 1 + g.left && AllPolygonsSized(r.value.0)
    ensures r.Ok? ==> p <= r.value.1 <= |s|
    decreases g.left, 1, c.left, 1, v.left
  {
    if v.left == 0 then
      var done := c.done + [Contour(v.count, v.vertices, v.normals)];
      assert AllContoursSized(done) by {
        assert forall i :: 0 <= i < |c.done| ==> done[i] == c.done[i];
      }
      ContoursFrom(s, p, g, ContoursSoFar(c.count, c.left, done))
    else match VertexAt(s, p)
      case Err(e) => Err(e)
      case Ok((pos, nrm, q)) =>
        VerticesFrom(s, q, g, c, VerticesSoFar(v.count, v.left - 1, v.vertices + pos, v.normals + nrm))
  }

  /** One vertex of `VerticesFrom`: its error, or the rest of the contour after it. */
  lemma VertexStep(s: string, p: nat, g: PolygonsSoFar, c: ContoursSoFar, v: VerticesSoFar)
    requires p <= |s| && AllPolygonsSized(g.done) && |c.done| + c.left + 1 == c.count && AllContoursSized(c.done)
    requires VerticesOk(v) && v.left > 0
    ensures VertexAt(s, p).Err? ==> VerticesFrom(s, p, g, c, v) == Err(VertexAt(s, p).error)
    ensures (VertexAt(s, p).Ok? ==>
      var (pos, nrm, q) := VertexAt(s, p).value;
      && VerticesOk(VerticesSoFar(v.count, v.left - 1, v.vertices + pos, v.normals + nrm))
      && VerticesFrom(s, p, g, c, v) == VerticesFrom(s, q, g, c, VerticesSoFar(v.count, v.left - 1, v.vertices + pos, v.normals + nrm)))
  {
  }

  /** A facet group: its polygon count, a line ending, then that many polygons. */
  function FacetGroupAt(s: string, p: nat): (r: Result<(Payload, nat), Error>)
    requires p <= |s|
    ensures r.Ok? ==> r.value.0.FacetGroup? && WellSized(r.value.0) && p < r.value.1 <= |s|
  {
    match U32At(s, p)
    case None => Err(FacetGroupMissingPolygons)
    case Some((n, q)) =>
      match PolygonsFrom(s, EolSkip(s, q), PolygonsSoFar(n, []))
      case Err(e) => Err(e)
      case Ok((ps, q2)) => Ok((FacetGroup(n, ps), q2))
  }

  /** Reads one vertex. */
  method ReadVertex(s: string, p: nat) returns (r: Result<(seq<real>, seq<real>, nat), Error>)
    requires p <= |s|
    ensures r == VertexAt(s, p)
  {
    var v := ReadRuns(s, p, VertexRuns);
    if v.Err? {
      return Err(v.error);
    }
    return Ok((v.value.0[..3], v.value.0[3..], v.value.1));
  }

  /** Stores vertex `i`: its position at slots 3i..3i+2 of `vertices`, its normal at the same slots of `normals`. */
  method PutVertex(vertices: array<real>, normals: array<real>, i: nat, pos: seq<real>, nrm: seq<real>)
    requires vertices != normals
    requires |pos| == 3 && |nrm| == 3 && 3 * i + 3 <= vertices.Length == normals.Length
    modifies vertices, normals
    ensures vertices[..3 * i + 3] == old(vertices[..3 * i]) + pos
    ensures normals[..3 * i + 3] == old(normals[..3 * i]) + nrm
  {
    vertices[3 * i] := pos[0];
    vertices[3 * i + 1] := pos[1];
    vertices[3 * i + 2] := pos[2];
    normals[3 * i] := nrm[0];
    normals[3 * i + 1] := nrm[1];
    normals[3 * i + 2] := nrm[2];
    assert vertices[..3 * i + 3] == old(vertices[..3 * i]) + pos;
  }

  /** Stores `x` at slot `i`. */
  method Put<T>(a: array<T>, i: nat, x: T)
    requires i < a.Length
    modifies a
    ensures a[..i + 1] == old(a[..i]) + [x]
  {
    a[i] := x;
    assert a[..i + 1] == old(a[..i]) + [x];
  }

  /**
   * The inner loop: reads `n` vertices into position and normal arrays of
   * exactly `3 * n` floats each, in stream order. On success the reference
   * reading resumes after them with the contour complete; on failure it
   * fails the same way.
   */
  method ReadVertices(s: string, p: nat, ghost g: PolygonsSoFar, ghost c: ContoursSoFar, n: nat)
    returns (r: Result<(seq<real>, seq<real>, nat), Error>)
    requires p <= |s| && AllPolygonsSized(g.done) && |c.done| + c.left + 1 == c.count && AllContoursSized(c.done)
    ensures r.Ok? ==> |r.value.0| == 3 * n && |r.value.1| == 3 * n && p <= r.value.2 <= |s|
    ensures r.Ok? ==> (VerticesFrom(s, p, g, c, VerticesSoFar(n, n, [], []))
                       == VerticesFrom(s, r.value.2, g, c, VerticesSoFar(n, 0, r.value.0, r.value.1)))
    ensures r.Err? ==> VerticesFrom(s, p, g, c, VerticesSoFar(n, n, [], [])) == Err(r.error)
  {
    var vertices := new real[3 * n];
    var normals := new real[3 * n];
    var q: nat, vi := p, 0;
    ghost var open := VerticesSoFar(n, n, [], []);
    ghost var whole := VerticesFrom(s, p, g, c, open);
    while vi < n
      invariant 0 <= vi <= n && p <= q <= |s|
      invariant open == VerticesSoFar(n, n - vi, open.vertices, open.normals) && VerticesOk(open)
      invariant vertices[..3 * vi] == open.vertices && normals[..3 * vi] == open.normals
      invariant whole == VerticesFrom(s, q, g, c, open)
    {
      var step;
      step, open := NextVertex(s, q, g, c, open, vertices, normals, vi);
      if step.Err? {
        return Err(step.error);
      }
      q := step.value;
      vi := vi + 1;
    }
    assert vertices[..] == vertices[..3 * n];
    assert normals[..] == normals[..3 * n];
    return Ok((vertices[..], normals[..], q));
  }

  /** One step of the inner loop: vertex `vi` is read and stored, and the reference reading moves past it. */
  method NextVertex(s: string, q: nat, ghost g: PolygonsSoFar, ghost c: ContoursSoFar, ghost open: VerticesSoFar,
                    vertices: array<real>, normals: array<real>, vi: nat)
    returns (r: Result<nat, Error>, ghost next: VerticesSoFar)
    requires q <= |s| && AllPolygonsSized(g.done) && |c.done| + c.left + 1 == c.count && AllContoursSized(c.done)
    requires VerticesOk(open) && open.left > 0 && vertices != normals
    requires 3 * vi + 3 <= vertices.Length == normals.Length
    requires vertices[..3 * vi] == open.vertices && normals[..3 * vi] == open.normals
    modifies vertices, normals
    ensures r.Err? ==> VertexAt(s, q) == Err(r.error) && VerticesFrom(s, q, g, c, open) == Err(r.error)
    ensures r.Ok? ==> TakesVertex(s, q, open, r.value, next)
    ensures r.Ok? ==> q <= r.value <= |s| && next.count == open.count && next.left == open.left - 1 && VerticesOk(next)
    ensures r.Ok? ==> vertices[..3 * (vi + 1)] == next.vertices && normals[..3 * (vi + 1)] == next.normals
    ensures r.Ok? ==> VerticesFrom(s, q, g, c, open) == VerticesFrom(s, r.value, g, c, next)
  {
    VertexStep(s, q, g, c, open);
    var v := ReadVertex(s, q);
    if v.Err? {
      return Err(v.error), open;
    }
    PutVertex(vertices, normals, vi, v.value.0, v.value.1);
    next := VerticesSoFar(open.count, open.left - 1, open.vertices + v.value.0, open.normals + v.value.1);
    r := Ok(v.value.2);
  }

  /**
   * The middle loop: reads `n` contours, each a vertex count, a line ending
   * and its vertices, into an array of exactly `n` entries. On success the
   * reference reading resumes after them with the polygon complete.
   */
  method ReadContours(s: string, p: nat, ghost g: PolygonsSoFar, n: nat) returns (r: Result<(seq<Contour>, nat), Error>)
    requires p <= |s| && AllPolygonsSized(g.done)
    ensures r.Ok? ==> |r.value.0| == n && AllContoursSized(r.value.0) && p <= r.value.1 <= |s|
    ensures r.Ok? ==> (ContoursFrom(s, p, g, ContoursSoFar(n, n, []))
                       == ContoursFrom(s, r.value.1, g, ContoursSoFar(n, 0, r.value.0)))
    ensures r.Err? ==> ContoursFrom(s, p, g, ContoursSoFar(n, n, [])) == Err(r.error)
  {
    var contours := new Contour[n];
    var q: nat, ci := p, 0;
    ghost var open := ContoursSoFar(n, n, []);
    while ci < n
      invariant 0 <= ci <= n && p <= q <= |s|
      invariant open == ContoursSoFar(n, n - ci, open.done) && ContoursOk(open)
      invariant contours[..ci] == open.done
      invariant ContoursFrom(s, p, g, ContoursSoFar(n, n, [])) == ContoursFrom(s, q, g, open)
    {
      var count := ReadU32(s, q);
      if count.None? {
        return Err(FacetGroupMissingVertices);
      }
      var k := count.value.0;
      var e := SkipEol(s, count.value.1);
      var vs := ReadVertices(s, e, g, ContoursSoFar(n, open.left - 1, open.done), k);
      if vs.Err? {
        return Err(vs.error);
      }
      ContourStep(s, q, g, open, k, count.value.1, vs.value.2, vs.value.0, vs.value.1);
      var contour := Contour(k, vs.value.0, vs.value.1);
      Put(contours, ci, contour);
      open := ContoursSoFar(n, open.left - 1, open.done + [contour]);
      q := vs.value.2;
      ci := ci + 1;
    }
    assert contours[..] == contours[..n];
    assert open.done == contours[..];
    return Ok((contours[..], q));
  }

  /**
   * The outer loop: reads `n` polygons, each a contour count, a line ending
   * and its contours, into an array of exactly `n` entries.
   */
  method ReadPolygons(s: string, p: nat, n: nat) returns (r: Result<(seq<Polygon>, nat), Error>)
    requires p <= |s|
    ensures r == PolygonsFrom(s, p, PolygonsSoFar(n, []))
  {
    var polygons := new Polygon[n];
    var q: nat, pi := p, 0;
    ghost var open := PolygonsSoFar(n, []);
    while pi < n
      invariant 0 <= pi <= n && q <= |s|
      invariant open == PolygonsSoFar(n - pi, open.done) && AllPolygonsSized(open.done)
      invariant polygons[..pi] == open.done
      invariant PolygonsFrom(s, p, PolygonsSoFar(n, [])) == PolygonsFrom(s, q, open)
    {
      var count := ReadU32(s, q);
      if count.None? {
        return Err(FacetGroupMissingContours);
      }
      var k := count.value.0;
      var e := SkipEol(s, count.value.1);
      var cs := ReadContours(s, e, PolygonsSoFar(open.left - 1, open.done), k);
      if cs.Err? {
        return Err(cs.error);
      }
      PolygonStep(s, q, open, k, count.value.1, cs.value.1, cs.value.0);
      var polygon := Polygon(k, cs.value.0);
      Put(polygons, pi, polygon);
      open := PolygonsSoFar(open.left - 1, open.done + [polygon]);
      q := cs.value.1;
      pi := pi + 1;
    }
    assert polygons[..] == polygons[..n];
    return Ok((polygons[..], q));
  }

  method ReadFacetGroup(s: string, p: nat) returns (r: Result<(Payload, nat), Error>)
    requires p <= |s|
    ensures r == FacetGroupAt(s, p)
  {
    var count := ReadU32(s, p);
    if count.None? {
      return Err(FacetGroupMissingPolygons);
    }
    var q := SkipEol(s, count.value.1);
    var ps := ReadPolygons(s, q, count.value.0);
    if ps.Err? {
      return Err(ps.error);
    }
    return Ok((FacetGroup(count.value.0, ps.value.0), ps.value.1));
  }

  // ---------------------------------------------------------------- primitive body

  /** The payload a primitive kind selects, read from `p`. */
  function PayloadAt(s: string, p: nat, kind: nat): (r: Result<(Payload, nat), Error>)
    requires p <= |s|
    ensures r.Ok? ==> p <= r.value.1 <= |s|
    ensures r.Ok? ==> KindOf(r.value.0) == kind && kind != 9 && 1 <= kind <= 11 && WellSized(r.value.0)
    ensures kind == 9 ==> r == Err(SphereNotSupported)
    ensures (kind == 0 || kind > 11) ==> r == Err(UnknownPrimitiveKind(kind))
  {
    if kind == 9 then Err(SphereNotSupported)
    else if kind == 11 then FacetGroupAt(s, p)
    else if IsFixedKind(kind) then
      match RunsAt(s, p, KindRuns(kind), [])
      case Err(e) => Err(e)
      case Ok((v, q)) => Ok((PayloadOf(kind, v), q))
    else Err(UnknownPrimitiveKind(kind))
  }

  /**
   * The geometry a chunk with this id and kind decodes to from `p` onwards:
   * its type, the matrix rows transposed into column-major storage, the
   * local box and its transformed world box, and the payload.
   */
  function PrimBodyAt(s: string, p: nat, id: string, kind: nat): (r: Result<(GeometryBody, nat), Error>)
    requires p <= |s|
    ensures r.Ok? ==> p <= r.value.1 <= |s| && |r.value.0.matrix| == 12
    ensures r.Ok? ==> Some(r.value.0.geometryType) == GeometryTypeOf(id)
    ensures r.Ok? ==> KindOf(r.value.0.payload) == kind && 1 <= kind <= 11 && kind != 9
    ensures r.Ok? ==> WellSized(r.value.0.payload)
    ensures r.Ok? ==> r.value.0.bboxWorld == TransformBox(r.value.0.matrix, r.value.0.bboxLocal)
    ensures GeometryTypeOf(id).None? ==> r == Err(UnknownGeometryChunkId(id))
  {
    match GeometryTypeOf(id)
    case None => Err(UnknownGeometryChunkId(id))
    case Some(t) =>
      match RunsAt(s, p, MatrixRuns, [])
      case Err(e) => Err(e)
      case Ok((rows, q1)) =>
        match RunsAt(s, q1, BBoxRuns, [])
        case Err(e) => Err(e)
        case Ok((b, q2)) =>
          var m := ColumnMajor(rows);
          var local := BoxOf(b);
          match PayloadAt(s, q2, kind)
          case Err(e) => Err(e)
          case Ok((pl, q3)) => Ok((GeometryBody(t, m, local, TransformBox(m, local), pl), q3))
  }

  method DecodePayload(s: string, p: nat, kind: nat) returns (r: Result<(Payload, nat), Error>)
    requires p <= |s|
    ensures r == PayloadAt(s, p, kind)
  {
    if kind == 9 {
      return Err(SphereNotSupported);
    } else if kind == 11 {
      r := ReadFacetGroup(s, p);
    } else if IsFixedKind(kind) {
      var v := ReadRuns(s, p, KindRuns(kind));
      if v.Err? {
        return Err(v.error);
      }
      return Ok((PayloadOf(kind, v.value.0), v.value.1));
    } else {
      return Err(UnknownPrimitiveKind(kind));
    }
  }

  method DecodePrimBody(s: string, p: nat, id: string, kind: nat) returns (r: Result<(GeometryBody, nat), Error>)
    requires p <= |s|
    ensures r == PrimBodyAt(s, p, id, kind)
  {
    var t := GeometryTypeOf(id);
    if t.None? {
      return Err(UnknownGeometryChunkId(id));
    }
    var rows := ReadRuns(s, p, MatrixRuns);
    if rows.Err? {
      return Err(rows.error);
    }
    var b := ReadRuns(s, rows.value.1, BBoxRuns);
    if b.Err? {
      return Err(b.error);
    }
    var m := ColumnMajor(rows.value.0);
    var local := BoxOf(b.value.0);
    var world := TransformBox(m, local);
    var pl := DecodePayload(s, b.value.1, kind);
    if pl.Err? {
      return Err(pl.error);
    }
    return Ok((GeometryBody(t.value, m, local, world, pl.value.0), pl.value.1));
  }

  // ---------------------------------------------------------------- properties

  /**
   * Once the matrix and box are read, a kind outside 1..11 fails and the
   * error carries the kind value; kind 9 (sphere) fails as unsupported.
   */
  lemma UnsupportedKindsFail(s: string, p: nat, id: string, kind: nat)
    requires p <= |s|
    requires GeometryTypeOf(id).Some?
    requires RunsAt(s, p, MatrixRuns, []).Ok?
    requires RunsAt(s, RunsAt(s, p, MatrixRuns, []).value.1, BBoxRuns, []).Ok?
    ensures (kind == 0 || kind > 11) ==> PrimBodyAt(s, p, id, kind) == Err(UnknownPrimitiveKind(kind))
    ensures kind == 9 ==> PrimBodyAt(s, p, id, kind) == Err(SphereNotSupported)
  {
  }

  /**
   * A decoded fixed-size payload holds the floats of its records, in stream
   * order, and there are as many as its kind reads.
   */
  lemma FixedPayloadFromStream(s: string, p: nat, kind: nat)
    requires p <= |s| && IsFixedKind(kind)
    requires PayloadAt(s, p, kind).Ok?
    ensures var v := RunsAt(s, p, KindRuns(kind), []);
      && v.Ok?
      && Params(PayloadAt(s, p, kind).value.0) == v.value.0
      && |v.value.0| == FixedCount(kind)
  {
  }

  /** A missing float in one of a kind's records fails with that record's error. */
  lemma MissingValueFails(s: string, p: nat, kind: nat)
    requires p <= |s| && IsFixedKind(kind)
    requires RunsAt(s, p, KindRuns(kind), []).Err?
    ensures PayloadAt(s, p, kind).Err?
    ensures exists i :: 0 <= i < |KindRuns(kind)| && PayloadAt(s, p, kind).error == KindRuns(kind)[i].err
  {
  }

  /**
   * The matrix of a decoded body is the transpose of the twelve floats read,
   * and its local box is the six floats read after them, min corner first.
   */
  lemma PrimMatrixTransposed(s: string, p: nat, id: string, kind: nat)
    requires p <= |s|
    requires PrimBodyAt(s, p, id, kind).Ok?
    ensures RunsAt(s, p, MatrixRuns, []).Ok? && RunsAt(s, RunsAt(s, p, MatrixRuns, []).value.1, BBoxRuns, []).Ok?
    ensures var rows := RunsAt(s, p, MatrixRuns, []).value.0;
      var m := PrimBodyAt(s, p, id, kind).value.0.matrix;
      && |rows| == 12
      && forall r: nat, c: nat :: r < 3 && c < 4 ==> MatrixEntry(m, r, c) == RowEntry(rows, r, c)
    ensures var box := RunsAt(s, RunsAt(s, p, MatrixRuns, []).value.1, BBoxRuns, []).value.0;
      |box| == 6 && PrimBodyAt(s, p, id, kind).value.0.bboxLocal == BoxOf(box)
  {
  }
}
