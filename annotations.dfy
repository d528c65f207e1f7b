/** Model of ttgen/tabletop_generator/annotations.py: the marks a table
    surface can carry (snap points and outlined boxes), the list that
    collects them, and `configure_surface`, which turns each mark into a
    record attached to the table's save object. sympy's `Point2D` and
    `Polygon` become plain coordinate pairs and a list of vertices. */
module Annotations {
  import opened Wrappers
  import opened Dataclass
  import opened Simulator

  /** A point of the table plane. */
  datatype Point2 = Point2(x: real, y: real)

  /** `SnapPoint(position)` and `Box(polygon, color, thickness)`. */
  datatype Annotation =
    | SnapPoint(position: Point2)
    | Box(polygon: seq<Point2>, color: Value, thickness: real)

  /** A box's line thickness unless told otherwise. */
  const DefaultThickness: real := 0.02

  /** `SnapPoint()`: a snap point at the origin. */
  const DefaultSnapPoint := SnapPoint(Point2(0.0, 0.0))

  /** `Box()`: the unit square, black, with the default thickness. */
  const DefaultBox := Box([Point2(0.0, 0.0), Point2(1.0, 0.0), Point2(1.0, 1.0), Point2(0.0, 1.0)],
                          Rgb(0.0, 0.0, 0.0), DefaultThickness)

  /** The corners `add_box` gives its polygon: the lower left corner, then
      counter-clockwise for positive `w` and `h`. */
  function BoxPolygon(x: real, y: real, w: real, h: real): seq<Point2> {
    [Point2(x, y), Point2(x + w, y), Point2(x + w, y + h), Point2(x, y + h)]
  }

  /** The annotation list, `_annotations`, which only grows. */
  class Annotations {
    var items: seq<Annotation>

    /** A new list is empty. */
    constructor()
      ensures items == []
    {
      items := [];
    }

    /** `__iter__`: the annotations in the order they were added. */
    method Iter() returns (s: seq<Annotation>)
      ensures |s| == |items| && forall i :: 0 <= i < |items| ==> s[i] == items[i]
    {
      s := items;
    }

    /** `update(other)`: other's annotations after ours, none dropped and
        none merged; `other` is left as it is (unless it is this list,
        which then holds its old annotations twice). */
    method Update(other: Annotations)
      modifies this
      ensures items == old(items) + old(other.items)
      ensures other != this ==> other.items == old(other.items)
    {
      items := items + other.items;
    }

    /** `add_snap_point(x, y)`: one snap point at (x, y) after the earlier
        annotations, which stay as they were. */
    method AddSnapPoint(x: real, y: real)
      modifies this
      ensures items == old(items) + [SnapPoint(Point2(x, y))]
    {
      items := items + [SnapPoint(Point2(x, y))];
    }

    /** `add_box(x, y, w, h, color)`: one box with corners (x, y),
        (x + w, y), (x + w, y + h), (x, y + h), the given colour and the
        default thickness, after the earlier annotations. */
    method AddBox(x: real, y: real, w: real, h: real, color: Value)
      requires w != 0.0 && h != 0.0
      modifies this
      ensures items == old(items) + [Box(BoxPolygon(x, y, w, h), color, DefaultThickness)]
    {
      items := items + [Box(BoxPolygon(x, y, w, h), color, DefaultThickness)];
    }
  }

  // ---------------------------------------------------------------------
  // Configuring a surface

  /** The two lists of a table's save object that `configure_surface`
      appends to: `AttachedSnapPoints` and `AttachedVectorLines`. */
  class Surface {
    var snapPoints: seq<Value>
    var vectorLines: seq<Value>

    constructor(snapPoints: seq<Value>, vectorLines: seq<Value>)
      ensures this.snapPoints == snapPoints && this.vectorLines == vectorLines
    {
      this.snapPoints := snapPoints;
      this.vectorLines := vectorLines;
    }
  }

  /** What ends `Box.configure_surface` early: a polygon with fewer than
      four vertices, or a colour the coercer rejects. */
  datatype SurfaceError = IndexError | Coercion(error: CoerceError)

  /** `dict(x=x, y=y, z=z)`. */
  function PointArgs(x: real, y: real, z: real): Kwargs {
    [("x", Float(x)), ("y", Float(y)), ("z", Float(z))]
  }

  /** A point dictionary becomes that `Point3D`. */
  lemma PointCoerce(x: real, y: real, z: real)
    ensures Coerce(Record(Point3DRecord), DictOf(PointArgs(x, y, z))) == Success(Point3D(x, y, z))
  {
    CoerceScalarKwargs(Point3DRecord, PointArgs(x, y, z));
    KwMapTriple(("x", Float(x)), ("y", Float(y)), ("z", Float(z)));
    Point3DConstructor(x, y, z);
  }

  /** The keyword arguments of the snap point's `from_dict`: its position
      lifted to the surface height, the plane's y becoming the save's z. */
  function SnapPointArgs(p: Point2, surfaceY: real): Kwargs {
    [("Position", DictOf(PointArgs(p.x, surfaceY, p.y)))]
  }

  /** `AttachedSnapPoint(Position=Point3D(x, y, z))`. */
  function SnapPointObject(x: real, y: real, z: real): Value {
    Instance("AttachedSnapPoint", map["Position" := Point3D(x, y, z)])
  }

  lemma SnapPointCoerce(p: Point2, surfaceY: real)
    ensures FromDict(AttachedSnapPoint, DictOf(SnapPointArgs(p, surfaceY))) == Success(SnapPointObject(p.x, surfaceY, p.y))
  {
    var position := Point3D(p.x, surfaceY, p.y);
    var args := SnapPointArgs(p, surfaceY);
    var outs := [("Position", position)];
    PointCoerce(p.x, surfaceY, p.y);
    assert ArgCoerces(AttachedSnapPoint, args[0], outs[0]);
    CoerceKwargs(AttachedSnapPoint, args, outs);
    assert outs[..0] == [];
    assert KwMap(outs) == map["Position" := position];
    InstanceAgrees(AttachedSnapPoint, map["Position" := position], SnapPointObject(p.x, surfaceY, p.y).attrs);
  }

  /** `points3`: for each of the first four vertices, a point dictionary at
      the surface height. */
  function LinePoints(polygon: seq<Point2>, surfaceY: real): (ps: seq<Value>)
    requires |polygon| >= 4
  {
    seq(4, i requires 0 <= i < 4 => DictOf(PointArgs(polygon[i].x, surfaceY, polygon[i].y)))
  }

  /** The four vertices as `Point3D`s at the surface height. */
  function LinePoints3D(polygon: seq<Point2>, surfaceY: real): (ps: seq<Value>)
    requires |polygon| >= 4
  {
    seq(4, i requires 0 <= i < 4 => Point3D(polygon[i].x, surfaceY, polygon[i].y))
  }

  function BoxLineArgs(polygon: seq<Point2>, color: Value, thickness: real, surfaceY: real): Kwargs
    requires |polygon| >= 4
  {
    [("points3", List(LinePoints(polygon, surfaceY))), ("color", color), ("thickness", Float(thickness))]
  }

  /** `AttachedVectorLine(points3=..., color=..., thickness=...)`, closed
      into a loop by default. */
  function VectorLineObject(points: seq<Value>, color: Value, thickness: real): Value {
    Instance("AttachedVectorLine", map["points3" := List(points), "color" := color,
                                       "thickness" := Float(thickness), "loop" := Bool(true)])
  }

  /** The record `Box.configure_surface` builds for a box, or why it
      cannot. */
  function BoxLine(polygon: seq<Point2>, color: Value, thickness: real, surfaceY: real): Result<Value, SurfaceError> {
    if |polygon| < 4 then Failure(IndexError)
    else
      match FromDict(AttachedVectorLine, DictOf(BoxLineArgs(polygon, color, thickness, surfaceY)))
      case Success(v) => Success(v)
      case Failure(e) => Failure(Coercion(e))
  }

  lemma VectorLineFieldTypes()
    ensures "points3" in AttachedVectorLine.fields && AttachedVectorLine.fields["points3"].ty == ListOf(Record(Point3DRecord))
    ensures "color" in AttachedVectorLine.fields && AttachedVectorLine.fields["color"].ty == Record(RgbTypeRecord)
    ensures "thickness" in AttachedVectorLine.fields && AttachedVectorLine.fields["thickness"].ty == Scalar
  {
  }

  lemma LinePointsCoerce(polygon: seq<Point2>, surfaceY: real)
    requires |polygon| >= 4
    ensures Coerce(ListOf(Record(Point3DRecord)), List(LinePoints(polygon, surfaceY))) ==
            Success(List(LinePoints3D(polygon, surfaceY)))
  {
    var xs := LinePoints(polygon, surfaceY);
    var ys := LinePoints3D(polygon, surfaceY);
    forall i | 0 <= i < 4
      ensures Coerce(Record(Point3DRecord), xs[i]) == Success(ys[i])
    {
      PointCoerce(polygon[i].x, surfaceY, polygon[i].y);
    }
    CoerceListTo(Record(Point3DRecord), xs, ys);
  }

  lemma PointsArg(polygon: seq<Point2>, surfaceY: real)
    requires |polygon| >= 4
    ensures ArgCoerces(AttachedVectorLine, ("points3", List(LinePoints(polygon, surfaceY))),
                       ("points3", List(LinePoints3D(polygon, surfaceY))))
  {
    VectorLineFieldTypes();
    LinePointsCoerce(polygon, surfaceY);
  }

  lemma ColourArg(color: Value)
    requires Coerce(Record(RgbTypeRecord), color).Success?
    ensures ArgCoerces(AttachedVectorLine, ("color", color), ("color", Coerce(Record(RgbTypeRecord), color).value))
  {
    VectorLineFieldTypes();
  }

  lemma ThicknessArg(thickness: real)
    ensures ArgCoerces(AttachedVectorLine, ("thickness", Float(thickness)), ("thickness", Float(thickness)))
  {
    VectorLineFieldTypes();
  }

  /** `AttachedVectorLine(points3=points, color=c, thickness=t)`. */
  lemma VectorLineConstructor(points: seq<Value>, c: Value, thickness: real)
    ensures KwMap([("points3", List(points)), ("color", c), ("thickness", Float(thickness))]).Keys <= AttachedVectorLine.fields.Keys
    ensures Instantiate(AttachedVectorLine, KwMap([("points3", List(points)), ("color", c), ("thickness", Float(thickness))])) ==
            VectorLineObject(points, c, thickness)
  {
    var kw := map["points3" := List(points), "color" := c, "thickness" := Float(thickness)];
    KwMapTriple(("points3", List(points)), ("color", c), ("thickness", Float(thickness)));
    InstanceAgrees(AttachedVectorLine, kw, VectorLineObject(points, c, thickness).attrs);
  }

  /** A box with four vertices and a colour that coerces becomes a closed
      vector line through its vertices at the surface height, with the
      coerced colour and the box's thickness. */
  lemma BoxLineBuilt(polygon: seq<Point2>, color: Value, thickness: real, surfaceY: real)
    requires |polygon| >= 4 && Coerce(Record(RgbTypeRecord), color).Success?
    ensures BoxLine(polygon, color, thickness, surfaceY) ==
            Success(VectorLineObject(LinePoints3D(polygon, surfaceY), Coerce(Record(RgbTypeRecord), color).value, thickness))
  {
    var points := LinePoints3D(polygon, surfaceY);
    var c := Coerce(Record(RgbTypeRecord), color).value;
    PointsArg(polygon, surfaceY);
    ColourArg(color);
    ThicknessArg(thickness);
    CoerceKwargs3(AttachedVectorLine,
                  ("points3", List(LinePoints(polygon, surfaceY))), ("color", color), ("thickness", Float(thickness)),
                  ("points3", List(points)), ("color", c), ("thickness", Float(thickness)));
    VectorLineConstructor(points, c, thickness);
  }

  /** A colour the coercer rejects ends the call with the coercer's error;
      the points before it always coerce. */
  lemma BoxLineColourFails(polygon: seq<Point2>, color: Value, thickness: real, surfaceY: real)
    requires |polygon| >= 4 && Coerce(Record(RgbTypeRecord), color).Failure?
    ensures BoxLine(polygon, color, thickness, surfaceY) == Failure(Coercion(Coerce(Record(RgbTypeRecord), color).error))
  {
    var args := BoxLineArgs(polygon, color, thickness, surfaceY);
    var d := DictOf(args);
    VectorLineFieldTypes();
    LinePointsCoerce(polygon, surfaceY);
    NamesAt(args);
    KwMapTriple(args[0], args[1], args[2]);
    assert d.order[0] == "points3" && Item(d, "points3") == args[0].1;
    assert d.order[1] == "color" && Item(d, "color") == color;
    assert FieldCoerces(AttachedVectorLine, d.order[0], Item(d, d.order[0]));
    CoerceFieldFails(AttachedVectorLine, d, 1);
  }

  /** Both outcomes of `Box.configure_surface` at once: it succeeds exactly
      when the polygon has four vertices and the colour coerces. */
  lemma BoxLineOutcome(polygon: seq<Point2>, color: Value, thickness: real, surfaceY: real)
    ensures BoxLine(polygon, color, thickness, surfaceY).Success? <==>
            |polygon| >= 4 && Coerce(Record(RgbTypeRecord), color).Success?
    ensures |polygon| < 4 ==> BoxLine(polygon, color, thickness, surfaceY) == Failure(IndexError)
  {
    if |polygon| >= 4 {
      if Coerce(Record(RgbTypeRecord), color).Success? {
        BoxLineBuilt(polygon, color, thickness, surfaceY);
      } else {
        BoxLineColourFails(polygon, color, thickness, surfaceY);
      }
    }
  }

  /** A box made by `add_box` with an `RgbType` colour outlines its
      rectangle: (x, y), (x + w, y), (x + w, y + h), (x, y + h) lifted to the
      surface height, its colour as given and thickness 0.02. */
  lemma AddedBoxLine(x: real, y: real, w: real, h: real, color: Value, surfaceY: real)
    requires color.Instance?
    ensures BoxLine(BoxPolygon(x, y, w, h), color, DefaultThickness, surfaceY) ==
            Success(VectorLineObject([Point3D(x, surfaceY, y), Point3D(x + w, surfaceY, y),
                                      Point3D(x + w, surfaceY, y + h), Point3D(x, surfaceY, y + h)],
                                     color, 0.02))
  {
    CoerceInstance(Record(RgbTypeRecord), color);
    BoxLineBuilt(BoxPolygon(x, y, w, h), color, DefaultThickness, surfaceY);
    assert LinePoints3D(BoxPolygon(x, y, w, h), surfaceY) ==
           [Point3D(x, surfaceY, y), Point3D(x + w, surfaceY, y), Point3D(x + w, surfaceY, y + h), Point3D(x, surfaceY, y + h)];
  }

  /** `SnapPoint()` configures to a snap point at the origin of the surface. */
  lemma DefaultSnapPointLine(surfaceY: real)
    ensures FromDict(AttachedSnapPoint, DictOf(SnapPointArgs(DefaultSnapPoint.position, surfaceY))) ==
            Success(SnapPointObject(0.0, surfaceY, 0.0))
  {
    SnapPointCoerce(DefaultSnapPoint.position, surfaceY);
  }

  /** `Box()` configures to the black outline of the unit square at the
      surface's height, 0.02 thick. */
  lemma DefaultBoxLine(surfaceY: real)
    ensures BoxLine(DefaultBox.polygon, DefaultBox.color, DefaultBox.thickness, surfaceY) ==
            Success(VectorLineObject([Point3D(0.0, surfaceY, 0.0), Point3D(1.0, surfaceY, 0.0),
                                      Point3D(1.0, surfaceY, 1.0), Point3D(0.0, surfaceY, 1.0)],
                                     Rgb(0.0, 0.0, 0.0), 0.02))
  {
    assert DefaultBox.polygon == BoxPolygon(0.0, 0.0, 1.0, 1.0);
    AddedBoxLine(0.0, 0.0, 1.0, 1.0, Rgb(0.0, 0.0, 0.0), surfaceY);
  }

  /** `configure_surface(ttgen_table, ttsim_table)`, `surfaceY` being
      `ttgen_table.surface_y`: a snap point appends one attached snap point
      at its position on the surface; a box appends one vector line, unless
      building it fails, which leaves both lists as they were. */
  method ConfigureSurface(a: Annotation, surfaceY: real, target: Surface) returns (r: Result<Value, SurfaceError>)
    modifies target
    ensures a.SnapPoint? ==>
              r == Success(SnapPointObject(a.position.x, surfaceY, a.position.y)) &&
              target.snapPoints == old(target.snapPoints) + [r.value] &&
              target.vectorLines == old(target.vectorLines)
    ensures a.Box? ==>
              r == BoxLine(a.polygon, a.color, a.thickness, surfaceY) &&
              target.snapPoints == old(target.snapPoints) &&
              target.vectorLines == if r.Success? then old(target.vectorLines) + [r.value] else old(target.vectorLines)
  {
    match a
    case SnapPoint(p) =>
      SnapPointCoerce(p, surfaceY);
      var made := FromDict(AttachedSnapPoint, DictOf(SnapPointArgs(p, surfaceY)));
      target.snapPoints := target.snapPoints + [made.value];
      r := Success(made.value);
    case Box(polygon, color, thickness) =>
      r := BoxLine(polygon, color, thickness, surfaceY);
      if r.Success? {
        target.vectorLines := target.vectorLines + [r.value];
      }
  }
}
