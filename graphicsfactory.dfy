/**
 * The graphics factory: the `add_*` methods of a layout shape the caller's
 * DXF attributes into the dictionary handed to `build_and_add_entity`, and
 * refuse entity types the drawing's DXF version does not support.
 *
 * `build_and_add_entity` is abstract in the factory; here it is a sink
 * that creates a fresh entity holding the dictionary it received and
 * appends it to the factory's entity list. What the methods do to the new
 * entity afterwards (closing a polyline, appending vertices, setting the
 * text of an MTEXT, ...) is code of the entity classes, which is not part
 * of this model: those calls are recorded on the entity, in order.
 */
module Graphics {
  import opened Tags
  import opened Strings

  // ------------------------------------------------------------ attributes

  /** `copy_attribs`: a dictionary of its own, empty when none (or an empty one) is given. */
  function CopyAttribs(dxfattribs: Option<Attribs>): (r: Attribs)
    ensures dxfattribs.None? ==> r == map[]
    ensures dxfattribs.Some? ==> r == dxfattribs.value
  {
    if dxfattribs.None? then map[] else dxfattribs.value
  }

  /** `r` agrees with `a` on every key outside `keys`. */
  ghost predicate Keeps(r: Attribs, a: Attribs, keys: set<string>)
  {
    forall k :: k in a && k !in keys ==> k in r && r[k] == a[k]
  }

  /** Python's `False` where a popped attribute defaults to it (`False == 0`). */
  const FALSE: Value := Int(0)

  /** `d.pop(key, default)`: the value (or the default) and the dictionary without the key. */
  function Pop(a: Attribs, key: string, default: Value): (r: (Value, Attribs))
    ensures r.1 == a - {key}
    ensures key in a ==> r.0 == a[key]
    ensures key !in a ==> r.0 == default
  {
    (if key in a then a[key] else default, a - {key})
  }

  // ----------------------------------------------------------- flag bits

  /** Bit `k` of `a`, in two's complement for negative `a`. */
  function Bit(a: int, k: nat): int
    decreases k
  {
    if k == 0 then a % 2 else Bit(a / 2, k - 1)
  }

  /** Python's `a | (1 << k)` on an `int` of any sign. */
  function SetBit(a: int, k: nat): int
    decreases k
  {
    if k == 0 then (if a % 2 == 1 then a else a + 1)
    else 2 * SetBit(a / 2, k - 1) + a % 2
  }

  /** ORing a flag sets its bit ... */
  lemma {:induction false} SetBitSets(a: int, k: nat)
    ensures Bit(SetBit(a, k), k) == 1
    decreases k
  {
    if k > 0 {
      SetBitSets(a / 2, k - 1);
    }
  }

  /** ... and leaves every other bit as it was. */
  lemma {:induction false} SetBitKeeps(a: int, k: nat, j: nat)
    requires j != k
    ensures Bit(SetBit(a, k), j) == Bit(a, j)
    decreases k
  {
    if k > 0 && j > 0 {
      SetBitKeeps(a / 2, k - 1, j - 1);
    }
  }

  /** ORing a flag that is already set changes nothing; so ORing twice is ORing once. */
  lemma {:induction false} SetBitIdempotent(a: int, k: nat)
    ensures Bit(a, k) == 1 ==> SetBit(a, k) == a
    ensures SetBit(SetBit(a, k), k) == SetBit(a, k)
    decreases k
  {
    if k > 0 {
      SetBitIdempotent(a / 2, k - 1);
      SetBitIdempotent(SetBit(a / 2, k - 1), k - 1);
    }
  }

  /** Halving undoes doubling plus a bit. */
  lemma Halves(x: int, r: int)
    requires 0 <= r < 2
    ensures (2 * x + r) / 2 == x && (2 * x + r) % 2 == r
  {
  }

  /** What ORing a flag does to the halves of a value: the low bit and the rest. */
  lemma SetBitHalves(a: int, k: nat)
    ensures k > 0 ==> SetBit(a, k) / 2 == SetBit(a / 2, k - 1) && SetBit(a, k) % 2 == a % 2
    ensures k == 0 ==> SetBit(a, 0) / 2 == a / 2 && SetBit(a, 0) % 2 == 1
  {
    if k > 0 {
      Halves(SetBit(a / 2, k - 1), a % 2);
    } else {
      Halves(a / 2, a % 2);
      Halves(a / 2, 1);
    }
  }

  /** The order in which two flags are ORed in does not matter. */
  lemma {:induction false} SetBitCommutes(a: int, j: nat, k: nat)
    ensures SetBit(SetBit(a, j), k) == SetBit(SetBit(a, k), j)
    decreases j
  {
    if j == k {
    } else if j == 0 {
      SetBitHalves(a, 0);
      SetBitHalves(a, k);
    } else if k == 0 {
      SetBitHalves(a, 0);
      SetBitHalves(a, j);
    } else {
      SetBitHalves(a, j);
      SetBitHalves(a, k);
      SetBitCommutes(a / 2, j - 1, k - 1);
    }
  }

  /** ORing a flag never lowers the value, and keeps non-negative flags non-negative. */
  lemma {:induction false} SetBitGrows(a: int, k: nat)
    ensures SetBit(a, k) >= a
    ensures a >= 0 ==> SetBit(a, k) >= 0
    decreases k
  {
    if k > 0 {
      SetBitGrows(a / 2, k - 1);
    }
  }

  // POLYLINE flag bits (group code 70): 8 = 3D polyline, 16 = 3D polygon mesh, 64 = polyface mesh.
  const POLYLINE_3D_POLYLINE: nat := 3
  const POLYLINE_3D_POLYMESH: nat := 4
  const POLYLINE_POLYFACE: nat := 6

  lemma FlagValues()
    ensures SetBit(0, POLYLINE_3D_POLYLINE) == 8
    ensures SetBit(0, POLYLINE_3D_POLYMESH) == 16
    ensures SetBit(0, POLYLINE_POLYFACE) == 64
  {
  }

  /**
   * `dxfattribs['flags'] = dxfattribs.get('flags', 0) | flag`: a missing
   * `flags` counts as 0; a value that is not an integer makes `|` raise.
   */
  function WithFlag(a: Attribs, k: nat): (r: Result<Attribs>)
    ensures r.Ok? <==> "flags" !in a || a["flags"].Int?
    ensures r.Ok? ==> "flags" in r.value && r.value["flags"].Int?
  {
    var prev := if "flags" in a then a["flags"] else Int(0);
    if prev.Int? then Ok(a["flags" := Int(SetBit(prev.i, k))])
    else Err(TypeError("unsupported operand type(s) for |"))
  }

  /** Adding a flag sets its bit and keeps every other bit and every other attribute; a non-integer flags value is a TypeError. */
  lemma WithFlagSpec(a: Attribs, k: nat)
    ensures WithFlag(a, k).Ok? <==> "flags" !in a || a["flags"].Int?
    ensures WithFlag(a, k).Ok? ==>
      var r := WithFlag(a, k).value;
      && r.Keys == a.Keys + {"flags"} && Keeps(r, a, {"flags"})
      && r["flags"].Int? && Bit(r["flags"].i, k) == 1
      && forall j: nat :: j != k ==> Bit(r["flags"].i, j) == Bit(if "flags" in a then a["flags"].i else 0, j)
    ensures WithFlag(a, k).Err? ==> WithFlag(a, k).error == TypeError("unsupported operand type(s) for |")
  {
    var prev := if "flags" in a then a["flags"] else Int(0);
    if prev.Int? {
      SetBitSets(prev.i, k);
      forall j: nat | j != k
        ensures Bit(SetBit(prev.i, k), j) == Bit(prev.i, j)
      {
        SetBitKeeps(prev.i, k, j);
      }
    }
  }

  /** Adding a flag to attributes that already carry it leaves them unchanged. */
  lemma WithFlagTwice(a: Attribs, k: nat)
    requires WithFlag(a, k).Ok?
    ensures WithFlag(WithFlag(a, k).value, k) == WithFlag(a, k)
  {
    var f := if "flags" in a then a["flags"].i else 0;
    SetBitIdempotent(f, k);
    var b := WithFlag(a, k).value;
    assert b["flags" := Int(SetBit(SetBit(f, k), k))] == b;
  }

  // ---------------------------------------------------------- versions

  const R12: string := "AC1009"
  const R2000: string := "AC1015"
  const R2004: string := "AC1018"
  const R2007: string := "AC1021"
  const R2010: string := "AC1024"
  const R2013: string := "AC1027"
  const R2018: string := "AC1032"

  /** A drawing of version `version` supports what came with `release`: `not version < release`. */
  predicate Supports(version: string, release: string)
    ensures Supports(version, release) <==> version == release || Less(release, version)
  {
    AtLeast(version, release);
    !Less(version, release)
  }

  /** Not being older than a release means being that release or a later one. */
  lemma AtLeast(v: string, release: string)
    ensures !Less(v, release) <==> v == release || Less(release, v)
  {
    if v == release {
      LessIrreflexive(v);
    } else {
      LessTotal(v, release);
      if Less(release, v) {
        LessAsymmetric(release, v);
      }
    }
  }

  /** A later version supports whatever an earlier one does. */
  lemma SupportsLater(v: string, w: string, release: string)
    requires Supports(v, release) && (v == w || Less(v, w))
    ensures Supports(w, release)
  {
    if Less(w, release) && v != w {
      LessTransitive(v, w, release);
    }
  }

  /** The releases in order: R12 < R2000 < R2004 < R2007 < R2010 < R2013 < R2018. */
  lemma ReleaseOrder()
    ensures Less(R12, R2000) && Less(R2000, R2004) && Less(R2004, R2007)
    ensures Less(R2007, R2010) && Less(R2010, R2013) && Less(R2013, R2018)
  {
    LessAt(R12, R2000, 4);
    LessAt(R2000, R2004, 5);
    LessAt(R2004, R2007, 4);
    LessAt(R2007, R2010, 5);
    LessAt(R2010, R2013, 5);
    LessAt(R2013, R2018, 4);
  }

  /** A drawing that may hold surfaces (R2007) may hold every R2000 entity. */
  lemma R2007SupportsR2000(v: string)
    requires Supports(v, R2007)
    ensures Supports(v, R2000)
  {
    ReleaseOrder();
    LessTransitive(R2000, R2004, R2007);
    if Less(v, R2000) {
      LessTransitive(v, R2000, R2007);
    }
  }

  /** R12 drawings refuse the R2000 entities; R2000 and later accept them. */
  lemma R2000Gate()
    ensures !Supports(R12, R2000)
    ensures Supports(R2000, R2000) && Supports(R2004, R2000) && Supports(R2018, R2000)
    ensures !Supports(R2004, R2007) && Supports(R2007, R2007)
  {
    ReleaseOrder();
    LessIrreflexive(R2000);
    LessIrreflexive(R2007);
    LessAsymmetric(R2000, R2004);
    LessAsymmetric(R2004, R2007);
    LessTransitive(R2000, R2004, R2007);
    LessTransitive(R2007, R2010, R2013);
    LessTransitive(R2007, R2013, R2018);
    LessTransitive(R2000, R2007, R2018);
    LessAsymmetric(R2000, R2018);
  }

  function VersionError(name: string, release: string): Error
  {
    DXFVersionError(name + " requires DXF version " + release + "+")
  }

  // --------------------------------------------------------- argument shaping

  /** `_four_points`: the 3 or 4 corners, the last repeated when there are 3. */
  function FourPoints(points: seq<Value>): (r: Result<seq<Value>>)
    ensures r.Ok? <==> |points| == 3 || |points| == 4
    ensures r.Ok? ==> |r.value| == 4 && r.value[..|points|] == points && r.value[3] == points[|points| - 1]
    ensures r.Err? ==> r.error == DXFValueError("3 or 4 points required.")
  {
    if |points| == 3 then Ok(points + [points[2]])
    else if |points| == 4 then Ok(points)
    else Err(DXFValueError("3 or 4 points required."))
  }

  /**
   * The attributes of `add_arc`. DXF arcs run counter-clockwise from the
   * start angle to the end angle, so a clockwise arc is stored with its
   * angles exchanged.
   */
  function ArcAttribs(a: Attribs, center: Value, radius: real, start: real, end: real, ccw: bool): (r: Attribs)
    ensures r.Keys == a.Keys + {"center", "radius", "start_angle", "end_angle"}
    ensures Keeps(r, a, {"center", "radius", "start_angle", "end_angle"})
    ensures r["center"] == center && r["radius"] == Float(radius)
    ensures ccw ==> r["start_angle"] == Float(start) && r["end_angle"] == Float(end)
    ensures !ccw ==> r["start_angle"] == Float(end) && r["end_angle"] == Float(start)
  {
    var b := a["center" := center]["radius" := Float(radius)];
    if ccw then b["start_angle" := Float(start)]["end_angle" := Float(end)]
    else b["start_angle" := Float(end)]["end_angle" := Float(start)]
  }

  /** A clockwise arc is the counter-clockwise arc between the same angles taken the other way. */
  lemma ClockwiseArc(a: Attribs, center: Value, radius: real, start: real, end: real)
    ensures ArcAttribs(a, center, radius, start, end, false) == ArcAttribs(a, center, radius, end, start, true)
  {
  }

  const ORIGIN_2D: Value := Vec([0.0, 0.0])
  const ORIGIN_3D: Value := Vec([0.0, 0.0, 0.0])

  /** The attributes of `add_text`: the text always, the insertion point `(0, 0)` only if none is given. */
  function TextAttribs(a: Attribs, text: string): (r: Attribs)
    ensures r.Keys == a.Keys + {"text", "insert"}
    ensures Keeps(r, a, {"text"})
    ensures r["text"] == Str(text)
    ensures "insert" !in a ==> r["insert"] == ORIGIN_2D
  {
    var b := a["text" := Str(text)];
    if "insert" in b then b else b["insert" := ORIGIN_2D]
  }

  /** Setting a text twice keeps only the second text, and the first insertion point. */
  lemma TextAttribsTwice(a: Attribs, t1: string, t2: string)
    ensures TextAttribs(TextAttribs(a, t1), t2) == TextAttribs(a, t2)
  {
    var x := TextAttribs(TextAttribs(a, t1), t2);
    var y := TextAttribs(a, t2);
    assert x.Keys == y.Keys;
    forall k | k in x
      ensures x[k] == y[k]
    {
    }
  }

  /** `max(size, 2)`: a mesh has at least two vertices in each direction. */
  function MeshCount(size: int): (r: int)
    ensures r >= 2
    ensures size >= 2 ==> r == size
    ensures size < 2 ==> r == 2
  {
    if size > 2 then size else 2
  }

  /** The `m_count * n_count` vertices at the origin that `add_polymesh` appends. */
  function MeshVertices(m: nat, n: nat): (r: seq<Value>)
    ensures |r| == m * n
    ensures forall i :: 0 <= i < |r| ==> r[i] == ORIGIN_3D
  {
    seq(m * n, _ => ORIGIN_3D)
  }

  /** The DXF attributes of `add_ellipse`. */
  function EllipseAttribs(a: Attribs, center: Value, majorAxis: Value, ratio: real, startParam: real, endParam: real): (r: Attribs)
    ensures r.Keys == a.Keys + {"center", "major_axis", "ratio", "start_param", "end_param"}
    ensures Keeps(r, a, {"center", "major_axis", "ratio", "start_param", "end_param"})
    ensures r["ratio"] == Float(ratio) && r["center"] == center && r["major_axis"] == majorAxis
    ensures r["start_param"] == Float(startParam) && r["end_param"] == Float(endParam)
  {
    a["center" := center]["major_axis" := majorAxis]["ratio" := Float(ratio)]
     ["start_param" := Float(startParam)]["end_param" := Float(endParam)]
  }

  // ------------------------------------------------------------- entities

  /** A call the factory makes on an entity after building it. */
  datatype EntityCall =
    | SetItem(index: nat, point: Value)
    | Close(flags: seq<Value>)
    | AppendVertices(points: seq<Value>)
    | SetPoints(points: seq<Value>)
    | SetClosed(closed: Value)
    | SetText(text: string)
    | SetFitPoints(points: seq<Value>)
    | SetAcisData(data: string)
    | SetScale(scale: Value)

  /** An entity as `build_and_add_entity` returns it. */
  class GraphicEntity {
    const dxftype: string
    const handle: string
    const attribs: Attribs
    var calls: seq<EntityCall>

    constructor (dxftype: string, handle: string, attribs: Attribs)
      ensures this.dxftype == dxftype && this.handle == handle && this.attribs == attribs
      ensures calls == []
    {
      this.dxftype := dxftype;
      this.handle := handle;
      this.attribs := attribs;
      calls := [];
    }

    method Call(c: EntityCall)
      modifies this
      ensures calls == old(calls) + [c]
    {
      calls := calls + [c];
    }
  }

  /** An underlay definition; underlays register themselves as its reactors. */
  class UnderlayDef {
    const handle: string
    const entityName: string
    var reactors: seq<string>

    constructor (handle: string, entityName: string)
      ensures this.handle == handle && this.entityName == entityName && reactors == []
    {
      this.handle := handle;
      this.entityName := entityName;
      reactors := [];
    }
  }

  /** The kinds of ACIS surface, with the DXF type and the name in the version error. */
  datatype SurfaceKind = Surface | ExtrudedSurface | LoftedSurface | RevolvedSurface | SweptSurface
  {
    function DxfType(): string
    {
      match this
      case Surface => "SURFACE"
      case ExtrudedSurface => "EXTRUDEDSURFACE"
      case LoftedSurface => "LOFTEDSURFACE"
      case RevolvedSurface => "REVOLVEDSURFACE"
      case SweptSurface => "SWEPTSURFACE"
    }

    function ErrorName(): string
    {
      if this == SweptSurface then "SWEPT" else DxfType()
    }
  }

  /** A layout's graphics factory and the entities it has added so far. */
  class GraphicsFactory {
    const dxfversion: string
    /** The handle the drawing assigns to the n-th new entity. */
    const newHandle: nat -> string
    var entities: seq<GraphicEntity>

    constructor (dxfversion: string, newHandle: nat -> string)
      ensures this.dxfversion == dxfversion && this.newHandle == newHandle && entities == []
    {
      this.dxfversion := dxfversion;
      this.newHandle := newHandle;
      entities := [];
    }

    /** `build_and_add_entity`: a new entity holding `attribs`, appended to the layout. */
    method BuildAndAddEntity(dxftype: string, attribs: Attribs) returns (e: GraphicEntity)
      modifies this
      ensures fresh(e) && e.dxftype == dxftype && e.attribs == attribs && e.calls == []
      ensures e.handle == newHandle(|old(entities)|)
      ensures entities == old(entities) + [e]
    {
      e := new GraphicEntity(dxftype, newHandle(|entities|), attribs);
      entities := entities + [e];
    }

    method AddArc(center: Value, radius: real, start: real, end: real, ccw: bool, dxfattribs: Option<Attribs>)
      returns (e: GraphicEntity)
      modifies this
      ensures fresh(e) && entities == old(entities) + [e] && e.calls == []
      ensures e.dxftype == "ARC" && e.attribs == ArcAttribs(CopyAttribs(dxfattribs), center, radius, start, end, ccw)
    {
      var a := CopyAttribs(dxfattribs);
      a := a["center" := center];
      a := a["radius" := Float(radius)];
      if ccw {
        a := a["start_angle" := Float(start)];
        a := a["end_angle" := Float(end)];
      } else {
        a := a["start_angle" := Float(end)];
        a := a["end_angle" := Float(start)];
      }
      e := BuildAndAddEntity("ARC", a);
    }

    method AddText(text: string, dxfattribs: Option<Attribs>) returns (e: GraphicEntity)
      modifies this
      ensures fresh(e) && entities == old(entities) + [e] && e.calls == []
      ensures e.dxftype == "TEXT" && e.attribs == TextAttribs(CopyAttribs(dxfattribs), text)
    {
      var a := CopyAttribs(dxfattribs);
      a := a["text" := Str(text)];
      if "insert" !in a {
        a := a["insert" := ORIGIN_2D];
      }
      e := BuildAndAddEntity("TEXT", a);
    }

    /**
     * `_add_quadrilateral`: the entity is added first and then given its
     * corners, so a wrong number of points raises with the entity already
     * in the layout and without corners.
     */
    method AddQuadrilateral(dxftype: string, points: seq<Value>, dxfattribs: Option<Attribs>)
      returns (r: Result<GraphicEntity>)
      modifies this
      ensures |entities| == |old(entities)| + 1 && entities[..|old(entities)|] == old(entities)
      ensures fresh(entities[|old(entities)|])
      ensures entities[|old(entities)|].dxftype == dxftype
      ensures entities[|old(entities)|].attribs == CopyAttribs(dxfattribs)
      ensures FourPoints(points).Err? ==> r == Err(FourPoints(points).error) && entities[|old(entities)|].calls == []
      ensures FourPoints(points).Ok? ==>
        && r == Ok(entities[|old(entities)|])
        && |r.value.calls| == 4
        && forall i :: 0 <= i < 4 ==> r.value.calls[i] == SetItem(i, FourPoints(points).value[i])
    {
      var e := BuildAndAddEntity(dxftype, CopyAttribs(dxfattribs));
      assert entities[|old(entities)|] == e;
      var corners := FourPoints(points);
      if corners.Err? {
        return Err(corners.error);
      }
      var pts := corners.value;
      for x := 0 to 4
        invariant entities == old(entities) + [e]
        invariant |e.calls| == x
        invariant forall i :: 0 <= i < x ==> e.calls[i] == SetItem(i, pts[i])
      {
        e.Call(SetItem(x, pts[x]));
      }
      r := Ok(e);
    }

    method AddSolid(points: seq<Value>, dxfattribs: Option<Attribs>) returns (r: Result<GraphicEntity>)
      modifies this
      ensures |entities| == |old(entities)| + 1 && entities[..|old(entities)|] == old(entities)
      ensures fresh(entities[|old(entities)|])
      ensures entities[|old(entities)|].dxftype == "SOLID"
      ensures entities[|old(entities)|].attribs == CopyAttribs(dxfattribs)
      ensures r.Ok? <==> FourPoints(points).Ok?
      ensures FourPoints(points).Err? ==> r == Err(FourPoints(points).error) && entities[|old(entities)|].calls == []
      ensures FourPoints(points).Ok? ==>
        && r == Ok(entities[|old(entities)|])
        && |r.value.calls| == 4
        && forall i :: 0 <= i < 4 ==> r.value.calls[i] == SetItem(i, FourPoints(points).value[i])
    {
      r := AddQuadrilateral("SOLID", points, dxfattribs);
    }

    method AddTrace(points: seq<Value>, dxfattribs: Option<Attribs>) returns (r: Result<GraphicEntity>)
      modifies this
      ensures |entities| == |old(entities)| + 1 && entities[..|old(entities)|] == old(entities)
      ensures fresh(entities[|old(entities)|])
      ensures entities[|old(entities)|].dxftype == "TRACE"
      ensures entities[|old(entities)|].attribs == CopyAttribs(dxfattribs)
      ensures r.Ok? <==> FourPoints(points).Ok?
      ensures FourPoints(points).Err? ==> r == Err(FourPoints(points).error) && entities[|old(entities)|].calls == []
      ensures FourPoints(points).Ok? ==>
        && r == Ok(entities[|old(entities)|])
        && |r.value.calls| == 4
        && forall i :: 0 <= i < 4 ==> r.value.calls[i] == SetItem(i, FourPoints(points).value[i])
    {
      r := AddQuadrilateral("TRACE", points, dxfattribs);
    }

    method Add3dFace(points: seq<Value>, dxfattribs: Option<Attribs>) returns (r: Result<GraphicEntity>)
      modifies this
      ensures |entities| == |old(entities)| + 1 && entities[..|old(entities)|] == old(entities)
      ensures fresh(entities[|old(entities)|])
      ensures entities[|old(entities)|].dxftype == "3DFACE"
      ensures entities[|old(entities)|].attribs == CopyAttribs(dxfattribs)
      ensures r.Ok? <==> FourPoints(points).Ok?
      ensures FourPoints(points).Err? ==> r == Err(FourPoints(points).error) && entities[|old(entities)|].calls == []
      ensures FourPoints(points).Ok? ==>
        && r == Ok(entities[|old(entities)|])
        && |r.value.calls| == 4
        && forall i :: 0 <= i < 4 ==> r.value.calls[i] == SetItem(i, FourPoints(points).value[i])
    {
      r := AddQuadrilateral("3DFACE", points, dxfattribs);
    }

    /** `add_polyline2d`: `closed` is taken out of the attributes and passed to `close`. */
    method AddPolyline2d(points: seq<Value>, dxfattribs: Option<Attribs>) returns (e: GraphicEntity)
      modifies this
      ensures fresh(e) && entities == old(entities) + [e]
      ensures e.dxftype == "POLYLINE" && e.attribs == CopyAttribs(dxfattribs) - {"closed"}
      ensures e.calls == [Close([Pop(CopyAttribs(dxfattribs), "closed", FALSE).0]), AppendVertices(points)]
    {
      var a := CopyAttribs(dxfattribs);
      var (closed, rest) := Pop(a, "closed", FALSE);
      e := BuildAndAddEntity("POLYLINE", rest);
      e.Call(Close([closed]));
      e.Call(AppendVertices(points));
    }

    /** `add_polyline3d`: a 2D polyline with the 3D-polyline flag ORed into the given flags. */
    method AddPolyline3d(points: seq<Value>, dxfattribs: Option<Attribs>) returns (r: Result<GraphicEntity>)
      modifies this
      ensures WithFlag(CopyAttribs(dxfattribs), POLYLINE_3D_POLYLINE).Err? ==>
        r == Err(WithFlag(CopyAttribs(dxfattribs), POLYLINE_3D_POLYLINE).error) && entities == old(entities)
      ensures WithFlag(CopyAttribs(dxfattribs), POLYLINE_3D_POLYLINE).Ok? ==>
        && r.Ok? && fresh(r.value) && entities == old(entities) + [r.value]
        && r.value.dxftype == "POLYLINE"
        && r.value.attribs == WithFlag(CopyAttribs(dxfattribs), POLYLINE_3D_POLYLINE).value - {"closed"}
        && r.value.calls == [Close([Pop(WithFlag(CopyAttribs(dxfattribs), POLYLINE_3D_POLYLINE).value, "closed", FALSE).0]),
                             AppendVertices(points)]
    {
      var flagged := WithFlag(CopyAttribs(dxfattribs), POLYLINE_3D_POLYLINE);
      if flagged.Err? {
        return Err(flagged.error);
      }
      var e := AddPolyline2d(points, Some(flagged.value));
      r := Ok(e);
    }

    /**
     * `add_polymesh`: the mesh-flag ORed in, `m_count` and `n_count` clamped
     * to at least 2, `m_close`/`n_close` taken out and passed to `close`, and
     * `m_count * n_count` vertices at the origin appended.
     */
    method AddPolymesh(size: (int, int), dxfattribs: Option<Attribs>) returns (r: Result<GraphicEntity>)
      modifies this
      ensures WithFlag(CopyAttribs(dxfattribs), POLYLINE_3D_POLYMESH).Err? ==>
        r == Err(WithFlag(CopyAttribs(dxfattribs), POLYLINE_3D_POLYMESH).error) && entities == old(entities)
      ensures WithFlag(CopyAttribs(dxfattribs), POLYLINE_3D_POLYMESH).Ok? ==>
        var m := MeshCount(size.0);
        var n := MeshCount(size.1);
        var a := WithFlag(CopyAttribs(dxfattribs), POLYLINE_3D_POLYMESH).value["m_count" := Int(m)]["n_count" := Int(n)];
        && r.Ok? && fresh(r.value) && entities == old(entities) + [r.value]
        && r.value.dxftype == "POLYLINE"
        && r.value.attribs == a - {"m_close"} - {"n_close"}
        && |r.value.calls| == 2
        && r.value.calls[0] == AppendVertices(MeshVertices(m, n))
        && r.value.calls[1] == Close([Pop(a, "m_close", FALSE).0, Pop(a, "n_close", FALSE).0])
    {
      var flagged := WithFlag(CopyAttribs(dxfattribs), POLYLINE_3D_POLYMESH);
      if flagged.Err? {
        return Err(flagged.error);
      }
      var m := MeshCount(size.0);
      var n := MeshCount(size.1);
      var a := flagged.value["m_count" := Int(m)]["n_count" := Int(n)];
      var (mClose, a1) := Pop(a, "m_close", FALSE);
      var (nClose, a2) := Pop(a1, "n_close", FALSE);
      var e := BuildAndAddEntity("POLYLINE", a2);
      e.Call(AppendVertices(MeshVertices(m, n)));
      e.Call(Close([mClose, nClose]));
      r := Ok(e);
    }

    /** `add_polyface`: the polyface flag ORed in, `m_close`/`n_close` passed to `close`. */
    method AddPolyface(dxfattribs: Option<Attribs>) returns (r: Result<GraphicEntity>)
      modifies this
      ensures WithFlag(CopyAttribs(dxfattribs), POLYLINE_POLYFACE).Err? ==>
        r == Err(WithFlag(CopyAttribs(dxfattribs), POLYLINE_POLYFACE).error) && entities == old(entities)
      ensures WithFlag(CopyAttribs(dxfattribs), POLYLINE_POLYFACE).Ok? ==>
        var a := WithFlag(CopyAttribs(dxfattribs), POLYLINE_POLYFACE).value;
        && r.Ok? && fresh(r.value) && entities == old(entities) + [r.value]
        && r.value.dxftype == "POLYLINE"
        && r.value.attribs == a - {"m_close"} - {"n_close"}
        && r.value.calls == [Close([Pop(a, "m_close", FALSE).0, Pop(a, "n_close", FALSE).0])]
    {
      var flagged := WithFlag(CopyAttribs(dxfattribs), POLYLINE_POLYFACE);
      if flagged.Err? {
        return Err(flagged.error);
      }
      var (mClose, a1) := Pop(flagged.value, "m_close", FALSE);
      var (nClose, a2) := Pop(a1, "n_close", FALSE);
      var e := BuildAndAddEntity("POLYLINE", a2);
      e.Call(Close([mClose, nClose]));
      r := Ok(e);
    }

    // ---------------------------------------------- entities new in R2000

    method AddLWPolyline(points: seq<Value>, dxfattribs: Option<Attribs>) returns (r: Result<GraphicEntity>)
      modifies this
      ensures !Supports(dxfversion, R2000) ==> r == Err(VersionError("LWPOLYLINE", "R2000")) && entities == old(entities)
      ensures Supports(dxfversion, R2000) ==>
        && r.Ok? && fresh(r.value) && entities == old(entities) + [r.value]
        && r.value.dxftype == "LWPOLYLINE" && r.value.attribs == CopyAttribs(dxfattribs) - {"closed"}
        && r.value.calls == [SetPoints(points), SetClosed(Pop(CopyAttribs(dxfattribs), "closed", FALSE).0)]
    {
      if Less(dxfversion, R2000) {
        return Err(VersionError("LWPOLYLINE", "R2000"));
      }
      var (closed, rest) := Pop(CopyAttribs(dxfattribs), "closed", FALSE);
      var e := BuildAndAddEntity("LWPOLYLINE", rest);
      e.Call(SetPoints(points));
      e.Call(SetClosed(closed));
      r := Ok(e);
    }

    /** `add_ellipse`: the version is checked first, then the axis ratio, which must not exceed 1. */
    method AddEllipse(center: Value, majorAxis: Value, ratio: real, startParam: real, endParam: real, dxfattribs: Option<Attribs>)
      returns (r: Result<GraphicEntity>)
      modifies this
      ensures !Supports(dxfversion, R2000) ==> r == Err(VersionError("ELLIPSE", "R2000")) && entities == old(entities)
      ensures Supports(dxfversion, R2000) && ratio > 1.0 ==>
        r == Err(DXFValueError("Parameter 'ratio' has to be <= 1.0")) && entities == old(entities)
      ensures Supports(dxfversion, R2000) && ratio <= 1.0 ==>
        && r.Ok? && fresh(r.value) && entities == old(entities) + [r.value] && r.value.calls == []
        && r.value.dxftype == "ELLIPSE"
        && r.value.attribs == EllipseAttribs(CopyAttribs(dxfattribs), center, majorAxis, ratio, startParam, endParam)
    {
      if Less(dxfversion, R2000) {
        return Err(VersionError("ELLIPSE", "R2000"));
      }
      if ratio > 1.0 {
        return Err(DXFValueError("Parameter 'ratio' has to be <= 1.0"));
      }
      var a := CopyAttribs(dxfattribs);
      a := a["center" := center];
      a := a["major_axis" := majorAxis];
      a := a["ratio" := Float(ratio)];
      a := a["start_param" := Float(startParam)];
      a := a["end_param" := Float(endParam)];
      var e := BuildAndAddEntity("ELLIPSE", a);
      r := Ok(e);
    }

    method AddMText(text: string, dxfattribs: Option<Attribs>) returns (r: Result<GraphicEntity>)
      modifies this
      ensures !Supports(dxfversion, R2000) ==> r == Err(VersionError("MTEXT", "R2000")) && entities == old(entities)
      ensures Supports(dxfversion, R2000) ==>
        && r.Ok? && fresh(r.value) && entities == old(entities) + [r.value]
        && r.value.dxftype == "MTEXT" && r.value.attribs == CopyAttribs(dxfattribs)
        && r.value.calls == [SetText(text)]
    {
      if Less(dxfversion, R2000) {
        return Err(VersionError("MTEXT", "R2000"));
      }
      var e := BuildAndAddEntity("MTEXT", CopyAttribs(dxfattribs));
      e.Call(SetText(text));
      r := Ok(e);
    }

    /** `add_ray` and `add_xline`: a start point and a direction. */
    method AddRayOrXLine(dxftype: string, start: Value, unitVector: Value, dxfattribs: Option<Attribs>)
      returns (r: Result<GraphicEntity>)
      requires dxftype == "RAY" || dxftype == "XLINE"
      modifies this
      ensures !Supports(dxfversion, R2000) ==> r == Err(VersionError(dxftype, "R2000")) && entities == old(entities)
      ensures Supports(dxfversion, R2000) ==>
        && r.Ok? && fresh(r.value) && entities == old(entities) + [r.value] && r.value.calls == []
        && r.value.dxftype == dxftype
        && r.value.attribs == CopyAttribs(dxfattribs)["start" := start]["unit_vector" := unitVector]
    {
      if Less(dxfversion, R2000) {
        return Err(VersionError(dxftype, "R2000"));
      }
      var a := CopyAttribs(dxfattribs);
      a := a["start" := start];
      a := a["unit_vector" := unitVector];
      var e := BuildAndAddEntity(dxftype, a);
      r := Ok(e);
    }

    /** `add_spline`: the degree, and the fit points when there are any. */
    method AddSpline(fitPoints: Option<seq<Value>>, degree: int, dxfattribs: Option<Attribs>)
      returns (r: Result<GraphicEntity>)
      modifies this
      ensures !Supports(dxfversion, R2000) ==> r == Err(VersionError("SPLINE", "R2000")) && entities == old(entities)
      ensures Supports(dxfversion, R2000) ==>
        && r.Ok? && fresh(r.value) && entities == old(entities) + [r.value]
        && r.value.dxftype == "SPLINE" && r.value.attribs == CopyAttribs(dxfattribs)["degree" := Int(degree)]
        && r.value.calls == if fitPoints.Some? then [SetFitPoints(fitPoints.value)] else []
    {
      if Less(dxfversion, R2000) {
        return Err(VersionError("SPLINE", "R2000"));
      }
      var a := CopyAttribs(dxfattribs);
      a := a["degree" := Int(degree)];
      var e := BuildAndAddEntity("SPLINE", a);
      if fitPoints.Some? {
        e.Call(SetFitPoints(fitPoints.value));
      }
      r := Ok(e);
    }

    /** `_add_acis_entiy`: BODY, REGION, 3DSOLID and the surfaces, with their ACIS data when given. */
    method AddAcisEntity(name: string, acisData: Option<string>, dxfattribs: Option<Attribs>)
      returns (r: Result<GraphicEntity>)
      modifies this
      ensures !Supports(dxfversion, R2000) ==> r == Err(VersionError(name, "R2000")) && entities == old(entities)
      ensures Supports(dxfversion, R2000) ==>
        && r.Ok? && fresh(r.value) && entities == old(entities) + [r.value]
        && r.value.dxftype == name && r.value.attribs == CopyAttribs(dxfattribs)
        && r.value.calls == if acisData.Some? then [SetAcisData(acisData.value)] else []
    {
      if Less(dxfversion, R2000) {
        return Err(VersionError(name, "R2000"));
      }
      var e := BuildAndAddEntity(name, CopyAttribs(dxfattribs));
      if acisData.Some? {
        e.Call(SetAcisData(acisData.value));
      }
      r := Ok(e);
    }

    /** `add_surface` and its extruded, lofted, revolved and swept variants: R2007 and later only. */
    method AddSurface(kind: SurfaceKind, acisData: Option<string>, dxfattribs: Option<Attribs>)
      returns (r: Result<GraphicEntity>)
      modifies this
      ensures !Supports(dxfversion, R2007) ==> r == Err(VersionError(kind.ErrorName(), "R2007")) && entities == old(entities)
      ensures Supports(dxfversion, R2007) ==>
        && r.Ok? && fresh(r.value) && entities == old(entities) + [r.value]
        && r.value.dxftype == kind.DxfType() && r.value.attribs == CopyAttribs(dxfattribs)
        && r.value.calls == if acisData.Some? then [SetAcisData(acisData.value)] else []
    {
      if Less(dxfversion, R2007) {
        return Err(VersionError(kind.ErrorName(), "R2007"));
      }
      R2007SupportsR2000(dxfversion);
      r := AddAcisEntity(kind.DxfType(), acisData, dxfattribs);
    }

    /** `add_hatch`: a solid fill of the given color. */
    method AddHatch(color: int, dxfattribs: Option<Attribs>) returns (r: Result<GraphicEntity>)
      modifies this
      ensures !Supports(dxfversion, R2000) ==> r == Err(VersionError("HATCH", "R2000")) && entities == old(entities)
      ensures Supports(dxfversion, R2000) ==>
        && r.Ok? && fresh(r.value) && entities == old(entities) + [r.value] && r.value.calls == []
        && r.value.dxftype == "HATCH"
        && r.value.attribs == CopyAttribs(dxfattribs)["solid_fill" := Int(1)]["color" := Int(color)]["pattern_name" := Str("SOLID")]
    {
      if Less(dxfversion, R2000) {
        return Err(VersionError("HATCH", "R2000"));
      }
      var a := CopyAttribs(dxfattribs);
      a := a["solid_fill" := Int(1)];
      a := a["color" := Int(color)];
      a := a["pattern_name" := Str("SOLID")];
      var e := BuildAndAddEntity("HATCH", a);
      r := Ok(e);
    }

    method AddMesh(dxfattribs: Option<Attribs>) returns (r: Result<GraphicEntity>)
      modifies this
      ensures !Supports(dxfversion, R2000) ==> r == Err(VersionError("MESH", "R2000")) && entities == old(entities)
      ensures Supports(dxfversion, R2000) ==>
        && r.Ok? && fresh(r.value) && entities == old(entities) + [r.value] && r.value.calls == []
        && r.value.dxftype == "MESH" && r.value.attribs == CopyAttribs(dxfattribs)
    {
      if Less(dxfversion, R2000) {
        return Err(VersionError("MESH", "R2000"));
      }
      var e := BuildAndAddEntity("MESH", CopyAttribs(dxfattribs));
      r := Ok(e);
    }

    /** `add_underlay`: the underlay points at its definition, which lists the underlay as a reactor. */
    method AddUnderlay(def: UnderlayDef, insert: Value, scale: Value, rotation: real, dxfattribs: Option<Attribs>)
      returns (r: Result<GraphicEntity>)
      modifies this, def
      ensures !Supports(dxfversion, R2000) ==>
        r == Err(VersionError("UNDERLAY", "R2000")) && entities == old(entities) && def.reactors == old(def.reactors)
      ensures Supports(dxfversion, R2000) ==>
        && r.Ok? && fresh(r.value) && entities == old(entities) + [r.value]
        && r.value.dxftype == def.entityName
        && r.value.attribs == CopyAttribs(dxfattribs)["insert" := insert]["underlay_def" := Str(def.handle)]["rotation" := Float(rotation)]
        && r.value.calls == [SetScale(scale)]
        && def.reactors == old(def.reactors) + [r.value.handle]
    {
      if Less(dxfversion, R2000) {
        return Err(VersionError("UNDERLAY", "R2000"));
      }
      var a := CopyAttribs(dxfattribs);
      a := a["insert" := insert];
      a := a["underlay_def" := Str(def.handle)];
      a := a["rotation" := Float(rotation)];
      var e := BuildAndAddEntity(def.entityName, a);
      e.Call(SetScale(scale));
      def.reactors := def.reactors + [e.handle];
      r := Ok(e);
    }
  }
}
