/**
 * The external collaborators of the readers: the spatial library, the shape
 * libraries' own conversions and the phonetic encoders. They are passed in as
 * an `Engine` value; every operation that can throw returns a `Result`.
 *
 * On top of them this module defines the per-part construction and the
 * left-fold union the readers perform for geography and geometry.
 */
module Geo {
  import opened Common
  import opened Data

  /** Parameters of the fixed Albers equal-area projection the readers apply. */
  datatype AlbersParams = AlbersParams(longitude: int, latitude: int, parallel1: int, parallel2: int)

  /** Reference meridian 96 W, origin latitude 40 N, standard parallels 20 N and 60 N. */
  const Albers: AlbersParams := AlbersParams(96, 40, 20, 60)

  datatype Engine = Engine(
    /** `Polygon.ToSqlGeography(srid)` */
    toGeography: (Polygon, int) -> Result<Spatial, Fault>,
    /** `Polygon.ToSqlGeometry(srid)` */
    toGeometry: (Polygon, int) -> Result<Spatial, Fault>,
    /** `SqlGeography.STUnion` */
    unionGeography: (Spatial, Spatial) -> Result<Spatial, Fault>,
    /** `SqlGeometry.STUnion` */
    unionGeometry: (Spatial, Spatial) -> Result<Spatial, Fault>,
    /** `IsNull || STIsEmpty()` */
    isNullOrEmpty: Spatial -> bool,
    /** `SqlGeography.EnvelopeCenter()` */
    envelopeCenter: Spatial -> Result<Spatial, Fault>,
    /** `SqlProjection.AlbersEqualArea(...).Project(geography)` */
    project: (AlbersParams, Spatial) -> Result<Spatial, Fault>,
    /** `SqlGeography.STArea()` */
    area: Spatial -> Result<real, Fault>,
    /** `SqlGeometry.STCentroid()` followed by its null/empty test and `STX`/`STY`; `None` when the centroid is null or empty */
    centroid: Spatial -> Result<Option<Point>, Fault>,
    /** `SqlGeometry.STStartPoint()` with `STX`/`STY` */
    startPoint: Spatial -> Result<Point, Fault>,
    /** `SqlGeometry.STEndPoint()` with `STX`/`STY` */
    endPoint: Spatial -> Result<Point, Fault>,
    /** the Catfood `ShapePolygon.SqlGeography` property */
    shapeGeography: CatShape -> Result<Spatial, Fault>,
    /** the Catfood `ShapePolygon.SqlGeometry` property */
    shapeGeometry: CatShape -> Result<Spatial, Fault>,
    /** the Reimers `ShapeRecord.ToUnionSqlGeography("", srid)` */
    recordGeography: (ReimersShape, int) -> Result<Spatial, Fault>,
    /** the Reimers `ShapeRecord.ToUnionSqlGeometry("", srid)` */
    recordGeometry: (ReimersShape, int) -> Result<Spatial, Fault>,
    /** `SoundexEncoder.ComputeEncoding` */
    soundex: string -> string,
    /** `DMSoundexEncoder.compute` */
    dmSoundex: string -> string)

  /**
   * Converts the parts in order, stopping at the first one whose conversion
   * throws; `reached` is the list of values built before that point.
   */
  function ConvertParts(convert: Polygon -> Result<Spatial, Fault>, parts: seq<Part>): (a: Attempt<seq<Spatial>>)
    ensures |a.reached| <= |parts|
    ensures forall k :: 0 <= k < |a.reached| ==> convert(BuildPolygon(parts[k])) == Ok(a.reached[k])
    ensures a.fault.None? <==> |a.reached| == |parts|
    ensures a.fault.Some? ==> convert(BuildPolygon(parts[|a.reached|])) == Err(a.fault.value)
    decreases |parts|
  {
    if parts == [] then Attempt([], None)
    else
      match convert(BuildPolygon(parts[0]))
      case Err(f) => Attempt([], Some(f))
      case Ok(g) =>
        var rest := ConvertParts(convert, parts[1..]);
        Attempt([g] + rest.reached, rest.fault)
  }

  /** A conversion with its spatial reference identifier fixed. */
  function AtSrid(convert: (Polygon, int) -> Result<Spatial, Fault>, srid: int): Polygon -> Result<Spatial, Fault>
  {
    p => convert(p, srid)
  }

  /**
   * The union loop: starting from `acc`, each value of `rest` is unioned in,
   * left to right. A union that throws stops the loop; `reached` is then the
   * accumulator as it stood before the failing union.
   */
  function UnionFold(union: (Spatial, Spatial) -> Result<Spatial, Fault>, acc: Spatial, rest: seq<Spatial>): Attempt<Spatial>
    decreases |rest|
  {
    if rest == [] then Attempt(acc, None)
    else
      match union(acc, rest[0])
      case Err(f) => Attempt(acc, Some(f))
      case Ok(u) => UnionFold(union, u, rest[1..])
  }

  /** The plain left fold of a union that never throws. */
  function LeftFold(union: (Spatial, Spatial) -> Spatial, acc: Spatial, rest: seq<Spatial>): Spatial
    decreases |rest|
  {
    if rest == [] then acc else LeftFold(union, union(acc, rest[0]), rest[1..])
  }

  /** When the union never throws, the union loop computes the left fold. */
  lemma {:induction false} UnionFoldIsLeftFold(union: (Spatial, Spatial) -> Result<Spatial, Fault>,
                                               total: (Spatial, Spatial) -> Spatial, acc: Spatial, rest: seq<Spatial>)
    requires forall a, b :: union(a, b) == Ok(total(a, b))
    ensures UnionFold(union, acc, rest) == Attempt(LeftFold(total, acc, rest), None)
    decreases |rest|
  {
    if rest != [] {
      UnionFoldIsLeftFold(union, total, total(acc, rest[0]), rest[1..]);
    }
  }

  /**
   * A union loop that throws stops at some value `k`: the accumulator it
   * keeps is the completed fold of the values before `k`, and the union of
   * that accumulator with value `k` raised the fault.
   */
  lemma {:induction false} UnionFoldStopsAt(union: (Spatial, Spatial) -> Result<Spatial, Fault>, acc: Spatial, rest: seq<Spatial>)
    ensures var a := UnionFold(union, acc, rest);
      a.fault.Some? ==>
        exists k :: 0 <= k < |rest| && UnionFold(union, acc, rest[..k]) == Attempt(a.reached, None)
                    && union(a.reached, rest[k]) == Err(a.fault.value)
    decreases |rest|
  {
    var a := UnionFold(union, acc, rest);
    if rest != [] && a.fault.Some? {
      match union(acc, rest[0])
      case Err(f) =>
        assert UnionFold(union, acc, rest[..0]) == Attempt(acc, None);
      case Ok(u) =>
        UnionFoldStopsAt(union, u, rest[1..]);
        var k :| 0 <= k < |rest[1..]| && UnionFold(union, u, rest[1..][..k]) == Attempt(a.reached, None)
                 && union(a.reached, rest[1..][k]) == Err(a.fault.value);
        var pre := rest[..k + 1];
        assert pre[0] == rest[0] && pre[1..] == rest[1..][..k];
        assert UnionFold(union, acc, pre) == UnionFold(union, u, rest[1..][..k]);
        assert rest[k + 1] == rest[1..][k];
    }
  }

  /** Folding over `a + b` is folding over `a`, then over `b` from where `a` left off. */
  lemma {:induction false} UnionFoldAppend(union: (Spatial, Spatial) -> Result<Spatial, Fault>,
                                           acc: Spatial, a: seq<Spatial>, b: seq<Spatial>)
    requires UnionFold(union, acc, a).fault.None?
    ensures UnionFold(union, acc, a + b) == UnionFold(union, UnionFold(union, acc, a).reached, b)
    decreases |a|
  {
    if a != [] {
      assert (a + b)[0] == a[0];
      assert (a + b)[1..] == a[1..] + b;
      var u := union(acc, a[0]);
      UnionFoldAppend(union, u.value, a[1..], b);
    } else {
      assert a + b == b;
    }
  }

  /**
   * The loop of the source, written as a loop: seed with the first value,
   * then union in values 1 .. n-1 one by one, stopping at the first failure.
   */
  method UnionLoop(union: (Spatial, Spatial) -> Result<Spatial, Fault>, values: seq<Spatial>)
    returns (acc: Spatial, fault: Option<Fault>)
    requires |values| >= 1
    ensures Attempt(acc, fault) == UnionFold(union, values[0], values[1..])
  {
    acc := values[0];
    fault := None;
    var i := 1;
    while i < |values|
      invariant 1 <= i <= |values|
      invariant UnionFold(union, values[0], values[1..]) == UnionFold(union, acc, values[i..])
      decreases |values| - i
    {
      assert values[i..][1..] == values[i + 1..];
      match union(acc, values[i]) {
        case Err(f) =>
          fault := Some(f);
          return;
        case Ok(u) =>
          acc := u;
      }
      i := i + 1;
    }
    assert values[i..] == [];
  }

  /**
   * The geography (or geometry) of a multi-part shape: build one value per
   * part, take part 0 as the seed and union the others in. `prior` is the
   * variable's value before the stage; it is kept when the stage throws
   * before the seed is assigned, in particular when there are no parts at
   * all (the `[0]` index fails).
   */
  function UnionOfParts(convert: Polygon -> Result<Spatial, Fault>, union: (Spatial, Spatial) -> Result<Spatial, Fault>,
                        prior: Option<Spatial>, parts: seq<Part>): (a: Attempt<Option<Spatial>>)
    ensures parts == [] ==> a == Attempt(prior, Some(IndexOutOfRange))
    ensures ConvertParts(convert, parts).fault.Some? ==> a == Attempt(prior, ConvertParts(convert, parts).fault)
    ensures a.fault.None? ==> parts != [] && ConvertParts(convert, parts).fault.None?
    ensures a.fault.None? ==>
      var gs := ConvertParts(convert, parts).reached;
      a.reached == Some(UnionFold(union, gs[0], gs[1..]).reached)
    ensures parts != [] && ConvertParts(convert, parts).fault.None? ==>
      var gs := ConvertParts(convert, parts).reached;
      a == Attempt(Some(UnionFold(union, gs[0], gs[1..]).reached), UnionFold(union, gs[0], gs[1..]).fault)
  {
    var built := ConvertParts(convert, parts);
    if built.fault.Some? then Attempt(prior, built.fault)
    else if |built.reached| == 0 then Attempt(prior, Some(IndexOutOfRange))
    else
      var folded := UnionFold(union, built.reached[0], built.reached[1..]);
      Attempt(Some(folded.reached), folded.fault)
  }

  /**
   * A three-part shape whose parts convert to g0, g1, g2 and whose unions
   * succeed yields (g0 union g1) union g2: the first part seeds the fold and
   * the others are unioned in, in order.
   */
  lemma ThreePartUnion(convert: Polygon -> Result<Spatial, Fault>, union: (Spatial, Spatial) -> Result<Spatial, Fault>,
                       prior: Option<Spatial>, p0: Part, p1: Part, p2: Part, g0: Spatial, g1: Spatial, g2: Spatial, u01: Spatial, u: Spatial)
    requires convert(BuildPolygon(p0)) == Ok(g0) && convert(BuildPolygon(p1)) == Ok(g1) && convert(BuildPolygon(p2)) == Ok(g2)
    requires union(g0, g1) == Ok(u01) && union(u01, g2) == Ok(u)
    ensures UnionOfParts(convert, union, prior, [p0, p1, p2]) == Attempt(Some(u), None)
  {
    var parts := [p0, p1, p2];
    assert parts[1..] == [p1, p2];
    assert parts[1..][1..] == [p2];
    assert [p2][1..] == [];
    assert ConvertParts(convert, []) == Attempt([], None);
    assert [g2] + [] == [g2];
    assert ConvertParts(convert, [p2]) == Attempt([g2], None);
    assert [p1, p2][1..] == [p2];
    assert [g1] + [g2] == [g1, g2];
    assert ConvertParts(convert, [p1, p2]) == Attempt([g1, g2], None);
    assert [g0] + [g1, g2] == [g0, g1, g2];
    var built := ConvertParts(convert, parts);
    assert built == Attempt([g0, g1, g2], None);
    assert built.reached[1..] == [g1, g2];
    assert [g1, g2][1..] == [g2];
    assert [g2][1..] == [];
    assert UnionFold(union, u, []) == Attempt(u, None);
    assert UnionFold(union, u01, [g2]) == Attempt(u, None);
    assert UnionFold(union, g0, [g1, g2]) == Attempt(u, None);
  }
}
