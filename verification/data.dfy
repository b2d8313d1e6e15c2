/**
 * The entities the readers work on: shapes as read from the .shp file, the
 * cells of an output row, the configuration flags, progress events and the
 * outcome of one `NextFeature` call.
 */
module Data {
  import opened Common

  datatype Point = Point(x: real, y: real)

  /** One ring of a shape: its points in file order. */
  type Part = seq<Point>

  /** The polygon helper built for a part by adding its points one by one, in order. */
  datatype Polygon = Polygon(vertices: seq<Point>)

  function BuildPolygon(part: Part): Polygon
  {
    Polygon(part)
  }

  /** An opaque handle on a value produced by the spatial library (a geography or a geometry). */
  datatype Spatial = Spatial(handle: nat)

  /** The shape types a shapefile record can declare. */
  datatype ShapeKind =
    | NullShape
    | PointShape
    | PolyLineShape
    | PolygonShape
    | MultiPointShape
    | OtherShape(code: int)

  /** A shape yielded by the Catfood enumerator, with the attribute values it carries. */
  datatype CatShape = CatShape(kind: ShapeKind, parts: seq<Part>, attributes: seq<Cell>)

  /** A shape parsed from the stream by the Reimers record reader; `error` is its parse-error text ("" when none). */
  datatype ReimersShape = ReimersShape(kind: ShapeKind, parts: seq<Part>, error: string)

  /** The KML geometry type whose name is written in the shape-type cell. */
  datatype KmlGeometryType = KmlPoint | KmlLineString | KmlPolygon | KmlUnknown

  /**
   * One cell of an output row. `Null` is an unset slot of the row array,
   * `DbNull` the attribute store's null value.
   */
  datatype Cell =
    | Null
    | DbNull
    | Str(s: string)
    | Int(i: int)
    | Real(r: real)
    | Bool(b: bool)
    | TypeName(kind: KmlGeometryType)
    | SpatialValue(value: Spatial)
    | PolygonList(polygons: seq<Polygon>)

  /** The cell holding a spatial variable that may still be null. */
  function SpatialOrNull(v: Option<Spatial>): Cell
  {
    match v
    case None => Null
    case Some(s) => SpatialValue(s)
  }

  /**
   * The reader configuration. Column lists are `None` when the
   * corresponding property was never assigned (a null array).
   */
  datatype Config = Config(
    abortOnError: bool,
    srid: int,
    notifyAfter: int,
    hasRecordsReadHandler: bool,
    hasPercentReadHandler: bool,
    trimStringData: bool,
    includeGeography: bool,
    includeGeographyGeoJson: bool,
    includeGeometry: bool,
    includeGeometryGeoJson: bool,
    includeSoundex: bool,
    soundexColumns: Option<seq<string>>,
    includeSoundexDM: bool,
    soundexDMColumns: Option<seq<string>>,
    includeLineEndPoints: bool,
    lineEndPointColumns: Option<seq<string>>,
    splitAddressRanges: bool,
    addressRangeColumns: Option<seq<string>>,
    addEvenOddFlag: bool,
    evenOddColumns: Option<seq<string>>,
    includeGeometryProjected: bool,
    includeArea: bool,
    includeCentroid: bool,
    includeImportTime: bool)

  /** The columns a per-column stage works on: none unless the stage is on and its list is set. */
  function ActiveColumns(enabled: bool, columns: Option<seq<string>>): seq<string>
  {
    if enabled && columns.Some? then columns.value else []
  }

  /**
   * A C# `double` quotient: a real number, or the NaN / infinity that a
   * floating-point division by zero yields.
   */
  datatype Ratio = Finite(value: real) | NonFinite

  /** A progress notification fired by `NextFeature`. */
  datatype Event = RecordsRead(current: int, total: int) | PercentRead(fraction: Ratio)

  /** The cells a stage appends only when its flag is set. */
  function Optional<T>(flag: bool, xs: seq<T>): seq<T>
  {
    if flag then xs else []
  }

  /** 1 for a set flag, 0 otherwise: the width of an optional one-cell stage. */
  function Count(flag: bool): nat {
    if flag then 1 else 0
  }

  /*
   * Positions in a row and in its schema table. Naming them keeps a column
   * and the cell under it at the same term.
   */

  /** Past `n` attribute columns, `shapeType`, and `shapeGeog`/`shapeGeom` when enabled. */
  function SpatialEnd(c: Config, n: nat): nat {
    n + 1 + Count(c.includeGeography) + Count(c.includeGeometry)
  }

  /** Where the Soundex-DM block starts when the Soundex block starts at `start`. */
  function DMStart(c: Config, start: nat): nat {
    start + |ActiveColumns(c.includeSoundex, c.soundexColumns)|
  }

  /** Past both phonetic blocks when the Soundex block starts at `start`. */
  function PhoneticEnd(c: Config, start: nat): nat {
    DMStart(c, start) + |ActiveColumns(c.includeSoundexDM, c.soundexDMColumns)|
  }

  /** Past the end-point block, which follows the phonetic ones. */
  function EndPointsEnd(c: Config, start: nat): nat {
    PhoneticEnd(c, start) + |ActiveColumns(c.includeLineEndPoints, c.lineEndPointColumns)|
  }

  /** Past the address-range block: two columns per address-range column. */
  function AddressEnd(c: Config, start: nat): nat {
    EndPointsEnd(c, start) + 2 * |ActiveColumns(c.splitAddressRanges, c.addressRangeColumns)|
  }

  /** Past the even/odd block, where the measure block starts. */
  function ParityEnd(c: Config, start: nat): nat {
    AddressEnd(c, start) + |ActiveColumns(c.addEvenOddFlag, c.evenOddColumns)|
  }

  /**
   * The attribute table as the dBASE cursor (`FileDataReader`) sees it: its
   * field count and its rows in order.
   */
  datatype DbTable = DbTable(fieldCount: nat, rows: seq<seq<Cell>>)

  /** `n` unset slots. */
  function Nulls(n: nat): (r: seq<Cell>)
    ensures |r| == n
    ensures forall i :: 0 <= i < n ==> r[i] == Null
  {
    seq(n, _ => Null)
  }

  /**
   * The attribute array after `new object[FieldCount]` and, when `Read()`
   * yields a row, `GetValues` into it: as many of the row's values as fit,
   * the remaining slots left unset.
   */
  function FillRow(fieldCount: nat, values: seq<Cell>): (r: seq<Cell>)
    ensures |r| == fieldCount
    ensures forall i :: 0 <= i < fieldCount ==> r[i] == (if i < |values| then values[i] else Null)
  {
    seq(fieldCount, i requires 0 <= i < fieldCount => if i < |values| then values[i] else Null)
  }

  /** The outcome of one `NextFeature` call on a reader of type `R`. */
  datatype Step<R> =
    | Advanced(next: R, row: seq<Cell>, events: seq<Event>)
    | Exhausted(next: R)
    | Raised(next: R, events: seq<Event>, error: ReaderError)
}
