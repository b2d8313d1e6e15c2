/**
 * `ExtendedCatfoodShapefileDataReader`: shapes and their attribute values
 * come from the Catfood enumerator, as in the basic reader. After the tag a
 * row carries the geography, its GeoJSON polygon list, the geometry, its
 * GeoJSON polygon list, the Soundex and Daitch-Mokotoff Soundex cells, the
 * projection, area and centroid, and the time the record took to import.
 * The line-end-point, address-range and even/odd stages are declared in the
 * schema but never run.
 */
module ExtendedCatfoodReader {
  import opened Common
  import opened Data
  import opened Geo
  import opened Progress
  import opened Schema
  import opened Stages
  import opened Pipeline
  import CatfoodReader

  /** Shapes with this many parts or more get an empty polygon list and no rebuilt value. */
  const MaxGeoJsonParts: nat := 25

  /**
   * A spatial variable and the polygon list kept next to it (`None` while
   * the list is still null).
   */
  datatype Track = Track(value: Option<Spatial>, polygons: Option<seq<Polygon>>)

  /** The cell holding a polygon list that may still be null. */
  function PolygonCell(polygons: Option<seq<Polygon>>): Cell
  {
    match polygons
    case None => Null
    case Some(ps) => PolygonList(ps)
  }

  /** One polygon per part, in order. */
  function Polygons(parts: seq<Part>): (ps: seq<Polygon>)
    ensures |ps| == |parts|
    ensures forall i :: 0 <= i < |parts| ==> ps[i] == BuildPolygon(parts[i])
  {
    seq(|parts|, i requires 0 <= i < |parts| => BuildPolygon(parts[i]))
  }

  // ---- the spatial stages ----------------------------------------------------

  /**
   * The geography (or geometry) stage: the cast to a polygon shape, then the
   * shape's own `SqlGeography` (or `SqlGeometry`) property. The variable
   * starts out null and stays null when either step throws.
   */
  function ShapeProperty(property: CatShape -> Result<Spatial, Fault>, shape: CatShape): (a: Attempt<Option<Spatial>>)
    ensures shape.kind != PolygonShape ==> a == Attempt(None, Some(InvalidCast))
    ensures a.reached.Some? <==> shape.kind == PolygonShape && property(shape).Ok?
    ensures a.reached.Some? ==> property(shape) == Ok(a.reached.value)
    ensures a.fault.None? <==> a.reached.Some?
    ensures a.fault.Some? && shape.kind == PolygonShape ==> property(shape) == Err(a.fault.value)
  {
    if shape.kind != PolygonShape then Attempt(None, Some(InvalidCast))
    else
      match property(shape)
      case Ok(g) => Done(Some(g))
      case Err(f) => Attempt(None, Some(f))
  }

  /**
   * The GeoJSON stage. It runs only while the polygon list is null: the
   * cast, then a fresh list; for a shape with fewer than 25 parts, each part
   * is converted and its polygon added, and the variable is rebuilt as the
   * union of the converted parts. A fault keeps the polygons added so far,
   * and the variable as the union loop left it.
   */
  function GeoJsonStage(convert: (Polygon, int) -> Result<Spatial, Fault>, union: (Spatial, Spatial) -> Result<Spatial, Fault>,
                        srid: int, shape: CatShape, t: Track): (a: Attempt<Track>)
    ensures t.polygons.Some? ==> a == Done(t)
    ensures t.polygons.None? && shape.kind != PolygonShape ==> a == Attempt(t, Some(InvalidCast))
    ensures t.polygons.None? && shape.kind == PolygonShape && |shape.parts| >= MaxGeoJsonParts ==>
      a == Done(t.(polygons := Some([])))
    ensures t.polygons.None? && shape.kind == PolygonShape && |shape.parts| < MaxGeoJsonParts ==>
      (&& a.reached.polygons == Some(Polygons(shape.parts[..|ConvertParts(AtSrid(convert, srid), shape.parts).reached|]))
       && a.reached.value == UnionOfParts(AtSrid(convert, srid), union, t.value, shape.parts).reached
       && a.fault == UnionOfParts(AtSrid(convert, srid), union, t.value, shape.parts).fault)
  {
    if t.polygons.Some? then Done(t)
    else if shape.kind != PolygonShape then Attempt(t, Some(InvalidCast))
    else if |shape.parts| >= MaxGeoJsonParts then Done(t.(polygons := Some([])))
    else
      var built := ConvertParts(AtSrid(convert, srid), shape.parts);
      var u := UnionOfParts(AtSrid(convert, srid), union, t.value, shape.parts);
      Attempt(Track(u.reached, Some(Polygons(shape.parts[..|built.reached|]))), u.fault)
  }

  /**
   * The geometry stage as the source has it: the polygon list is set to an
   * empty list before the cast, so the geometry GeoJSON stage that follows
   * finds it set and never builds it.
   */
  function GeometryStageAsWritten(e: Engine, shape: CatShape): (a: Attempt<Track>)
    ensures a.reached.polygons == Some([])
    ensures a.reached.value == ShapeProperty(e.shapeGeometry, shape).reached
    ensures a.fault == ShapeProperty(e.shapeGeometry, shape).fault
  {
    var g := ShapeProperty(e.shapeGeometry, shape);
    Attempt(Track(g.reached, Some([])), g.fault)
  }

  /**
   * The geometry stage as the geography stage is written: the property only,
   * the polygon list left null for the GeoJSON stage to build.
   */
  function GeometryStage(e: Engine, shape: CatShape): (a: Attempt<Track>)
    ensures a.reached.polygons.None?
    ensures a.reached.value == ShapeProperty(e.shapeGeometry, shape).reached
    ensures a.fault == ShapeProperty(e.shapeGeometry, shape).fault
  {
    var g := ShapeProperty(e.shapeGeometry, shape);
    Attempt(Track(g.reached, None), g.fault)
  }

  /**
   * Which geometry stage a reader runs: the one the source has, or the
   * corrected one that leaves the polygon list for the GeoJSON stage.
   */
  datatype GeometryBuild = AsWritten | Corrected

  /** The geometry stage of the given build. */
  function GeometryStageOf(e: Engine, build: GeometryBuild, shape: CatShape): (a: Attempt<Track>)
    ensures a.reached.value == ShapeProperty(e.shapeGeometry, shape).reached
    ensures a.fault == ShapeProperty(e.shapeGeometry, shape).fault
    ensures build == AsWritten ==> a.reached.polygons == Some([])
    ensures build == Corrected ==> a.reached.polygons.None?
  {
    match build
    case AsWritten => GeometryStageAsWritten(e, shape)
    case Corrected => GeometryStage(e, shape)
  }

  /** The cells a spatial stage pair appends, and the variable the later stages see. */
  datatype SpatialOutput = SpatialOutput(cells: seq<Cell>, value: Option<Spatial>)

  /** The geography as the geography stage leaves it (null when the stage is off). */
  function GeographyTrack(e: Engine, c: Config, shape: CatShape): Track {
    Track(if c.includeGeography then ShapeProperty(e.shapeGeography, shape).reached else None, None)
  }

  /** The geometry as the geometry stage leaves it (null when the stage is off). */
  function GeometryTrack(e: Engine, c: Config, build: GeometryBuild, shape: CatShape): Track {
    if c.includeGeometry then GeometryStageOf(e, build, shape).reached else Track(None, None)
  }

  /** The geography stage and the geography GeoJSON stage, each inside its catch block. */
  function GeographyCells(e: Engine, c: Config, shape: CatShape): (r: Result<SpatialOutput, StageError>)
    ensures r.Err? <==>
      (c.abortOnError &&
       ((c.includeGeography && ShapeProperty(e.shapeGeography, shape).fault.Some?)
        || (c.includeGeographyGeoJson
            && GeoJsonStage(e.toGeography, e.unionGeography, c.srid, shape, GeographyTrack(e, c, shape)).fault.Some?)))
    ensures r.Err? ==> r.error.stage == Geography || r.error.stage == GeographyGeoJson
    ensures r.Ok? ==> |r.value.cells| == Count(c.includeGeography) + Count(c.includeGeographyGeoJson)
    ensures r.Ok? && c.includeGeography ==> r.value.cells[0] == SpatialOrNull(ShapeProperty(e.shapeGeography, shape).reached)
    ensures r.Ok? && c.includeGeographyGeoJson ==>
      r.value.cells[Count(c.includeGeography)]
        == PolygonCell(GeoJsonStage(e.toGeography, e.unionGeography, c.srid, shape, GeographyTrack(e, c, shape)).reached.polygons)
    ensures r.Ok? ==>
      (r.value.value ==
       if c.includeGeographyGeoJson
       then GeoJsonStage(e.toGeography, e.unionGeography, c.srid, shape, GeographyTrack(e, c, shape)).reached.value
       else GeographyTrack(e, c, shape).value)
  {
    var geog :- if c.includeGeography then Settle(c.abortOnError, Geography, ShapeProperty(e.shapeGeography, shape)) else Ok(None);
    var t := Track(geog, None);
    var json :- if c.includeGeographyGeoJson
      then Settle(c.abortOnError, GeographyGeoJson, GeoJsonStage(e.toGeography, e.unionGeography, c.srid, shape, t)) else Ok(t);
    Ok(SpatialOutput(Optional(c.includeGeography, [SpatialOrNull(geog)]) + Optional(c.includeGeographyGeoJson, [PolygonCell(json.polygons)]), json.value))
  }

  /** The geometry stage and the geometry GeoJSON stage, each inside its catch block. */
  function GeometryCells(e: Engine, c: Config, build: GeometryBuild, shape: CatShape): (r: Result<SpatialOutput, StageError>)
    ensures r.Err? <==>
      (c.abortOnError &&
       ((c.includeGeometry && ShapeProperty(e.shapeGeometry, shape).fault.Some?)
        || (c.includeGeometryGeoJson
            && GeoJsonStage(e.toGeometry, e.unionGeometry, c.srid, shape, GeometryTrack(e, c, build, shape)).fault.Some?)))
    ensures r.Err? ==> r.error.stage == Geometry || r.error.stage == GeometryGeoJson
    ensures r.Ok? ==> |r.value.cells| == Count(c.includeGeometry) + Count(c.includeGeometryGeoJson)
    ensures r.Ok? && c.includeGeometry ==> r.value.cells[0] == SpatialOrNull(ShapeProperty(e.shapeGeometry, shape).reached)
    ensures r.Ok? && c.includeGeometryGeoJson ==>
      r.value.cells[Count(c.includeGeometry)]
        == PolygonCell(GeoJsonStage(e.toGeometry, e.unionGeometry, c.srid, shape, GeometryTrack(e, c, build, shape)).reached.polygons)
    ensures r.Ok? ==>
      (r.value.value ==
       if c.includeGeometryGeoJson
       then GeoJsonStage(e.toGeometry, e.unionGeometry, c.srid, shape, GeometryTrack(e, c, build, shape)).reached.value
       else GeometryTrack(e, c, build, shape).value)
  {
    var t :- if c.includeGeometry then Settle(c.abortOnError, Geometry, GeometryStageOf(e, build, shape)) else Ok(Track(None, None));
    var json :- if c.includeGeometryGeoJson
      then Settle(c.abortOnError, GeometryGeoJson, GeoJsonStage(e.toGeometry, e.unionGeometry, c.srid, shape, t)) else Ok(t);
    Ok(SpatialOutput(Optional(c.includeGeometry, [SpatialOrNull(t.value)]) + Optional(c.includeGeometryGeoJson, [PolygonCell(json.polygons)]), json.value))
  }

  // ---- the row -----------------------------------------------------------------

  /** The attributes (trimmed when asked), the Polygon tag, then the cells of the two spatial stage pairs. */
  function SpatialRow(c: Config, attrs: seq<Cell>, geo: SpatialOutput, geom: SpatialOutput): (row: seq<Cell>)
    ensures |row| == |attrs| + 1 + |geo.cells| + |geom.cells|
    ensures row[..|attrs|] == TrimmedIf(c.trimStringData, attrs) && row[|attrs|] == TypeName(KmlPolygon)
    ensures forall i :: 0 <= i < |geo.cells| ==> row[|attrs| + 1 + i] == geo.cells[i]
    ensures forall i :: 0 <= i < |geom.cells| ==> row[|attrs| + 1 + |geo.cells| + i] == geom.cells[i]
  {
    TrimmedIf(c.trimStringData, attrs) + [TypeName(KmlPolygon)] + geo.cells + geom.cells
  }

  /** How many cells the spatial stage pairs append. */
  function SpatialWidth(c: Config): nat {
    Count(c.includeGeography) + Count(c.includeGeographyGeoJson) + Count(c.includeGeometry) + Count(c.includeGeometryGeoJson)
  }

  /** The width of the enrichment cells of a row built without any fault. */
  function EnrichmentWidth(c: Config): nat {
    |ActiveColumns(c.includeSoundex, c.soundexColumns)| + |ActiveColumns(c.includeSoundexDM, c.soundexDMColumns)|
      + Count(c.includeGeometryProjected) + Count(c.includeArea) + 2 * Count(c.includeCentroid)
  }

  /**
   * The enrichment stages this reader runs: the phonetic codes, then the
   * measures of the geography and geometry as the GeoJSON stages left them.
   */
  function EnrichmentCells(e: Engine, c: Config, table: Option<seq<ColumnDesc>>, row: seq<Cell>,
                           geography: Option<Spatial>, geometry: Option<Spatial>): (r: Result<seq<Cell>, StageError>)
    ensures !c.abortOnError ==> r.Ok?
    ensures r.Err? ==> r.error.stage in {Soundex, SoundexDM, Area, Centroid}
    ensures r.Ok? ==> |r.value| <= EnrichmentWidth(c)
    ensures r.Ok? && c.abortOnError ==> |r.value| == EnrichmentWidth(c)
  {
    var phonetic :- PhoneticCells(e, c, table, row);
    var measures :- MeasureCells(e, c, geography, geometry);
    Ok(phonetic + measures)
  }

  /** The length of a row built without any fault, for `n` attribute values. */
  function FullWidth(c: Config, n: nat): nat {
    n + 1 + SpatialWidth(c) + EnrichmentWidth(c) + Count(c.includeImportTime)
  }

  /** The enrichment cells, then the import time when it is on. */
  function TailCells(e: Engine, c: Config, table: Option<seq<ColumnDesc>>, row: seq<Cell>,
                     geography: Option<Spatial>, geometry: Option<Spatial>, elapsedMs: real): (r: Result<seq<Cell>, StageError>)
    ensures !c.abortOnError ==> r.Ok?
    ensures r.Err? ==> r.error.stage in {Soundex, SoundexDM, Area, Centroid}
    ensures r.Ok? ==> Count(c.includeImportTime) <= |r.value| <= EnrichmentWidth(c) + Count(c.includeImportTime)
    ensures r.Ok? && c.abortOnError ==> |r.value| == EnrichmentWidth(c) + Count(c.includeImportTime)
    ensures r.Ok? && c.includeImportTime ==> r.value[|r.value| - 1] == Real(elapsedMs)
  {
    match EnrichmentCells(e, c, table, row, geography, geometry)
    case Err(err) => Err(err)
    case Ok(cells) => Ok(cells + Optional(c.includeImportTime, [Real(elapsedMs)]))
  }

  /** The row as the spatial stages leave it, and the geography and geometry the later stages see. */
  datatype Prefix = Prefix(row: seq<Cell>, geography: Option<Spatial>, geometry: Option<Spatial>)

  /** The attributes and the tag, then the two spatial stage pairs. */
  function SpatialStages(e: Engine, c: Config, build: GeometryBuild, shape: CatShape): (r: Result<Prefix, StageError>)
    ensures r.Ok? <==> GeographyCells(e, c, shape).Ok? && GeometryCells(e, c, build, shape).Ok?
    ensures r.Err? ==> r.error.stage in {Geography, GeographyGeoJson, Geometry, GeometryGeoJson}
    ensures r.Ok? ==>
      (&& r.value.row == SpatialRow(c, shape.attributes, GeographyCells(e, c, shape).value, GeometryCells(e, c, build, shape).value)
       && r.value.geography == GeographyCells(e, c, shape).value.value
       && r.value.geometry == GeometryCells(e, c, build, shape).value.value)
    ensures r.Ok? ==> |r.value.row| == |shape.attributes| + 1 + SpatialWidth(c)
  {
    match GeographyCells(e, c, shape)
    case Err(err) => Err(err)
    case Ok(geo) =>
      match GeometryCells(e, c, build, shape)
      case Err(err) => Err(err)
      case Ok(geom) => Ok(Prefix(SpatialRow(c, shape.attributes, geo, geom), geo.value, geom.value))
  }

  /**
   * The row of one shape, stage by stage: the attributes (trimmed when
   * asked), the tag, the geography and its GeoJSON list, the geometry and its
   * GeoJSON list, the phonetic cells, the measures and the import time.
   * `elapsedMs` is the time since the call started, as the clock gives it.
   */
  function ExtendedCatfoodRow(e: Engine, c: Config, build: GeometryBuild, table: Option<seq<ColumnDesc>>, shape: CatShape, elapsedMs: real): (r: Result<seq<Cell>, StageError>)
    ensures !c.abortOnError ==> r.Ok?
    ensures r.Err? ==> r.error.stage !in {Bookkeeping, ReadShape, ImportTime}
    ensures r.Ok? ==> SpatialStages(e, c, build, shape).Ok?
    ensures r.Ok? ==>
      |shape.attributes| + 1 + SpatialWidth(c) + Count(c.includeImportTime) <= |r.value| <= FullWidth(c, |shape.attributes|)
    ensures r.Ok? && c.abortOnError ==> |r.value| == FullWidth(c, |shape.attributes|)
    ensures r.Ok? ==> r.value[..|SpatialStages(e, c, build, shape).value.row|] == SpatialStages(e, c, build, shape).value.row
    ensures r.Ok? && c.includeImportTime ==> r.value[|r.value| - 1] == Real(elapsedMs)
  {
    match SpatialStages(e, c, build, shape)
    case Err(err) => Err(err)
    case Ok(p) =>
      match TailCells(e, c, table, p.row, p.geography, p.geometry, elapsedMs)
      case Err(err) => Err(err)
      case Ok(tail) =>
        PrefixKept(p.row, tail, |p.row|);
        Ok(p.row + tail)
  }

  // ---- NextFeature -----------------------------------------------------------

  /**
   * After the bookkeeping: the row of the shape the enumerator yielded. `s`
   * is the state with the index and the enumerator already moved on.
   */
  function ComposeRecord(e: Engine, build: GeometryBuild, s: CatfoodReader.CatfoodState, shape: CatShape, events: seq<Event>, elapsedMs: real)
    : (r: Step<CatfoodReader.CatfoodState>)
    ensures !r.Exhausted? && r.events == events
    ensures r.Advanced? ==> r.next == s
    ensures r.Raised? ==> r.next == s.(layerClosed := true)
    ensures r.Raised? ==> s.config.abortOnError && r.error.recordIndex == s.index && r.error.cause.stage != Bookkeeping
    ensures r.Advanced? ==> ExtendedCatfoodRow(e, s.config, build, s.schema.table, shape, elapsedMs) == Ok(r.row)
  {
    match ExtendedCatfoodRow(e, s.config, build, s.schema.table, shape, elapsedMs)
    case Err(err) => Raised(s.(layerClosed := true), events, ReaderError(s.index, err))
    case Ok(row) => Advanced(s, row, events)
  }

  /**
   * `NextFeature`, with the same guard and bookkeeping as the basic reader.
   * When the guard fails the layer is closed and the reader reports
   * exhaustion. Otherwise the index and the enumerator move on, the counts
   * are checked, the notifications fire and the row is composed; an escaping
   * error closes the layer and is reported with the new record index.
   */
  function NextFeature(e: Engine, build: GeometryBuild, s: CatfoodReader.CatfoodState, elapsedMs: real): (r: Step<CatfoodReader.CatfoodState>)
    ensures r.Exhausted? <==> !CatfoodReader.CanAdvance(s)
    ensures r.Exhausted? ==> r.next == s.(layerClosed := true)
    ensures !r.Exhausted? ==> r.next.index == s.index + 1 && r.next.cursor == s.cursor + 1
    ensures !r.Exhausted? ==> r.next.(index := s.index, cursor := s.cursor, layerClosed := s.layerClosed) == s
    ensures r.Advanced? ==> r.next.layerClosed == s.layerClosed
    ensures r.Raised? ==> r.next.layerClosed && r.error.recordIndex == s.index + 1 && s.config.abortOnError
    ensures r.Raised? && r.error.cause.stage == Bookkeeping ==>
      r.events == [] && r.error.cause.fault == CountMismatch(s.totalShapes, s.schema.totalRecords)
    ensures r.Advanced? ==> ExtendedCatfoodRow(e, s.config, build, s.schema.table, s.shapes[s.cursor], elapsedMs) == Ok(r.row)
  {
    if CatfoodReader.CanAdvance(s) then
      var index := s.index + 1;
      var shape := s.shapes[s.cursor];
      var moved := s.(index := index, cursor := s.cursor + 1);
      match CatfoodReader.Bookkeep(s.config, index, s.totalShapes, s.schema.totalRecords, s.stream)
      case Err(err) => Raised(moved.(layerClosed := true), [], ReaderError(index, err))
      case Ok(events) => ComposeRecord(e, build, moved, shape, events, elapsedMs)
    else Exhausted(s.(layerClosed := true))
  }

  /**
   * A count mismatch under the tolerant policy is swallowed: the record is
   * still read, and none of its notifications fire.
   */
  lemma MismatchSkipsNotifications(e: Engine, build: GeometryBuild, s: CatfoodReader.CatfoodState, elapsedMs: real)
    requires !s.config.abortOnError && CatfoodReader.CanAdvance(s) && s.totalShapes != s.schema.totalRecords
    ensures NextFeature(e, build, s, elapsedMs).Advanced? && NextFeature(e, build, s, elapsedMs).events == []
  {
  }

  // ---- properties --------------------------------------------------------------

  /**
   * Against the schema: an abort-policy row is as long as the schema minus
   * every declared end-point, address-range and even/odd column, since those
   * stages never run here.
   */
  lemma RowVersusSchema(e: Engine, c: Config, build: GeometryBuild, shape: CatShape, dbf: Dbf, s0: SchemaState, elapsedMs: real)
    requires s0.table.None? && |dbf.columns| == |shape.attributes|
    requires c.abortOnError
    ensures var t := GetSchemaTable(ExtendedCatfoodKind, c, Some(dbf), true, s0).value.table;
      ExtendedCatfoodRow(e, c, build, t, shape, elapsedMs).Ok? ==>
      |ExtendedCatfoodRow(e, c, build, t, shape, elapsedMs).value|
        + |ActiveColumns(c.includeLineEndPoints, c.lineEndPointColumns)|
        + 2 * |ActiveColumns(c.splitAddressRanges, c.addressRangeColumns)|
        + |ActiveColumns(c.addEvenOddFlag, c.evenOddColumns)|
        == |t.value|
  {
    var t := GetSchemaTable(ExtendedCatfoodKind, c, Some(dbf), true, s0).value.table.value;
    assert |t| == |dbf.columns| + |ExtendedCatfoodColumns(c)| by {
      assert t[|dbf.columns|..] == AddedColumns(ExtendedCatfoodKind, c);
    }
    WidthVersusColumns(c, |dbf.columns|);
  }

  /** The row width plus the never-run columns is the dBASE width plus the declared columns. */
  lemma WidthVersusColumns(c: Config, n: nat)
    ensures FullWidth(c, n)
        + |ActiveColumns(c.includeLineEndPoints, c.lineEndPointColumns)|
        + 2 * |ActiveColumns(c.splitAddressRanges, c.addressRangeColumns)|
        + |ActiveColumns(c.addEvenOddFlag, c.evenOddColumns)|
        == n + |ExtendedCatfoodColumns(c)|
  {
  }

  /** Row and schema agree exactly when no end-point, address-range or even/odd column is configured. */
  lemma RowMatchesSchemaIffNoUnrunColumns(e: Engine, c: Config, build: GeometryBuild, shape: CatShape, dbf: Dbf, s0: SchemaState, elapsedMs: real)
    requires s0.table.None? && |dbf.columns| == |shape.attributes|
    requires c.abortOnError
    ensures var t := GetSchemaTable(ExtendedCatfoodKind, c, Some(dbf), true, s0).value.table;
      ExtendedCatfoodRow(e, c, build, t, shape, elapsedMs).Ok? ==>
      ((|ExtendedCatfoodRow(e, c, build, t, shape, elapsedMs).value| == |t.value|) <==>
        (&& ActiveColumns(c.includeLineEndPoints, c.lineEndPointColumns) == []
         && ActiveColumns(c.splitAddressRanges, c.addressRangeColumns) == []
         && ActiveColumns(c.addEvenOddFlag, c.evenOddColumns) == []))
  {
    RowVersusSchema(e, c, build, shape, dbf, s0, elapsedMs);
  }

  /**
   * When row and schema agree in length, the import time sits where the
   * schema declares `importTime`: in the last column.
   */
  lemma ImportTimeMatchesSchema(e: Engine, c: Config, build: GeometryBuild, shape: CatShape, dbf: Dbf, s0: SchemaState, elapsedMs: real)
    requires s0.table.None? && |dbf.columns| == |shape.attributes|
    requires c.abortOnError && c.includeImportTime
    requires ActiveColumns(c.includeLineEndPoints, c.lineEndPointColumns) == []
    requires ActiveColumns(c.splitAddressRanges, c.addressRangeColumns) == []
    requires ActiveColumns(c.addEvenOddFlag, c.evenOddColumns) == []
    ensures var t := GetSchemaTable(ExtendedCatfoodKind, c, Some(dbf), true, s0).value.table;
      ExtendedCatfoodRow(e, c, build, t, shape, elapsedMs).Ok? ==>
      var row := ExtendedCatfoodRow(e, c, build, t, shape, elapsedMs).value;
      |row| == |t.value| && row[|row| - 1] == Real(elapsedMs) && t.value[|t.value| - 1] == ImportTimeColumn
  {
    RowVersusSchema(e, c, build, shape, dbf, s0, elapsedMs);
    SchemaEndsWithImportTime(c, dbf, s0);
  }

  /** With the import time on, the schema's last column is `importTime`. */
  lemma SchemaEndsWithImportTime(c: Config, dbf: Dbf, s0: SchemaState)
    requires s0.table.None? && c.includeImportTime
    ensures var t := GetSchemaTable(ExtendedCatfoodKind, c, Some(dbf), true, s0).value.table.value;
      |t| > 0 && t[|t| - 1] == ImportTimeColumn
  {
    EndsWithImportTime(c, dbf, GetSchemaTable(ExtendedCatfoodKind, c, Some(dbf), true, s0).value.table.value);
  }

  /** Any table that continues the dBASE columns with this reader's columns, the import time on, ends with `importTime`. */
  lemma EndsWithImportTime(c: Config, dbf: Dbf, t: seq<ColumnDesc>)
    requires c.includeImportTime && |dbf.columns| <= |t| && t[|dbf.columns|..] == AddedColumns(ExtendedCatfoodKind, c)
    ensures |t| > 0 && t[|t| - 1] == ImportTimeColumn
  {
    LastOfTail(t, |dbf.columns|, AddedColumns(ExtendedCatfoodKind, c));
  }

  /** The last element of a sequence whose tail is a non-empty `tail` is the last of `tail`. */
  lemma LastOfTail(t: seq<ColumnDesc>, n: nat, tail: seq<ColumnDesc>)
    requires n <= |t| && t[n..] == tail && |tail| > 0
    ensures |t| > 0 && t[|t| - 1] == tail[|tail| - 1]
  {
    assert t[|t| - 1] == t[n..][|tail| - 1];
  }


  /**
   * A polygon with fewer than 25 parts, all of which convert, gets one
   * polygon per part in its list, and its variable is rebuilt as the left
   * fold of the union over the converted parts.
   */
  lemma GeoJsonBuildsEveryPart(convert: (Polygon, int) -> Result<Spatial, Fault>, union: (Spatial, Spatial) -> Result<Spatial, Fault>,
                               total: (Spatial, Spatial) -> Spatial, srid: int, shape: CatShape, t: Track, values: seq<Spatial>)
    requires t.polygons.None? && shape.kind == PolygonShape
    requires 1 <= |shape.parts| < MaxGeoJsonParts && |values| == |shape.parts|
    requires forall k :: 0 <= k < |values| ==> convert(BuildPolygon(shape.parts[k]), srid) == Ok(values[k])
    requires forall a, b :: union(a, b) == Ok(total(a, b))
    ensures GeoJsonStage(convert, union, srid, shape, t)
      == Done(Track(Some(LeftFold(total, values[0], values[1..])), Some(Polygons(shape.parts))))
  {
    var built := ConvertParts(AtSrid(convert, srid), shape.parts);
    assert built.fault.None?;
    assert built.reached == values;
    assert shape.parts[..|built.reached|] == shape.parts;
    UnionFoldIsLeftFold(union, total, values[0], values[1..]);
  }

  /**
   * The geography GeoJSON cell of such a polygon lists one polygon per part,
   * and the projection, area and centroid see the rebuilt geography.
   */
  lemma GeographyGeoJsonBuildsEveryPart(e: Engine, c: Config, shape: CatShape, values: seq<Spatial>, total: (Spatial, Spatial) -> Spatial)
    requires c.includeGeographyGeoJson && shape.kind == PolygonShape
    requires c.includeGeography ==> e.shapeGeography(shape).Ok?
    requires 1 <= |shape.parts| < MaxGeoJsonParts && |values| == |shape.parts|
    requires forall k :: 0 <= k < |values| ==> e.toGeography(BuildPolygon(shape.parts[k]), c.srid) == Ok(values[k])
    requires forall a, b :: e.unionGeography(a, b) == Ok(total(a, b))
    ensures GeographyCells(e, c, shape).Ok?
    ensures GeographyCells(e, c, shape).value.cells[Count(c.includeGeography)] == PolygonList(Polygons(shape.parts))
    ensures GeographyCells(e, c, shape).value.value == Some(LeftFold(total, values[0], values[1..]))
  {
    GeoJsonBuildsEveryPart(e.toGeography, e.unionGeography, total, c.srid, shape, GeographyTrack(e, c, shape), values);
  }

  // ---- the geometry polygon list -----------------------------------------------

  /**
   * As the source has it, the geometry GeoJSON stage never runs while the
   * geometry stage is on: it finds the list already set and leaves it empty.
   */
  lemma GeometryGeoJsonEmptyAsWritten(e: Engine, srid: int, shape: CatShape, part: Part, g: Spatial)
    requires shape.kind == PolygonShape && shape.parts == [part]
    requires e.toGeometry(BuildPolygon(part), srid) == Ok(g)
    ensures GeoJsonStage(e.toGeometry, e.unionGeometry, srid, shape, GeometryStageAsWritten(e, shape).reached).reached.polygons == Some([])
    ensures GeoJsonStage(e.toGeometry, e.unionGeometry, srid, shape, GeometryStage(e, shape).reached).reached.polygons
      == Some([BuildPolygon(part)])
  {
    var built := ConvertParts(AtSrid(e.toGeometry, srid), shape.parts);
    assert shape.parts[1..] == [];
    assert built.reached == [g];
    assert shape.parts[..1] == [part];
    assert Polygons([part]) == [BuildPolygon(part)];
  }

  /**
   * With the geometry stage corrected, the geometry GeoJSON cell of a polygon
   * with fewer than 25 parts, all of which convert, lists one polygon per
   * part, and the centroid sees the rebuilt geometry.
   */
  lemma GeometryGeoJsonBuildsEveryPart(e: Engine, c: Config, shape: CatShape, values: seq<Spatial>, total: (Spatial, Spatial) -> Spatial)
    requires c.includeGeometryGeoJson && shape.kind == PolygonShape
    requires c.includeGeometry ==> e.shapeGeometry(shape).Ok?
    requires 1 <= |shape.parts| < MaxGeoJsonParts && |values| == |shape.parts|
    requires forall k :: 0 <= k < |values| ==> e.toGeometry(BuildPolygon(shape.parts[k]), c.srid) == Ok(values[k])
    requires forall a, b :: e.unionGeometry(a, b) == Ok(total(a, b))
    ensures GeometryCells(e, c, Corrected, shape).Ok?
    ensures GeometryCells(e, c, Corrected, shape).value.cells[Count(c.includeGeometry)] == PolygonList(Polygons(shape.parts))
    ensures GeometryCells(e, c, Corrected, shape).value.value == Some(LeftFold(total, values[0], values[1..]))
  {
    GeoJsonBuildsEveryPart(e.toGeometry, e.unionGeometry, total, c.srid, shape, GeometryTrack(e, c, Corrected, shape), values);
  }

  /** The row as the spatial stages leave it is a prefix of the full row. */
  lemma RowStartsWithSpatialRow(e: Engine, c: Config, build: GeometryBuild, table: Option<seq<ColumnDesc>>, shape: CatShape, elapsedMs: real)
    requires ExtendedCatfoodRow(e, c, build, table, shape, elapsedMs).Ok?
    ensures GeographyCells(e, c, shape).Ok? && GeometryCells(e, c, build, shape).Ok?
    ensures var p := SpatialRow(c, shape.attributes, GeographyCells(e, c, shape).value, GeometryCells(e, c, build, shape).value);
      var row := ExtendedCatfoodRow(e, c, build, table, shape, elapsedMs).value;
      |p| <= |row| && row[..|p|] == p
  {
  }

  // ---- the two geometry builds ---------------------------------------------------

  /** A failing row carries the error of the first stage pair or stage that raised. */
  lemma RowErrorSource(e: Engine, c: Config, build: GeometryBuild, table: Option<seq<ColumnDesc>>, shape: CatShape, elapsedMs: real)
    ensures var r := ExtendedCatfoodRow(e, c, build, table, shape, elapsedMs);
      r.Err? ==>
        || (GeographyCells(e, c, shape).Err? && r.error == GeographyCells(e, c, shape).error)
        || (GeometryCells(e, c, build, shape).Err? && r.error == GeometryCells(e, c, build, shape).error)
        || r.error.stage in {Soundex, SoundexDM, Area, Centroid}
  {
  }

  /** Where a successful row holds the geometry GeoJSON cell, with both geometry stages on. */
  lemma GeometryGeoJsonCellOfRow(e: Engine, c: Config, build: GeometryBuild, table: Option<seq<ColumnDesc>>, shape: CatShape, elapsedMs: real)
    requires c.includeGeometry && c.includeGeometryGeoJson
    requires ExtendedCatfoodRow(e, c, build, table, shape, elapsedMs).Ok?
    ensures ExtendedCatfoodRow(e, c, build, table, shape, elapsedMs).value[|shape.attributes| + 1 + Count(c.includeGeography) + Count(c.includeGeographyGeoJson) + 1]
      == PolygonCell(GeoJsonStage(e.toGeometry, e.unionGeometry, c.srid, shape, GeometryTrack(e, c, build, shape)).reached.polygons)
  {
    var geo := GeographyCells(e, c, shape).value;
    var geom := GeometryCells(e, c, build, shape).value;
    var p := SpatialStages(e, c, build, shape).value;
    assert p.row[|shape.attributes| + 1 + |geo.cells| + 1] == geom.cells[1];
  }

  /** A successful row is the spatial row followed by the tail cells computed from it. */
  lemma RowFromStages(e: Engine, c: Config, build: GeometryBuild, table: Option<seq<ColumnDesc>>, shape: CatShape, elapsedMs: real)
    requires ExtendedCatfoodRow(e, c, build, table, shape, elapsedMs).Ok?
    ensures var p := SpatialStages(e, c, build, shape).value;
      var r := ExtendedCatfoodRow(e, c, build, table, shape, elapsedMs).value;
      TailCells(e, c, table, p.row, p.geography, p.geometry, elapsedMs) == Ok(r[|p.row|..])
  {
  }

  /**
   * The builds differ only in the geometry polygon list, and only the
   * geometry GeoJSON stage reads it: unless both geometry stages are on,
   * the two builds compose the same row.
   */
  lemma BuildsAgreeUnlessBothGeometryStages(e: Engine, c: Config, table: Option<seq<ColumnDesc>>, shape: CatShape, elapsedMs: real)
    requires !(c.includeGeometry && c.includeGeometryGeoJson)
    ensures GeometryCells(e, c, AsWritten, shape) == GeometryCells(e, c, Corrected, shape)
    ensures ExtendedCatfoodRow(e, c, AsWritten, table, shape, elapsedMs) == ExtendedCatfoodRow(e, c, Corrected, table, shape, elapsedMs)
  {
  }

  /** The same, one `NextFeature` call at a time. */
  lemma NextFeatureBuildsAgree(e: Engine, s: CatfoodReader.CatfoodState, elapsedMs: real)
    requires !(s.config.includeGeometry && s.config.includeGeometryGeoJson)
    ensures NextFeature(e, AsWritten, s, elapsedMs) == NextFeature(e, Corrected, s, elapsedMs)
  {
    if CatfoodReader.CanAdvance(s) {
      BuildsAgreeUnlessBothGeometryStages(e, s.config, s.schema.table, s.shapes[s.cursor], elapsedMs);
    }
  }

  /**
   * As the source has it, with both geometry stages on: the geometry GeoJSON
   * cell of every row is an empty list, and the projection, area and
   * centroid see the geometry the shape's own property gave, not a rebuilt
   * one.
   */
  lemma AsWrittenGeometryRow(e: Engine, c: Config, table: Option<seq<ColumnDesc>>, shape: CatShape, elapsedMs: real)
    requires c.includeGeometry && c.includeGeometryGeoJson
    ensures var r := ExtendedCatfoodRow(e, c, AsWritten, table, shape, elapsedMs);
      r.Ok? ==>
        r.value[|shape.attributes| + 1 + Count(c.includeGeography) + Count(c.includeGeographyGeoJson) + 1] == PolygonList([])
    ensures SpatialStages(e, c, AsWritten, shape).Ok? ==>
      SpatialStages(e, c, AsWritten, shape).value.geometry == ShapeProperty(e.shapeGeometry, shape).reached
    ensures var r := ExtendedCatfoodRow(e, c, AsWritten, table, shape, elapsedMs);
      r.Ok? ==>
        var p := SpatialStages(e, c, AsWritten, shape).value;
        TailCells(e, c, table, p.row, p.geography, ShapeProperty(e.shapeGeometry, shape).reached, elapsedMs) == Ok(r.value[|p.row|..])
  {
    var r := ExtendedCatfoodRow(e, c, AsWritten, table, shape, elapsedMs);
    AsWrittenGeometryCells(e, c, shape);
    if r.Ok? {
      GeometryGeoJsonCellOfRow(e, c, AsWritten, table, shape, elapsedMs);
      RowFromStages(e, c, AsWritten, table, shape, elapsedMs);
    }
  }

  /**
   * As the source has it, with the geometry stage on, no row ever raises
   * from the geometry GeoJSON stage: that stage never runs.
   */
  lemma AsWrittenGeometryGeoJsonNeverRaises(e: Engine, c: Config, table: Option<seq<ColumnDesc>>, shape: CatShape, elapsedMs: real)
    requires c.includeGeometry
    ensures var r := ExtendedCatfoodRow(e, c, AsWritten, table, shape, elapsedMs);
      r.Err? ==> r.error.stage != GeometryGeoJson
  {
    AsWrittenGeometryCells(e, c, shape);
    RowErrorSource(e, c, AsWritten, table, shape, elapsedMs);
  }

  /**
   * As the source has it, with the geometry stage on: the geometry GeoJSON
   * stage finds the list set and does nothing, so only the geometry stage
   * can raise, and the list cell is empty.
   */
  lemma AsWrittenGeometryCells(e: Engine, c: Config, shape: CatShape)
    requires c.includeGeometry
    ensures GeometryCells(e, c, AsWritten, shape).Err? ==> GeometryCells(e, c, AsWritten, shape).error.stage == Geometry
    ensures GeometryCells(e, c, AsWritten, shape).Ok? ==>
      GeometryCells(e, c, AsWritten, shape).value.value == ShapeProperty(e.shapeGeometry, shape).reached
    ensures GeometryCells(e, c, AsWritten, shape).Ok? && c.includeGeometryGeoJson ==>
      GeometryCells(e, c, AsWritten, shape).value.cells[1] == PolygonList([])
  {
    var t := GeometryStageOf(e, AsWritten, shape).reached;
    assert GeoJsonStage(e.toGeometry, e.unionGeometry, c.srid, shape, t) == Done(t);
  }

  /**
   * Corrected, under the abort policy, a polygon with fewer than 25 parts
   * whose first part does not convert raises from the geometry GeoJSON stage
   * once the geography stages and the geometry property have passed; as
   * written, the same record never does while the geometry stage is on.
   */
  lemma CorrectedGeometryGeoJsonRaises(e: Engine, c: Config, table: Option<seq<ColumnDesc>>, shape: CatShape, elapsedMs: real, f: Fault)
    requires c.abortOnError && c.includeGeometryGeoJson && shape.kind == PolygonShape
    requires 1 <= |shape.parts| < MaxGeoJsonParts
    requires GeographyCells(e, c, shape).Ok?
    requires c.includeGeometry ==> e.shapeGeometry(shape).Ok?
    requires e.toGeometry(BuildPolygon(shape.parts[0]), c.srid) == Err(f)
    ensures ExtendedCatfoodRow(e, c, Corrected, table, shape, elapsedMs) == Err(StageError(GeometryGeoJson, f))
  {
    var built := ConvertParts(AtSrid(e.toGeometry, c.srid), shape.parts);
    assert built.reached == [] && built.fault == Some(f);
  }

  /**
   * A one-part polygon under the tolerant policy with both geometry stages
   * on, whose part converts: as written, its geometry GeoJSON cell is an empty list; corrected,
   * it lists the part's polygon.
   */
  lemma OnePartPolygonGeometryGeoJson(e: Engine, c: Config, table: Option<seq<ColumnDesc>>, shape: CatShape, part: Part, g: Spatial, elapsedMs: real)
    requires !c.abortOnError && c.includeGeometry && c.includeGeometryGeoJson
    requires shape.kind == PolygonShape && shape.parts == [part]
    requires e.toGeometry(BuildPolygon(part), c.srid) == Ok(g)
    ensures var k := |shape.attributes| + 1 + Count(c.includeGeography) + Count(c.includeGeographyGeoJson) + 1;
      && ExtendedCatfoodRow(e, c, AsWritten, table, shape, elapsedMs).Ok?
      && ExtendedCatfoodRow(e, c, AsWritten, table, shape, elapsedMs).value[k] == PolygonList([])
      && ExtendedCatfoodRow(e, c, Corrected, table, shape, elapsedMs).Ok?
      && ExtendedCatfoodRow(e, c, Corrected, table, shape, elapsedMs).value[k] == PolygonList([BuildPolygon(part)])
  {
    AsWrittenGeometryRow(e, c, table, shape, elapsedMs);
    GeometryGeoJsonEmptyAsWritten(e, c.srid, shape, part, g);
    assert GeometryTrack(e, c, Corrected, shape) == GeometryStage(e, shape).reached;
    GeometryGeoJsonCellOfRow(e, c, Corrected, table, shape, elapsedMs);
  }

  // ---- cells against columns -------------------------------------------------

  /** The cells a prefix of a row holds where the spatial row put them. */
  lemma SpatialRowCells(c: Config, attrs: seq<Cell>, geo: SpatialOutput, geom: SpatialOutput, row: seq<Cell>)
    requires |geo.cells| == Count(c.includeGeography) + Count(c.includeGeographyGeoJson)
    requires |geom.cells| == Count(c.includeGeometry) + Count(c.includeGeometryGeoJson)
    requires |SpatialRow(c, attrs, geo, geom)| <= |row| && row[..|SpatialRow(c, attrs, geo, geom)|] == SpatialRow(c, attrs, geo, geom)
    ensures SpatialCellsAt(c, attrs, geo, geom, row)
  {
    assert row[..|attrs|] == SpatialRow(c, attrs, geo, geom)[..|attrs|];
    assert row[|attrs|] == SpatialRow(c, attrs, geo, geom)[|attrs|];
    if c.includeGeography {
      assert row[|attrs| + 1] == SpatialRow(c, attrs, geo, geom)[|attrs| + 1 + 0];
    }
    if c.includeGeographyGeoJson {
      assert row[|attrs| + 1 + Count(c.includeGeography)] == SpatialRow(c, attrs, geo, geom)[|attrs| + 1 + Count(c.includeGeography)];
    }
    if c.includeGeometry {
      assert row[GeometryStart(c, |attrs|)] == SpatialRow(c, attrs, geo, geom)[|attrs| + 1 + |geo.cells| + 0];
    }
    if c.includeGeometryGeoJson {
      assert row[GeometryStart(c, |attrs|) + Count(c.includeGeometry)]
        == SpatialRow(c, attrs, geo, geom)[|attrs| + 1 + |geo.cells| + Count(c.includeGeometry)];
    }
  }

  /**
   * `row` holds, from the attributes on, the trimmed attributes, the Polygon
   * tag, then the geography, its GeoJSON list, the geometry and its GeoJSON
   * list, each where the stages that are on put it.
   */
  predicate SpatialValuesHeld(e: Engine, c: Config, build: GeometryBuild, shape: CatShape, row: seq<Cell>) {
    var n := |shape.attributes|;
    && GeoJsonSpatialEnd(c, n) <= |row|
    && row[..n] == TrimmedIf(c.trimStringData, shape.attributes) && row[n] == TypeName(KmlPolygon)
    && (c.includeGeography ==> row[n + 1] == SpatialOrNull(ShapeProperty(e.shapeGeography, shape).reached))
    && (c.includeGeographyGeoJson ==>
          row[n + 1 + Count(c.includeGeography)]
            == PolygonCell(GeoJsonStage(e.toGeography, e.unionGeography, c.srid, shape, GeographyTrack(e, c, shape)).reached.polygons))
    && (c.includeGeometry ==> row[GeometryStart(c, n)] == SpatialOrNull(ShapeProperty(e.shapeGeometry, shape).reached))
    && (c.includeGeometryGeoJson ==>
          row[GeometryStart(c, n) + Count(c.includeGeometry)]
            == PolygonCell(GeoJsonStage(e.toGeometry, e.unionGeometry, c.srid, shape, GeometryTrack(e, c, build, shape)).reached.polygons))
  }

  /** `t` holds from `n` on the type column, then each enabled spatial column followed by its GeoJSON column. */
  predicate SpatialColumnsHeld(c: Config, n: nat, t: seq<ColumnDesc>) {
    && GeoJsonSpatialEnd(c, n) <= |t| && t[n] == ShapeTypeColumn
    && (c.includeGeography ==> t[n + 1] == GeographyColumn)
    && (c.includeGeographyGeoJson ==> t[n + 1 + Count(c.includeGeography)] == GeographyGeoJsonColumn)
    && (c.includeGeometry ==> t[GeometryStart(c, n)] == GeometryColumn)
    && (c.includeGeometryGeoJson ==> t[GeometryStart(c, n) + Count(c.includeGeometry)] == GeometryGeoJsonColumn)
  }

  /** The leading cells of a composed row, by what each spatial stage computes. */
  lemma SpatialCellsOfRow(e: Engine, c: Config, build: GeometryBuild, table: Option<seq<ColumnDesc>>, shape: CatShape, elapsedMs: real, row: seq<Cell>)
    requires ExtendedCatfoodRow(e, c, build, table, shape, elapsedMs) == Ok(row)
    ensures SpatialValuesHeld(e, c, build, shape, row)
  {
    RowStartsWithSpatialRow(e, c, build, table, shape, elapsedMs);
    SpatialCellsOfPrefix(e, c, build, shape, row);
  }

  /** A row that starts with the spatial row holds the cells of each spatial stage. */
  lemma SpatialCellsOfPrefix(e: Engine, c: Config, build: GeometryBuild, shape: CatShape, row: seq<Cell>)
    requires GeographyCells(e, c, shape).Ok? && GeometryCells(e, c, build, shape).Ok?
    requires var p := SpatialRow(c, shape.attributes, GeographyCells(e, c, shape).value, GeometryCells(e, c, build, shape).value);
      |p| <= |row| && row[..|p|] == p
    ensures SpatialValuesHeld(e, c, build, shape, row)
  {
    SpatialRowCells(c, shape.attributes, GeographyCells(e, c, shape).value, GeometryCells(e, c, build, shape).value, row);
    SpatialCellValues(e, c, build, shape, row);
  }

  /** The cells the spatial stage pairs leave in a row, by what each stage computes. */
  lemma SpatialCellValues(e: Engine, c: Config, build: GeometryBuild, shape: CatShape, row: seq<Cell>)
    requires GeographyCells(e, c, shape).Ok? && GeometryCells(e, c, build, shape).Ok?
    requires SpatialCellsAt(c, shape.attributes, GeographyCells(e, c, shape).value, GeometryCells(e, c, build, shape).value, row)
    ensures SpatialValuesHeld(e, c, build, shape, row)
  {
  }

  /** `row` holds the attributes, the tag and the cells of both spatial stage pairs where the spatial row puts them. */
  predicate SpatialCellsAt(c: Config, attrs: seq<Cell>, geo: SpatialOutput, geom: SpatialOutput, row: seq<Cell>)
    requires |geo.cells| == Count(c.includeGeography) + Count(c.includeGeographyGeoJson)
    requires |geom.cells| == Count(c.includeGeometry) + Count(c.includeGeometryGeoJson)
  {
    && GeoJsonSpatialEnd(c, |attrs|) <= |row|
    && row[..|attrs|] == TrimmedIf(c.trimStringData, attrs) && row[|attrs|] == TypeName(KmlPolygon)
    && (c.includeGeography ==> row[|attrs| + 1] == geo.cells[0])
    && (c.includeGeographyGeoJson ==> row[|attrs| + 1 + Count(c.includeGeography)] == geo.cells[Count(c.includeGeography)])
    && (c.includeGeometry ==> row[GeometryStart(c, |attrs|)] == geom.cells[0])
    && (c.includeGeometryGeoJson ==> row[GeometryStart(c, |attrs|) + Count(c.includeGeometry)] == geom.cells[Count(c.includeGeometry)])
  }

  /**
   * Columns and cells of the spatial part side by side: the dBASE columns
   * over the (trimmed) attributes, `shapeType` over the Polygon tag, and
   * `shapeGeog`, `shapeGeogAsGeoJSON`, `shapeGeom` and `shapeGeomAsGeoJSON`
   * each over what its stage computed, at the same position in both.
   */
  predicate SpatialAligned(e: Engine, c: Config, build: GeometryBuild, shape: CatShape, dbf: Dbf, t: seq<ColumnDesc>, row: seq<Cell>) {
    var n := |shape.attributes|;
    var k := GeometryStart(c, n);
    && n == |dbf.columns| && GeoJsonSpatialEnd(c, n) <= |t| && GeoJsonSpatialEnd(c, n) <= |row|
    && t[..n] == dbf.columns && row[..n] == TrimmedIf(c.trimStringData, shape.attributes)
    && t[n] == ShapeTypeColumn && row[n] == TypeName(KmlPolygon)
    && (c.includeGeography ==>
          t[n + 1] == GeographyColumn && row[n + 1] == SpatialOrNull(ShapeProperty(e.shapeGeography, shape).reached))
    && (c.includeGeographyGeoJson ==>
          && t[n + 1 + Count(c.includeGeography)] == GeographyGeoJsonColumn
          && row[n + 1 + Count(c.includeGeography)]
               == PolygonCell(GeoJsonStage(e.toGeography, e.unionGeography, c.srid, shape, GeographyTrack(e, c, shape)).reached.polygons))
    && (c.includeGeometry ==> t[k] == GeometryColumn && row[k] == SpatialOrNull(ShapeProperty(e.shapeGeometry, shape).reached))
    && (c.includeGeometryGeoJson ==>
          && t[k + Count(c.includeGeometry)] == GeometryGeoJsonColumn
          && row[k + Count(c.includeGeometry)]
               == PolygonCell(GeoJsonStage(e.toGeometry, e.unionGeometry, c.srid, shape, GeometryTrack(e, c, build, shape)).reached.polygons))
  }

  /** Against the schema, the spatial part of a composed row lines up with the table's leading columns. */
  lemma SpatialCellsUnderColumns(e: Engine, c: Config, build: GeometryBuild, shape: CatShape, dbf: Dbf, s0: SchemaState, elapsedMs: real, row: seq<Cell>)
    requires s0.table.None? && |dbf.columns| == |shape.attributes|
    requires GetSchemaTable(ExtendedCatfoodKind, c, Some(dbf), true, s0).Ok?
    requires ExtendedCatfoodRow(e, c, build, GetSchemaTable(ExtendedCatfoodKind, c, Some(dbf), true, s0).value.table, shape, elapsedMs) == Ok(row)
    ensures GetSchemaTable(ExtendedCatfoodKind, c, Some(dbf), true, s0).value.table.Some? && SpatialAligned(e, c, build, shape, dbf, GetSchemaTable(ExtendedCatfoodKind, c, Some(dbf), true, s0).value.table.value, row)
  {
    SpatialColumnsOfTable(c, dbf, s0);
    SpatialCellsOfRow(e, c, build, GetSchemaTable(ExtendedCatfoodKind, c, Some(dbf), true, s0).value.table, shape, elapsedMs, row);
    SpatialPairsMatch(e, c, build, shape, dbf, GetSchemaTable(ExtendedCatfoodKind, c, Some(dbf), true, s0).value.table.value, row);
  }

  /** The columns a table holds and the cells a row holds at the same positions line them up. */
  lemma SpatialPairsMatch(e: Engine, c: Config, build: GeometryBuild, shape: CatShape, dbf: Dbf, t: seq<ColumnDesc>, row: seq<Cell>)
    requires |dbf.columns| == |shape.attributes|
    requires SpatialColumnsHeld(c, |dbf.columns|, t) && t[..|dbf.columns|] == dbf.columns && SpatialValuesHeld(e, c, build, shape, row)
    ensures SpatialAligned(e, c, build, shape, dbf, t, row)
  {
  }

  /** The leading columns of a fresh table of this reader. */
  lemma SpatialColumnsOfTable(c: Config, dbf: Dbf, s0: SchemaState)
    requires s0.table.None?
    ensures GetSchemaTable(ExtendedCatfoodKind, c, Some(dbf), true, s0).Ok? && GetSchemaTable(ExtendedCatfoodKind, c, Some(dbf), true, s0).value.table.Some?
    ensures GetSchemaTable(ExtendedCatfoodKind, c, Some(dbf), true, s0).value.table.value[..|dbf.columns|] == dbf.columns && SpatialColumnsHeld(c, |dbf.columns|, GetSchemaTable(ExtendedCatfoodKind, c, Some(dbf), true, s0).value.table.value)
  {
    ExtendedCatfoodTableLayout(c, dbf, s0);
    SpatialColumnsOf(c, dbf, GetSchemaTable(ExtendedCatfoodKind, c, Some(dbf), true, s0).value.table.value);
  }

  /** The leading columns of any table laid out as this reader's. */
  lemma SpatialColumnsOf(c: Config, dbf: Dbf, t: seq<ColumnDesc>)
    requires SliceAt(t, |dbf.columns|, SpatialColumns(c)) && t[..|dbf.columns|] == dbf.columns
    ensures t[..|dbf.columns|] == dbf.columns && SpatialColumnsHeld(c, |dbf.columns|, t)
  {
    SpatialColumnsAt(c, t, |dbf.columns|);
  }

  /** The parts of a composed row: the spatial row, then the phonetic cells, the measures and the import time. */
  lemma RowSlices(e: Engine, c: Config, build: GeometryBuild, table: Option<seq<ColumnDesc>>, shape: CatShape, elapsedMs: real, row: seq<Cell>)
    requires ExtendedCatfoodRow(e, c, build, table, shape, elapsedMs) == Ok(row)
    ensures SpatialStages(e, c, build, shape).Ok?
    ensures var p := SpatialStages(e, c, build, shape).value;
      && |p.row| == GeoJsonSpatialEnd(c, |shape.attributes|)
      && PhoneticCells(e, c, table, p.row).Ok? && MeasureCells(e, c, p.geography, p.geometry).Ok?
      && row == p.row + (PhoneticCells(e, c, table, p.row).value + MeasureCells(e, c, p.geography, p.geometry).value
                         + Optional(c.includeImportTime, [Real(elapsedMs)]))
  {
  }

  /** The phonetic cells of a composed row sit right after its GeoJSON cells and are computed on them. */
  lemma PhoneticSliceOfRow(e: Engine, c: Config, build: GeometryBuild, table: Option<seq<ColumnDesc>>, shape: CatShape, elapsedMs: real, row: seq<Cell>)
    requires ExtendedCatfoodRow(e, c, build, table, shape, elapsedMs) == Ok(row)
    ensures PhoneticPlacedAt(e, c, table, row, GeoJsonSpatialEnd(c, |shape.attributes|))
  {
    RowSlices(e, c, build, table, shape, elapsedMs, row);
    PhoneticPlacedOf(e, c, table, row, SpatialStages(e, c, build, shape).value.row,
      PhoneticCells(e, c, table, SpatialStages(e, c, build, shape).value.row).value,
      MeasureCells(e, c, SpatialStages(e, c, build, shape).value.geography, SpatialStages(e, c, build, shape).value.geometry).value,
      Optional(c.includeImportTime, [Real(elapsedMs)]));
  }

  /** A row that continues its prefix with the phonetic cells of that prefix holds them there. */
  lemma PhoneticPlacedOf(e: Engine, c: Config, table: Option<seq<ColumnDesc>>, row: seq<Cell>, pre: seq<Cell>, ph: seq<Cell>, ms: seq<Cell>, imp: seq<Cell>)
    requires row == pre + (ph + ms + imp) && PhoneticCells(e, c, table, pre) == Ok(ph)
    ensures PhoneticPlacedAt(e, c, table, row, |pre|)
  {
    SlicesOfThree(row, pre, ph, ms, imp, |pre|, |pre| + |ph|, |pre| + |ph| + |ms|);
  }

  /** Under abort, the measure cells of a composed row follow the phonetic ones. */
  lemma MeasureSliceOfRow(e: Engine, c: Config, build: GeometryBuild, table: Option<seq<ColumnDesc>>, shape: CatShape, elapsedMs: real, row: seq<Cell>)
    requires c.abortOnError && ExtendedCatfoodRow(e, c, build, table, shape, elapsedMs) == Ok(row)
    ensures SpatialStages(e, c, build, shape).Ok?
    ensures var p := SpatialStages(e, c, build, shape).value;
      && MeasureCells(e, c, p.geography, p.geometry).Ok?
      && SliceAt(row, PhoneticEnd(c, GeoJsonSpatialEnd(c, |shape.attributes|)), MeasureCells(e, c, p.geography, p.geometry).value)
  {
    RowSlices(e, c, build, table, shape, elapsedMs, row);
    MeasuresPlacedOf(row, SpatialStages(e, c, build, shape).value.row,
      PhoneticCells(e, c, table, SpatialStages(e, c, build, shape).value.row).value,
      MeasureCells(e, c, SpatialStages(e, c, build, shape).value.geography, SpatialStages(e, c, build, shape).value.geometry).value,
      Optional(c.includeImportTime, [Real(elapsedMs)]), PhoneticEnd(c, GeoJsonSpatialEnd(c, |shape.attributes|)));
  }

  /** In a row built as `pre + (ph + ms + imp)`, `ms` sits past `pre` and `ph`. */
  lemma MeasuresPlacedOf(row: seq<Cell>, pre: seq<Cell>, ph: seq<Cell>, ms: seq<Cell>, imp: seq<Cell>, o: nat)
    requires row == pre + (ph + ms + imp) && o == |pre| + |ph|
    ensures SliceAt(row, o, ms)
  {
    SlicesOfThree(row, pre, ph, ms, imp, |pre|, o, o + |ms|);
  }

  /** Under abort, the phonetic cells of a row hold the codes of their columns, read from the cells before them. */
  lemma PhoneticCodesOfRow(e: Engine, c: Config, build: GeometryBuild, table: Option<seq<ColumnDesc>>, shape: CatShape, elapsedMs: real, row: seq<Cell>)
    requires c.abortOnError && ExtendedCatfoodRow(e, c, build, table, shape, elapsedMs) == Ok(row)
    ensures SoundexCodesAt(e, table, row, GeoJsonSpatialEnd(c, |shape.attributes|), ActiveColumns(c.includeSoundex, c.soundexColumns))
    ensures DMCodesAt(e, table, row, DMStart(c, GeoJsonSpatialEnd(c, |shape.attributes|)), ActiveColumns(c.includeSoundexDM, c.soundexDMColumns))
  {
    PhoneticSliceOfRow(e, c, build, table, shape, elapsedMs, row);
    PhoneticCodesPlaced(e, c, table, row, GeoJsonSpatialEnd(c, |shape.attributes|));
  }

  /**
   * Against the schema, the phonetic cells (abort policy): past the GeoJSON
   * columns the table holds a `<col>_Soundex` column per Soundex column and
   * the row the Soundex code of that column read from the cells before it;
   * then likewise a `<col>_SoundexDM` column and the DM code.
   */
  lemma PhoneticCellsUnderColumns(e: Engine, c: Config, build: GeometryBuild, shape: CatShape, dbf: Dbf, s0: SchemaState, elapsedMs: real, row: seq<Cell>)
    requires s0.table.None? && |dbf.columns| == |shape.attributes| && c.abortOnError
    requires GetSchemaTable(ExtendedCatfoodKind, c, Some(dbf), true, s0).Ok?
    requires ExtendedCatfoodRow(e, c, build, GetSchemaTable(ExtendedCatfoodKind, c, Some(dbf), true, s0).value.table, shape, elapsedMs) == Ok(row)
    ensures GetSchemaTable(ExtendedCatfoodKind, c, Some(dbf), true, s0).value.table.Some?
    ensures var t := GetSchemaTable(ExtendedCatfoodKind, c, Some(dbf), true, s0).value.table.value;
      var m := GeoJsonSpatialEnd(c, |shape.attributes|);
      var sx := ActiveColumns(c.includeSoundex, c.soundexColumns);
      var dm := ActiveColumns(c.includeSoundexDM, c.soundexDMColumns);
      && SliceAt(t, m, Suffixed(sx, "_Soundex", StringType)) && SoundexCodesAt(e, Some(t), row, m, sx)
      && SliceAt(t, DMStart(c, m), Suffixed(dm, "_SoundexDM", StringType)) && DMCodesAt(e, Some(t), row, DMStart(c, m), dm)
  {
    ExtendedCatfoodTableBlocks(c, dbf, s0);
    PhoneticCodesOfRow(e, c, build, GetSchemaTable(ExtendedCatfoodKind, c, Some(dbf), true, s0).value.table, shape, elapsedMs, row);
  }

  /**
   * Against the schema, the measures of a row as long as the table (abort
   * policy): the row holds the projection, area and centroid cells where the
   * table declares the measure columns.
   */
  lemma MeasureCellsUnderColumns(e: Engine, c: Config, build: GeometryBuild, shape: CatShape, dbf: Dbf, s0: SchemaState, elapsedMs: real, row: seq<Cell>)
    requires s0.table.None? && |dbf.columns| == |shape.attributes| && c.abortOnError
    requires GetSchemaTable(ExtendedCatfoodKind, c, Some(dbf), true, s0).Ok? && GetSchemaTable(ExtendedCatfoodKind, c, Some(dbf), true, s0).value.table.Some?
    requires ExtendedCatfoodRow(e, c, build, GetSchemaTable(ExtendedCatfoodKind, c, Some(dbf), true, s0).value.table, shape, elapsedMs) == Ok(row) && |row| == |GetSchemaTable(ExtendedCatfoodKind, c, Some(dbf), true, s0).value.table.value|
    ensures SpatialStages(e, c, build, shape).Ok?
    ensures var t := GetSchemaTable(ExtendedCatfoodKind, c, Some(dbf), true, s0).value.table.value;
      var p := SpatialStages(e, c, build, shape).value;
      var o := ParityEnd(c, GeoJsonSpatialEnd(c, |shape.attributes|));
      && SliceAt(t, o, MeasureColumns(c))
      && MeasureCells(e, c, p.geography, p.geometry).Ok?
      && SliceAt(row, o, MeasureCells(e, c, p.geography, p.geometry).value)
  {
    ExtendedCatfoodTableBlocks(c, dbf, s0);
    RowMatchesSchemaIffNoUnrunColumns(e, c, build, shape, dbf, s0, elapsedMs);
    NoUnrunBlocks(c, GeoJsonSpatialEnd(c, |shape.attributes|));
    MeasureSliceOfRow(e, c, build, GetSchemaTable(ExtendedCatfoodKind, c, Some(dbf), true, s0).value.table, shape, elapsedMs, row);
  }
}
