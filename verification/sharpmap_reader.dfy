/**
 * `ExtendedSharpMapShapefileDataReader`: shapes come from the Catfood shape
 * enumerator, as in the basic reader, but the attribute values come from the
 * dBASE cursor. After the tag, geography and geometry, a row carries the
 * Soundex, Daitch-Mokotoff Soundex, projection, area and centroid cells. The
 * line-end-point, address-range and even/odd stages are declared in the
 * schema but never run.
 */
module SharpMapReader {
  import opened Common
  import opened Data
  import opened Geo
  import opened Progress
  import opened Schema
  import opened Stages
  import opened Pipeline
  import CatfoodReader

  /** The reader between calls: the shape enumerator at `cursor`, the dBASE cursor at `rowCursor`. */
  datatype SharpMapState = SharpMapState(
    config: Config,
    index: int,
    totalShapes: int,
    shapes: seq<CatShape>,
    cursor: nat,
    stream: Option<StreamPos>,
    table: DbTable,
    rowCursor: nat,
    layerClosed: bool,
    schema: SchemaState)

  /** The geography and geometry stages on a Catfood shape, each inside its catch block. */
  function ShapeSpatials(e: Engine, c: Config, shape: CatShape): (r: Result<Spatials, StageError>)
    ensures r.Err? <==>
      (c.abortOnError &&
       ((c.includeGeography && CatfoodReader.PolygonUnion(e.toGeography, e.unionGeography, c.srid, shape).fault.Some?)
        || (c.includeGeometry && CatfoodReader.PolygonUnion(e.toGeometry, e.unionGeometry, c.srid, shape).fault.Some?)))
    ensures r.Err? ==> r.error.stage == Geography || r.error.stage == Geometry
    ensures r.Ok? ==>
      (r.value.geography ==
       if c.includeGeography then CatfoodReader.PolygonUnion(e.toGeography, e.unionGeography, c.srid, shape).reached else None)
    ensures r.Ok? ==>
      (r.value.geometry ==
       if c.includeGeometry then CatfoodReader.PolygonUnion(e.toGeometry, e.unionGeometry, c.srid, shape).reached else None)
  {
    var geography :- if c.includeGeography
      then Settle(c.abortOnError, Geography, CatfoodReader.PolygonUnion(e.toGeography, e.unionGeography, c.srid, shape)) else Ok(None);
    var geometry :- if c.includeGeometry
      then Settle(c.abortOnError, Geometry, CatfoodReader.PolygonUnion(e.toGeometry, e.unionGeometry, c.srid, shape)) else Ok(None);
    Ok(Spatials(geography, geometry))
  }

  /** The attributes (trimmed when asked), the Polygon tag, and a cell per enabled spatial stage. */
  function SpatialRow(c: Config, attrs: seq<Cell>, sp: Spatials): (row: seq<Cell>)
    ensures |row| == |attrs| + 1 + Count(c.includeGeography) + Count(c.includeGeometry)
    ensures row[..|attrs|] == TrimmedIf(c.trimStringData, attrs) && row[|attrs|] == TypeName(KmlPolygon)
    ensures c.includeGeography ==> row[|attrs| + 1] == SpatialOrNull(sp.geography)
    ensures c.includeGeometry ==> row[|attrs| + 1 + Count(c.includeGeography)] == SpatialOrNull(sp.geometry)
  {
    TrimmedIf(c.trimStringData, attrs) + [TypeName(KmlPolygon)]
      + Optional(c.includeGeography, [SpatialOrNull(sp.geography)]) + Optional(c.includeGeometry, [SpatialOrNull(sp.geometry)])
  }

  /** The width of the enrichment cells of a row built without any fault. */
  function EnrichmentWidth(c: Config): nat {
    |ActiveColumns(c.includeSoundex, c.soundexColumns)| + |ActiveColumns(c.includeSoundexDM, c.soundexDMColumns)|
      + Count(c.includeGeometryProjected) + Count(c.includeArea) + 2 * Count(c.includeCentroid)
  }

  /** The enrichment stages this reader runs: the phonetic codes, then the measures. */
  function EnrichmentCells(e: Engine, c: Config, table: Option<seq<ColumnDesc>>, row: seq<Cell>, sp: Spatials): (r: Result<seq<Cell>, StageError>)
    ensures !c.abortOnError ==> r.Ok?
    ensures r.Err? ==> r.error.stage in {Soundex, SoundexDM, Area, Centroid}
    ensures r.Ok? ==> |r.value| <= EnrichmentWidth(c)
    ensures r.Ok? && c.abortOnError ==> |r.value| == EnrichmentWidth(c)
  {
    var phonetic :- PhoneticCells(e, c, table, row);
    var measures :- MeasureCells(e, c, sp.geography, sp.geometry);
    Ok(phonetic + measures)
  }

  /** The length of a row built without any fault, for `n` attribute values. */
  function FullWidth(c: Config, n: nat): nat {
    n + 1 + Count(c.includeGeography) + Count(c.includeGeometry) + EnrichmentWidth(c)
  }

  /** The row of one record: attributes, tag, geography, geometry, phonetic cells, measures. */
  function SharpMapRow(e: Engine, c: Config, table: Option<seq<ColumnDesc>>, attrs: seq<Cell>, shape: CatShape): (r: Result<seq<Cell>, StageError>)
    ensures !c.abortOnError ==> r.Ok?
    ensures r.Err? ==> r.error.stage != Bookkeeping
    ensures r.Ok? ==> |attrs| + 1 + Count(c.includeGeography) + Count(c.includeGeometry) <= |r.value| <= FullWidth(c, |attrs|)
    ensures r.Ok? && c.abortOnError ==> |r.value| == FullWidth(c, |attrs|)
    ensures r.Ok? ==> r.value[..|attrs|] == TrimmedIf(c.trimStringData, attrs) && r.value[|attrs|] == TypeName(KmlPolygon)
    ensures r.Ok? && c.includeGeography ==>
      r.value[|attrs| + 1] == SpatialOrNull(CatfoodReader.PolygonUnion(e.toGeography, e.unionGeography, c.srid, shape).reached)
    ensures r.Ok? && c.includeGeometry ==>
      r.value[|attrs| + 1 + Count(c.includeGeography)] == SpatialOrNull(CatfoodReader.PolygonUnion(e.toGeometry, e.unionGeometry, c.srid, shape).reached)
  {
    match ShapeSpatials(e, c, shape)
    case Err(err) => Err(err)
    case Ok(sp) =>
      var row := SpatialRow(c, attrs, sp);
      match EnrichmentCells(e, c, table, row, sp)
      case Err(err) => Err(err)
      case Ok(tail) =>
        PrefixKept(row, tail, |row|);
        Ok(row + tail)
  }

  // ---- NextFeature -----------------------------------------------------------

  /** The guard: below the shape count, the dBASE result has rows, and the enumerator yields. */
  predicate CanAdvance(s: SharpMapState) {
    s.index < s.totalShapes && |s.table.rows| > 0 && s.cursor < |s.shapes|
  }

  /**
   * After the bookkeeping: the next dBASE row is read and the record's row
   * composed. `s` is the state with the index and the enumerator already
   * moved on.
   */
  function ComposeRecord(e: Engine, s: SharpMapState, shape: CatShape, events: seq<Event>): (r: Step<SharpMapState>)
    ensures !r.Exhausted? && r.events == events
    ensures r.Advanced? ==> r.next == s.(rowCursor := if s.rowCursor < |s.table.rows| then s.rowCursor + 1 else s.rowCursor)
    ensures r.Raised? ==> r.next == s.(rowCursor := if s.rowCursor < |s.table.rows| then s.rowCursor + 1 else s.rowCursor, layerClosed := true)
    ensures r.Raised? ==> s.config.abortOnError && r.error.recordIndex == s.index && r.error.cause.stage != Bookkeeping
    ensures r.Advanced? ==> SharpMapRow(e, s.config, s.schema.table, Attributes(s.table, s.rowCursor), shape) == Ok(r.row)
  {
    var next := s.(rowCursor := if s.rowCursor < |s.table.rows| then s.rowCursor + 1 else s.rowCursor);
    match SharpMapRow(e, s.config, s.schema.table, Attributes(s.table, s.rowCursor), shape)
    case Err(err) => Raised(next.(layerClosed := true), events, ReaderError(s.index, err))
    case Ok(row) => Advanced(next, row, events)
  }

  /**
   * `NextFeature`. When the guard fails the layer is closed and the reader
   * reports exhaustion. Otherwise the index and the enumerator move on, the
   * counts are checked and the notifications fire, the next dBASE row is
   * read and the row is composed; an escaping error closes the layer.
   */
  function NextFeature(e: Engine, s: SharpMapState): (r: Step<SharpMapState>)
    ensures r.Exhausted? <==> !CanAdvance(s)
    ensures r.Exhausted? ==> r.next == s.(layerClosed := true)
    ensures !r.Exhausted? ==> r.next.index == s.index + 1 && r.next.cursor == s.cursor + 1
    ensures r.Raised? ==> r.next.layerClosed && r.error.recordIndex == s.index + 1 && s.config.abortOnError
    ensures r.Raised? && r.error.cause.stage == Bookkeeping ==>
      && r.events == [] && r.next.rowCursor == s.rowCursor
      && r.error.cause.fault == CountMismatch(s.totalShapes, s.schema.totalRecords)
    ensures r.Advanced? ==> r.next.layerClosed == s.layerClosed
    ensures r.Advanced? ==>
      SharpMapRow(e, s.config, s.schema.table, Attributes(s.table, s.rowCursor), s.shapes[s.cursor]) == Ok(r.row)
  {
    if CanAdvance(s) then
      var index := s.index + 1;
      var shape := s.shapes[s.cursor];
      var moved := s.(index := index, cursor := s.cursor + 1);
      match CatfoodReader.Bookkeep(s.config, index, s.totalShapes, s.schema.totalRecords, s.stream)
      case Err(err) => Raised(moved.(layerClosed := true), [], ReaderError(index, err))
      case Ok(events) => ComposeRecord(e, moved, shape, events)
    else Exhausted(s.(layerClosed := true))
  }

  /**
   * Against the schema: an abort-policy row is as long as the schema minus
   * every declared end-point, address-range and even/odd column, since those
   * stages never run here.
   */
  lemma RowVersusSchema(e: Engine, c: Config, attrs: seq<Cell>, shape: CatShape, dbf: Dbf, s0: SchemaState)
    requires s0.table.None? && |dbf.columns| == |attrs|
    requires c.abortOnError
    requires var t := GetSchemaTable(SharpMapKind, c, Some(dbf), true, s0).value.table;
      SharpMapRow(e, c, t, attrs, shape).Ok?
    ensures var t := GetSchemaTable(SharpMapKind, c, Some(dbf), true, s0).value.table;
      |SharpMapRow(e, c, t, attrs, shape).value|
        + |ActiveColumns(c.includeLineEndPoints, c.lineEndPointColumns)|
        + 2 * |ActiveColumns(c.splitAddressRanges, c.addressRangeColumns)|
        + |ActiveColumns(c.addEvenOddFlag, c.evenOddColumns)|
        == |t.value|
  {
  }

  /** Row and schema agree exactly when no end-point, address-range or even/odd column is configured. */
  lemma RowMatchesSchemaIffNoUnrunColumns(e: Engine, c: Config, attrs: seq<Cell>, shape: CatShape, dbf: Dbf, s0: SchemaState)
    requires s0.table.None? && |dbf.columns| == |attrs|
    requires c.abortOnError
    requires var t := GetSchemaTable(SharpMapKind, c, Some(dbf), true, s0).value.table;
      SharpMapRow(e, c, t, attrs, shape).Ok?
    ensures var t := GetSchemaTable(SharpMapKind, c, Some(dbf), true, s0).value.table;
      (|SharpMapRow(e, c, t, attrs, shape).value| == |t.value|) <==>
        (&& ActiveColumns(c.includeLineEndPoints, c.lineEndPointColumns) == []
         && ActiveColumns(c.splitAddressRanges, c.addressRangeColumns) == []
         && ActiveColumns(c.addEvenOddFlag, c.evenOddColumns) == [])
  {
    RowVersusSchema(e, c, attrs, shape, dbf, s0);
  }

  /** The phonetic cells of a composed row sit right after its spatial cells and are computed on them. */
  lemma PhoneticSliceOfRow(e: Engine, c: Config, table: Option<seq<ColumnDesc>>, attrs: seq<Cell>, shape: CatShape, row: seq<Cell>)
    requires SharpMapRow(e, c, table, attrs, shape) == Ok(row)
    ensures PhoneticPlacedAt(e, c, table, row, SpatialEnd(c, |attrs|))
  {
    var sp := ShapeSpatials(e, c, shape).value;
    var row0 := SpatialRow(c, attrs, sp);
    var ph := PhoneticCells(e, c, table, row0).value;
    var ms := MeasureCells(e, c, sp.geography, sp.geometry).value;
    SlicesOfComposed(row, row0, ph, ms, SpatialEnd(c, |attrs|), SpatialEnd(c, |attrs|) + |ph|);
  }

  /** Under abort, the measure cells of a composed row follow the phonetic ones and end the row. */
  lemma MeasureSliceOfRow(e: Engine, c: Config, table: Option<seq<ColumnDesc>>, attrs: seq<Cell>, shape: CatShape, row: seq<Cell>)
    requires c.abortOnError && SharpMapRow(e, c, table, attrs, shape) == Ok(row)
    ensures ShapeSpatials(e, c, shape).Ok?
    ensures var sp := ShapeSpatials(e, c, shape).value;
      && MeasureCells(e, c, sp.geography, sp.geometry).Ok?
      && SliceAt(row, PhoneticEnd(c, SpatialEnd(c, |attrs|)), MeasureCells(e, c, sp.geography, sp.geometry).value)
      && PhoneticEnd(c, SpatialEnd(c, |attrs|)) + |MeasureCells(e, c, sp.geography, sp.geometry).value| == |row|
  {
    var sp := ShapeSpatials(e, c, shape).value;
    var row0 := SpatialRow(c, attrs, sp);
    var ph := PhoneticCells(e, c, table, row0).value;
    var ms := MeasureCells(e, c, sp.geography, sp.geometry).value;
    SlicesOfComposed(row, row0, ph, ms, SpatialEnd(c, |attrs|), PhoneticEnd(c, SpatialEnd(c, |attrs|)));
  }

  /** The leading cells of a composed row are its spatial row: attributes, tag, then the unions reached. */
  lemma LeadingCellsOfRow(e: Engine, c: Config, table: Option<seq<ColumnDesc>>, attrs: seq<Cell>, shape: CatShape, row: seq<Cell>)
    requires SharpMapRow(e, c, table, attrs, shape) == Ok(row)
    ensures ShapeSpatials(e, c, shape).Ok? && SpatialEnd(c, |attrs|) <= |row|
    ensures var n := |attrs|; var sp := ShapeSpatials(e, c, shape).value;
      && row[..n] == TrimmedIf(c.trimStringData, attrs) && row[n] == TypeName(KmlPolygon)
      && (c.includeGeography ==> row[n + 1] == SpatialOrNull(sp.geography))
      && (c.includeGeometry ==> row[n + 1 + Count(c.includeGeography)] == SpatialOrNull(sp.geometry))
  {
    var sp := ShapeSpatials(e, c, shape).value;
    var row0 := SpatialRow(c, attrs, sp);
    var tail := EnrichmentCells(e, c, table, row0, sp).value;
    PrefixKept(row0, tail, |row0|);
  }

  /**
   * Against the schema, the leading cells: the attributes sit under the
   * dBASE columns, the tag under `shapeType`, and the unions under
   * `shapeGeog` and `shapeGeom`.
   */
  lemma LeadingCellsUnderColumns(e: Engine, c: Config, attrs: seq<Cell>, shape: CatShape, dbf: Dbf, s0: SchemaState, row: seq<Cell>)
    requires s0.table.None? && |dbf.columns| == |attrs|
    requires GetSchemaTable(SharpMapKind, c, Some(dbf), true, s0).Ok?
    requires SharpMapRow(e, c, GetSchemaTable(SharpMapKind, c, Some(dbf), true, s0).value.table, attrs, shape) == Ok(row)
    ensures GetSchemaTable(SharpMapKind, c, Some(dbf), true, s0).value.table.Some?
    ensures ShapeSpatials(e, c, shape).Ok?
    ensures var t := GetSchemaTable(SharpMapKind, c, Some(dbf), true, s0).value.table.value;
      SpatialEnd(c, |attrs|) <= |t| && SpatialEnd(c, |attrs|) <= |row|
    ensures var t := GetSchemaTable(SharpMapKind, c, Some(dbf), true, s0).value.table.value;
      var n := |attrs|;
      && t[..n] == dbf.columns && row[..n] == TrimmedIf(c.trimStringData, attrs)
      && t[n] == ShapeTypeColumn && row[n] == TypeName(KmlPolygon)
    ensures var t := GetSchemaTable(SharpMapKind, c, Some(dbf), true, s0).value.table.value;
      var n := |attrs|; var sp := ShapeSpatials(e, c, shape).value;
      && (c.includeGeography ==> t[n + 1] == GeographyColumn && row[n + 1] == SpatialOrNull(sp.geography))
      && (c.includeGeometry ==>
            t[n + 1 + Count(c.includeGeography)] == GeometryColumn
            && row[n + 1 + Count(c.includeGeography)] == SpatialOrNull(sp.geometry))
  {
    ExtendedTableLayout(SharpMapKind, c, dbf, s0);
    CatfoodColumnsAt(c, GetSchemaTable(SharpMapKind, c, Some(dbf), true, s0).value.table.value, |dbf.columns|);
    LeadingCellsOfRow(e, c, GetSchemaTable(SharpMapKind, c, Some(dbf), true, s0).value.table, attrs, shape, row);
  }

  /** Under abort, the phonetic cells of a row hold the codes of their columns, read from the cells before them. */
  lemma PhoneticCodesOfRow(e: Engine, c: Config, table: Option<seq<ColumnDesc>>, attrs: seq<Cell>, shape: CatShape, row: seq<Cell>)
    requires c.abortOnError && SharpMapRow(e, c, table, attrs, shape) == Ok(row)
    ensures SoundexCodesAt(e, table, row, SpatialEnd(c, |attrs|), ActiveColumns(c.includeSoundex, c.soundexColumns))
    ensures DMCodesAt(e, table, row, DMStart(c, SpatialEnd(c, |attrs|)), ActiveColumns(c.includeSoundexDM, c.soundexDMColumns))
  {
    PhoneticSliceOfRow(e, c, table, attrs, shape, row);
    PhoneticCodesPlaced(e, c, table, row, SpatialEnd(c, |attrs|));
  }

  /**
   * Against the schema, the phonetic cells of a row the reader composes
   * (abort policy): from the first enrichment position the table holds a
   * `<col>_Soundex` column per Soundex column and the row the Soundex code
   * of that column read from the cells before it; then likewise a
   * `<col>_SoundexDM` column and the DM code per DM column.
   */
  lemma PhoneticCellsUnderColumns(e: Engine, c: Config, attrs: seq<Cell>, shape: CatShape, dbf: Dbf, s0: SchemaState, row: seq<Cell>)
    requires s0.table.None? && |dbf.columns| == |attrs| && c.abortOnError
    requires GetSchemaTable(SharpMapKind, c, Some(dbf), true, s0).Ok?
    requires SharpMapRow(e, c, GetSchemaTable(SharpMapKind, c, Some(dbf), true, s0).value.table, attrs, shape) == Ok(row)
    ensures GetSchemaTable(SharpMapKind, c, Some(dbf), true, s0).value.table.Some?
    ensures var t := GetSchemaTable(SharpMapKind, c, Some(dbf), true, s0).value.table.value;
      var m := SpatialEnd(c, |attrs|);
      var sx := ActiveColumns(c.includeSoundex, c.soundexColumns);
      var dm := ActiveColumns(c.includeSoundexDM, c.soundexDMColumns);
      && SliceAt(t, m, Suffixed(sx, "_Soundex", StringType)) && SoundexCodesAt(e, Some(t), row, m, sx)
      && SliceAt(t, DMStart(c, m), Suffixed(dm, "_SoundexDM", StringType)) && DMCodesAt(e, Some(t), row, DMStart(c, m), dm)
  {
    ExtendedTableBlocks(SharpMapKind, c, dbf, s0);
    PhoneticCodesOfRow(e, c, GetSchemaTable(SharpMapKind, c, Some(dbf), true, s0).value.table, attrs, shape, row);
  }

  /**
   * Against the schema, the measure cells. With no end-point, address-range
   * or even/odd column configured (abort policy), the row is as long as the
   * table, and right after the phonetic cells it holds the measure cells,
   * under the measure columns that end the table.
   */
  lemma MeasureCellsUnderColumns(e: Engine, c: Config, attrs: seq<Cell>, shape: CatShape, dbf: Dbf, s0: SchemaState, row: seq<Cell>)
    requires s0.table.None? && |dbf.columns| == |attrs| && c.abortOnError
    requires ActiveColumns(c.includeLineEndPoints, c.lineEndPointColumns) == []
    requires ActiveColumns(c.splitAddressRanges, c.addressRangeColumns) == []
    requires ActiveColumns(c.addEvenOddFlag, c.evenOddColumns) == []
    requires GetSchemaTable(SharpMapKind, c, Some(dbf), true, s0).Ok?
    requires SharpMapRow(e, c, GetSchemaTable(SharpMapKind, c, Some(dbf), true, s0).value.table, attrs, shape) == Ok(row)
    ensures GetSchemaTable(SharpMapKind, c, Some(dbf), true, s0).value.table.Some? && ShapeSpatials(e, c, shape).Ok?
    ensures var t := GetSchemaTable(SharpMapKind, c, Some(dbf), true, s0).value.table.value;
      var sp := ShapeSpatials(e, c, shape).value;
      var o := PhoneticEnd(c, SpatialEnd(c, |attrs|));
      && |row| == |t|
      && SliceAt(t, o, MeasureColumns(c))
      && SliceAt(row, o, MeasureCells(e, c, sp.geography, sp.geometry).value)
  {
    ExtendedTableBlocks(SharpMapKind, c, dbf, s0);
    NoUnrunBlocks(c, SpatialEnd(c, |attrs|));
    MeasureSliceOfRow(e, c, GetSchemaTable(SharpMapKind, c, Some(dbf), true, s0).value.table, attrs, shape, row);
  }

  /**
   * A count mismatch under the tolerant policy is swallowed: the record is
   * still read, and none of its notifications fire.
   */
  lemma MismatchSkipsNotifications(e: Engine, s: SharpMapState)
    requires !s.config.abortOnError && CanAdvance(s) && s.totalShapes != s.schema.totalRecords
    ensures NextFeature(e, s).Advanced? && NextFeature(e, s).events == []
  {
  }
}
