/**
 * `ExtendedShapefileDataReader`: shapes are parsed one record at a time from
 * the shape stream, and attribute values come from the dBASE cursor. After
 * the tag, geography and geometry, a row carries every enrichment stage:
 * Soundex, Daitch-Mokotoff Soundex, line end points, address ranges, even/odd
 * flags, projection, area and centroid.
 */
module ExtendedReader {
  import opened Common
  import opened Data
  import opened Geo
  import opened Progress
  import opened Schema
  import opened Stages
  import opened Pipeline

  // ---- state -----------------------------------------------------------------

  /**
   * One record of the shape stream: its size in bytes and the outcome of
   * parsing it. A parse that throws leaves the shape as far as it got.
   */
  datatype StreamRecord = StreamRecord(size: nat, shape: Attempt<Option<ReimersShape>>)

  /** The total size of the first `n` records. */
  function PrefixSize(records: seq<StreamRecord>, n: nat): nat
    requires n <= |records|
    decreases n
  {
    if n == 0 then 0 else PrefixSize(records, n - 1) + records[n - 1].size
  }

  /**
   * The reader between calls. The stream holds a header of `header` bytes
   * and then `records`, of which the first `consumed` have been read;
   * `rowCursor` is the number of dBASE rows read so far.
   */
  datatype ExtendedState = ExtendedState(
    config: Config,
    index: int,
    header: nat,
    records: seq<StreamRecord>,
    consumed: nat,
    table: DbTable,
    rowCursor: nat,
    schema: SchemaState)

  predicate Valid(s: ExtendedState) {
    s.consumed <= |s.records|
  }

  /** `ShapeStream.Position`. */
  function Position(s: ExtendedState): nat
    requires Valid(s)
  {
    s.header + PrefixSize(s.records, s.consumed)
  }

  /** `ShapeStream.Length`. */
  function Length(s: ExtendedState): nat {
    s.header + PrefixSize(s.records, |s.records|)
  }

  // ---- the stages ------------------------------------------------------------

  /** The shape-type tag: the KML name of points, polygons and polylines, Unknown for a missing shape, unset otherwise. */
  function ShapeTypeTag(shape: Option<ReimersShape>): (c: Cell)
    ensures c == TypeName(KmlUnknown) <==> shape.None?
    ensures c == TypeName(KmlPoint) <==> shape.Some? && shape.value.kind == PointShape
    ensures c == TypeName(KmlPolygon) <==> shape.Some? && shape.value.kind == PolygonShape
    ensures c == TypeName(KmlLineString) <==> shape.Some? && shape.value.kind == PolyLineShape
    ensures c.TypeName? || c == Null
  {
    match shape
    case None => TypeName(KmlUnknown)
    case Some(sh) =>
      match sh.kind
      case PointShape => TypeName(KmlPoint)
      case PolygonShape => TypeName(KmlPolygon)
      case PolyLineShape => TypeName(KmlLineString)
      case _ => Null
  }

  /**
   * The geography (or geometry) of a parsed record: the library's union of
   * the record's parts, left null for a record with a parse error. A missing
   * shape throws.
   */
  function RecordSpatial(convert: (ReimersShape, int) -> Result<Spatial, Fault>, srid: int, shape: Option<ReimersShape>): (a: Attempt<Option<Spatial>>)
    ensures shape.None? ==> a == Attempt(None, Some(NullReference))
    ensures shape.Some? && shape.value.error != "" ==> a == Done(None)
    ensures a.reached.Some? <==> shape.Some? && shape.value.error == "" && convert(shape.value, srid).Ok?
    ensures a.reached.Some? ==> convert(shape.value, srid) == Ok(a.reached.value)
    ensures a.fault.Some? && shape.Some? ==> convert(shape.value, srid) == Err(a.fault.value)
  {
    match shape
    case None => Attempt(None, Some(NullReference))
    case Some(sh) =>
      if sh.error != "" then Done(None)
      else
        match convert(sh, srid)
        case Ok(g) => Done(Some(g))
        case Err(f) => Attempt(None, Some(f))
  }

  /** How many end-point cells a row gets: 4 when the stage runs on a parsed shape, 0 otherwise. */
  function EndPointWidth(c: Config, shape: Option<ReimersShape>): nat {
    if c.includeLineEndPoints && shape.Some? && shape.value.error == "" && c.lineEndPointColumns.Some? then 4 else 0
  }

  /** The geography and geometry stages, each inside its catch block; a disabled stage leaves its value null. */
  function RecordSpatials(e: Engine, c: Config, shape: Option<ReimersShape>): (r: Result<Spatials, StageError>)
    ensures !c.abortOnError ==> r.Ok?
    ensures r.Err? ==> r.error.stage == Geography || r.error.stage == Geometry
    ensures r.Ok? ==> r.value.geography == (if c.includeGeography then RecordSpatial(e.recordGeography, c.srid, shape).reached else None)
    ensures r.Ok? ==> r.value.geometry == (if c.includeGeometry then RecordSpatial(e.recordGeometry, c.srid, shape).reached else None)
  {
    var geography :- if c.includeGeography then Settle(c.abortOnError, Geography, RecordSpatial(e.recordGeography, c.srid, shape)) else Ok(None);
    var geometry :- if c.includeGeometry then Settle(c.abortOnError, Geometry, RecordSpatial(e.recordGeometry, c.srid, shape)) else Ok(None);
    Ok(Spatials(geography, geometry))
  }

  /** The attributes (trimmed when asked), the tag, and a cell per enabled spatial stage. */
  function SpatialRow(c: Config, attrs: seq<Cell>, shape: Option<ReimersShape>, sp: Spatials): (row: seq<Cell>)
    ensures |row| == |attrs| + 1 + Count(c.includeGeography) + Count(c.includeGeometry)
    ensures row[..|attrs|] == TrimmedIf(c.trimStringData, attrs) && row[|attrs|] == ShapeTypeTag(shape)
    ensures c.includeGeography ==> row[|attrs| + 1] == SpatialOrNull(sp.geography)
    ensures c.includeGeometry ==> row[|attrs| + 1 + Count(c.includeGeography)] == SpatialOrNull(sp.geometry)
  {
    TrimmedIf(c.trimStringData, attrs) + [ShapeTypeTag(shape)]
      + Optional(c.includeGeography, [SpatialOrNull(sp.geography)]) + Optional(c.includeGeometry, [SpatialOrNull(sp.geometry)])
  }

  /** The end-point stage inside its catch block. */
  function EndPointStage(e: Engine, c: Config, shape: Option<ReimersShape>, geometry: Option<Spatial>): (r: Result<seq<Cell>, StageError>)
    ensures !c.abortOnError ==> r.Ok?
    ensures r.Err? ==> r.error.stage == LineEndPoints
    ensures r.Ok? ==> |r.value| <= EndPointWidth(c, shape)
    ensures r.Ok? && c.abortOnError ==> |r.value| == EndPointWidth(c, shape)
    ensures !c.includeLineEndPoints ==> r == Ok([])
  {
    if c.includeLineEndPoints then Settle(c.abortOnError, LineEndPoints, EndPointCells(e, shape, c.lineEndPointColumns, geometry)) else Ok([])
  }

  /** The width of the enrichment cells of a row built without any fault. */
  function EnrichmentWidth(c: Config, shape: Option<ReimersShape>): nat {
    |ActiveColumns(c.includeSoundex, c.soundexColumns)| + |ActiveColumns(c.includeSoundexDM, c.soundexDMColumns)|
      + EndPointWidth(c, shape)
      + 2 * |ActiveColumns(c.splitAddressRanges, c.addressRangeColumns)| + |ActiveColumns(c.addEvenOddFlag, c.evenOddColumns)|
      + Count(c.includeGeometryProjected) + Count(c.includeArea) + 2 * Count(c.includeCentroid)
  }

  /** The enrichment stages in their order: phonetic codes, end points, address and parity, measures. */
  function EnrichmentCells(e: Engine, c: Config, table: Option<seq<ColumnDesc>>, row: seq<Cell>, shape: Option<ReimersShape>, sp: Spatials): (r: Result<seq<Cell>, StageError>)
    ensures !c.abortOnError ==> r.Ok?
    ensures r.Err? ==> r.error.stage != ReadShape
    ensures r.Ok? ==> |r.value| <= EnrichmentWidth(c, shape)
    ensures r.Ok? && c.abortOnError ==> |r.value| == EnrichmentWidth(c, shape)
  {
    var phonetic :- PhoneticCells(e, c, table, row);
    var ends :- EndPointStage(e, c, shape, sp.geometry);
    var address :- AddressAndParityCells(e, c, table, row + phonetic + ends);
    var measures :- MeasureCells(e, c, sp.geography, sp.geometry);
    Ok(phonetic + ends + address + measures)
  }

  /** The length of a row built without any fault, for `n` attribute values. */
  function FullWidth(c: Config, n: nat, shape: Option<ReimersShape>): nat {
    n + 1 + Count(c.includeGeography) + Count(c.includeGeometry) + EnrichmentWidth(c, shape)
  }

  /**
   * The row of one record, stage by stage: the attributes (trimmed when
   * asked), the tag, geography, geometry, the phonetic cells, the end
   * points, the address and parity cells and the measures.
   */
  function ExtendedRow(e: Engine, c: Config, table: Option<seq<ColumnDesc>>, attrs: seq<Cell>, shape: Option<ReimersShape>): (r: Result<seq<Cell>, StageError>)
    ensures !c.abortOnError ==> r.Ok?
    ensures r.Err? ==> r.error.stage != ReadShape
    ensures r.Ok? ==> |attrs| + 1 + Count(c.includeGeography) + Count(c.includeGeometry) <= |r.value| <= FullWidth(c, |attrs|, shape)
    ensures r.Ok? && c.abortOnError ==> |r.value| == FullWidth(c, |attrs|, shape)
    ensures r.Ok? ==> r.value[..|attrs|] == TrimmedIf(c.trimStringData, attrs) && r.value[|attrs|] == ShapeTypeTag(shape)
    ensures r.Ok? && c.includeGeography ==>
      r.value[|attrs| + 1] == SpatialOrNull(RecordSpatial(e.recordGeography, c.srid, shape).reached)
    ensures r.Ok? && c.includeGeometry ==>
      r.value[|attrs| + 1 + Count(c.includeGeography)] == SpatialOrNull(RecordSpatial(e.recordGeometry, c.srid, shape).reached)
  {
    match RecordSpatials(e, c, shape)
    case Err(err) => Err(err)
    case Ok(sp) =>
      var row := SpatialRow(c, attrs, shape, sp);
      match EnrichmentCells(e, c, table, row, shape, sp)
      case Err(err) => Err(err)
      case Ok(tail) =>
        PrefixKept(row, tail, |row|);
        Ok(row + tail)
  }

  // ---- NextFeature -----------------------------------------------------------

  /** The guard: bytes left in the shape stream, and a dBASE result with rows. */
  predicate CanAdvance(s: ExtendedState)
    requires Valid(s)
  {
    Position(s) < Length(s) && |s.table.rows| > 0
  }

  /** The notifications of the record about to be read: the stream position is taken before the read. */
  function EventsBefore(s: ExtendedState, index: int): seq<Event>
    requires Valid(s)
  {
    Notifications(s.config, index, s.schema.totalRecords, PercentShapesStreamed(Some(StreamPos(Position(s), Length(s)))))
  }

  /** `FileDataReader.Read()`: the dBASE cursor moves on while rows are left. */
  function RowCursorAfterRead(s: ExtendedState): nat {
    if s.rowCursor < |s.table.rows| then s.rowCursor + 1 else s.rowCursor
  }

  /**
   * After a successful parse: the next dBASE row is read and the record's
   * row composed. `s` is the state with the index and the stream already
   * moved on.
   */
  function ComposeRecord(e: Engine, s: ExtendedState, shape: Option<ReimersShape>, events: seq<Event>): (r: Step<ExtendedState>)
    ensures !r.Exhausted? && r.events == events
    ensures r.next == s.(rowCursor := RowCursorAfterRead(s))
    ensures r.Raised? ==> s.config.abortOnError && r.error.recordIndex == s.index && r.error.cause.stage != ReadShape
    ensures r.Advanced? ==> ExtendedRow(e, s.config, s.schema.table, Attributes(s.table, s.rowCursor), shape) == Ok(r.row)
  {
    var next := s.(rowCursor := RowCursorAfterRead(s));
    match ExtendedRow(e, s.config, s.schema.table, Attributes(s.table, s.rowCursor), shape)
    case Err(err) => Raised(next, events, ReaderError(s.index, err))
    case Ok(row) => Advanced(next, row, events)
  }

  /**
   * `NextFeature`. While the stream has bytes left and the dBASE result has
   * rows, the index moves on, the notifications fire, the next record is
   * parsed and the next dBASE row is read, and the row is composed. Nothing
   * is closed, neither on exhaustion nor on an error.
   */
  function NextFeature(e: Engine, s: ExtendedState): (r: Step<ExtendedState>)
    requires Valid(s)
    ensures Valid(r.next)
    ensures r.Exhausted? <==> !CanAdvance(s)
    ensures r.Exhausted? ==> r.next == s
    ensures !r.Exhausted? ==> s.consumed < |s.records| && r.next.index == s.index + 1 && r.next.consumed == s.consumed + 1
    ensures !r.Exhausted? ==> r.events == EventsBefore(s, s.index + 1)
    ensures r.Raised? ==> s.config.abortOnError && r.error.recordIndex == s.index + 1
    ensures r.Raised? && r.error.cause.stage == ReadShape ==> r.next.rowCursor == s.rowCursor
    ensures r.Advanced? ==>
      && (s.records[s.consumed].shape.fault.None? || !s.config.abortOnError)
      && ExtendedRow(e, s.config, s.schema.table, Attributes(s.table, s.rowCursor), s.records[s.consumed].shape.reached) == Ok(r.row)
  {
    if CanAdvance(s) then
      var index := s.index + 1;
      var events := EventsBefore(s, index);
      var record := s.records[s.consumed];
      var read := s.(index := index, consumed := s.consumed + 1);
      match Settle(s.config.abortOnError, ReadShape, record.shape)
      case Err(err) => Raised(read, events, ReaderError(index, err))
      case Ok(shape) => ComposeRecord(e, read, shape, events)
    else Exhausted(s)
  }

  /**
   * Only a parse failure that escapes under abort leaves the dBASE row
   * unread: after a parsed record, or a parse failure swallowed under the
   * tolerant policy, `FileDataReader.Read()` still moves the cursor on.
   */
  lemma RowReadUnlessParseEscapes(e: Engine, s: ExtendedState)
    requires Valid(s)
    ensures var r := NextFeature(e, s);
      !r.Exhausted? && !(r.Raised? && r.error.cause.stage == ReadShape) ==> r.next.rowCursor == RowCursorAfterRead(s)
    ensures var r := NextFeature(e, s);
      CanAdvance(s) && !s.config.abortOnError ==> r.Advanced? && r.next.rowCursor == RowCursorAfterRead(s)
  {
  }

  /**
   * Because the position is taken before the record is read, a reported
   * fraction is always finite and below 1: the last record reports less
   * than the whole stream.
   */
  lemma PercentBelowOne(e: Engine, s: ExtendedState)
    requires Valid(s)
    ensures var r := NextFeature(e, s);
      !r.Exhausted? ==> forall ev :: ev in r.events && ev.PercentRead? ==> ev.fraction.Finite? && 0.0 <= ev.fraction.value < 1.0
  {
  }

  /**
   * Against the schema: an abort-policy row is as long as the schema, minus
   * the declared end-point columns, plus the end-point cells actually written.
   */
  lemma RowVersusSchema(e: Engine, c: Config, attrs: seq<Cell>, shape: Option<ReimersShape>, dbf: Dbf, s0: SchemaState)
    requires s0.table.None? && |dbf.columns| == |attrs|
    requires c.abortOnError
    requires var t := GetSchemaTable(ExtendedKind, c, Some(dbf), true, s0).value.table;
      ExtendedRow(e, c, t, attrs, shape).Ok?
    ensures var t := GetSchemaTable(ExtendedKind, c, Some(dbf), true, s0).value.table;
      |ExtendedRow(e, c, t, attrs, shape).value| + |ActiveColumns(c.includeLineEndPoints, c.lineEndPointColumns)|
        == |t.value| + EndPointWidth(c, shape)
  {
  }

  /**
   * The end-point stage always writes four cells while the schema declares
   * one per configured name: row and schema agree exactly when four names
   * are configured.
   */
  lemma RowMatchesSchemaIffFourEndPoints(e: Engine, c: Config, attrs: seq<Cell>, shape: ReimersShape, dbf: Dbf, s0: SchemaState)
    requires s0.table.None? && |dbf.columns| == |attrs|
    requires c.abortOnError && c.includeLineEndPoints && c.lineEndPointColumns.Some? && shape.error == ""
    requires var t := GetSchemaTable(ExtendedKind, c, Some(dbf), true, s0).value.table;
      ExtendedRow(e, c, t, attrs, Some(shape)).Ok?
    ensures var t := GetSchemaTable(ExtendedKind, c, Some(dbf), true, s0).value.table;
      |ExtendedRow(e, c, t, attrs, Some(shape)).value| == |t.value| <==> |c.lineEndPointColumns.value| == 4
  {
    RowVersusSchema(e, c, attrs, Some(shape), dbf, s0);
  }

  // ---- cells against columns -------------------------------------------------

  /** Where the address cells of a row start: past the phonetic cells and the end-point cells actually written. */
  function RowAddressStart(c: Config, shape: Option<ReimersShape>, m: nat): nat {
    PhoneticEnd(c, m) + EndPointWidth(c, shape)
  }

  /** Where the measure cells of a row start: past two address cells per column and a flag per even/odd column. */
  function RowMeasureStart(c: Config, shape: Option<ReimersShape>, m: nat): nat {
    RowAddressStart(c, shape, m) + 2 * |ActiveColumns(c.splitAddressRanges, c.addressRangeColumns)| + |ActiveColumns(c.addEvenOddFlag, c.evenOddColumns)|
  }

  /** The parts of a composed row: the spatial row, then the four enrichment parts one after the other. */
  lemma RowSlices(e: Engine, c: Config, table: Option<seq<ColumnDesc>>, attrs: seq<Cell>, shape: Option<ReimersShape>, row: seq<Cell>)
    requires ExtendedRow(e, c, table, attrs, shape) == Ok(row)
    ensures RecordSpatials(e, c, shape).Ok?
    ensures var sp := RecordSpatials(e, c, shape).value;
      var row0 := SpatialRow(c, attrs, shape, sp);
      && PhoneticCells(e, c, table, row0).Ok? && EndPointStage(e, c, shape, sp.geometry).Ok?
      && var ph := PhoneticCells(e, c, table, row0).value;
         var ends := EndPointStage(e, c, shape, sp.geometry).value;
         && AddressAndParityCells(e, c, table, row0 + ph + ends).Ok? && MeasureCells(e, c, sp.geography, sp.geometry).Ok?
         && row == row0 + (ph + ends + AddressAndParityCells(e, c, table, row0 + ph + ends).value + MeasureCells(e, c, sp.geography, sp.geometry).value)
  {
  }

  /** The phonetic cells of a composed row sit right after its spatial cells and are computed on them. */
  lemma PhoneticSliceOfRow(e: Engine, c: Config, table: Option<seq<ColumnDesc>>, attrs: seq<Cell>, shape: Option<ReimersShape>, row: seq<Cell>)
    requires ExtendedRow(e, c, table, attrs, shape) == Ok(row)
    ensures PhoneticPlacedAt(e, c, table, row, SpatialEnd(c, |attrs|))
  {
    RowSlices(e, c, table, attrs, shape, row);
    var sp := RecordSpatials(e, c, shape).value;
    var row0 := SpatialRow(c, attrs, shape, sp);
    var ph := PhoneticCells(e, c, table, row0).value;
    var ends := EndPointStage(e, c, shape, sp.geometry).value;
    var ap := AddressAndParityCells(e, c, table, row0 + ph + ends).value;
    var ms := MeasureCells(e, c, sp.geography, sp.geometry).value;
    var m := SpatialEnd(c, |attrs|);
    SlicesOfFour(row, row0, ph, ends, ap, ms, m, m + |ph|, m + |ph| + |ends|, m + |ph| + |ends| + |ap|);
  }

  /** Under abort, the end-point cells of a composed row follow the phonetic ones. */
  lemma EndPointSliceOfRow(e: Engine, c: Config, table: Option<seq<ColumnDesc>>, attrs: seq<Cell>, shape: Option<ReimersShape>, row: seq<Cell>)
    requires c.abortOnError && ExtendedRow(e, c, table, attrs, shape) == Ok(row)
    ensures RecordSpatials(e, c, shape).Ok?
    ensures var geometry := RecordSpatials(e, c, shape).value.geometry;
      && EndPointStage(e, c, shape, geometry).Ok?
      && SliceAt(row, PhoneticEnd(c, SpatialEnd(c, |attrs|)), EndPointStage(e, c, shape, geometry).value)
  {
    RowSlices(e, c, table, attrs, shape, row);
    var sp := RecordSpatials(e, c, shape).value;
    var row0 := SpatialRow(c, attrs, shape, sp);
    var ph := PhoneticCells(e, c, table, row0).value;
    var ends := EndPointStage(e, c, shape, sp.geometry).value;
    var ap := AddressAndParityCells(e, c, table, row0 + ph + ends).value;
    var ms := MeasureCells(e, c, sp.geography, sp.geometry).value;
    var m := SpatialEnd(c, |attrs|);
    SlicesOfFour(row, row0, ph, ends, ap, ms, m, PhoneticEnd(c, m), PhoneticEnd(c, m) + |ends|, PhoneticEnd(c, m) + |ends| + |ap|);
  }

  /** Under abort, the address and parity cells of a composed row follow the end points and are computed on the cells before them. */
  lemma AddressSliceOfRow(e: Engine, c: Config, table: Option<seq<ColumnDesc>>, attrs: seq<Cell>, shape: Option<ReimersShape>, row: seq<Cell>)
    requires c.abortOnError && ExtendedRow(e, c, table, attrs, shape) == Ok(row)
    ensures var q := RowAddressStart(c, shape, SpatialEnd(c, |attrs|));
      && q <= |row| && AddressAndParityCells(e, c, table, row[..q]).Ok?
      && SliceAt(row, q, AddressAndParityCells(e, c, table, row[..q]).value)
  {
    RowSlices(e, c, table, attrs, shape, row);
    var sp := RecordSpatials(e, c, shape).value;
    var row0 := SpatialRow(c, attrs, shape, sp);
    var ph := PhoneticCells(e, c, table, row0).value;
    var ends := EndPointStage(e, c, shape, sp.geometry).value;
    var ap := AddressAndParityCells(e, c, table, row0 + ph + ends).value;
    var ms := MeasureCells(e, c, sp.geography, sp.geometry).value;
    var m := SpatialEnd(c, |attrs|);
    SlicesOfFour(row, row0, ph, ends, ap, ms, m, PhoneticEnd(c, m), RowAddressStart(c, shape, m), RowAddressStart(c, shape, m) + |ap|);
  }

  /** Under abort, the measure cells of a composed row follow the parity flags and end the row. */
  lemma MeasureSliceOfRow(e: Engine, c: Config, table: Option<seq<ColumnDesc>>, attrs: seq<Cell>, shape: Option<ReimersShape>, row: seq<Cell>)
    requires c.abortOnError && ExtendedRow(e, c, table, attrs, shape) == Ok(row)
    ensures RecordSpatials(e, c, shape).Ok?
    ensures var sp := RecordSpatials(e, c, shape).value;
      var r := RowMeasureStart(c, shape, SpatialEnd(c, |attrs|));
      && MeasureCells(e, c, sp.geography, sp.geometry).Ok?
      && SliceAt(row, r, MeasureCells(e, c, sp.geography, sp.geometry).value)
      && r + |MeasureCells(e, c, sp.geography, sp.geometry).value| == |row|
  {
    RowSlices(e, c, table, attrs, shape, row);
    var sp := RecordSpatials(e, c, shape).value;
    var row0 := SpatialRow(c, attrs, shape, sp);
    var ph := PhoneticCells(e, c, table, row0).value;
    var ends := EndPointStage(e, c, shape, sp.geometry).value;
    var ap := AddressAndParityCells(e, c, table, row0 + ph + ends).value;
    var ms := MeasureCells(e, c, sp.geography, sp.geometry).value;
    var m := SpatialEnd(c, |attrs|);
    SlicesOfFour(row, row0, ph, ends, ap, ms, m, PhoneticEnd(c, m), RowAddressStart(c, shape, m), RowMeasureStart(c, shape, m));
  }

  /** Under abort, a row as long as the schema wrote exactly one end-point cell per declared end-point column. */
  lemma EndPointWidthMatches(e: Engine, c: Config, attrs: seq<Cell>, shape: Option<ReimersShape>, dbf: Dbf, s0: SchemaState, row: seq<Cell>)
    requires s0.table.None? && |dbf.columns| == |attrs| && c.abortOnError
    requires GetSchemaTable(ExtendedKind, c, Some(dbf), true, s0).Ok?
    requires ExtendedRow(e, c, GetSchemaTable(ExtendedKind, c, Some(dbf), true, s0).value.table, attrs, shape) == Ok(row) && |row| == |GetSchemaTable(ExtendedKind, c, Some(dbf), true, s0).value.table.value|
    ensures EndPointWidth(c, shape) == |ActiveColumns(c.includeLineEndPoints, c.lineEndPointColumns)|
  {
    RowVersusSchema(e, c, attrs, shape, dbf, s0);
  }

  /** With as many end-point cells as end-point columns, the row's address and measure blocks start where the table's do. */
  lemma StartsMatch(c: Config, shape: Option<ReimersShape>, m: nat)
    requires EndPointWidth(c, shape) == |ActiveColumns(c.includeLineEndPoints, c.lineEndPointColumns)|
    ensures RowAddressStart(c, shape, m) == EndPointsEnd(c, m)
    ensures RowMeasureStart(c, shape, m) == ParityEnd(c, m)
  {
  }

  /** The leading columns of a fresh table: the dBASE columns, then `shapeType`, `shapeGeog` and `shapeGeom` as configured. */
  lemma LeadingColumns(c: Config, dbf: Dbf, s0: SchemaState)
    requires s0.table.None?
    ensures GetSchemaTable(ExtendedKind, c, Some(dbf), true, s0).Ok? && GetSchemaTable(ExtendedKind, c, Some(dbf), true, s0).value.table.Some?
    ensures var t := GetSchemaTable(ExtendedKind, c, Some(dbf), true, s0).value.table.value; var n := |dbf.columns|;
      && SpatialEnd(c, n) <= |t| && t[..n] == dbf.columns && t[n] == ShapeTypeColumn
      && (c.includeGeography ==> t[n + 1] == GeographyColumn)
      && (c.includeGeometry ==> t[n + 1 + Count(c.includeGeography)] == GeometryColumn)
  {
    ExtendedTableLayout(ExtendedKind, c, dbf, s0);
    LeadingColumnsOf(c, dbf, GetSchemaTable(ExtendedKind, c, Some(dbf), true, s0).value.table.value);
  }

  /** The leading columns of any table laid out as this reader's. */
  lemma LeadingColumnsOf(c: Config, dbf: Dbf, t: seq<ColumnDesc>)
    requires |t| == SpatialEnd(c, |dbf.columns|) + |EnrichmentColumns(c)|
    requires t[..|dbf.columns|] == dbf.columns && SliceAt(t, |dbf.columns|, CatfoodColumns(c))
    ensures var n := |dbf.columns|;
      && SpatialEnd(c, n) <= |t| && t[..n] == dbf.columns && t[n] == ShapeTypeColumn
      && (c.includeGeography ==> t[n + 1] == GeographyColumn)
      && (c.includeGeometry ==> t[n + 1 + Count(c.includeGeography)] == GeometryColumn)
  {
    CatfoodColumnsAt(c, t, |dbf.columns|);
  }

  /**
   * Against the schema, the leading cells: the attributes sit under the
   * dBASE columns, the tag under `shapeType`, and the geography and geometry
   * under `shapeGeog` and `shapeGeom`.
   */
  lemma LeadingCellsUnderColumns(e: Engine, c: Config, attrs: seq<Cell>, shape: Option<ReimersShape>, dbf: Dbf, s0: SchemaState, row: seq<Cell>)
    requires s0.table.None? && |dbf.columns| == |attrs|
    requires GetSchemaTable(ExtendedKind, c, Some(dbf), true, s0).Ok?
    requires ExtendedRow(e, c, GetSchemaTable(ExtendedKind, c, Some(dbf), true, s0).value.table, attrs, shape) == Ok(row)
    ensures GetSchemaTable(ExtendedKind, c, Some(dbf), true, s0).value.table.Some?
    ensures var t := GetSchemaTable(ExtendedKind, c, Some(dbf), true, s0).value.table.value;
      SpatialEnd(c, |attrs|) <= |t| && SpatialEnd(c, |attrs|) <= |row|
    ensures var t := GetSchemaTable(ExtendedKind, c, Some(dbf), true, s0).value.table.value;
      var n := |attrs|;
      && t[..n] == dbf.columns && row[..n] == TrimmedIf(c.trimStringData, attrs)
      && t[n] == ShapeTypeColumn && row[n] == ShapeTypeTag(shape)
    ensures var t := GetSchemaTable(ExtendedKind, c, Some(dbf), true, s0).value.table.value;
      var n := |attrs|;
      && (c.includeGeography ==>
            t[n + 1] == GeographyColumn && row[n + 1] == SpatialOrNull(RecordSpatial(e.recordGeography, c.srid, shape).reached))
      && (c.includeGeometry ==>
            t[n + 1 + Count(c.includeGeography)] == GeometryColumn
            && row[n + 1 + Count(c.includeGeography)] == SpatialOrNull(RecordSpatial(e.recordGeometry, c.srid, shape).reached))
  {
    LeadingColumns(c, dbf, s0);
  }

  /** Under abort, the phonetic cells of a row hold the codes of their columns, read from the cells before them. */
  lemma PhoneticCodesOfRow(e: Engine, c: Config, table: Option<seq<ColumnDesc>>, attrs: seq<Cell>, shape: Option<ReimersShape>, row: seq<Cell>)
    requires c.abortOnError && ExtendedRow(e, c, table, attrs, shape) == Ok(row)
    ensures SoundexCodesAt(e, table, row, SpatialEnd(c, |attrs|), ActiveColumns(c.includeSoundex, c.soundexColumns))
    ensures DMCodesAt(e, table, row, DMStart(c, SpatialEnd(c, |attrs|)), ActiveColumns(c.includeSoundexDM, c.soundexDMColumns))
  {
    PhoneticSliceOfRow(e, c, table, attrs, shape, row);
    PhoneticCodesPlaced(e, c, table, row, SpatialEnd(c, |attrs|));
  }

  /**
   * Against the schema, the phonetic cells (abort policy): from the first
   * enrichment position the table holds a `<col>_Soundex` column per Soundex
   * column and the row the Soundex code of that column read from the cells
   * before it; then likewise a `<col>_SoundexDM` column and the DM code.
   */
  lemma PhoneticCellsUnderColumns(e: Engine, c: Config, attrs: seq<Cell>, shape: Option<ReimersShape>, dbf: Dbf, s0: SchemaState, row: seq<Cell>)
    requires s0.table.None? && |dbf.columns| == |attrs| && c.abortOnError
    requires GetSchemaTable(ExtendedKind, c, Some(dbf), true, s0).Ok?
    requires ExtendedRow(e, c, GetSchemaTable(ExtendedKind, c, Some(dbf), true, s0).value.table, attrs, shape) == Ok(row)
    ensures GetSchemaTable(ExtendedKind, c, Some(dbf), true, s0).value.table.Some?
    ensures var t := GetSchemaTable(ExtendedKind, c, Some(dbf), true, s0).value.table.value;
      var m := SpatialEnd(c, |attrs|);
      var sx := ActiveColumns(c.includeSoundex, c.soundexColumns);
      var dm := ActiveColumns(c.includeSoundexDM, c.soundexDMColumns);
      && SliceAt(t, m, Suffixed(sx, "_Soundex", StringType)) && SoundexCodesAt(e, Some(t), row, m, sx)
      && SliceAt(t, DMStart(c, m), Suffixed(dm, "_SoundexDM", StringType)) && DMCodesAt(e, Some(t), row, DMStart(c, m), dm)
  {
    ExtendedTableBlocks(ExtendedKind, c, dbf, s0);
    PhoneticCodesOfRow(e, c, GetSchemaTable(ExtendedKind, c, Some(dbf), true, s0).value.table, attrs, shape, row);
  }

  /**
   * Against the schema, the end points (abort policy): right after the
   * phonetic columns the table declares one `Double` column per configured
   * name, and the row holds the cells of the end-point stage there. They are
   * as many as the columns exactly when the row is as long as the table.
   */
  lemma EndPointCellsUnderColumns(e: Engine, c: Config, attrs: seq<Cell>, shape: Option<ReimersShape>, dbf: Dbf, s0: SchemaState, row: seq<Cell>)
    requires s0.table.None? && |dbf.columns| == |attrs| && c.abortOnError
    requires GetSchemaTable(ExtendedKind, c, Some(dbf), true, s0).Ok?
    requires ExtendedRow(e, c, GetSchemaTable(ExtendedKind, c, Some(dbf), true, s0).value.table, attrs, shape) == Ok(row)
    ensures GetSchemaTable(ExtendedKind, c, Some(dbf), true, s0).value.table.Some?
    ensures RecordSpatials(e, c, shape).Ok?
    ensures var t := GetSchemaTable(ExtendedKind, c, Some(dbf), true, s0).value.table.value;
      var o := PhoneticEnd(c, SpatialEnd(c, |attrs|));
      var ends := EndPointStage(e, c, shape, RecordSpatials(e, c, shape).value.geometry);
      && SliceAt(t, o, Suffixed(ActiveColumns(c.includeLineEndPoints, c.lineEndPointColumns), "", DoubleType))
      && ends.Ok? && SliceAt(row, o, ends.value)
      && (|row| == |t| <==> |ends.value| == |ActiveColumns(c.includeLineEndPoints, c.lineEndPointColumns)|)
  {
    ExtendedTableBlocks(ExtendedKind, c, dbf, s0);
    EndPointSliceOfRow(e, c, GetSchemaTable(ExtendedKind, c, Some(dbf), true, s0).value.table, attrs, shape, row);
    RowVersusSchema(e, c, attrs, shape, dbf, s0);
  }

  /**
   * Against the schema, the address ranges and parity flags of a row as long
   * as the table (abort policy): where the table has the address columns and
   * then the `_Even` columns, the row holds the address-and-parity cells
   * computed on the cells before them.
   */
  lemma AddressCellsUnderColumns(e: Engine, c: Config, attrs: seq<Cell>, shape: Option<ReimersShape>, dbf: Dbf, s0: SchemaState, row: seq<Cell>)
    requires s0.table.None? && |dbf.columns| == |attrs| && c.abortOnError
    requires GetSchemaTable(ExtendedKind, c, Some(dbf), true, s0).Ok?
    requires ExtendedRow(e, c, GetSchemaTable(ExtendedKind, c, Some(dbf), true, s0).value.table, attrs, shape) == Ok(row) && |row| == |GetSchemaTable(ExtendedKind, c, Some(dbf), true, s0).value.table.value|
    ensures GetSchemaTable(ExtendedKind, c, Some(dbf), true, s0).value.table.Some?
    ensures var t := GetSchemaTable(ExtendedKind, c, Some(dbf), true, s0).value.table.value;
      var o := EndPointsEnd(c, SpatialEnd(c, |attrs|));
      && SliceAt(t, o, AddressColumns(ActiveColumns(c.splitAddressRanges, c.addressRangeColumns)))
      && SliceAt(t, AddressEnd(c, SpatialEnd(c, |attrs|)), Suffixed(ActiveColumns(c.addEvenOddFlag, c.evenOddColumns), "_Even", BooleanType))
      && o <= |row| && AddressAndParityCells(e, c, Some(t), row[..o]).Ok?
      && SliceAt(row, o, AddressAndParityCells(e, c, Some(t), row[..o]).value)
  {
    ExtendedTableBlocks(ExtendedKind, c, dbf, s0);
    EndPointWidthMatches(e, c, attrs, shape, dbf, s0, row);
    StartsMatch(c, shape, SpatialEnd(c, |attrs|));
    AddressSliceOfRow(e, c, GetSchemaTable(ExtendedKind, c, Some(dbf), true, s0).value.table, attrs, shape, row);
  }

  /**
   * Against the schema, the measures of a row as long as the table (abort
   * policy): the measure columns end the table and the measure cells end the
   * row, at the same position.
   */
  lemma MeasureCellsUnderColumns(e: Engine, c: Config, attrs: seq<Cell>, shape: Option<ReimersShape>, dbf: Dbf, s0: SchemaState, row: seq<Cell>)
    requires s0.table.None? && |dbf.columns| == |attrs| && c.abortOnError
    requires GetSchemaTable(ExtendedKind, c, Some(dbf), true, s0).Ok?
    requires ExtendedRow(e, c, GetSchemaTable(ExtendedKind, c, Some(dbf), true, s0).value.table, attrs, shape) == Ok(row) && |row| == |GetSchemaTable(ExtendedKind, c, Some(dbf), true, s0).value.table.value|
    ensures GetSchemaTable(ExtendedKind, c, Some(dbf), true, s0).value.table.Some?
    ensures RecordSpatials(e, c, shape).Ok?
    ensures var t := GetSchemaTable(ExtendedKind, c, Some(dbf), true, s0).value.table.value;
      var sp := RecordSpatials(e, c, shape).value;
      var o := ParityEnd(c, SpatialEnd(c, |attrs|));
      && SliceAt(t, o, MeasureColumns(c))
      && MeasureCells(e, c, sp.geography, sp.geometry).Ok?
      && SliceAt(row, o, MeasureCells(e, c, sp.geography, sp.geometry).value)
  {
    ExtendedTableBlocks(ExtendedKind, c, dbf, s0);
    EndPointWidthMatches(e, c, attrs, shape, dbf, s0, row);
    StartsMatch(c, shape, SpatialEnd(c, |attrs|));
    MeasureSliceOfRow(e, c, GetSchemaTable(ExtendedKind, c, Some(dbf), true, s0).value.table, attrs, shape, row);
  }
}
