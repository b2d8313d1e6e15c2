/**
 * `CatfoodShapefileDataReader`: shapes come from the Catfood enumerator, each
 * carrying its attribute values. A row is the attributes, the Polygon tag and
 * the optional geography and geometry, each the union of the shape's parts.
 */
module CatfoodReader {
  import opened Common
  import opened Data
  import opened Geo
  import opened Progress
  import opened Schema

  // ---- the .shp check of the constructor ------------------------------------

  predicate IsSeparator(ch: char) {
    ch == '\\' || ch == '/' || ch == ':'
  }

  /**
   * The scan of `Path.GetExtension` from position `i` down: the suffix that
   * starts at the last '.' after the last directory or volume separator, or
   * "" when there is none or the '.' is the last character.
   */
  function ExtensionFrom(path: string, i: int): (ext: string)
    requires -1 <= i < |path|
    ensures ext == [] || (2 <= |ext| <= |path| && ext == path[|path| - |ext|..] && ext[0] == '.')
    ensures ext != [] ==> forall j :: |path| - |ext| < j <= i ==> path[j] != '.' && !IsSeparator(path[j])
    decreases i + 1
  {
    if i < 0 then ""
    else if path[i] == '.' then (if i != |path| - 1 then path[i..] else "")
    else if IsSeparator(path[i]) then ""
    else ExtensionFrom(path, i - 1)
  }

  function GetExtension(path: string): string {
    ExtensionFrom(path, |path| - 1)
  }

  function LowerChar(ch: char): char {
    if 'A' <= ch <= 'Z' then (ch as int + 32) as char else ch
  }

  /** `ToLower` on the letters A-Z. */
  function Lower(s: string): (r: string)
    ensures |r| == |s|
    ensures forall i :: 0 <= i < |s| ==> r[i] == LowerChar(s[i])
  {
    seq(|s|, i requires 0 <= i < |s| => LowerChar(s[i]))
  }

  /** The constructor accepts a file name whose extension, lower-cased, is ".shp". */
  predicate ShpAccepted(fileName: string) {
    Lower(GetExtension(fileName)) == ".shp"
  }

  lemma LowerCharDot(ch: char)
    requires LowerChar(ch) == '.'
    ensures ch == '.'
  {
  }

  lemma LowerCharLetter(ch: char)
    requires 'a' <= LowerChar(ch) <= 'z'
    ensures ch != '.' && !IsSeparator(ch)
  {
  }

  lemma ShpAcceptedEndsInShp(fileName: string)
    requires ShpAccepted(fileName)
    ensures |fileName| >= 4 && Lower(fileName[|fileName| - 4..]) == ".shp"
  {
    var ext := GetExtension(fileName);
    assert |Lower(ext)| == 4;
    assert ext == fileName[|fileName| - 4..];
  }

  lemma EndsInShpAccepted(fileName: string)
    requires |fileName| >= 4 && Lower(fileName[|fileName| - 4..]) == ".shp"
    ensures ShpAccepted(fileName)
  {
    var n := |fileName|;
    var tail := fileName[n - 4..];
    var low := Lower(tail);
    assert low[0] == '.' && low[1] == 's' && low[2] == 'h' && low[3] == 'p';
    LowerCharDot(tail[0]);
    LowerCharLetter(tail[1]);
    LowerCharLetter(tail[2]);
    LowerCharLetter(tail[3]);
    assert fileName[n - 1] == tail[3] && fileName[n - 2] == tail[2] && fileName[n - 3] == tail[1] && fileName[n - 4] == tail[0];
    assert ExtensionFrom(fileName, n - 1) == ExtensionFrom(fileName, n - 2);
    assert ExtensionFrom(fileName, n - 2) == ExtensionFrom(fileName, n - 3);
    assert ExtensionFrom(fileName, n - 3) == ExtensionFrom(fileName, n - 4);
    assert ExtensionFrom(fileName, n - 4) == tail;
  }

  /**
   * The rule in plain terms: a name is accepted exactly when it ends in
   * ".shp", in any mix of upper and lower case.
   */
  lemma ShpAcceptedIff(fileName: string)
    ensures ShpAccepted(fileName) <==> |fileName| >= 4 && Lower(fileName[|fileName| - 4..]) == ".shp"
  {
    if ShpAccepted(fileName) {
      ShpAcceptedEndsInShp(fileName);
    }
    if |fileName| >= 4 && Lower(fileName[|fileName| - 4..]) == ".shp" {
      EndsInShpAccepted(fileName);
    }
  }

  // ---- state -----------------------------------------------------------------

  /**
   * The reader between calls. `shapes` is what the enumerator yields and
   * `cursor` how many of them it has yielded; `stream` is the shape stream,
   * absent when none is open.
   */
  datatype CatfoodState = CatfoodState(
    config: Config,
    index: int,
    totalShapes: int,
    shapes: seq<CatShape>,
    cursor: nat,
    stream: Option<StreamPos>,
    layerClosed: bool,
    closed: bool,
    schema: SchemaState)

  /** The constructor: the name check, then a reader positioned before the first shape. */
  function Open(c: Config, fileName: string, shapes: seq<CatShape>, stream: Option<StreamPos>): (r: Result<CatfoodState, Fault>)
    ensures r.Err? <==> !ShpAccepted(fileName)
    ensures r.Err? ==> r.error == WrongExtension(fileName)
    ensures r.Ok? ==>
      (r.value.index == 0 && r.value.cursor == 0 && r.value.totalShapes == |shapes|
       && r.value.shapes == shapes && !r.value.layerClosed && !r.value.closed && r.value.schema.table.None?)
  {
    if !ShpAccepted(fileName) then Err(WrongExtension(fileName))
    else Ok(CatfoodState(c, 0, |shapes|, shapes, 0, stream, false, false, SchemaState(None, 0)))
  }

  /** `CloseStream`: the enumerator and the layer are released and the reader is closed. */
  function CloseStream(s: CatfoodState): (r: CatfoodState)
    ensures r.layerClosed && r.closed
    ensures r.(layerClosed := s.layerClosed, closed := s.closed) == s
  {
    s.(layerClosed := true, closed := true)
  }

  /** Closing a closed reader changes nothing. */
  lemma CloseStreamIdempotent(s: CatfoodState)
    ensures CloseStream(CloseStream(s)) == CloseStream(s)
  {
  }

  // ---- the stages ------------------------------------------------------------

  /**
   * The bookkeeping block of the readers that check counts: the count check
   * and the notifications, inside their catch block.
   */
  function Bookkeep(c: Config, index: int, totalShapes: int, totalRecords: int, stream: Option<StreamPos>): (r: Result<seq<Event>, StageError>)
    ensures r.Err? <==> c.abortOnError && totalShapes != totalRecords
    ensures r.Err? ==> r.error == StageError(Bookkeeping, CountMismatch(totalShapes, totalRecords))
    ensures r.Ok? && totalShapes != totalRecords ==> r.value == []
    ensures r.Ok? && totalShapes == totalRecords ==> r.value == Notifications(c, index, totalRecords, PercentShapesStreamed(stream))
  {
    Settle(c.abortOnError, Bookkeeping, CheckedNotifications(c, index, totalShapes, totalRecords, PercentShapesStreamed(stream)))
  }

  /**
   * The geography (or geometry) of a Catfood shape: the cast to a polygon
   * shape, then one value per part and the union of those values. The
   * variable starts out null.
   */
  function PolygonUnion(convert: (Polygon, int) -> Result<Spatial, Fault>, union: (Spatial, Spatial) -> Result<Spatial, Fault>,
                        srid: int, shape: CatShape): (a: Attempt<Option<Spatial>>)
    ensures shape.kind != PolygonShape ==> a == Attempt(None, Some(InvalidCast))
    ensures shape.kind == PolygonShape ==> a == UnionOfParts(AtSrid(convert, srid), union, None, shape.parts)
  {
    if shape.kind != PolygonShape then Attempt(None, Some(InvalidCast))
    else UnionOfParts(AtSrid(convert, srid), union, None, shape.parts)
  }

  /**
   * The row of one shape: its attribute values, the Polygon tag, then one
   * cell for each of the geography and the geometry that is switched on.
   */
  function CatfoodRow(e: Engine, c: Config, shape: CatShape): (r: Result<seq<Cell>, StageError>)
    ensures r.Err? <==>
      (c.abortOnError &&
       ((c.includeGeography && PolygonUnion(e.toGeography, e.unionGeography, c.srid, shape).fault.Some?)
        || (c.includeGeometry && PolygonUnion(e.toGeometry, e.unionGeometry, c.srid, shape).fault.Some?)))
    ensures r.Err? ==> r.error.stage == Geography || r.error.stage == Geometry
    ensures r.Ok? ==>
      var n := |shape.attributes|;
      && |r.value| == n + 1 + Count(c.includeGeography) + Count(c.includeGeometry)
      && r.value[..n] == shape.attributes
      && r.value[n] == TypeName(KmlPolygon)
      && (c.includeGeography ==> r.value[n + 1] == SpatialOrNull(PolygonUnion(e.toGeography, e.unionGeography, c.srid, shape).reached))
      && (c.includeGeometry ==> r.value[n + 1 + Count(c.includeGeography)] == SpatialOrNull(PolygonUnion(e.toGeometry, e.unionGeometry, c.srid, shape).reached))
  {
    var tagged := shape.attributes + [TypeName(KmlPolygon)];
    var geography :- if c.includeGeography then Settle(c.abortOnError, Geography, PolygonUnion(e.toGeography, e.unionGeography, c.srid, shape)) else Ok(None);
    var geometry :- if c.includeGeometry then Settle(c.abortOnError, Geometry, PolygonUnion(e.toGeometry, e.unionGeometry, c.srid, shape)) else Ok(None);
    Ok(tagged + Optional(c.includeGeography, [SpatialOrNull(geography)]) + Optional(c.includeGeometry, [SpatialOrNull(geometry)]))
  }

  // ---- NextFeature -----------------------------------------------------------

  /** Whether the guard lets the reader advance: below the shape count, and the enumerator yields. */
  predicate CanAdvance(s: CatfoodState) {
    s.index < s.totalShapes && s.cursor < |s.shapes|
  }

  /**
   * `NextFeature`. When the reader cannot advance it closes the layer and
   * reports exhaustion. Otherwise the index and the enumerator move on by one
   * record, and the row is composed; an error that escapes a stage closes the
   * layer and is reported with the new record index.
   */
  function NextFeature(e: Engine, s: CatfoodState): (r: Step<CatfoodState>)
    ensures r.Exhausted? <==> !CanAdvance(s)
    ensures r.Exhausted? ==> r.next == s.(layerClosed := true)
    ensures !r.Exhausted? ==> r.next.index == s.index + 1 && r.next.cursor == s.cursor + 1
    ensures !r.Exhausted? ==> r.next.(index := s.index, cursor := s.cursor, layerClosed := s.layerClosed) == s
    ensures r.Advanced? ==> !r.next.layerClosed == !s.layerClosed
    ensures r.Raised? ==> r.next.layerClosed && r.error.recordIndex == s.index + 1
    ensures r.Raised? ==> s.config.abortOnError
    ensures r.Raised? && r.error.cause.stage == Bookkeeping ==>
      r.events == [] && r.error.cause.fault == CountMismatch(s.totalShapes, s.schema.totalRecords)
    ensures r.Advanced? ==> CatfoodRow(e, s.config, s.shapes[s.cursor]) == Ok(r.row)
  {
    if CanAdvance(s) then
      var index := s.index + 1;
      var shape := s.shapes[s.cursor];
      var next := s.(index := index, cursor := s.cursor + 1);
      match Bookkeep(s.config, index, s.totalShapes, s.schema.totalRecords, s.stream)
      case Err(err) => Raised(next.(layerClosed := true), [], ReaderError(index, err))
      case Ok(events) =>
        match CatfoodRow(e, s.config, shape)
        case Err(err) => Raised(next.(layerClosed := true), events, ReaderError(index, err))
        case Ok(row) => Advanced(next, row, events)
    else Exhausted(s.(layerClosed := true))
  }

  /**
   * `Close` after the reader ran out, or after an error escaped, ends in
   * the same state as `Close` on the reader before that call, apart from the
   * record the failed call moved over: the layer `NextFeature` closed on the
   * way out is closed again by `CloseStream`.
   */
  lemma CloseAfterNextFeature(e: Engine, s: CatfoodState)
    ensures NextFeature(e, s).Exhausted? ==> CloseStream(NextFeature(e, s).next) == CloseStream(s)
    ensures NextFeature(e, s).Raised? ==>
      CloseStream(NextFeature(e, s).next) == CloseStream(s).(index := s.index + 1, cursor := s.cursor + 1)
    ensures !NextFeature(e, s).Advanced? ==> NextFeature(e, s).next.layerClosed
  {
  }

  /** The cursor bound: a reader with `0 <= index <= TotalShapes` keeps it across calls. */
  lemma CursorStaysInBounds(e: Engine, s: CatfoodState)
    requires 0 <= s.index <= s.totalShapes
    ensures 0 <= NextFeature(e, s).next.index <= s.totalShapes
  {
  }

  /**
   * A count mismatch under the tolerant policy is swallowed: the record is
   * still read, and none of its notifications fire.
   */
  lemma MismatchSkipsNotifications(e: Engine, s: CatfoodState)
    requires !s.config.abortOnError && CanAdvance(s) && s.totalShapes != s.schema.totalRecords
    ensures NextFeature(e, s).Advanced? && NextFeature(e, s).events == []
  {
  }

  /**
   * The row has exactly the columns the schema declares: `GetSchemaTable`
   * over a dBASE file with one column per attribute value describes every
   * row the abort-policy reader produces.
   */
  lemma RowMatchesSchema(e: Engine, c: Config, shape: CatShape, dbf: Dbf, s0: SchemaState)
    requires s0.table.None? && |dbf.columns| == |shape.attributes|
    requires CatfoodRow(e, c, shape).Ok?
    ensures var t := GetSchemaTable(CatfoodKind, c, Some(dbf), true, s0).value.table.value;
      |CatfoodRow(e, c, shape).value| == |t|
  {
  }

  /**
   * Against the schema, cell by cell: the attribute values sit under the
   * dBASE columns, the Polygon tag under `shapeType`, and the geography and
   * geometry under `shapeGeog` and `shapeGeom`.
   */
  lemma CellsUnderColumns(e: Engine, c: Config, shape: CatShape, dbf: Dbf, s0: SchemaState)
    requires s0.table.None? && |dbf.columns| == |shape.attributes|
    requires CatfoodRow(e, c, shape).Ok?
    ensures GetSchemaTable(CatfoodKind, c, Some(dbf), true, s0).Ok? && GetSchemaTable(CatfoodKind, c, Some(dbf), true, s0).value.table.Some?
    ensures |CatfoodRow(e, c, shape).value| == |GetSchemaTable(CatfoodKind, c, Some(dbf), true, s0).value.table.value|
    ensures var t := GetSchemaTable(CatfoodKind, c, Some(dbf), true, s0).value.table.value;
      var row := CatfoodRow(e, c, shape).value;
      var n := |shape.attributes|;
      && t[..n] == dbf.columns && row[..n] == shape.attributes
      && t[n] == ShapeTypeColumn && row[n] == TypeName(KmlPolygon)
      && (c.includeGeography ==>
            t[n + 1] == GeographyColumn
            && row[n + 1] == SpatialOrNull(PolygonUnion(e.toGeography, e.unionGeography, c.srid, shape).reached))
      && (c.includeGeometry ==>
            t[n + 1 + Count(c.includeGeography)] == GeometryColumn
            && row[n + 1 + Count(c.includeGeography)] == SpatialOrNull(PolygonUnion(e.toGeometry, e.unionGeometry, c.srid, shape).reached))
  {
    CatfoodTable(c, dbf, s0);
  }

  /** The table of this reader: the dBASE columns, `shapeType`, then `shapeGeog` and `shapeGeom` as configured. */
  lemma CatfoodTable(c: Config, dbf: Dbf, s0: SchemaState)
    requires s0.table.None?
    ensures GetSchemaTable(CatfoodKind, c, Some(dbf), true, s0).Ok? && GetSchemaTable(CatfoodKind, c, Some(dbf), true, s0).value.table.Some?
    ensures var t := GetSchemaTable(CatfoodKind, c, Some(dbf), true, s0).value.table.value;
      var n := |dbf.columns|;
      && |t| == n + 1 + Count(c.includeGeography) + Count(c.includeGeometry)
      && t[..n] == dbf.columns && t[n] == ShapeTypeColumn
      && (c.includeGeography ==> t[n + 1] == GeographyColumn)
      && (c.includeGeometry ==> t[n + 1 + Count(c.includeGeography)] == GeometryColumn)
  {
    assert AddedColumns(CatfoodKind, c) == CatfoodColumns(c);
    CatfoodTableOf(c, dbf, GetSchemaTable(CatfoodKind, c, Some(dbf), true, s0).value.table.value);
  }

  /** Any table that continues the dBASE columns with the Catfood columns. */
  lemma CatfoodTableOf(c: Config, dbf: Dbf, t: seq<ColumnDesc>)
    requires |dbf.columns| <= |t| && t[..|dbf.columns|] == dbf.columns && t[|dbf.columns|..] == CatfoodColumns(c)
    ensures var n := |dbf.columns|;
      && |t| == n + 1 + Count(c.includeGeography) + Count(c.includeGeometry)
      && t[..n] == dbf.columns && t[n] == ShapeTypeColumn
      && (c.includeGeography ==> t[n + 1] == GeographyColumn)
      && (c.includeGeometry ==> t[n + 1 + Count(c.includeGeography)] == GeometryColumn)
  {
    TailParts(t, |dbf.columns|, CatfoodColumns(c), [], |t|);
    CatfoodColumnsAt(c, t, |dbf.columns|);
  }

  /**
   * The geography cell of a polygon whose parts convert and whose unions
   * succeed is the left fold of the part values: part 0 seeds it and the
   * others are unioned in, in order. The row can still raise, from the
   * geometry stage under abort; whenever it does not, the cell is the fold.
   */
  lemma GeographyIsLeftFold(e: Engine, c: Config, shape: CatShape, values: seq<Spatial>, total: (Spatial, Spatial) -> Spatial)
    requires c.includeGeography && shape.kind == PolygonShape
    requires |values| == |shape.parts| >= 1
    requires forall k :: 0 <= k < |values| ==> e.toGeography(BuildPolygon(shape.parts[k]), c.srid) == Ok(values[k])
    requires forall a, b :: e.unionGeography(a, b) == Ok(total(a, b))
    ensures !c.includeGeometry || !c.abortOnError ==> CatfoodRow(e, c, shape).Ok?
    ensures CatfoodRow(e, c, shape).Ok? ==>
      CatfoodRow(e, c, shape).value[|shape.attributes| + 1] == SpatialValue(LeftFold(total, values[0], values[1..]))
  {
    var convert := AtSrid(e.toGeography, c.srid);
    var built := ConvertParts(convert, shape.parts);
    assert built.reached == values;
    UnionFoldIsLeftFold(e.unionGeography, total, values[0], values[1..]);
  }

  /**
   * The geometry cell is built the same way, after the geography cell when
   * that is on: the left fold of the part values under the geometry union.
   */
  lemma GeometryIsLeftFold(e: Engine, c: Config, shape: CatShape, values: seq<Spatial>, total: (Spatial, Spatial) -> Spatial)
    requires c.includeGeometry && shape.kind == PolygonShape
    requires |values| == |shape.parts| >= 1
    requires forall k :: 0 <= k < |values| ==> e.toGeometry(BuildPolygon(shape.parts[k]), c.srid) == Ok(values[k])
    requires forall a, b :: e.unionGeometry(a, b) == Ok(total(a, b))
    ensures !c.includeGeography || !c.abortOnError ==> CatfoodRow(e, c, shape).Ok?
    ensures CatfoodRow(e, c, shape).Ok? ==>
      CatfoodRow(e, c, shape).value[|shape.attributes| + 1 + Count(c.includeGeography)]
        == SpatialValue(LeftFold(total, values[0], values[1..]))
  {
    var convert := AtSrid(e.toGeometry, c.srid);
    var built := ConvertParts(convert, shape.parts);
    assert built.reached == values;
    UnionFoldIsLeftFold(e.unionGeometry, total, values[0], values[1..]);
  }

  /**
   * Under the tolerant policy a union that throws at part `k` is swallowed,
   * and the geography cell keeps the union of parts `0 .. k-1`, the value
   * the variable held when the exception was raised.
   */
  lemma GeographyKeepsPartialUnion(e: Engine, c: Config, shape: CatShape, values: seq<Spatial>, k: nat, partial: Spatial)
    requires !c.abortOnError && c.includeGeography && shape.kind == PolygonShape
    requires |values| == |shape.parts| && 1 <= k < |values|
    requires forall j :: 0 <= j < |values| ==> e.toGeography(BuildPolygon(shape.parts[j]), c.srid) == Ok(values[j])
    requires UnionFold(e.unionGeography, values[0], values[1..k]) == Attempt(partial, None)
    requires e.unionGeography(partial, values[k]).Err?
    ensures CatfoodRow(e, c, shape).Ok?
    ensures CatfoodRow(e, c, shape).value[|shape.attributes| + 1] == SpatialValue(partial)
  {
    var convert := AtSrid(e.toGeography, c.srid);
    var built := ConvertParts(convert, shape.parts);
    assert built.reached == values;
    assert values[1..] == values[1..k] + values[k..];
    UnionFoldAppend(e.unionGeography, values[0], values[1..k], values[k..]);
    assert values[k..][0] == values[k];
  }

  /** A polygon with no parts fails at the seed: under the tolerant policy its geography cell is null. */
  lemma NoPartsGivesNullGeography(e: Engine, c: Config, shape: CatShape)
    requires !c.abortOnError && c.includeGeography && shape.kind == PolygonShape && shape.parts == []
    ensures CatfoodRow(e, c, shape).Ok? && CatfoodRow(e, c, shape).value[|shape.attributes| + 1] == Null
  {
  }
}
