/**
 * `GetSchemaTable`: the dBASE columns, followed by one descriptor per cell
 * the reader promises to append, in the order of the row-composition stages.
 * The table is built once and cached.
 */
module Schema {
  import opened Common
  import opened Data

  datatype ColumnType =
    | StringType
    | GeographyType
    | GeometryType
    | DoubleType
    | Int32Type
    | BooleanType
    | DbfType(name: string)

  /** One row of the schema table: `ColumnName`, `DataType`, `ColumnOrdinal`, `IsReadOnly`. */
  datatype ColumnDesc = ColumnDesc(name: string, dataType: ColumnType, ordinal: int, readOnly: bool)

  /** The descriptor of a column the reader adds: ordinal 0 and read-only, whatever the column. */
  function Added(name: string, t: ColumnType): ColumnDesc {
    ColumnDesc(name, t, 0, true)
  }

  const ShapeTypeColumn: ColumnDesc := Added("shapeType", StringType)
  const GeographyColumn: ColumnDesc := Added("shapeGeog", GeographyType)
  const GeographyGeoJsonColumn: ColumnDesc := Added("shapeGeogAsGeoJSON", StringType)
  const GeometryColumn: ColumnDesc := Added("shapeGeom", GeometryType)
  const GeometryGeoJsonColumn: ColumnDesc := Added("shapeGeomAsGeoJSON", StringType)
  const ProjectedColumn: ColumnDesc := Added("shapeGeomProjected", GeometryType)
  const AreaColumn: ColumnDesc := Added("shapeArea", DoubleType)
  const CentroidXColumn: ColumnDesc := Added("CentroidX", DoubleType)
  const CentroidYColumn: ColumnDesc := Added("CentroidY", DoubleType)
  const ImportTimeColumn: ColumnDesc := Added("importTime", DoubleType)

  /** The added column named after a configured column with `suffix`. */
  function SuffixedColumn(name: string, suffix: string, t: ColumnType): ColumnDesc {
    Added(name + suffix, t)
  }

  /** One added column per configured column, named after it with `suffix`. */
  function Suffixed(columns: seq<string>, suffix: string, t: ColumnType): (r: seq<ColumnDesc>)
    ensures |r| == |columns|
    ensures forall i :: 0 <= i < |columns| ==> r[i] == SuffixedColumn(columns[i], suffix, t)
  {
    seq(|columns|, i requires 0 <= i < |columns| => SuffixedColumn(columns[i], suffix, t))
  }

  /** The `<col>_Number` column of an address-range column (Int32). */
  function NumberColumn(name: string): ColumnDesc {
    Added(name + "_Number", Int32Type)
  }

  /** The `<col>_Unit` column of an address-range column (String). */
  function UnitColumn(name: string): ColumnDesc {
    Added(name + "_Unit", StringType)
  }

  /** Two added columns per address-range column, the number then the unit. */
  function AddressColumns(columns: seq<string>): (r: seq<ColumnDesc>)
    ensures |r| == 2 * |columns|
    ensures forall j :: 0 <= j < |columns| ==> r[2 * j] == NumberColumn(columns[j]) && r[2 * j + 1] == UnitColumn(columns[j])
    decreases |columns|
  {
    if columns == [] then []
    else
      var rest := AddressColumns(columns[1..]);
      var r := [NumberColumn(columns[0]), UnitColumn(columns[0])] + rest;
      PairShift(columns, rest, r);
      r
  }

  lemma PairShift(columns: seq<string>, rest: seq<ColumnDesc>, r: seq<ColumnDesc>)
    requires |columns| > 0 && |rest| == 2 * (|columns| - 1)
    requires r == [NumberColumn(columns[0]), UnitColumn(columns[0])] + rest
    requires forall j :: 0 <= j < |columns| - 1 ==> rest[2 * j] == NumberColumn(columns[1..][j]) && rest[2 * j + 1] == UnitColumn(columns[1..][j])
    ensures forall j :: 0 <= j < |columns| ==> r[2 * j] == NumberColumn(columns[j]) && r[2 * j + 1] == UnitColumn(columns[j])
  {
    forall j | 0 <= j < |columns| ensures r[2 * j] == NumberColumn(columns[j]) && r[2 * j + 1] == UnitColumn(columns[j]) {
      if j > 0 {
        assert columns[1..][j - 1] == columns[j];
        assert r[2 * j] == rest[2 * (j - 1)];
        assert r[2 * j + 1] == rest[2 * (j - 1) + 1];
      }
    }
  }

  function CentroidColumns(): seq<ColumnDesc> {
    [CentroidXColumn, CentroidYColumn]
  }

  /** The columns `CatfoodShapefileDataReader` adds: the type, then the optional geography and geometry. */
  function CatfoodColumns(c: Config): (cols: seq<ColumnDesc>)
    ensures |cols| == 1 + Count(c.includeGeography) + Count(c.includeGeometry)
    ensures cols[0] == ShapeTypeColumn
    ensures c.includeGeography ==> cols[1] == GeographyColumn
    ensures c.includeGeometry ==> cols[1 + Count(c.includeGeography)] == GeometryColumn
  {
    [ShapeTypeColumn] + Optional(c.includeGeography, [GeographyColumn]) + Optional(c.includeGeometry, [GeometryColumn])
  }

  /** The projected geometry, the area and the centroid pair, each when it is on. */
  function MeasureColumns(c: Config): (cols: seq<ColumnDesc>)
    ensures |cols| == Count(c.includeGeometryProjected) + Count(c.includeArea) + 2 * Count(c.includeCentroid)
    ensures c.includeGeometryProjected ==> cols[0] == ProjectedColumn
    ensures c.includeArea ==> cols[Count(c.includeGeometryProjected)] == AreaColumn
    ensures c.includeCentroid ==>
      && cols[Count(c.includeGeometryProjected) + Count(c.includeArea)] == CentroidXColumn
      && cols[Count(c.includeGeometryProjected) + Count(c.includeArea) + 1] == CentroidYColumn
  {
    Optional(c.includeGeometryProjected, [ProjectedColumn]) + Optional(c.includeArea, [AreaColumn]) + Optional(c.includeCentroid, CentroidColumns())
  }

  /** The enrichment columns after the spatial ones, shared by the Reimers-style readers. */
  function EnrichmentColumns(c: Config): (cols: seq<ColumnDesc>)
    ensures |cols| ==
      |ActiveColumns(c.includeSoundex, c.soundexColumns)| + |ActiveColumns(c.includeSoundexDM, c.soundexDMColumns)|
      + |ActiveColumns(c.includeLineEndPoints, c.lineEndPointColumns)|
      + 2 * |ActiveColumns(c.splitAddressRanges, c.addressRangeColumns)|
      + |ActiveColumns(c.addEvenOddFlag, c.evenOddColumns)|
      + Count(c.includeGeometryProjected) + Count(c.includeArea) + 2 * Count(c.includeCentroid)
  {
    Suffixed(ActiveColumns(c.includeSoundex, c.soundexColumns), "_Soundex", StringType)
      + (Suffixed(ActiveColumns(c.includeSoundexDM, c.soundexDMColumns), "_SoundexDM", StringType)
      + (Suffixed(ActiveColumns(c.includeLineEndPoints, c.lineEndPointColumns), "", DoubleType)
      + (AddressColumns(ActiveColumns(c.splitAddressRanges, c.addressRangeColumns))
      + (Suffixed(ActiveColumns(c.addEvenOddFlag, c.evenOddColumns), "_Even", BooleanType)
      + MeasureColumns(c)))))
  }

  /**
   * The enrichment columns block by block: a `_Soundex` column per Soundex
   * column, a `_SoundexDM` column per Daitch-Mokotoff column, one `Double`
   * column per configured end-point name, a `_Number` and `_Unit` pair per
   * address-range column, an `_Even` column per even/odd column, then the
   * measure columns to the end.
   */
  lemma EnrichmentColumnsLayout(c: Config)
    ensures var en := EnrichmentColumns(c);
      && SliceAt(en, 0, Suffixed(ActiveColumns(c.includeSoundex, c.soundexColumns), "_Soundex", StringType))
      && SliceAt(en, DMStart(c, 0), Suffixed(ActiveColumns(c.includeSoundexDM, c.soundexDMColumns), "_SoundexDM", StringType))
      && SliceAt(en, PhoneticEnd(c, 0), Suffixed(ActiveColumns(c.includeLineEndPoints, c.lineEndPointColumns), "", DoubleType))
      && SliceAt(en, EndPointsEnd(c, 0), AddressColumns(ActiveColumns(c.splitAddressRanges, c.addressRangeColumns)))
      && SliceAt(en, AddressEnd(c, 0), Suffixed(ActiveColumns(c.addEvenOddFlag, c.evenOddColumns), "_Even", BooleanType))
      && SliceAt(en, ParityEnd(c, 0), MeasureColumns(c)) && ParityEnd(c, 0) + |MeasureColumns(c)| == |en|
  {
    Blocks(EnrichmentColumns(c),
      Suffixed(ActiveColumns(c.includeSoundex, c.soundexColumns), "_Soundex", StringType),
      Suffixed(ActiveColumns(c.includeSoundexDM, c.soundexDMColumns), "_SoundexDM", StringType),
      Suffixed(ActiveColumns(c.includeLineEndPoints, c.lineEndPointColumns), "", DoubleType),
      AddressColumns(ActiveColumns(c.splitAddressRanges, c.addressRangeColumns)),
      Suffixed(ActiveColumns(c.addEvenOddFlag, c.evenOddColumns), "_Even", BooleanType),
      MeasureColumns(c),
      DMStart(c, 0), PhoneticEnd(c, 0), EndPointsEnd(c, 0), AddressEnd(c, 0), ParityEnd(c, 0));
  }

  /** Where each of six consecutive blocks sits in their concatenation `cols`, given the running sums of their lengths. */
  lemma Blocks<T>(cols: seq<T>, s: seq<T>, d: seq<T>, ep: seq<T>, ad: seq<T>, eo: seq<T>, m: seq<T>,
                  p1: nat, p2: nat, p3: nat, p4: nat, p5: nat)
    requires cols == s + (d + (ep + (ad + (eo + m))))
    requires p1 == |s| && p2 == p1 + |d| && p3 == p2 + |ep| && p4 == p3 + |ad| && p5 == p4 + |eo|
    ensures SliceAt(cols, 0, s) && SliceAt(cols, p1, d) && SliceAt(cols, p2, ep)
    ensures SliceAt(cols, p3, ad) && SliceAt(cols, p4, eo) && SliceAt(cols, p5, m) && p5 + |m| == |cols|
  {
    SlicesOfAppend(s, d + (ep + (ad + (eo + m))));
    SliceParts(cols, p1, d, ep + (ad + (eo + m)));
    SliceParts(cols, p2, ep, ad + (eo + m));
    SliceParts(cols, p3, ad, eo + m);
    SliceParts(cols, p4, eo, m);
  }

  /**
   * A table holding the enrichment columns from position `m` holds each
   * block of `EnrichmentColumnsLayout` at the same offset from `m`.
   */
  lemma EnrichmentBlocksAt(c: Config, t: seq<ColumnDesc>, m: nat)
    requires SliceAt(t, m, EnrichmentColumns(c))
    ensures SliceAt(t, m, Suffixed(ActiveColumns(c.includeSoundex, c.soundexColumns), "_Soundex", StringType))
    ensures SliceAt(t, DMStart(c, m), Suffixed(ActiveColumns(c.includeSoundexDM, c.soundexDMColumns), "_SoundexDM", StringType))
    ensures SliceAt(t, PhoneticEnd(c, m), Suffixed(ActiveColumns(c.includeLineEndPoints, c.lineEndPointColumns), "", DoubleType))
    ensures SliceAt(t, EndPointsEnd(c, m), AddressColumns(ActiveColumns(c.splitAddressRanges, c.addressRangeColumns)))
    ensures SliceAt(t, AddressEnd(c, m), Suffixed(ActiveColumns(c.addEvenOddFlag, c.evenOddColumns), "_Even", BooleanType))
    ensures SliceAt(t, ParityEnd(c, m), MeasureColumns(c)) && ParityEnd(c, m) + |MeasureColumns(c)| == m + |EnrichmentColumns(c)|
  {
    var en := EnrichmentColumns(c);
    EnrichmentColumnsLayout(c);
    SliceWithin(t, m, en, 0, Suffixed(ActiveColumns(c.includeSoundex, c.soundexColumns), "_Soundex", StringType), m);
    SliceWithin(t, m, en, DMStart(c, 0), Suffixed(ActiveColumns(c.includeSoundexDM, c.soundexDMColumns), "_SoundexDM", StringType), DMStart(c, m));
    SliceWithin(t, m, en, PhoneticEnd(c, 0), Suffixed(ActiveColumns(c.includeLineEndPoints, c.lineEndPointColumns), "", DoubleType), PhoneticEnd(c, m));
    SliceWithin(t, m, en, EndPointsEnd(c, 0), AddressColumns(ActiveColumns(c.splitAddressRanges, c.addressRangeColumns)), EndPointsEnd(c, m));
    SliceWithin(t, m, en, AddressEnd(c, 0), Suffixed(ActiveColumns(c.addEvenOddFlag, c.evenOddColumns), "_Even", BooleanType), AddressEnd(c, m));
    SliceWithin(t, m, en, ParityEnd(c, 0), MeasureColumns(c), ParityEnd(c, m));
  }

  /** Without end-point, address-range or even/odd columns, the measure block follows the phonetic ones. */
  lemma NoUnrunBlocks(c: Config, m: nat)
    requires ActiveColumns(c.includeLineEndPoints, c.lineEndPointColumns) == []
    requires ActiveColumns(c.splitAddressRanges, c.addressRangeColumns) == []
    requires ActiveColumns(c.addEvenOddFlag, c.evenOddColumns) == []
    ensures ParityEnd(c, m) == PhoneticEnd(c, m)
  {
  }

  /** Each column of a `Suffixed` block placed at `start`. */
  lemma SuffixedAt(t: seq<ColumnDesc>, start: nat, names: seq<string>, suffix: string, ty: ColumnType, j: nat)
    requires SliceAt(t, start, Suffixed(names, suffix, ty)) && j < |names|
    ensures t[start + j] == SuffixedColumn(names[j], suffix, ty)
  {
    SliceIndex(t, start, Suffixed(names, suffix, ty), j, start + j);
  }

  /** The columns `ExtendedShapefileDataReader` and `ExtendedSharpMapShapefileDataReader` add. */
  function ExtendedColumns(c: Config): (cols: seq<ColumnDesc>)
    ensures |cols| == |CatfoodColumns(c)| + |EnrichmentColumns(c)|
    ensures cols[0] == ShapeTypeColumn
    ensures c.includeGeography ==> cols[1] == GeographyColumn
    ensures c.includeGeometry ==> cols[1 + Count(c.includeGeography)] == GeometryColumn
    ensures cols[1 + Count(c.includeGeography) + Count(c.includeGeometry)..] == EnrichmentColumns(c)
  {
    CatfoodColumns(c) + EnrichmentColumns(c)
  }

  /** How many columns the spatial stages of the extended Catfood reader declare after the type. */
  function SpatialColumnCount(c: Config): nat {
    Count(c.includeGeography) + Count(c.includeGeographyGeoJson) + Count(c.includeGeometry) + Count(c.includeGeometryGeoJson)
  }

  /** The type column, then each spatial column of the extended Catfood reader followed by its GeoJSON column. */
  function SpatialColumns(c: Config): (cols: seq<ColumnDesc>)
    ensures |cols| == 1 + SpatialColumnCount(c)
    ensures cols[0] == ShapeTypeColumn
    ensures c.includeGeography ==> cols[1] == GeographyColumn
    ensures c.includeGeographyGeoJson ==> cols[1 + Count(c.includeGeography)] == GeographyGeoJsonColumn
    ensures c.includeGeometry ==> cols[1 + Count(c.includeGeography) + Count(c.includeGeographyGeoJson)] == GeometryColumn
    ensures c.includeGeometryGeoJson ==>
      cols[1 + Count(c.includeGeography) + Count(c.includeGeographyGeoJson) + Count(c.includeGeometry)] == GeometryGeoJsonColumn
  {
    LeadingOptionals(ShapeTypeColumn, GeographyColumn, c.includeGeography, GeographyGeoJsonColumn, c.includeGeographyGeoJson,
      GeometryColumn, c.includeGeometry, GeometryGeoJsonColumn, c.includeGeometryGeoJson, []);
    [ShapeTypeColumn]
      + Optional(c.includeGeography, [GeographyColumn])
      + Optional(c.includeGeographyGeoJson, [GeographyGeoJsonColumn])
      + Optional(c.includeGeometry, [GeometryColumn])
      + Optional(c.includeGeometryGeoJson, [GeometryGeoJsonColumn])
      + []
  }

  /**
   * The columns `ExtendedCatfoodShapefileDataReader` adds: a GeoJSON column
   * after each spatial one, the shared enrichment columns, and the import time
   * last.
   */
  function ExtendedCatfoodColumns(c: Config): (cols: seq<ColumnDesc>)
    ensures |cols| == |ExtendedColumns(c)| + Count(c.includeGeographyGeoJson) + Count(c.includeGeometryGeoJson) + Count(c.includeImportTime)
    ensures cols[..1 + SpatialColumnCount(c)] == SpatialColumns(c)
    ensures cols[1 + SpatialColumnCount(c)..1 + SpatialColumnCount(c) + |EnrichmentColumns(c)|] == EnrichmentColumns(c)
    ensures c.includeImportTime ==> cols[|cols| - 1] == ImportTimeColumn
  {
    var sp := SpatialColumns(c);
    var en := EnrichmentColumns(c);
    var imp := Optional(c.includeImportTime, [ImportTimeColumn]);
    ThreeParts(sp, en, imp);
    sp + en + imp
  }

  lemma ThreeParts(a: seq<ColumnDesc>, b: seq<ColumnDesc>, d: seq<ColumnDesc>)
    ensures |a + b + d| == |a| + |b| + |d|
    ensures (a + b + d)[..|a|] == a
    ensures (a + b + d)[|a|..|a| + |b|] == b
    ensures |d| > 0 ==> (a + b + d)[|a + b + d| - 1] == d[|d| - 1]
  {
    assert (a + b + d)[..|a|] == a;
    assert (a + b + d)[|a|..|a| + |b|] == b;
  }

  /** Where each of a leading element and four optional ones sits, whichever are present. */
  lemma LeadingOptionals<T>(a: T, b: T, bf: bool, c: T, cf: bool, d: T, df: bool, e: T, ef: bool, rest: seq<T>)
    ensures var s := [a] + Optional(bf, [b]) + Optional(cf, [c]) + Optional(df, [d]) + Optional(ef, [e]) + rest;
      && s[0] == a
      && (bf ==> s[1] == b)
      && (cf ==> s[1 + Count(bf)] == c)
      && (df ==> s[1 + Count(bf) + Count(cf)] == d)
      && (ef ==> s[1 + Count(bf) + Count(cf) + Count(df)] == e)
      && s[1 + Count(bf) + Count(cf) + Count(df) + Count(ef)..] == rest
  {
  }

  /** The basic reader's columns are the first columns of the extended readers' schema. */
  lemma CatfoodColumnsArePrefix(c: Config)
    ensures CatfoodColumns(c) <= ExtendedColumns(c)
  {
  }

  /**
   * Without the GeoJSON and import-time columns, the extended Catfood reader
   * declares exactly the columns of the other extended readers.
   */
  lemma ExtendedCatfoodWithoutExtras(c: Config)
    requires !c.includeGeographyGeoJson && !c.includeGeometryGeoJson && !c.includeImportTime
    ensures ExtendedCatfoodColumns(c) == ExtendedColumns(c)
  {
    var en := EnrichmentColumns(c);
    SpatialWithoutGeoJson(c);
    DropEmpty(SpatialColumns(c), en, Optional(c.includeImportTime, [ImportTimeColumn]), CatfoodColumns(c));
  }

  /** Without the GeoJSON columns, the spatial columns are those of the Catfood reader. */
  lemma SpatialWithoutGeoJson(c: Config)
    requires !c.includeGeographyGeoJson && !c.includeGeometryGeoJson
    ensures SpatialColumns(c) == CatfoodColumns(c)
  {
    DropEmpties([ShapeTypeColumn], Optional(c.includeGeography, [GeographyColumn]), Optional(c.includeGeographyGeoJson, [GeographyGeoJsonColumn]),
      Optional(c.includeGeometry, [GeometryColumn]), Optional(c.includeGeometryGeoJson, [GeometryGeoJsonColumn]));
  }

  lemma DropEmpty(sp: seq<ColumnDesc>, en: seq<ColumnDesc>, imp: seq<ColumnDesc>, cat: seq<ColumnDesc>)
    requires imp == [] && sp == cat
    ensures sp + en + imp == cat + en
  {
  }

  lemma DropEmpties(a: seq<ColumnDesc>, g: seq<ColumnDesc>, gj: seq<ColumnDesc>, m: seq<ColumnDesc>, mj: seq<ColumnDesc>)
    requires gj == [] && mj == []
    ensures a + g + gj + m + mj + [] == a + g + m
  {
  }


  /** The last declared column, when the import time is on, is `importTime`. */
  lemma ImportTimeColumnIsLast(c: Config)
    requires c.includeImportTime
    ensures var cols := ExtendedCatfoodColumns(c); |cols| > 0 && cols[|cols| - 1] == ImportTimeColumn
  {
  }

  // ---- building and caching --------------------------------------------------

  datatype ReaderKind = CatfoodKind | ExtendedKind | SharpMapKind | ExtendedCatfoodKind

  /** The columns each reader adds after the dBASE columns. */
  function AddedColumns(kind: ReaderKind, c: Config): seq<ColumnDesc> {
    match kind
    case CatfoodKind => CatfoodColumns(c)
    case ExtendedKind => ExtendedColumns(c)
    case SharpMapKind => ExtendedColumns(c)
    case ExtendedCatfoodKind => ExtendedCatfoodColumns(c)
  }

  /** The `.dbf` file next to the `.shp` file: its column descriptors and its record count. */
  datatype Dbf = Dbf(columns: seq<ColumnDesc>, recordCount: int)

  /** The cached `SchemaTable` (`None` while it is null) and `TotalRecordCount`. */
  datatype SchemaState = SchemaState(table: Option<seq<ColumnDesc>>, totalRecords: int)

  /**
   * `GetSchemaTable`. A cached table is returned as it is. Otherwise, when
   * the `.dbf` file exists, its columns and record count are read (only a
   * 32-bit process can) and the reader's columns appended; when it does not,
   * the table stays null.
   */
  function GetSchemaTable(kind: ReaderKind, c: Config, dbf: Option<Dbf>, is32Bit: bool, s: SchemaState): (r: Result<SchemaState, Fault>)
    ensures r.Err? <==> s.table.None? && dbf.Some? && !is32Bit
    ensures r.Err? ==> r.error == WrongPlatform
    ensures s.table.Some? ==> r == Ok(s)
    ensures r.Ok? && r.value.table.None? ==> r.value == s
    ensures r.Ok? && s.table.None? && r.value.table.Some? ==>
      && dbf.Some?
      && |dbf.value.columns| <= |r.value.table.value|
      && r.value.table.value[..|dbf.value.columns|] == dbf.value.columns
      && r.value.table.value[|dbf.value.columns|..] == AddedColumns(kind, c)
      && r.value.totalRecords == dbf.value.recordCount
  {
    if s.table.Some? then Ok(s)
    else if dbf.None? then Ok(s)
    else if !is32Bit then Err(WrongPlatform)
    else
      var cols := dbf.value.columns + AddedColumns(kind, c);
      assert cols[..|dbf.value.columns|] == dbf.value.columns;
      Ok(SchemaState(Some(cols), dbf.value.recordCount))
  }

  /** Calling `GetSchemaTable` again changes nothing: the columns are never appended twice. */
  lemma GetSchemaTableIdempotent(kind: ReaderKind, c: Config, dbf: Option<Dbf>, is32Bit: bool, s: SchemaState)
    requires GetSchemaTable(kind, c, dbf, is32Bit, s).Ok?
    ensures var s1 := GetSchemaTable(kind, c, dbf, is32Bit, s).value;
      GetSchemaTable(kind, c, dbf, is32Bit, s1) == Ok(s1)
  {
  }

  /**
   * The table of the extended and SharpMap readers, freshly built from a
   * `.dbf` file: the dBASE columns, the Catfood columns (`shapeType`, then
   * `shapeGeog` and `shapeGeom` when enabled, as `CatfoodColumnsAt` spells
   * out), then the enrichment columns to the end.
   */
  lemma ExtendedTableLayout(kind: ReaderKind, c: Config, dbf: Dbf, s0: SchemaState)
    requires kind == ExtendedKind || kind == SharpMapKind
    requires s0.table.None?
    ensures GetSchemaTable(kind, c, Some(dbf), true, s0).Ok? && GetSchemaTable(kind, c, Some(dbf), true, s0).value.table.Some?
    ensures var t := GetSchemaTable(kind, c, Some(dbf), true, s0).value.table.value;
      var n := |dbf.columns|;
      && |t| == SpatialEnd(c, n) + |EnrichmentColumns(c)|
      && t[..n] == dbf.columns
      && SliceAt(t, n, CatfoodColumns(c))
      && SliceAt(t, SpatialEnd(c, n), EnrichmentColumns(c))
  {
    var t := GetSchemaTable(kind, c, Some(dbf), true, s0).value.table.value;
    var n := |dbf.columns|;
    assert AddedColumns(kind, c) == CatfoodColumns(c) + EnrichmentColumns(c);
    TailParts(t, n, CatfoodColumns(c), EnrichmentColumns(c), SpatialEnd(c, n));
  }

  /** A table whose columns from `n` on are `x + y`: `x` at `n`, then `y` at `m` to the end. */
  lemma TailParts(t: seq<ColumnDesc>, n: nat, x: seq<ColumnDesc>, y: seq<ColumnDesc>, m: nat)
    requires n <= |t| && t[n..] == x + y && m == n + |x|
    ensures SliceAt(t, n, x) && SliceAt(t, m, y) && |t| == m + |y|
  {
    assert SliceAt(t, n, x + y);
    SliceParts(t, n, x, y);
  }

  /** The Catfood columns placed at `n`: `shapeType`, then `shapeGeog` and `shapeGeom` when enabled. */
  lemma CatfoodColumnsAt(c: Config, t: seq<ColumnDesc>, n: nat)
    requires SliceAt(t, n, CatfoodColumns(c))
    ensures t[n] == ShapeTypeColumn
    ensures c.includeGeography ==> t[n + 1] == GeographyColumn
    ensures c.includeGeometry ==> t[n + 1 + Count(c.includeGeography)] == GeometryColumn
  {
    SliceIndex(t, n, CatfoodColumns(c), 0, n);
    if c.includeGeography {
      SliceIndex(t, n, CatfoodColumns(c), 1, n + 1);
    }
    if c.includeGeometry {
      SliceIndex(t, n, CatfoodColumns(c), 1 + Count(c.includeGeography), n + 1 + Count(c.includeGeography));
    }
  }

  /**
   * The enrichment blocks in the table of the extended and SharpMap
   * readers: from the first position past the spatial columns, the
   * `_Soundex`, `_SoundexDM`, end-point, address-range and `_Even` blocks,
   * then the measure columns to the end of the table.
   */
  lemma ExtendedTableBlocks(kind: ReaderKind, c: Config, dbf: Dbf, s0: SchemaState)
    requires kind == ExtendedKind || kind == SharpMapKind
    requires s0.table.None?
    ensures GetSchemaTable(kind, c, Some(dbf), true, s0).Ok? && GetSchemaTable(kind, c, Some(dbf), true, s0).value.table.Some?
    ensures var t := GetSchemaTable(kind, c, Some(dbf), true, s0).value.table.value;
      var m := SpatialEnd(c, |dbf.columns|);
      && SliceAt(t, m, Suffixed(ActiveColumns(c.includeSoundex, c.soundexColumns), "_Soundex", StringType))
      && SliceAt(t, DMStart(c, m), Suffixed(ActiveColumns(c.includeSoundexDM, c.soundexDMColumns), "_SoundexDM", StringType))
      && SliceAt(t, PhoneticEnd(c, m), Suffixed(ActiveColumns(c.includeLineEndPoints, c.lineEndPointColumns), "", DoubleType))
      && SliceAt(t, EndPointsEnd(c, m), AddressColumns(ActiveColumns(c.splitAddressRanges, c.addressRangeColumns)))
      && SliceAt(t, AddressEnd(c, m), Suffixed(ActiveColumns(c.addEvenOddFlag, c.evenOddColumns), "_Even", BooleanType))
      && SliceAt(t, ParityEnd(c, m), MeasureColumns(c)) && ParityEnd(c, m) + |MeasureColumns(c)| == |t|
  {
    ExtendedTableLayout(kind, c, dbf, s0);
    EnrichmentBlocksAt(c, GetSchemaTable(kind, c, Some(dbf), true, s0).value.table.value, SpatialEnd(c, |dbf.columns|));
  }

  /** Where the geometry column of the extended Catfood table sits, past the type and the geography pair. */
  function GeometryStart(c: Config, n: nat): nat {
    n + 1 + Count(c.includeGeography) + Count(c.includeGeographyGeoJson)
  }

  /** Past the type, spatial and GeoJSON columns of the extended Catfood table, for `n` dBASE columns. */
  function GeoJsonSpatialEnd(c: Config, n: nat): nat {
    n + 1 + SpatialColumnCount(c)
  }

  /** A table whose added part is the extended Catfood columns: the spatial columns, then the enrichment block. */
  lemma ExtendedCatfoodTableOf(c: Config, dbf: Dbf, t: seq<ColumnDesc>)
    requires |dbf.columns| <= |t| && t[|dbf.columns|..] == ExtendedCatfoodColumns(c)
    ensures SliceAt(t, |dbf.columns|, SpatialColumns(c))
    ensures SliceAt(t, GeoJsonSpatialEnd(c, |dbf.columns|), EnrichmentColumns(c))
  {
    TailSlices(t, |dbf.columns|, ExtendedCatfoodColumns(c), SpatialColumns(c), 1 + SpatialColumnCount(c), EnrichmentColumns(c),
      GeoJsonSpatialEnd(c, |dbf.columns|));
  }

  /**
   * The table of the extended Catfood reader: the dBASE columns, the spatial
   * columns with their GeoJSON columns, then the enrichment block.
   */
  lemma ExtendedCatfoodTableLayout(c: Config, dbf: Dbf, s0: SchemaState)
    requires s0.table.None?
    ensures GetSchemaTable(ExtendedCatfoodKind, c, Some(dbf), true, s0).Ok?
    ensures GetSchemaTable(ExtendedCatfoodKind, c, Some(dbf), true, s0).value.table.Some?
    ensures var t := GetSchemaTable(ExtendedCatfoodKind, c, Some(dbf), true, s0).value.table.value;
      && t[..|dbf.columns|] == dbf.columns
      && SliceAt(t, |dbf.columns|, SpatialColumns(c))
      && SliceAt(t, GeoJsonSpatialEnd(c, |dbf.columns|), EnrichmentColumns(c))
  {
    assert AddedColumns(ExtendedCatfoodKind, c) == ExtendedCatfoodColumns(c);
    ExtendedCatfoodTableOf(c, dbf, GetSchemaTable(ExtendedCatfoodKind, c, Some(dbf), true, s0).value.table.value);
  }

  /** The spatial columns placed at `n`: `shapeType`, then each spatial column and its GeoJSON column when enabled. */
  lemma SpatialColumnsAt(c: Config, t: seq<ColumnDesc>, n: nat)
    requires SliceAt(t, n, SpatialColumns(c))
    ensures t[n] == ShapeTypeColumn
    ensures c.includeGeography ==> t[n + 1] == GeographyColumn
    ensures c.includeGeographyGeoJson ==> t[n + 1 + Count(c.includeGeography)] == GeographyGeoJsonColumn
    ensures c.includeGeometry ==> t[GeometryStart(c, n)] == GeometryColumn
    ensures c.includeGeometryGeoJson ==>
      t[GeometryStart(c, n) + Count(c.includeGeometry)] == GeometryGeoJsonColumn
  {
    SliceIndex(t, n, SpatialColumns(c), 0, n);
    if c.includeGeography {
      SliceIndex(t, n, SpatialColumns(c), 1, n + 1);
    }
    if c.includeGeographyGeoJson {
      SliceIndex(t, n, SpatialColumns(c), 1 + Count(c.includeGeography), n + 1 + Count(c.includeGeography));
    }
    if c.includeGeometry {
      SliceIndex(t, n, SpatialColumns(c), 1 + Count(c.includeGeography) + Count(c.includeGeographyGeoJson),
        GeometryStart(c, n));
    }
    if c.includeGeometryGeoJson {
      SliceIndex(t, n, SpatialColumns(c), 1 + Count(c.includeGeography) + Count(c.includeGeographyGeoJson) + Count(c.includeGeometry),
        GeometryStart(c, n) + Count(c.includeGeometry));
    }
  }

  /**
   * The enrichment blocks in the table of the extended Catfood reader: from
   * the first position past the GeoJSON columns, the `_Soundex`, `_SoundexDM`,
   * end-point, address-range and `_Even` blocks, then the measure columns.
   */
  lemma ExtendedCatfoodTableBlocks(c: Config, dbf: Dbf, s0: SchemaState)
    requires s0.table.None?
    ensures GetSchemaTable(ExtendedCatfoodKind, c, Some(dbf), true, s0).Ok?
    ensures GetSchemaTable(ExtendedCatfoodKind, c, Some(dbf), true, s0).value.table.Some?
    ensures var t := GetSchemaTable(ExtendedCatfoodKind, c, Some(dbf), true, s0).value.table.value;
      var m := GeoJsonSpatialEnd(c, |dbf.columns|);
      && SliceAt(t, m, Suffixed(ActiveColumns(c.includeSoundex, c.soundexColumns), "_Soundex", StringType))
      && SliceAt(t, DMStart(c, m), Suffixed(ActiveColumns(c.includeSoundexDM, c.soundexDMColumns), "_SoundexDM", StringType))
      && SliceAt(t, PhoneticEnd(c, m), Suffixed(ActiveColumns(c.includeLineEndPoints, c.lineEndPointColumns), "", DoubleType))
      && SliceAt(t, EndPointsEnd(c, m), AddressColumns(ActiveColumns(c.splitAddressRanges, c.addressRangeColumns)))
      && SliceAt(t, AddressEnd(c, m), Suffixed(ActiveColumns(c.addEvenOddFlag, c.evenOddColumns), "_Even", BooleanType))
      && SliceAt(t, ParityEnd(c, m), MeasureColumns(c))
  {
    ExtendedCatfoodTableLayout(c, dbf, s0);
    EnrichmentBlocksAt(c, GetSchemaTable(ExtendedCatfoodKind, c, Some(dbf), true, s0).value.table.value, GeoJsonSpatialEnd(c, |dbf.columns|));
  }

  // ---- column lookup ---------------------------------------------------------

  /** The first position of a column called `name`, or -1. */
  function FirstNamed(cols: seq<ColumnDesc>, name: string): (r: int)
    ensures -1 <= r < |cols|
    ensures r >= 0 ==> cols[r].name == name && forall j :: 0 <= j < r ==> cols[j].name != name
    ensures r < 0 ==> forall j :: 0 <= j < |cols| ==> cols[j].name != name
    decreases |cols|
  {
    if cols == [] then -1
    else if cols[0].name == name then 0
    else
      var r := FirstNamed(cols[1..], name);
      if r < 0 then -1 else r + 1
  }

  /**
   * `GetOrdinal(name)`: the position of the first schema column with that
   * name. A missing name is an error, and so is a null schema table.
   */
  function Ordinal(table: Option<seq<ColumnDesc>>, name: string): (r: Result<nat, Fault>)
    ensures table.None? ==> r == Err(NullReference)
    ensures table.Some? ==> (r.Ok? <==> exists i :: 0 <= i < |table.value| && table.value[i].name == name)
    ensures table.Some? && r.Err? ==> r.error == ColumnNotFound(name)
    ensures r.Ok? ==> table.Some? && r.value < |table.value| && table.value[r.value].name == name
    ensures r.Ok? ==> forall j :: 0 <= j < r.value ==> table.value[j].name != name
  {
    match table
    case None => Err(NullReference)
    case Some(cols) =>
      var i := FirstNamed(cols, name);
      if i < 0 then Err(ColumnNotFound(name)) else Ok(i)
  }
}
