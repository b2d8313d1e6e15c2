# Shapefile data readers: row composition and schema

The readers turn each shapefile record into one output row for a bulk
loader. They stream the shapes, pair each shape with its dBASE attribute
row, and append extra columns. The extra columns are:

- the KML shape-type name;
- the SQL Server geography and geometry built from the shape's parts;
- optionally, the polygon lists behind them (the "GeoJSON" columns);
- Soundex and Daitch-Mokotoff Soundex codes of named columns;
- line end points;
- split address ranges and even/odd flags;
- the Albers-projected geometry, the area and the centroid;
- the time spent on the record.

Every stage sits in its own try/catch. Under `ShouldAbortOnError` a fault
escapes `NextFeature` wrapped with the stage. Otherwise it is swallowed, and
the row keeps whatever the stage had appended. `GetSchemaTable` declares the
columns the readers add after the dBASE columns.

The model covers four readers:

| reader | module |
|---|---|
| `CatfoodShapefileDataReader` | `CatfoodReader` |
| `ExtendedShapefileDataReader` (Reimers record parser) | `ExtendedReader` |
| `ExtendedSharpMapShapefileDataReader` | `SharpMapReader` |
| `ExtendedCatfoodShapefileDataReader` | `ExtendedCatfoodReader` |

The extended Catfood reader's functions take a `GeometryBuild`. `AsWritten` is
the geometry stage as the source has it: it sets the geometry polygon list to
an empty list, so the geometry GeoJSON stage never runs (see Findings).
`Corrected` leaves the list null, as the geography stage does. The two builds
compose the same rows unless both geometry stages are on.

Each reader's `NextFeature` is a pure function from the reader state to a
`Step`:

- `Advanced` with the row and the notifications fired;
- `Exhausted`;
- `Raised` with the escaping error.

The shared modules:

- `Common`: results and the catch-block combinator `Settle`.
- `Data`: cells, shapes and the configuration.
- `Text`: `Trim`, `Split` and the integer parse.
- `Progress`: the notifications and `PercentShapesStreamed`.
- `Schema`: the added columns, `GetSchemaTable` and `GetOrdinal`.
- `Geo`: the spatial library's operations as parameters, and the part-union loop.
- `Stages`: one function per enrichment stage.
- `Pipeline`: the stages inside their catch blocks.

Each stage returns an `Attempt`: the value its variables held when it
finished or threw, and what it threw. This is how the model keeps the
partial results that the tolerant policy keeps.

## Model

| member | source | states |
|---|---|---|
| Common.Settle | src/Main/ExtendedShapefileDataReader.cs:366-372 | A stage's catch block raises exactly when the policy is abort and the stage threw, and the error carries the stage and the fault; otherwise the row keeps the state the stage reached |
| Data.Nulls | src/Main/ExtendedShapefileDataReader.cs:190 | A fresh attribute array of the field count has every slot unset |
| Data.FillRow | src/Main/ExtendedShapefileDataReader.cs:190-194 | The attribute array has the field count, holds the dBASE row's values in order, and leaves the slots past the row unset |
| Text.Leading | src/Main/ExtendedShapefileDataReader.cs:223 | The count of leading white space stops at the first non-space character |
| Text.Trailing | src/Main/ExtendedShapefileDataReader.cs:223 | The count of trailing white space stops at the last non-space character |
| Text.Trim | src/Main/ExtendedShapefileDataReader.cs:223 | A trimmed string is no longer than its input, is empty exactly when the input is all white space, and otherwise starts and ends with a non-space |
| Text.TrimFacts | src/Main/ExtendedShapefileDataReader.cs:223 | Trim is TrimEnd after TrimStart, and what both remove is white space |
| Text.TrimIsInfix | src/Main/ExtendedShapefileDataReader.cs:223 | The trimmed string is the infix of the input between an all-white-space prefix and an all-white-space suffix |
| Text.TrimIdempotent | src/Main/ExtendedShapefileDataReader.cs:223 | Trimming a trimmed string changes nothing |
| Text.IndexOf | src/Main/ExtendedShapefileDataReader.cs:487 | IndexOf is non-negative exactly when the character occurs, and then names its first occurrence |
| Text.Split | src/Main/ExtendedShapefileDataReader.cs:489 | Split yields at least one piece and no piece holds the separator |
| Text.JoinSplit | src/Main/ExtendedShapefileDataReader.cs:489 | Joining the pieces of a split with the separator gives the string back |
| Text.SplitCount | src/Main/ExtendedShapefileDataReader.cs:489-490 | A split yields one more piece than the string has separators |
| Text.SplitJoin | src/Main/ExtendedShapefileDataReader.cs:489 | Pieces free of the separator come back unchanged from a split of their join |
| Text.ParseInt | src/Main/ExtendedShapefileDataReader.cs:481-483 | An accepted integer lies in the 32-bit range and has no '-' after its first character |
| Text.NatToDecimal | src/Main/ExtendedShapefileDataReader.cs:481 | The decimal notation of a natural number is a non-empty string of digits |
| Text.DigitsOfDecimal | src/Main/ExtendedShapefileDataReader.cs:483 | The digits of a natural number's decimal notation read back as that number |
| Text.ParseIntToDecimal | src/Main/ExtendedShapefileDataReader.cs:481-483 | Parsing the decimal notation of any 32-bit integer gives the integer back |
| Text.NoDashInDecimal | src/Main/ExtendedShapefileDataReader.cs:487-489 | A natural number's decimal notation holds no dash |
| Progress.Notifications | src/Main/CatfoodShapefileDataReader.cs:186-214 | RecordsRead fires exactly when it has a handler and the record fires (every record when NotifyAfter <= 0, else every NotifyAfter-th); the same for PercentRead; nothing else is fired; RecordsRead comes first |
| Progress.CheckedNotifications | src/Main/CatfoodShapefileDataReader.cs:180-214 | The block throws exactly when the shape and record counts differ, and then before any notification; otherwise it fires the notifications |
| Progress.FiringCountValue | src/Main/CatfoodShapefileDataReader.cs:186-198 | Over the first n records the notifications fire n / NotifyAfter times when NotifyAfter is positive, and n times otherwise |
| Progress.PercentShapesStreamed | src/Main/CatfoodShapefileDataReader.cs:90-96 | The fraction is 0 without a stream; it is finite exactly when the stream is non-empty, and it then satisfies fraction times length equals position; when the position is within the stream (position at most length) it lies in [0, 1], and below 1 when the position is short of the length |
| Schema.Suffixed | src/Main/ExtendedShapefileDataReader.cs:806-822 | One added column per configured column, named after it with the suffix and of the stage's type |
| Schema.AddressColumns | src/Main/ExtendedShapefileDataReader.cs:860-883 | Two added columns per address column, `<col>_Number` (Int32) then `<col>_Unit` (String) |
| Schema.CatfoodColumns | src/Main/CatfoodShapefileDataReader.cs:471-503 | The basic reader adds `shapeType` first, then `shapeGeog` when the geography is on, then `shapeGeom` when the geometry is on, and nothing else |
| Schema.MeasureColumns | src/Main/ExtendedShapefileDataReader.cs:903-939 | `shapeGeomProjected`, `shapeArea`, then `CentroidX` and `CentroidY`, each only when its stage is on, in that order |
| Schema.EnrichmentColumns | src/Main/ExtendedShapefileDataReader.cs:806-939 | The enrichment columns number one per Soundex and Soundex DM column, one per end-point name, two per address column, one per even/odd column, and one each for projection and area and two for the centroid |
| Schema.EnrichmentColumnsLayout | src/Main/ExtendedShapefileDataReader.cs:806-939 | Block by block: a `_Soundex` column per Soundex column, a `_SoundexDM` column per DM column, a Double column per end-point name, `_Number` and `_Unit` per address column, `_Even` per even/odd column, then the measure columns to the end |
| Schema.EnrichmentBlocksAt | src/Main/ExtendedShapefileDataReader.cs:806-939 | Wherever a table holds the enrichment columns, each block sits at the same offset from their start |
| Schema.NoUnrunBlocks | src/Main/ExtendedSharpMapShapefileDataReader.cs:778-838 | Without end-point, address or even/odd columns the measure columns follow the phonetic columns directly |
| Schema.SuffixedAt | src/Main/ExtendedShapefileDataReader.cs:806-822 | Column j of a suffixed block is the j-th configured name with the suffix and the stage's type |
| Schema.ExtendedColumns | src/Main/ExtendedShapefileDataReader.cs:772-939 | The two Reimers-style readers declare `shapeType`, `shapeGeog` and `shapeGeom` as the basic reader does, then the enrichment columns |
| Schema.SpatialColumns | src/Main/ExtendedCatfoodShapefileDataReader.cs:829-880 | `shapeType`, then `shapeGeog`, `shapeGeogAsGeoJSON`, `shapeGeom` and `shapeGeomAsGeoJSON`, each when it is on, in that order |
| Schema.SpatialWithoutGeoJson | src/Main/ExtendedCatfoodShapefileDataReader.cs:852-883 | Without the GeoJSON columns, the spatial columns are the basic reader's columns |
| Schema.ExtendedCatfoodColumns | src/Main/ExtendedCatfoodShapefileDataReader.cs:829-1028 | The extended Catfood reader declares the type column and the spatial columns each followed by its GeoJSON column, then the enrichment columns, and `importTime` last when the import time is on |
| Schema.CatfoodColumnsArePrefix | src/Main/ExtendedShapefileDataReader.cs:772-805 | The basic reader's added columns are the first added columns of the extended readers |
| Schema.ExtendedCatfoodWithoutExtras | src/Main/ExtendedCatfoodShapefileDataReader.cs:852-883 | With the GeoJSON and import-time columns off, the extended Catfood reader declares exactly the extended readers' columns |
| Schema.ImportTimeColumnIsLast | src/Main/ExtendedCatfoodShapefileDataReader.cs:1020-1028 | With the import time on, the last declared column is `importTime` |
| Schema.GetSchemaTable | src/Main/CatfoodShapefileDataReader.cs:427-513 | A cached table is returned unchanged. Otherwise, a missing dBASE file leaves the table null; reading one fails exactly when the process is not 32-bit; a new table is the dBASE columns followed by the reader's added columns, and records the dBASE record count |
| Schema.GetSchemaTableIdempotent | src/Main/CatfoodShapefileDataReader.cs:432 | A second call returns the first call's state: the columns are never appended twice |
| Schema.CatfoodColumnsAt | src/Main/ExtendedShapefileDataReader.cs:772-805 | Where a table holds the basic columns, it holds `shapeType`, then `shapeGeog` and `shapeGeom` as configured |
| Schema.ExtendedTableLayout | src/Main/ExtendedShapefileDataReader.cs:702-939 | A fresh table of the two Reimers-style readers is the dBASE columns, the basic columns, then the enrichment columns to the end |
| Schema.ExtendedTableBlocks | src/Main/ExtendedShapefileDataReader.cs:806-939 | In that table each enrichment block starts where the block before it ends, from the first position past the spatial columns, and the measure columns end the table |
| Schema.SpatialColumnsAt | src/Main/ExtendedCatfoodShapefileDataReader.cs:829-880 | Where a table holds the extended Catfood spatial columns, it holds `shapeType` and each enabled spatial and GeoJSON column at its position |
| Schema.ExtendedCatfoodTableLayout | src/Main/ExtendedCatfoodShapefileDataReader.cs:733-1028 | A fresh table of the extended Catfood reader is the dBASE columns, the spatial columns with their GeoJSON columns, then the enrichment columns |
| Schema.ExtendedCatfoodTableBlocks | src/Main/ExtendedCatfoodShapefileDataReader.cs:885-1016 | In that table each enrichment block starts where the block before it ends, from the first position past the GeoJSON columns |
| Schema.FirstNamed | src/Main/ExtendedShapefileDataReader.cs:348 | The position found holds the name and no earlier column does; -1 means no column does |
| Schema.Ordinal | src/Main/ExtendedShapefileDataReader.cs:348 | GetOrdinal fails on a null table, succeeds exactly when some column has the name, and then names the first such column |
| Geo.ConvertParts | src/Main/CatfoodShapefileDataReader.cs:296-306 | Each value built is its part's conversion, in order; the loop completes exactly when every part converts, and otherwise stops at the first part that throws, with that part's fault |
| Geo.UnionFoldIsLeftFold | src/Main/CatfoodShapefileDataReader.cs:312-318 | When no union throws, the union loop computes the left fold of the part values |
| Geo.UnionFoldAppend | src/Main/CatfoodShapefileDataReader.cs:312-318 | The union loop over `a + b` is the loop over `b` started from where the loop over `a` ended |
| Geo.UnionFoldStopsAt | src/Main/CatfoodShapefileDataReader.cs:308-333 | A union loop that throws stops at some value k: the accumulator it keeps is the completed loop over the values before k, and the union of that accumulator with value k raised the fault |
| Geo.UnionLoop | src/Main/CatfoodShapefileDataReader.cs:308-318 | The loop seeded with value 0 that unions in values 1 .. n-1 stops at the first failing union, with the accumulator as it stood |
| Geo.UnionOfParts | src/Main/CatfoodShapefileDataReader.cs:296-318 | No parts fail at the seed index and keep the prior value; a failing conversion keeps the prior value; once every part converts, the value is the union loop's accumulator, the complete fold or the partial one where a union threw, and the fault is the loop's |
| Geo.ThreePartUnion | src/Main/CatfoodShapefileDataReader.cs:308-318 | A three-part polygon yields (g0 union g1) union g2 |
| Stages.TrimCells | src/Main/ExtendedShapefileDataReader.cs:212-235 | Every string cell is replaced by its trimmed value; every other cell and the row length are unchanged |
| Stages.TrimCellsIdempotent | src/Main/ExtendedShapefileDataReader.cs:212-235 | Trimming the row twice is trimming it once |
| Stages.ValueOf | src/Main/ExtendedShapefileDataReader.cs:348 | `GetValue(GetOrdinal(column))` succeeds exactly when the column is found within the row, and then yields that cell; a found column past the row is out of range |
| Stages.ValueOfExtended | src/Main/ExtendedShapefileDataReader.cs:359-361 | Appending cells does not change what is read for a column already in the row |
| Stages.AsString | src/Main/ExtendedShapefileDataReader.cs:351 | The string cast succeeds exactly on a string or an unset slot: the string, or null; anything else is an invalid cast |
| Stages.AsInt32 | src/Main/ExtendedShapefileDataReader.cs:540 | GetInt32 succeeds exactly on an integer cell and yields it |
| Stages.SoundexValue | src/Main/ExtendedShapefileDataReader.cs:348-357 | The database null gives "", a string gives its encoding, an unset slot throws a null reference, and nothing else succeeds |
| Stages.DMValue | src/Main/ExtendedShapefileDataReader.cs:388-401 | The database null, null and "" give "", another string gives its encoding, and any other value throws |
| Stages.SplitAddressRange | src/Main/ExtendedShapefileDataReader.cs:476-502 | An integer value is the number with no unit; a value with exactly one dash gives the text after it as the unit and the text before it as the number when that is an integer; anything else gives -1 and "" |
| Stages.SplitAtOnlyDash | src/Main/ExtendedShapefileDataReader.cs:487-490 | A split at '-' yields two pieces exactly when there is one dash, and they are the text before and after it |
| Stages.AddressCells | src/Main/ExtendedShapefileDataReader.cs:505-513 | Two cells per column: the number, left unset exactly when it is negative, then the unit |
| Stages.AddressRangeRoundTrip | src/Main/ExtendedShapefileDataReader.cs:476-502 | A house number written with a dash-free unit after a dash splits back into that number and unit |
| Stages.AddressNumberOnly | src/Main/ExtendedShapefileDataReader.cs:481-484 | "123" gives number 123 and no unit |
| Stages.AddressNumberAndUnit | src/Main/ExtendedShapefileDataReader.cs:487-499 | "123-A" gives number 123 and unit "A" |
| Stages.AddressUnitWithoutNumber | src/Main/ExtendedShapefileDataReader.cs:492-499 | "A-1" keeps only the unit "1" |
| Stages.AddressTwoDashes | src/Main/ExtendedShapefileDataReader.cs:489-490 | "1-2-3" is not split at all |
| Stages.EvenOddCell | src/Main/ExtendedShapefileDataReader.cs:542-547 | The flag is set exactly for a positive value, and is true exactly when the value is even; otherwise the slot stays unset |
| Stages.EvenOddAlternates | src/Main/ExtendedShapefileDataReader.cs:542-547 | Consecutive positive values get opposite flags |
| Stages.ColumnStep | src/Main/ExtendedShapefileDataReader.cs:343-363 | One iteration fails with the lookup's fault when the column cannot be read; otherwise Soundex and DM append the code of the value or fail with the encoder's fault, the address stage appends the split of a string or null and fails the cast otherwise, and even/odd appends the flag of an integer and fails the cast otherwise |
| Stages.Loop | src/Main/ExtendedShapefileDataReader.cs:343-363 | A column loop handles at most one group per column, and completes exactly when every column was handled |
| Stages.FlattenWidth | src/Main/ExtendedShapefileDataReader.cs:359-362 | Groups of w cells each flatten to w times as many cells |
| Stages.LoopStepAt | src/Main/ExtendedShapefileDataReader.cs:343-363 | Group i is the step's result for column i against the row with the earlier groups appended |
| Stages.LoopStopsAt | src/Main/ExtendedShapefileDataReader.cs:366-372 | A loop that ends with a fault ends at the column after its last group, with that column's fault |
| Stages.LoopWidths | src/Main/ExtendedShapefileDataReader.cs:359-362 | A step that always gives w cells makes every group w cells wide |
| Stages.LoopReadsRow | src/Main/ExtendedShapefileDataReader.cs:348-351 | A step blind to appended cells computes every group from the row alone |
| Stages.ColumnLoop | src/Main/ExtendedShapefileDataReader.cs:337-373 | The stage handles at most one group per column, each of the stage's width, and completes exactly when every column was handled |
| Stages.ColumnLoopSteps | src/Main/ExtendedShapefileDataReader.cs:343-363 | Each column is handled against the row with the earlier columns' cells appended, and the loop stops at the first column that throws |
| Stages.ColumnLoopReadsRow | src/Main/ExtendedShapefileDataReader.cs:348-351 | When every configured column names an existing cell, each column's cells are computed from the row alone |
| Stages.ColumnCells | src/Main/ExtendedShapefileDataReader.cs:337-373 | The cells a stage appends are its loop's groups flattened in column order, as many as the groups times the width; a completed stage covers every column, one that threw fewer |
| Stages.ColumnCellsAt | src/Main/ExtendedShapefileDataReader.cs:343-373 | Column i's cells are the width's worth after the first i groups, computed against the row with those cells appended; a stage that threw stops at the column after its last group, with that column's fault |
| Stages.ColumnGroupAt | src/Main/ExtendedShapefileDataReader.cs:343-363 | The cells of a column the stage got through, as in `ColumnCellsAt` |
| Stages.FlattenUniform | src/Main/ExtendedShapefileDataReader.cs:359-362 | Flattening groups of w cells: the first i groups are the first w times i cells, and group i is the w cells after them |
| Stages.FlattenCons | src/Main/ExtendedShapefileDataReader.cs:359-362 | Flattening a group and then the rest is that group's cells followed by the rest's |
| Stages.SpanIsProduct | src/Main/ExtendedShapefileDataReader.cs:359-362 | The cells of n columns number the stage's width times n |
| Stages.Zeros | src/Main/ExtendedShapefileDataReader.cs:428-431 | The defaults are n zeros |
| Stages.EndPointCells | src/Main/ExtendedShapefileDataReader.cs:420-463 | Four cells or none; four exactly when the shape parsed and end-point names are set; a missing shape throws; the cells are zeros unless the shape is a polyline with a geometry, and then they are its start and end points |
| Stages.ProjectedCell | src/Main/ExtendedShapefileDataReader.cs:562-595 | The projected cell is null without a present geography and when the envelope centre or the projection fails, and otherwise holds the Albers projection; no fault escapes |
| Stages.AreaCells | src/Main/ExtendedShapefileDataReader.cs:597-634 | One real cell: 0 without a present geography or when the area throws, the area otherwise |
| Stages.CentroidCells | src/Main/ExtendedShapefileDataReader.cs:636-681 | Two cells, zeros unless a centroid is found; the test is on the geography but the centroid is of the geometry, so a present geography without a geometry throws |
| Pipeline.Attributes | src/Main/ExtendedShapefileDataReader.cs:190-194 | The attribute array is the next dBASE row when `Read()` yields one, and all unset otherwise |
| Pipeline.TrimmedIf | src/Main/ExtendedShapefileDataReader.cs:212-235 | With trimming off the attributes are unchanged; with it on they are `TrimCells` of the attributes |
| Pipeline.ColumnStage | src/Main/ExtendedShapefileDataReader.cs:337-373 | A per-column stage raises exactly under the abort policy when its loop threw, tagged with the stage; otherwise it yields the cells reached, all of them under the abort policy |
| Pipeline.ColumnStageAt | src/Main/ExtendedShapefileDataReader.cs:337-373 | Inside its catch block, a stage that returned got through every column under abort, and its column i cells are that column's step against the row with the earlier cells appended |
| Pipeline.StageCellsAt | src/Main/ExtendedShapefileDataReader.cs:337-418 | A stage that ran after other cells were appended keeps the same per-column layout after those cells |
| Pipeline.SoundexStepCell | src/Main/ExtendedShapefileDataReader.cs:348-357 | A Soundex step that succeeds read its column and appended the Soundex of the value |
| Pipeline.DMStepCell | src/Main/ExtendedShapefileDataReader.cs:388-401 | A DM step that succeeds read its column and appended the DM Soundex of the value |
| Pipeline.AddressStepCells | src/Main/ExtendedShapefileDataReader.cs:471-514 | An address step that succeeds read a string or a null, and appended the number and unit of its split |
| Pipeline.EvenOddStepCell | src/Main/ExtendedShapefileDataReader.cs:533-549 | An even/odd step that succeeds read an integer and appended its flag |
| Pipeline.PhoneticCells | src/Main/ExtendedShapefileDataReader.cs:337-418 | Soundex then Soundex DM cells, one per active column each, exactly that many under abort; only those two stages can raise, and never under the tolerant policy |
| Pipeline.PhoneticSplit | src/Main/ExtendedShapefileDataReader.cs:337-418 | The phonetic cells are the Soundex stage's cells, then the DM stage's, which ran on the row with the former appended |
| Pipeline.PhoneticSoundexAt | src/Main/ExtendedShapefileDataReader.cs:337-373 | Soundex cell i is the Soundex of column i, read from the row as it stood (the attribute itself when the column names one), for every column the loop got through; under abort, every column |
| Pipeline.PhoneticDMAt | src/Main/ExtendedShapefileDataReader.cs:375-418 | DM cell j comes right after the Soundex cells and is the DM Soundex of DM column j read from the row as it stood; under abort, for every DM column |
| Pipeline.SoundexCellsPlaced | src/Main/ExtendedShapefileDataReader.cs:337-373 | Under abort, the Soundex cells placed after the first n cells of a row hold, in order, the Soundex codes of their columns |
| Pipeline.DMCellsPlaced | src/Main/ExtendedShapefileDataReader.cs:375-418 | Under abort, the DM cells placed after the Soundex cells hold, in order, the DM codes of their columns |
| Pipeline.PhoneticCodesPlaced | src/Main/ExtendedShapefileDataReader.cs:337-418 | Under abort, phonetic cells computed on a row's first n cells and placed after them hold the Soundex code of each Soundex column, then the DM code of each DM column |
| Pipeline.AddressAndParityCells | src/Main/ExtendedShapefileDataReader.cs:465-560 | Two cells per address column then one per even/odd column, exactly that many under abort; only those stages can raise, and never under the tolerant policy |
| Pipeline.AddressAndParitySplit | src/Main/ExtendedShapefileDataReader.cs:465-560 | The address-and-parity cells are the address stage's cells, then the even/odd stage's, which ran on the row with the former appended |
| Pipeline.AddressAt | src/Main/ExtendedShapefileDataReader.cs:465-514 | Address cells 2i and 2i+1 are the number and unit of address column i read from the row as it stood; under abort, for every address column |
| Pipeline.EvenOddAt | src/Main/ExtendedShapefileDataReader.cs:527-560 | Even/odd cell j comes right after the address cells and is the flag of even/odd column j read as an integer; under abort, for every even/odd column |
| Pipeline.MeasureCells | src/Main/ExtendedShapefileDataReader.cs:562-681 | The projection, area and centroid cells have a fixed width; they raise exactly under abort when the area or centroid stage throws; each cell sits where its stage writes it |
| Pipeline.ProjectionNeverRaises | src/Main/ExtendedShapefileDataReader.cs:562-595 | For every configuration, the measure stages raise exactly when they would with the projection off, and with the same error: a failing projection is always swallowed |
| Pipeline.CentroidNeedsGeometry | src/Main/ExtendedShapefileDataReader.cs:644-663 | Under abort, a present geography without a geometry makes the centroid stage raise |
| CatfoodReader.ExtensionFrom | src/Main/CatfoodShapefileDataReader.cs:125 | The extension is empty or a suffix of at least two characters starting at the last '.' after the last separator |
| CatfoodReader.Lower | src/Main/CatfoodShapefileDataReader.cs:125 | Lower-casing maps each character and keeps the length |
| CatfoodReader.ShpAcceptedEndsInShp | src/Main/CatfoodShapefileDataReader.cs:125-128 | An accepted name ends in ".shp" in some case |
| CatfoodReader.EndsInShpAccepted | src/Main/CatfoodShapefileDataReader.cs:125-128 | A name ending in ".shp" in any case is accepted |
| CatfoodReader.ShpAcceptedIff | src/Main/CatfoodShapefileDataReader.cs:125-128 | The constructor accepts a name exactly when it ends in ".shp", ignoring case |
| CatfoodReader.Open | src/Main/ExtendedCatfoodShapefileDataReader.cs:74-81 | The extended Catfood constructor fails exactly on a name without the ".shp" extension (the base constructor's check); otherwise it opens the layer and the reader stands before the first shape, with the layer's count as the total |
| CatfoodReader.CloseStream | src/Main/CatfoodShapefileDataReader.cs:144-159 | Closing leaves the layer released and the reader closed, and every other field as it was |
| CatfoodReader.CloseStreamIdempotent | src/Main/CatfoodShapefileDataReader.cs:144-159 | Closing a closed reader changes nothing |
| CatfoodReader.Bookkeep | src/Main/CatfoodShapefileDataReader.cs:176-222 | The bookkeeping raises exactly under abort on a count mismatch; a swallowed mismatch fires nothing; matching counts fire the record's notifications |
| CatfoodReader.PolygonUnion | src/Main/CatfoodShapefileDataReader.cs:288-339 | A non-polygon shape fails the cast with a null variable; a polygon's variable is the union of its parts' values, seeded by part 0 |
| CatfoodReader.CatfoodRow | src/Main/CatfoodShapefileDataReader.cs:238-391 | The row raises exactly under abort when an enabled spatial stage threw; it is the attributes, the Polygon tag, then one cell per enabled spatial stage |
| CatfoodReader.NextFeature | src/Main/CatfoodShapefileDataReader.cs:164-408 | Exhaustion exactly when the guard fails, closing the layer; otherwise index and enumerator move on by one and nothing else changes; a raise closes the layer, happens only under abort and carries the new index; an advance yields the composed row |
| CatfoodReader.CloseAfterNextFeature | src/Main/CatfoodShapefileDataReader.cs:393-408 | After exhaustion `Close` ends where it would have before the call; after a raise, where it would have with index and enumerator one on; either way `NextFeature` already closed the layer |
| CatfoodReader.CursorStaysInBounds | src/Main/CatfoodShapefileDataReader.cs:171-173 | The index never passes the shape count |
| CatfoodReader.MismatchSkipsNotifications | src/Main/CatfoodShapefileDataReader.cs:180-222 | Under the tolerant policy a count mismatch still reads the record and fires no notification |
| CatfoodReader.RowMatchesSchema | src/Main/CatfoodShapefileDataReader.cs:471-503 | A row built under abort has exactly as many cells as the schema declares columns |
| CatfoodReader.CatfoodTable | src/Main/CatfoodShapefileDataReader.cs:427-503 | A fresh table is the dBASE columns, `shapeType`, then `shapeGeog` and `shapeGeom` as configured, and nothing more |
| CatfoodReader.CellsUnderColumns | src/Main/CatfoodShapefileDataReader.cs:286-391 | Cell by cell against the schema: the attributes under the dBASE columns, the Polygon tag under `shapeType`, each part-union under `shapeGeog` and `shapeGeom` |
| CatfoodReader.GeographyIsLeftFold | src/Main/CatfoodShapefileDataReader.cs:296-330 | In any configuration, the geography cell of a polygon whose parts convert and whose unions succeed is the left fold of the part values; the row can raise only from the geometry stage under abort |
| CatfoodReader.GeometryIsLeftFold | src/Main/CatfoodShapefileDataReader.cs:341-376 | The geometry cell, after the geography cell when that is on, is the left fold of the part values under the geometry union; the row can raise only from the geography stage under abort |
| CatfoodReader.GeographyKeepsPartialUnion | src/Main/CatfoodShapefileDataReader.cs:308-333 | Under the tolerant policy a union that throws at part k is swallowed, and the geography cell keeps the union of parts 0 .. k-1 |
| CatfoodReader.NoPartsGivesNullGeography | src/Main/CatfoodShapefileDataReader.cs:308 | Under the tolerant policy, a polygon with no parts gets a null geography cell |
| ExtendedReader.ShapeTypeTag | src/Main/ExtendedShapefileDataReader.cs:237-268 | The tag is Point, Polygon or LineString for those shape types, Unknown exactly for a missing shape, and unset otherwise |
| ExtendedReader.RecordSpatial | src/Main/ExtendedShapefileDataReader.cs:284-335 | A missing shape throws; a shape with a parse error leaves the variable null; otherwise the variable is the library's union of the record |
| ExtendedReader.RecordSpatials | src/Main/ExtendedShapefileDataReader.cs:284-335 | Only the spatial stages can raise, never under the tolerant policy; each enabled variable is what its stage reached and a disabled one stays null |
| ExtendedReader.SpatialRow | src/Main/ExtendedShapefileDataReader.cs:190-335 | The attributes (trimmed when asked), the shape-type tag, then one cell per enabled spatial stage |
| ExtendedReader.EndPointStage | src/Main/ExtendedShapefileDataReader.cs:420-463 | Only the end-point stage raises, never under the tolerant policy, and under abort it writes the full end-point width |
| ExtendedReader.EnrichmentCells | src/Main/ExtendedShapefileDataReader.cs:337-681 | The enrichment stages never raise under the tolerant policy, and under abort they write exactly the enrichment width |
| ExtendedReader.ExtendedRow | src/Main/ExtendedShapefileDataReader.cs:190-681 | The row never raises under the tolerant policy; under abort it has the full width; it starts with the attributes and tag, then the enabled spatial cells |
| ExtendedReader.ComposeRecord | src/Main/ExtendedShapefileDataReader.cs:186-693 | After the parse the next dBASE row is consumed; a raise happens only under abort; an advance yields the composed row |
| ExtendedReader.NextFeature | src/Main/ExtendedShapefileDataReader.cs:88-694 | Exhaustion exactly when the stream is used up or the dBASE result has no rows, and then nothing changes; otherwise one record is consumed and the index moves on; the notifications use the position before the read; a raise happens only under abort; a parse failure that escapes under abort leaves the dBASE row unread |
| ExtendedReader.RowReadUnlessParseEscapes | src/Main/ExtendedShapefileDataReader.cs:160-194 | Unless the record's parse failure escapes under abort, a step reads the next dBASE row; under the tolerant policy a step that can advance always yields a row, even after a parse failure, and reads the dBASE row |
| ExtendedReader.PercentBelowOne | src/Main/ExtendedShapefileDataReader.cs:131-162 | Every reported fraction is finite and below 1 |
| ExtendedReader.RowVersusSchema | src/Main/ExtendedShapefileDataReader.cs:842-858 | Under abort the row is as long as the schema, minus the declared end-point columns, plus the end-point cells written |
| ExtendedReader.RowMatchesSchemaIffFourEndPoints | src/Main/ExtendedShapefileDataReader.cs:420-463 | Under abort, with the end-point stage on, an end-point column list set, a parsed shape and a row that composes, row and schema agree in length exactly when four end-point names are configured |
| ExtendedReader.RowSlices | src/Main/ExtendedShapefileDataReader.cs:190-681 | A composed row is the spatial row, then the phonetic, end-point, address-and-parity and measure cells, each computed on the cells before it |
| ExtendedReader.PhoneticSliceOfRow | src/Main/ExtendedShapefileDataReader.cs:337-418 | The phonetic cells sit right after the spatial cells and are computed on them |
| ExtendedReader.EndPointSliceOfRow | src/Main/ExtendedShapefileDataReader.cs:420-463 | Under abort the end-point cells follow the phonetic cells |
| ExtendedReader.AddressSliceOfRow | src/Main/ExtendedShapefileDataReader.cs:465-560 | Under abort the address and parity cells follow the end points and are computed on the cells before them |
| ExtendedReader.MeasureSliceOfRow | src/Main/ExtendedShapefileDataReader.cs:562-681 | Under abort the measure cells follow the parity flags and end the row |
| ExtendedReader.EndPointWidthMatches | src/Main/ExtendedShapefileDataReader.cs:842-858 | Under abort, a row as long as the schema wrote one end-point cell per declared end-point column |
| ExtendedReader.StartsMatch | src/Main/ExtendedShapefileDataReader.cs:842-883 | With as many end-point cells as end-point columns, the row's address and measure blocks start where the table's do |
| ExtendedReader.LeadingColumns | src/Main/ExtendedShapefileDataReader.cs:702-805 | A fresh table leads with the dBASE columns, `shapeType`, then `shapeGeog` and `shapeGeom` as configured |
| ExtendedReader.LeadingCellsUnderColumns | src/Main/ExtendedShapefileDataReader.cs:190-335 | Against the schema: the (trimmed) attributes under the dBASE columns, the tag under `shapeType`, the record's geography and geometry under `shapeGeog` and `shapeGeom` |
| ExtendedReader.PhoneticCodesOfRow | src/Main/ExtendedShapefileDataReader.cs:337-418 | Under abort the phonetic cells of a row hold, in order, the codes of their columns read from the cells before them |
| ExtendedReader.PhoneticCellsUnderColumns | src/Main/ExtendedShapefileDataReader.cs:806-840 | Under abort, each `<col>_Soundex` column holds the Soundex code of its column and each `<col>_SoundexDM` column the DM code |
| ExtendedReader.EndPointCellsUnderColumns | src/Main/ExtendedShapefileDataReader.cs:842-858 | Under abort, the end-point cells sit where the table declares the end-point columns, and fill them exactly when the row is as long as the table |
| ExtendedReader.AddressCellsUnderColumns | src/Main/ExtendedShapefileDataReader.cs:860-901 | Under abort, in a row as long as the table, the address and parity cells sit under the `_Number`, `_Unit` and `_Even` columns |
| ExtendedReader.MeasureCellsUnderColumns | src/Main/ExtendedShapefileDataReader.cs:903-939 | Under abort, in a row as long as the table, the projection, area and centroid cells sit under the measure columns, which end the table |
| SharpMapReader.ShapeSpatials | src/Main/ExtendedSharpMapShapefileDataReader.cs:262-406 | The spatial stages raise exactly under abort when an enabled one threw; each enabled variable is the union of the shape's parts |
| SharpMapReader.SpatialRow | src/Main/ExtendedSharpMapShapefileDataReader.cs:189-406 | The attributes (trimmed when asked), the Polygon tag, then one cell per enabled spatial stage |
| SharpMapReader.EnrichmentCells | src/Main/ExtendedSharpMapShapefileDataReader.cs:408-611 | Only the phonetic, area and centroid stages can raise, never under the tolerant policy; under abort they write exactly the enrichment width |
| SharpMapReader.SharpMapRow | src/Main/ExtendedSharpMapShapefileDataReader.cs:185-611 | The row never raises under the tolerant policy; under abort it has the full width; it starts with the attributes, tag and enabled spatial cells |
| SharpMapReader.ComposeRecord | src/Main/ExtendedSharpMapShapefileDataReader.cs:185-629 | The next dBASE row is consumed; a raise closes the layer and happens only under abort |
| SharpMapReader.NextFeature | src/Main/ExtendedSharpMapShapefileDataReader.cs:107-630 | Exhaustion exactly when the guard fails, closing the layer; otherwise index and enumerator move on; a raise closes the layer and happens only under abort; an advance yields the composed row |
| SharpMapReader.RowVersusSchema | src/Main/ExtendedSharpMapShapefileDataReader.cs:778-838 | Under abort the row is as long as the schema minus the declared end-point, address and even/odd columns, which this reader never writes |
| SharpMapReader.RowMatchesSchemaIffNoUnrunColumns | src/Main/ExtendedSharpMapShapefileDataReader.cs:778-838 | Row and schema agree in length exactly when none of those columns is configured |
| SharpMapReader.MismatchSkipsNotifications | src/Main/ExtendedSharpMapShapefileDataReader.cs:124-166 | Under the tolerant policy a count mismatch still reads the record and fires no notification |
| SharpMapReader.LeadingCellsOfRow | src/Main/ExtendedSharpMapShapefileDataReader.cs:189-406 | A composed row leads with the (trimmed) attributes, the Polygon tag, then the part-unions reached |
| SharpMapReader.LeadingCellsUnderColumns | src/Main/ExtendedSharpMapShapefileDataReader.cs:189-406 | Against the schema: the attributes under the dBASE columns, the tag under `shapeType`, the unions under `shapeGeog` and `shapeGeom` |
| SharpMapReader.PhoneticSliceOfRow | src/Main/ExtendedSharpMapShapefileDataReader.cs:408-491 | The phonetic cells sit right after the spatial cells and are computed on them |
| SharpMapReader.PhoneticCodesOfRow | src/Main/ExtendedSharpMapShapefileDataReader.cs:408-491 | Under abort the phonetic cells of a row hold, in order, the codes of their columns read from the cells before them |
| SharpMapReader.PhoneticCellsUnderColumns | src/Main/ExtendedSharpMapShapefileDataReader.cs:742-777 | Under abort, each `<col>_Soundex` column holds the Soundex code of its column and each `<col>_SoundexDM` column the DM code |
| SharpMapReader.MeasureSliceOfRow | src/Main/ExtendedSharpMapShapefileDataReader.cs:492-611 | Under abort the measure cells follow the phonetic cells and end the row |
| SharpMapReader.MeasureCellsUnderColumns | src/Main/ExtendedSharpMapShapefileDataReader.cs:839-870 | Under abort and with no end-point, address or even/odd columns, the row is as long as the table and its measure cells sit under the measure columns |
| ExtendedCatfoodReader.Polygons | src/Main/ExtendedCatfoodShapefileDataReader.cs:313-325 | One polygon per part, in order |
| ExtendedCatfoodReader.ShapeProperty | src/Main/ExtendedCatfoodShapefileDataReader.cs:240-297 | The variable is set exactly when the cast and the shape's own spatial property succeed; a non-polygon shape is an invalid cast |
| ExtendedCatfoodReader.GeoJsonStage | src/Main/ExtendedCatfoodShapefileDataReader.cs:300-359 | A set list is left alone; a non-polygon fails the cast; 25 parts or more give an empty list; otherwise the list holds the polygons of the parts converted before any fault, and the variable is rebuilt by the union loop |
| ExtendedCatfoodReader.GeometryStageAsWritten | src/Main/ExtendedCatfoodShapefileDataReader.cs:362-418 | The geometry stage as written sets an empty polygon list whatever the shape, then takes the shape's geometry |
| ExtendedCatfoodReader.GeometryStage | src/Main/ExtendedCatfoodShapefileDataReader.cs:362-418 | The corrected geometry stage takes the shape's geometry and leaves the list null |
| ExtendedCatfoodReader.GeometryStageOf | src/Main/ExtendedCatfoodShapefileDataReader.cs:362-418 | Either build takes the shape's own geometry and its fault; as written the polygon list is set to empty, corrected it is left null |
| ExtendedCatfoodReader.GeographyCells | src/Main/ExtendedCatfoodShapefileDataReader.cs:240-359 | The geography pair raises exactly under abort when an enabled stage threw; it writes the geography cell, then the GeoJSON cell of the rebuilt list; later stages see the rebuilt variable when GeoJSON is on |
| ExtendedCatfoodReader.GeometryCells | src/Main/ExtendedCatfoodShapefileDataReader.cs:362-481 | The geometry pair of the given build raises exactly under abort when an enabled stage threw; it writes the geometry cell, then the GeoJSON cell of the list the GeoJSON stage reached from that build's geometry stage; later stages see the GeoJSON stage's geometry when that is on |
| ExtendedCatfoodReader.SpatialRow | src/Main/ExtendedCatfoodShapefileDataReader.cs:165-222 | The attributes (trimmed when asked), the Polygon tag, then the geography pair's and the geometry pair's cells |
| ExtendedCatfoodReader.EnrichmentCells | src/Main/ExtendedCatfoodShapefileDataReader.cs:483-686 | The phonetic and measure stages never raise under the tolerant policy, and under abort they write exactly the enrichment width |
| ExtendedCatfoodReader.TailCells | src/Main/ExtendedCatfoodShapefileDataReader.cs:483-708 | The enrichment cells, then, when the import time is on, a last cell holding the elapsed milliseconds |
| ExtendedCatfoodReader.SpatialStages | src/Main/ExtendedCatfoodShapefileDataReader.cs:165-481 | For either build, the spatial part raises exactly when one of the two pairs does, and is otherwise the spatial row, with the two pairs' values passed on |
| ExtendedCatfoodReader.ExtendedCatfoodRow | src/Main/ExtendedCatfoodShapefileDataReader.cs:165-708 | For either build, the row never raises under the tolerant policy, and never from bookkeeping or the import time; under abort it has the full width; it starts with the spatial row; its last cell holds the elapsed time when that is on |
| ExtendedCatfoodReader.ComposeRecord | src/Main/ExtendedCatfoodShapefileDataReader.cs:150-724 | A raise closes the layer, happens only under abort and carries the index; an advance leaves the state alone and yields the row of the given build |
| ExtendedCatfoodReader.NextFeature | src/Main/ExtendedCatfoodShapefileDataReader.cs:87-725 | Exhaustion exactly when the guard fails, closing the layer; otherwise index and enumerator move on by one and nothing else changes; a raise closes the layer, happens only under abort and carries the new index; a bookkeeping raise fires nothing; an advance yields the row of the given build, `AsWritten` being the source's reader |
| ExtendedCatfoodReader.MismatchSkipsNotifications | src/Main/ExtendedCatfoodShapefileDataReader.cs:106-148 | Under the tolerant policy a count mismatch still reads the record and fires no notification |
| ExtendedCatfoodReader.RowVersusSchema | src/Main/ExtendedCatfoodShapefileDataReader.cs:921-980 | Under abort the row is as long as the schema minus the declared end-point, address and even/odd columns, which this reader never writes |
| ExtendedCatfoodReader.RowMatchesSchemaIffNoUnrunColumns | src/Main/ExtendedCatfoodShapefileDataReader.cs:921-980 | Row and schema agree in length exactly when none of those columns is configured |
| ExtendedCatfoodReader.ImportTimeMatchesSchema | src/Main/ExtendedCatfoodShapefileDataReader.cs:690-708 | When row and schema agree in length, the elapsed time sits in the last cell, under the schema's last column `importTime` |
| ExtendedCatfoodReader.WidthVersusColumns | src/Main/ExtendedCatfoodShapefileDataReader.cs:921-980 | The full row width plus the never-written end-point, address and even/odd columns is the dBASE width plus the declared columns |
| ExtendedCatfoodReader.SchemaEndsWithImportTime | src/Main/ExtendedCatfoodShapefileDataReader.cs:1020-1028 | With the import time on, the last column of a fresh table is `importTime` |
| ExtendedCatfoodReader.GeoJsonBuildsEveryPart | src/Main/ExtendedCatfoodShapefileDataReader.cs:305-345 | A polygon with fewer than 25 parts, all converting, gets one polygon per part, and its variable becomes the left fold of the part values |
| ExtendedCatfoodReader.GeographyGeoJsonBuildsEveryPart | src/Main/ExtendedCatfoodShapefileDataReader.cs:300-359 | Such a polygon's geography GeoJSON cell lists one polygon per part, and the later stages see the rebuilt geography |
| ExtendedCatfoodReader.GeometryGeoJsonEmptyAsWritten | src/Main/ExtendedCatfoodShapefileDataReader.cs:368 | As written, a one-part polygon gets an empty geometry polygon list, where the corrected stage lists its polygon |
| ExtendedCatfoodReader.GeometryGeoJsonBuildsEveryPart | src/Main/ExtendedCatfoodShapefileDataReader.cs:420-481 | With the corrected build, the geometry GeoJSON cell of a polygon with fewer than 25 parts, all converting, lists one polygon per part, and the later stages see the rebuilt geometry |
| ExtendedCatfoodReader.RowStartsWithSpatialRow | src/Main/ExtendedCatfoodShapefileDataReader.cs:165-481 | The full row begins with the spatial row of the two stage pairs |
| ExtendedCatfoodReader.RowErrorSource | src/Main/ExtendedCatfoodShapefileDataReader.cs:165-708 | A failing row carries the error of the geography pair or the geometry pair that raised, or comes from the Soundex, DM, area or centroid stage |
| ExtendedCatfoodReader.RowFromStages | src/Main/ExtendedCatfoodShapefileDataReader.cs:483-708 | A successful row is the spatial row followed by the tail cells computed from it |
| ExtendedCatfoodReader.GeometryGeoJsonCellOfRow | src/Main/ExtendedCatfoodShapefileDataReader.cs:420-481 | With both geometry stages on, a successful row holds the geometry GeoJSON cell of its build right after the geometry cell |
| ExtendedCatfoodReader.BuildsAgreeUnlessBothGeometryStages | src/Main/ExtendedCatfoodShapefileDataReader.cs:362-481 | Unless both geometry stages are on, the two builds compose the same geometry cells and the same row |
| ExtendedCatfoodReader.NextFeatureBuildsAgree | src/Main/ExtendedCatfoodShapefileDataReader.cs:87-725 | Unless both geometry stages are on, `NextFeature` of the two builds agrees |
| ExtendedCatfoodReader.AsWrittenGeometryCells | src/Main/ExtendedCatfoodShapefileDataReader.cs:362-481 | As written, with the geometry on, only the geometry stage can raise, the value passed on is the shape's own geometry, and the GeoJSON cell is an empty list |
| ExtendedCatfoodReader.AsWrittenGeometryRow | src/Main/ExtendedCatfoodShapefileDataReader.cs:362-686 | As written, with both geometry stages on, every row's geometry GeoJSON cell is an empty list and the measures see the shape's own geometry |
| ExtendedCatfoodReader.AsWrittenGeometryGeoJsonNeverRaises | src/Main/ExtendedCatfoodShapefileDataReader.cs:420-481 | As written, with the geometry on, no row raises from the geometry GeoJSON stage |
| ExtendedCatfoodReader.CorrectedGeometryGeoJsonRaises | src/Main/ExtendedCatfoodShapefileDataReader.cs:420-481 | Corrected, under abort, a polygon with fewer than 25 parts whose first part fails to convert raises from the geometry GeoJSON stage |
| ExtendedCatfoodReader.OnePartPolygonGeometryGeoJson | src/Main/ExtendedCatfoodShapefileDataReader.cs:362-481 | A one-part polygon under the tolerant policy with both geometry stages on: as written its geometry GeoJSON cell is empty; corrected it lists the part's polygon |
| ExtendedCatfoodReader.SpatialCellsOfRow | src/Main/ExtendedCatfoodShapefileDataReader.cs:165-481 | A composed row holds the (trimmed) attributes, the tag, then the geography, its GeoJSON list, the geometry and its GeoJSON list, each where its enabled stage puts it |
| ExtendedCatfoodReader.SpatialColumnsOfTable | src/Main/ExtendedCatfoodShapefileDataReader.cs:733-880 | A fresh table leads with the dBASE columns, `shapeType`, then each enabled spatial column followed by its GeoJSON column |
| ExtendedCatfoodReader.SpatialCellsUnderColumns | src/Main/ExtendedCatfoodShapefileDataReader.cs:165-481 | Against the schema: the attributes under the dBASE columns, the tag under `shapeType`, and each spatial and GeoJSON cell under its column |
| ExtendedCatfoodReader.RowSlices | src/Main/ExtendedCatfoodShapefileDataReader.cs:165-708 | A composed row is the spatial row, then the phonetic cells, the measure cells and the import time |
| ExtendedCatfoodReader.PhoneticSliceOfRow | src/Main/ExtendedCatfoodShapefileDataReader.cs:483-566 | The phonetic cells sit right after the GeoJSON cells and are computed on them |
| ExtendedCatfoodReader.MeasureSliceOfRow | src/Main/ExtendedCatfoodShapefileDataReader.cs:567-686 | Under abort the measure cells follow the phonetic cells |
| ExtendedCatfoodReader.PhoneticCodesOfRow | src/Main/ExtendedCatfoodShapefileDataReader.cs:483-566 | Under abort the phonetic cells of a row hold, in order, the codes of their columns read from the cells before them |
| ExtendedCatfoodReader.PhoneticCellsUnderColumns | src/Main/ExtendedCatfoodShapefileDataReader.cs:885-919 | Under abort, each `<col>_Soundex` column holds the Soundex code of its column and each `<col>_SoundexDM` column the DM code |
| ExtendedCatfoodReader.MeasureCellsUnderColumns | src/Main/ExtendedCatfoodShapefileDataReader.cs:982-1016 | Under abort, in a row as long as the table, the projection, area and centroid cells sit under the measure columns |

## Left out

- File and database I/O is left out. This covers opening the shapefile, the ODBC connection and the temporary `.dbf` copy used for the schema, `File.Exists`, and the process bitness. They appear as parameters: the shapes, the dBASE table, whether the file exists, and whether the process is 32-bit.
- `ResetNextFeature` and its catch block are left out: the model starts every reader from a freshly reset state.
- The enumerator's behaviour after the reader is disposed is left out.
- Event delegates are left out. The notifications are returned as values, and a handler that throws is not modelled. The handler-exception path of the bookkeeping catch block is therefore not modelled either.
- `SteamedBytesRatio` and the other reader properties that do not feed a row are left out.
- Floating point is not modelled. Areas, coordinates, centroids, the projection and the Soundex encoders are opaque functions of the `Geo.Engine` parameter. `PercentShapesStreamed` is computed as an exact real quotient, with the non-finite result of a zero-length stream kept as a separate case.
- `AbstractDataReader` and `ShapefileDataReader` are not part of this model. `GetOrdinal` and `GetValue` are taken to find the first schema column of a name and to read the current row. The extended readers' `PercentShapesStreamed` is taken to be Position / Length of the shape stream.
- Stages.ValueOf: the `GetValue`, `GetString` and `GetInt32` semantics rest on that assumption about the unseen base reader.
- CatfoodReader.Lower: `ToLower` is modelled on the letters A-Z only. The invalid-path-character checks of `Path.GetExtension` are left out.
- Text.ParseInt: `NumberUtils.IsInt` is not part of this model. It is taken to accept an optional sign followed by decimal digits within the 32-bit range.
- `Text.Trim` uses the .NET white-space set on UTF-16 code units. No Unicode normalisation is modelled.
- Stages.CentroidCells: the `STX`/`STY` reads of the centroid are merged into one engine operation, whose null or empty result stands for "no centroid found".
- A Reimers record whose parse throws still consumes its bytes of the stream, so the stream advances by one record.
- The attribute copy (`GetValues` into a fresh array) and the shape-type tag are taken never to throw. Their catch blocks are not modelled.
- The cast of a Catfood shape to `ShapePolygon` is taken to succeed exactly for polygon shapes.
- `Text.Split` splits at every dash, as `String.Split('-')` does. An address value with more than one dash is therefore not split at all.
- The clock is not modelled: the extended Catfood reader's elapsed time is the `elapsedMs` parameter.
- The GeoJSON columns are declared as strings, but the reader stores the polygon list in them. The model stores the polygon list and does not serialize any GeoJSON. The unused string variables the reader declares for them play no part.
- CatfoodReader.Open: models the extended Catfood constructor, which runs the base constructor's extension check (src/Main/CatfoodShapefileDataReader.cs:125-128) and then opens the layer. The basic reader's own constructor opens no layer, so its `TotalShapes` stays 0 and its first `NextFeature` closes a null layer. That unopened state is not modelled; the basic reader's `NextFeature` is modelled on an opened layer. Opening the file itself is I/O.
- Stages.SoundexValue: a slot that is unset (a .NET null, not `DBNull`) passes the `DBNull` test and the cast, and reaches `SoundexEncoder.ComputeEncoding` as a null string. The encoder is not part of this model; it is taken to throw a null reference on a null string, so the model gives `NullReference` there.
- Schema.GetSchemaTable: the wrapping of exceptions thrown while the table is read is left out; only the platform check's failure is modelled.

## Findings

| source | as written | input that shows it | evidently intended | confidence | as-written member | corrected member |
|---|---|---|---|---|---|---|
| src/Main/ExtendedCatfoodShapefileDataReader.cs:368 | The geometry stage sets `sqlGeometryPolygons` to a new empty list before the cast. The geometry GeoJSON stage runs only while that list is null (line 425), so it never runs while `IncludeSqlGeometry` is on. The geometry GeoJSON cell is then always an empty list, and the later stages see the shape's own geometry rather than the rebuilt one | A polygon with one part that converts, with `IncludeSqlGeometry` and `IncludeSqlGeometryAsGeoJSON` both on: the cell is `[]` instead of the part's polygon | The list is left null, as in the geography stage, where the same line is commented out (line 250), so that the GeoJSON stage builds one polygon per part | not executed | ExtendedCatfoodReader.AsWrittenGeometryRow | ExtendedCatfoodReader.GeometryGeoJsonBuildsEveryPart |
