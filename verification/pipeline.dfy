/**
 * The enrichment stages as the readers run them: each inside its own catch
 * block, so that a fault either escapes as a stage error (abort policy) or
 * leaves the cells the stage had reached (tolerant policy). Each function
 * returns the cells its stages append to the row.
 */
module Pipeline {
  import opened Common
  import opened Data
  import opened Geo
  import opened Schema
  import opened Stages

  /** The attribute array: the next dBASE row when `Read()` yields one, all unset otherwise. */
  function Attributes(t: DbTable, rowCursor: nat): (r: seq<Cell>)
    ensures |r| == t.fieldCount
    ensures rowCursor < |t.rows| ==> r == FillRow(t.fieldCount, t.rows[rowCursor])
    ensures rowCursor >= |t.rows| ==> r == Nulls(t.fieldCount)
  {
    if rowCursor < |t.rows| then FillRow(t.fieldCount, t.rows[rowCursor]) else Nulls(t.fieldCount)
  }

  /** The attribute values, trimmed when the configuration asks for it. */
  function TrimmedIf(flag: bool, row: seq<Cell>): (r: seq<Cell>)
    ensures |r| == |row|
    ensures !flag ==> r == row
    ensures flag ==> r == TrimCells(row)
  {
    if flag then TrimCells(row) else row
  }

  /** The geography and geometry a record's later stages see. */
  datatype Spatials = Spatials(geography: Option<Spatial>, geometry: Option<Spatial>)

  /** Appending keeps the first `n` cells. */
  lemma PrefixKept(row: seq<Cell>, tail: seq<Cell>, n: nat)
    requires n <= |row|
    ensures (row + tail)[..n] == row[..n]
    ensures forall i :: 0 <= i < n ==> (row + tail)[i] == row[i]
  {
  }

  /** A per-column stage with its catch block. */
  function ColumnStage(e: Engine, c: Config, table: Option<seq<ColumnDesc>>, stage: ColumnStage,
                       row: seq<Cell>, columns: seq<string>): (r: Result<seq<Cell>, StageError>)
    ensures r.Err? <==> c.abortOnError && ColumnLoop(e, table, stage, row, columns).fault.Some?
    ensures r.Err? ==> r.error == StageError(StageOf(stage), ColumnLoop(e, table, stage, row, columns).fault.value)
    ensures r.Ok? ==> |r.value| <= Span(stage, |columns|)
    ensures r.Ok? && c.abortOnError ==> |r.value| == Span(stage, |columns|)
    ensures r.Ok? ==> r.value == ColumnCells(e, table, stage, row, columns).reached
  {
    Settle(c.abortOnError, StageOf(stage), ColumnCells(e, table, stage, row, columns))
  }

  /** The Soundex cells, then the Daitch-Mokotoff Soundex cells, one per configured column each. */
  function PhoneticCells(e: Engine, c: Config, table: Option<seq<ColumnDesc>>, row: seq<Cell>): (r: Result<seq<Cell>, StageError>)
    ensures r.Ok? ==> |r.value| <= |ActiveColumns(c.includeSoundex, c.soundexColumns)| + |ActiveColumns(c.includeSoundexDM, c.soundexDMColumns)|
    ensures r.Ok? && c.abortOnError ==>
      |r.value| == |ActiveColumns(c.includeSoundex, c.soundexColumns)| + |ActiveColumns(c.includeSoundexDM, c.soundexDMColumns)|
    ensures !c.abortOnError ==> r.Ok?
    ensures r.Err? ==> r.error.stage == Soundex || r.error.stage == SoundexDM
  {
    var sx :- ColumnStage(e, c, table, SoundexStage, row, ActiveColumns(c.includeSoundex, c.soundexColumns));
    var dm :- ColumnStage(e, c, table, DMStage, row + sx, ActiveColumns(c.includeSoundexDM, c.soundexDMColumns));
    Ok(sx + dm)
  }

  /**
   * Column `i` of a stage inside its catch block: the `Width(stage)` cells
   * after the first `Span(stage, i)`, computed against the row with those
   * cells appended.
   */
  lemma ColumnStageAt(e: Engine, c: Config, table: Option<seq<ColumnDesc>>, stage: ColumnStage,
                      row: seq<Cell>, columns: seq<string>, i: nat)
    ensures var r := ColumnStage(e, c, table, stage, row, columns); var k := Span(stage, i);
      && (r.Ok? && c.abortOnError ==> |ColumnLoop(e, table, stage, row, columns).reached| == |columns|)
      && (r.Ok? && i < |ColumnLoop(e, table, stage, row, columns).reached| ==>
            && k + Width(stage) <= |r.value|
            && ColumnStep(e, table, stage, row + r.value[..k], columns[i]) == Ok(r.value[k..k + Width(stage)]))
  {
    ColumnCellsAt(e, table, stage, row, columns, i);
  }

  lemma AppendAssoc(a: seq<Cell>, b: seq<Cell>, c: seq<Cell>)
    ensures (a + b) + c == a + (b + c)
  {
  }

  /**
   * A stage that ran after `first` had been appended, seen in the joined
   * cells `first + its own`: the cells of its column `j` follow the `Span(stage, j)`
   * cells of its earlier columns, and were computed against the row with
   * everything before them appended.
   */
  lemma StageCellsAt(e: Engine, c: Config, table: Option<seq<ColumnDesc>>, stage: ColumnStage, row: seq<Cell>,
                     first: seq<Cell>, columns: seq<string>, joined: seq<Cell>, j: nat, w: nat, k: nat)
    requires ColumnStage(e, c, table, stage, row + first, columns).Ok?
    requires joined == first + ColumnStage(e, c, table, stage, row + first, columns).value
    requires w == Width(stage) && k == |first| + Span(stage, j)
    ensures j < |ColumnLoop(e, table, stage, row + first, columns).reached| ==>
      && k + w <= |joined|
      && ColumnStep(e, table, stage, row + joined[..k], columns[j]) == Ok(joined[k..k + w])
  {
    var own := ColumnStage(e, c, table, stage, row + first, columns).value;
    ColumnStageAt(e, c, table, stage, row + first, columns, j);
    if j < |ColumnLoop(e, table, stage, row + first, columns).reached| {
      JoinedSlices(row, first, own, joined, Span(stage, j), k, w);
    }
  }

  /** Cells `m..m + w` of `own`, seen in `first + own`, and the row up to them. */
  lemma JoinedSlices(row: seq<Cell>, first: seq<Cell>, own: seq<Cell>, joined: seq<Cell>, m: nat, k: nat, w: nat)
    requires joined == first + own && k == |first| + m && m + w <= |own|
    ensures k + w <= |joined|
    ensures row + joined[..k] == (row + first) + own[..m]
    ensures joined[k..k + w] == own[m..m + w]
  {
    assert joined[..k] == first + own[..m];
    AppendAssoc(row, first, own[..m]);
  }

  /** A Soundex step that succeeds read its column and appended the Soundex of the value. */
  lemma SoundexStepCell(e: Engine, table: Option<seq<ColumnDesc>>, row: seq<Cell>, column: string, cells: seq<Cell>)
    requires ColumnStep(e, table, SoundexStage, row, column) == Ok(cells)
    ensures ValueOf(table, row, column).Ok? && SoundexValue(e.soundex, ValueOf(table, row, column).value).Ok?
    ensures cells == [Str(SoundexValue(e.soundex, ValueOf(table, row, column).value).value)]
  {
  }

  /** A Soundex DM step that succeeds read its column and appended the DM Soundex of the value. */
  lemma DMStepCell(e: Engine, table: Option<seq<ColumnDesc>>, row: seq<Cell>, column: string, joined: seq<Cell>, q: nat)
    requires q + 1 <= |joined| && ColumnStep(e, table, DMStage, row + joined[..q], column) == Ok(joined[q..q + 1])
    ensures ValueOf(table, row + joined[..q], column).Ok? && DMValue(e.dmSoundex, ValueOf(table, row + joined[..q], column).value).Ok?
    ensures joined[q] == Str(DMValue(e.dmSoundex, ValueOf(table, row + joined[..q], column).value).value)
  {
    assert joined[q] == joined[q..q + 1][0];
  }

  /** The phonetic cells are the Soundex stage's cells followed by the DM stage's, which ran on the row with the former appended. */
  lemma PhoneticSplit(e: Engine, c: Config, table: Option<seq<ColumnDesc>>, row: seq<Cell>)
    ensures var r := PhoneticCells(e, c, table, row);
      var sx := ColumnStage(e, c, table, SoundexStage, row, ActiveColumns(c.includeSoundex, c.soundexColumns));
      r.Ok? ==>
        && sx.Ok?
        && var dm := ColumnStage(e, c, table, DMStage, row + sx.value, ActiveColumns(c.includeSoundexDM, c.soundexDMColumns));
           dm.Ok? && r.value == sx.value + dm.value
  {
  }

  /**
   * Soundex cell `i` is the Soundex of column `i` read from the row with the
   * earlier Soundex cells appended (the attribute itself when the column
   * names one), for every column the loop got through: under abort, every
   * column.
   */
  lemma PhoneticSoundexAt(e: Engine, c: Config, table: Option<seq<ColumnDesc>>, row: seq<Cell>, i: nat)
    ensures var cols := ActiveColumns(c.includeSoundex, c.soundexColumns);
      var r := PhoneticCells(e, c, table, row);
      && (r.Ok? && c.abortOnError ==> |ColumnLoop(e, table, SoundexStage, row, cols).reached| == |cols|)
      && (r.Ok? && i < |ColumnLoop(e, table, SoundexStage, row, cols).reached| ==>
            && i < |r.value|
            && var v := ValueOf(table, row + r.value[..i], cols[i]);
               && v.Ok? && SoundexValue(e.soundex, v.value).Ok?
               && r.value[i] == Str(SoundexValue(e.soundex, v.value).value)
               && (ValueOf(table, row, cols[i]).Ok? ==> v == ValueOf(table, row, cols[i])))
  {
    var cols := ActiveColumns(c.includeSoundex, c.soundexColumns);
    var r := PhoneticCells(e, c, table, row);
    PhoneticSplit(e, c, table, row);
    if r.Ok? {
      var sx := ColumnStage(e, c, table, SoundexStage, row, cols).value;
      ColumnStageAt(e, c, table, SoundexStage, row, cols, i);
      if i < |ColumnLoop(e, table, SoundexStage, row, cols).reached| {
        assert r.value[..i] == sx[..i];
        SoundexStepCell(e, table, row + sx[..i], cols[i], sx[i..i + 1]);
        assert r.value[i] == sx[i..i + 1][0];
        if ValueOf(table, row, cols[i]).Ok? {
          ValueOfExtended(table, row, sx[..i], cols[i]);
        }
      }
    }
  }

  /** A DM cell in the joined phonetic cells, given the Soundex cells before it. */
  lemma DMCellAt(e: Engine, c: Config, table: Option<seq<ColumnDesc>>, row: seq<Cell>, sx: seq<Cell>, joined: seq<Cell>, j: nat)
    requires ColumnStage(e, c, table, DMStage, row + sx, ActiveColumns(c.includeSoundexDM, c.soundexDMColumns)).Ok?
    requires joined == sx + ColumnStage(e, c, table, DMStage, row + sx, ActiveColumns(c.includeSoundexDM, c.soundexDMColumns)).value
    ensures var cols := ActiveColumns(c.includeSoundexDM, c.soundexDMColumns);
      j < |ColumnLoop(e, table, DMStage, row + sx, cols).reached| ==>
        && |sx| + j < |joined|
        && var v := ValueOf(table, row + joined[..|sx| + j], cols[j]);
           && v.Ok? && DMValue(e.dmSoundex, v.value).Ok?
           && joined[|sx| + j] == Str(DMValue(e.dmSoundex, v.value).value)
           && (ValueOf(table, row, cols[j]).Ok? ==> v == ValueOf(table, row, cols[j]))
  {
    StageCellsAt(e, c, table, DMStage, row, sx, ActiveColumns(c.includeSoundexDM, c.soundexDMColumns), joined, j, 1, |sx| + j);
    if j < |ColumnLoop(e, table, DMStage, row + sx, ActiveColumns(c.includeSoundexDM, c.soundexDMColumns)).reached| {
      assert |sx| + j + 1 <= |joined|;
      assert ColumnStep(e, table, DMStage, row + joined[..|sx| + j], ActiveColumns(c.includeSoundexDM, c.soundexDMColumns)[j]) == Ok(joined[|sx| + j..|sx| + j + 1]);
      DMStepCell(e, table, row, ActiveColumns(c.includeSoundexDM, c.soundexDMColumns)[j], joined, |sx| + j);
      if ValueOf(table, row, ActiveColumns(c.includeSoundexDM, c.soundexDMColumns)[j]).Ok? {
        ValueOfExtended(table, row, joined[..|sx| + j], ActiveColumns(c.includeSoundexDM, c.soundexDMColumns)[j]);
      }
    }
  }

  /**
   * Soundex DM cell `j` comes after the Soundex stage's cells and is the DM
   * Soundex of DM column `j` read from the row with the cells before it
   * appended.
   */
  lemma PhoneticDMAt(e: Engine, c: Config, table: Option<seq<ColumnDesc>>, row: seq<Cell>, j: nat)
    ensures var cols := ActiveColumns(c.includeSoundexDM, c.soundexDMColumns);
      var r := PhoneticCells(e, c, table, row);
      var sx := ColumnStage(e, c, table, SoundexStage, row, ActiveColumns(c.includeSoundex, c.soundexColumns));
      r.Ok? ==>
        && sx.Ok? && |sx.value| <= |r.value| && r.value[..|sx.value|] == sx.value
        && (c.abortOnError ==> |ColumnLoop(e, table, DMStage, row + sx.value, cols).reached| == |cols|)
        && (j < |ColumnLoop(e, table, DMStage, row + sx.value, cols).reached| ==>
              && |sx.value| + j < |r.value|
              && var v := ValueOf(table, row + r.value[..|sx.value| + j], cols[j]);
                 && v.Ok? && DMValue(e.dmSoundex, v.value).Ok?
                 && r.value[|sx.value| + j] == Str(DMValue(e.dmSoundex, v.value).value)
                 && (ValueOf(table, row, cols[j]).Ok? ==> v == ValueOf(table, row, cols[j])))
  {
    PhoneticSplit(e, c, table, row);
    if PhoneticCells(e, c, table, row).Ok? {
      PrefixOfAppend(ColumnStage(e, c, table, SoundexStage, row, ActiveColumns(c.includeSoundex, c.soundexColumns)).value,
                     ColumnStage(e, c, table, DMStage, row + ColumnStage(e, c, table, SoundexStage, row, ActiveColumns(c.includeSoundex, c.soundexColumns)).value,
                                 ActiveColumns(c.includeSoundexDM, c.soundexDMColumns)).value);
      DMCellAt(e, c, table, row, ColumnStage(e, c, table, SoundexStage, row, ActiveColumns(c.includeSoundex, c.soundexColumns)).value,
               PhoneticCells(e, c, table, row).value, j);
    }
  }

  /** The address-range cells (two per column), then the even/odd flags (one per column). */
  function AddressAndParityCells(e: Engine, c: Config, table: Option<seq<ColumnDesc>>, row: seq<Cell>): (r: Result<seq<Cell>, StageError>)
    ensures r.Ok? ==> |r.value| <= 2 * |ActiveColumns(c.splitAddressRanges, c.addressRangeColumns)| + |ActiveColumns(c.addEvenOddFlag, c.evenOddColumns)|
    ensures r.Ok? && c.abortOnError ==>
      |r.value| == 2 * |ActiveColumns(c.splitAddressRanges, c.addressRangeColumns)| + |ActiveColumns(c.addEvenOddFlag, c.evenOddColumns)|
    ensures !c.abortOnError ==> r.Ok?
    ensures r.Err? ==> r.error.stage == AddressRanges || r.error.stage == EvenOdd
  {
    var ad :- ColumnStage(e, c, table, AddressStage, row, ActiveColumns(c.splitAddressRanges, c.addressRangeColumns));
    var eo :- ColumnStage(e, c, table, EvenOddStage, row + ad, ActiveColumns(c.addEvenOddFlag, c.evenOddColumns));
    Ok(ad + eo)
  }

  /** An address step that succeeds read a string or an unset slot, and appended the split of its text. */
  lemma AddressStepCells(e: Engine, table: Option<seq<ColumnDesc>>, row: seq<Cell>, column: string, cells: seq<Cell>)
    requires ColumnStep(e, table, AddressStage, row, column) == Ok(cells)
    ensures ValueOf(table, row, column).Ok?
    ensures var v := ValueOf(table, row, column).value;
      && (v.Str? || v == Null)
      && cells == AddressCells(SplitAddressRange(if v.Str? then v.s else ""))
  {
  }

  /** An even/odd step that succeeds read an integer and appended its flag. */
  lemma EvenOddStepCell(e: Engine, table: Option<seq<ColumnDesc>>, row: seq<Cell>, column: string, joined: seq<Cell>, q: nat)
    requires q + 1 <= |joined| && ColumnStep(e, table, EvenOddStage, row + joined[..q], column) == Ok(joined[q..q + 1])
    ensures ValueOf(table, row + joined[..q], column).Ok? && ValueOf(table, row + joined[..q], column).value.Int?
    ensures joined[q] == EvenOddCell(ValueOf(table, row + joined[..q], column).value.i)
  {
    assert joined[q] == joined[q..q + 1][0];
  }

  /** The address cells are the address stage's cells followed by the even/odd stage's, which ran on the row with the former appended. */
  lemma AddressAndParitySplit(e: Engine, c: Config, table: Option<seq<ColumnDesc>>, row: seq<Cell>)
    ensures var r := AddressAndParityCells(e, c, table, row);
      var ad := ColumnStage(e, c, table, AddressStage, row, ActiveColumns(c.splitAddressRanges, c.addressRangeColumns));
      r.Ok? ==>
        && ad.Ok?
        && var eo := ColumnStage(e, c, table, EvenOddStage, row + ad.value, ActiveColumns(c.addEvenOddFlag, c.evenOddColumns));
           eo.Ok? && r.value == ad.value + eo.value
  {
  }

  /**
   * Address cells `2 i` and `2 i + 1` are the split of address column `i`
   * read from the row with the earlier address cells appended (the
   * attribute itself when the column names one): the number, then the unit.
   */
  lemma AddressAt(e: Engine, c: Config, table: Option<seq<ColumnDesc>>, row: seq<Cell>, i: nat)
    ensures var cols := ActiveColumns(c.splitAddressRanges, c.addressRangeColumns);
      AddressAndParityCells(e, c, table, row).Ok? && c.abortOnError ==> |ColumnLoop(e, table, AddressStage, row, cols).reached| == |cols|
    ensures var cols := ActiveColumns(c.splitAddressRanges, c.addressRangeColumns);
      var r := AddressAndParityCells(e, c, table, row);
      r.Ok? && i < |ColumnLoop(e, table, AddressStage, row, cols).reached| ==>
        && 2 * i + 2 <= |r.value|
        && var v := ValueOf(table, row + r.value[..2 * i], cols[i]);
           && v.Ok? && (v.value.Str? || v.value == Null)
           && r.value[2 * i..2 * i + 2] == AddressCells(SplitAddressRange(if v.value.Str? then v.value.s else ""))
           && (ValueOf(table, row, cols[i]).Ok? ==> v == ValueOf(table, row, cols[i]))
  {
    if AddressAndParityCells(e, c, table, row).Ok? {
      if c.abortOnError {
        AddressAndParitySplit(e, c, table, row);
        StageRanAll(e, c, table, AddressStage, row, ActiveColumns(c.splitAddressRanges, c.addressRangeColumns));
      }
      if i < |ColumnLoop(e, table, AddressStage, row, ActiveColumns(c.splitAddressRanges, c.addressRangeColumns)).reached| {
        AddressCellsAt(e, c, table, row, i);
      }
    }
  }

  /** The second half of `AddressAt`: the cells of an address column the stage got through. */
  lemma AddressCellsAt(e: Engine, c: Config, table: Option<seq<ColumnDesc>>, row: seq<Cell>, i: nat)
    requires AddressAndParityCells(e, c, table, row).Ok?
    requires i < |ColumnLoop(e, table, AddressStage, row, ActiveColumns(c.splitAddressRanges, c.addressRangeColumns)).reached|
    ensures var cols := ActiveColumns(c.splitAddressRanges, c.addressRangeColumns);
      var r := AddressAndParityCells(e, c, table, row);
      && 2 * i + 2 <= |r.value|
      && var v := ValueOf(table, row + r.value[..2 * i], cols[i]);
         && v.Ok? && (v.value.Str? || v.value == Null)
         && r.value[2 * i..2 * i + 2] == AddressCells(SplitAddressRange(if v.value.Str? then v.value.s else ""))
         && (ValueOf(table, row, cols[i]).Ok? ==> v == ValueOf(table, row, cols[i]))
  {
    AddressAndParitySplit(e, c, table, row);
    AddressStageAt(e, c, table, row, ActiveColumns(c.splitAddressRanges, c.addressRangeColumns), i);
    PrefixSlices(ColumnStage(e, c, table, AddressStage, row, ActiveColumns(c.splitAddressRanges, c.addressRangeColumns)).value,
                 ColumnStage(e, c, table, EvenOddStage, row + ColumnStage(e, c, table, AddressStage, row, ActiveColumns(c.splitAddressRanges, c.addressRangeColumns)).value,
                             ActiveColumns(c.addEvenOddFlag, c.evenOddColumns)).value, 2 * i, 2);
  }

  /** Under abort, a stage that returned got through all of its columns. */
  lemma StageRanAll(e: Engine, c: Config, table: Option<seq<ColumnDesc>>, stage: ColumnStage, row: seq<Cell>, columns: seq<string>)
    requires c.abortOnError && ColumnStage(e, c, table, stage, row, columns).Ok?
    ensures |ColumnLoop(e, table, stage, row, columns).reached| == |columns|
  {
  }

  /** `AddressAt` for the address stage's own cells. */
  lemma AddressStageAt(e: Engine, c: Config, table: Option<seq<ColumnDesc>>, row: seq<Cell>, cols: seq<string>, i: nat)
    requires ColumnStage(e, c, table, AddressStage, row, cols).Ok?
    requires i < |ColumnLoop(e, table, AddressStage, row, cols).reached|
    ensures var ad := ColumnStage(e, c, table, AddressStage, row, cols).value;
      && 2 * i + 2 <= |ad|
      && var v := ValueOf(table, row + ad[..2 * i], cols[i]);
         && v.Ok? && (v.value.Str? || v.value == Null)
         && ad[2 * i..2 * i + 2] == AddressCells(SplitAddressRange(if v.value.Str? then v.value.s else ""))
         && (ValueOf(table, row, cols[i]).Ok? ==> v == ValueOf(table, row, cols[i]))
  {
    var ad := ColumnStage(e, c, table, AddressStage, row, cols).value;
    ColumnStageAt(e, c, table, AddressStage, row, cols, i);
    AddressStepCells(e, table, row + ad[..2 * i], cols[i], ad[2 * i..2 * i + 2]);
    if ValueOf(table, row, cols[i]).Ok? {
      ValueOfExtended(table, row, ad[..2 * i], cols[i]);
    }
  }

  lemma PrefixOfAppend(x: seq<Cell>, y: seq<Cell>)
    ensures (x + y)[..|x|] == x
  {
  }

  /** The first cells of `x + y`, up to `m + w <= |x|`, are those of `x`. */
  lemma PrefixSlices(x: seq<Cell>, y: seq<Cell>, m: nat, w: nat)
    requires m + w <= |x|
    ensures (x + y)[..m] == x[..m] && (x + y)[m..m + w] == x[m..m + w]
  {
    assert (x + y)[..m] == x[..m];
    assert (x + y)[m..m + w] == x[m..m + w];
  }

  /** An even/odd cell in the joined cells, given the address cells before it. */
  lemma EvenOddCellAt(e: Engine, c: Config, table: Option<seq<ColumnDesc>>, row: seq<Cell>, ad: seq<Cell>, joined: seq<Cell>, j: nat)
    requires ColumnStage(e, c, table, EvenOddStage, row + ad, ActiveColumns(c.addEvenOddFlag, c.evenOddColumns)).Ok?
    requires joined == ad + ColumnStage(e, c, table, EvenOddStage, row + ad, ActiveColumns(c.addEvenOddFlag, c.evenOddColumns)).value
    ensures var cols := ActiveColumns(c.addEvenOddFlag, c.evenOddColumns);
      j < |ColumnLoop(e, table, EvenOddStage, row + ad, cols).reached| ==>
        && |ad| + j < |joined|
        && var v := ValueOf(table, row + joined[..|ad| + j], cols[j]);
           && v.Ok? && v.value.Int?
           && joined[|ad| + j] == EvenOddCell(v.value.i)
           && (ValueOf(table, row, cols[j]).Ok? ==> v == ValueOf(table, row, cols[j]))
  {
    StageCellsAt(e, c, table, EvenOddStage, row, ad, ActiveColumns(c.addEvenOddFlag, c.evenOddColumns), joined, j, 1, |ad| + j);
    if j < |ColumnLoop(e, table, EvenOddStage, row + ad, ActiveColumns(c.addEvenOddFlag, c.evenOddColumns)).reached| {
      assert |ad| + j + 1 <= |joined|;
      assert ColumnStep(e, table, EvenOddStage, row + joined[..|ad| + j], ActiveColumns(c.addEvenOddFlag, c.evenOddColumns)[j]) == Ok(joined[|ad| + j..|ad| + j + 1]);
      EvenOddStepCell(e, table, row, ActiveColumns(c.addEvenOddFlag, c.evenOddColumns)[j], joined, |ad| + j);
      if ValueOf(table, row, ActiveColumns(c.addEvenOddFlag, c.evenOddColumns)[j]).Ok? {
        ValueOfExtended(table, row, joined[..|ad| + j], ActiveColumns(c.addEvenOddFlag, c.evenOddColumns)[j]);
      }
    }
  }

  /**
   * Even/odd cell `j` comes after the address stage's cells and is the flag
   * of even/odd column `j` read, as an integer, from the row with the cells
   * before it appended.
   */
  lemma EvenOddAt(e: Engine, c: Config, table: Option<seq<ColumnDesc>>, row: seq<Cell>, j: nat)
    ensures var cols := ActiveColumns(c.addEvenOddFlag, c.evenOddColumns);
      var r := AddressAndParityCells(e, c, table, row);
      var ad := ColumnStage(e, c, table, AddressStage, row, ActiveColumns(c.splitAddressRanges, c.addressRangeColumns));
      r.Ok? ==>
        && ad.Ok? && |ad.value| <= |r.value| && r.value[..|ad.value|] == ad.value
        && (c.abortOnError ==> |ColumnLoop(e, table, EvenOddStage, row + ad.value, cols).reached| == |cols|)
        && (j < |ColumnLoop(e, table, EvenOddStage, row + ad.value, cols).reached| ==>
              && |ad.value| + j < |r.value|
              && var v := ValueOf(table, row + r.value[..|ad.value| + j], cols[j]);
                 && v.Ok? && v.value.Int?
                 && r.value[|ad.value| + j] == EvenOddCell(v.value.i)
                 && (ValueOf(table, row, cols[j]).Ok? ==> v == ValueOf(table, row, cols[j])))
  {
    AddressAndParitySplit(e, c, table, row);
    if AddressAndParityCells(e, c, table, row).Ok? {
      PrefixOfAppend(ColumnStage(e, c, table, AddressStage, row, ActiveColumns(c.splitAddressRanges, c.addressRangeColumns)).value,
                     ColumnStage(e, c, table, EvenOddStage, row + ColumnStage(e, c, table, AddressStage, row, ActiveColumns(c.splitAddressRanges, c.addressRangeColumns)).value,
                                 ActiveColumns(c.addEvenOddFlag, c.evenOddColumns)).value);
      EvenOddCellAt(e, c, table, row, ColumnStage(e, c, table, AddressStage, row, ActiveColumns(c.splitAddressRanges, c.addressRangeColumns)).value,
                    AddressAndParityCells(e, c, table, row).value, j);
    }
  }

  /**
   * The projection, area and centroid cells. Their widths do not depend on
   * the error policy: the tolerant policy still appends the defaults.
   */
  function MeasureCells(e: Engine, c: Config, geography: Option<Spatial>, geometry: Option<Spatial>): (r: Result<seq<Cell>, StageError>)
    ensures r.Ok? ==> |r.value| == Count(c.includeGeometryProjected) + Count(c.includeArea) + 2 * Count(c.includeCentroid)
    ensures r.Err? <==>
      (c.abortOnError &&
       ((c.includeArea && AreaCells(e, geography).fault.Some?)
        || (c.includeCentroid && CentroidCells(e, geography, geometry).fault.Some?)))
    ensures r.Err? ==> r.error.stage == Area || r.error.stage == Centroid
    ensures r.Ok? && c.includeGeometryProjected ==> r.value[0] == ProjectedCell(e, geography)
    ensures r.Ok? && c.includeArea ==> r.value[Count(c.includeGeometryProjected)] == AreaCells(e, geography).reached[0]
    ensures r.Ok? && c.includeCentroid ==>
      r.value[Count(c.includeGeometryProjected) + Count(c.includeArea)..] == CentroidCells(e, geography, geometry).reached
  {
    var proj := Optional(c.includeGeometryProjected, [ProjectedCell(e, geography)]);
    var area :- if c.includeArea then Settle(c.abortOnError, Area, AreaCells(e, geography)) else Ok([]);
    var cent :- if c.includeCentroid then Settle(c.abortOnError, Centroid, CentroidCells(e, geography, geometry)) else Ok([]);
    Ok(proj + area + cent)
  }

  /**
   * A projection that fails is swallowed whatever the policy: the measure
   * stages raise only for an area or centroid fault.
   */
  lemma ProjectionNeverRaises(e: Engine, c: Config, geography: Option<Spatial>, geometry: Option<Spatial>)
    ensures MeasureCells(e, c, geography, geometry).Err?
        == MeasureCells(e, c.(includeGeometryProjected := false), geography, geometry).Err?
    ensures MeasureCells(e, c, geography, geometry).Err? ==>
      MeasureCells(e, c, geography, geometry).error == MeasureCells(e, c.(includeGeometryProjected := false), geography, geometry).error
  {
  }

  /**
   * The centroid is guarded by the geography but taken of the geometry: under
   * the abort policy, a present geography without a geometry raises.
   */
  lemma CentroidNeedsGeometry(e: Engine, c: Config, geography: Option<Spatial>)
    requires c.abortOnError && c.includeCentroid && Present(e, geography)
    ensures MeasureCells(e, c, geography, None).Err?
  {
  }

  // ---- against the schema ------------------------------------------------------

  /** Cell `k` of `full` is the Soundex code of `column` read from the cells before it. */
  predicate HoldsSoundexCode(e: Engine, table: Option<seq<ColumnDesc>>, full: seq<Cell>, k: nat, column: string) {
    && k < |full|
    && ValueOf(table, full[..k], column).Ok?
    && SoundexValue(e.soundex, ValueOf(table, full[..k], column).value).Ok?
    && full[k] == Str(SoundexValue(e.soundex, ValueOf(table, full[..k], column).value).value)
  }

  /** Cell `k` of `full` is the Daitch-Mokotoff Soundex code of `column` read from the cells before it. */
  predicate HoldsDMCode(e: Engine, table: Option<seq<ColumnDesc>>, full: seq<Cell>, k: nat, column: string) {
    && k < |full|
    && ValueOf(table, full[..k], column).Ok?
    && DMValue(e.dmSoundex, ValueOf(table, full[..k], column).value).Ok?
    && full[k] == Str(DMValue(e.dmSoundex, ValueOf(table, full[..k], column).value).value)
  }

  /** From position `start`, each cell holds the Soundex code of the matching column of `names`. */
  predicate SoundexCodesAt(e: Engine, table: Option<seq<ColumnDesc>>, full: seq<Cell>, start: nat, names: seq<string>) {
    forall i :: 0 <= i < |names| ==> HoldsSoundexCode(e, table, full, start + i, names[i])
  }

  /** From position `start`, each cell holds the DM Soundex code of the matching column of `names`. */
  predicate DMCodesAt(e: Engine, table: Option<seq<ColumnDesc>>, full: seq<Cell>, start: nat, names: seq<string>) {
    forall j :: 0 <= j < |names| ==> HoldsDMCode(e, table, full, start + j, names[j])
  }

  /** Under abort, the Soundex cells placed after `n` cells hold the codes of their columns. */
  lemma SoundexCellsPlaced(e: Engine, c: Config, table: Option<seq<ColumnDesc>>, full: seq<Cell>, n: nat, p: seq<Cell>)
    requires c.abortOnError && SliceAt(full, n, p) && PhoneticCells(e, c, table, full[..n]) == Ok(p)
    ensures SoundexCodesAt(e, table, full, n, ActiveColumns(c.includeSoundex, c.soundexColumns))
  {
    var sx := ActiveColumns(c.includeSoundex, c.soundexColumns);
    forall i | 0 <= i < |sx|
      ensures HoldsSoundexCode(e, table, full, n + i, sx[i])
    {
      PhoneticSoundexAt(e, c, table, full[..n], i);
      SliceIndex(full, n, p, i, n + i);
    }
  }

  /** One DM cell of `DMCellsPlaced`. */
  lemma DMCellPlaced(e: Engine, c: Config, table: Option<seq<ColumnDesc>>, full: seq<Cell>, n: nat, p: seq<Cell>, j: nat, q: nat)
    requires c.abortOnError && SliceAt(full, n, p) && PhoneticCells(e, c, table, full[..n]) == Ok(p)
    requires j < |ActiveColumns(c.includeSoundexDM, c.soundexDMColumns)| && q == DMStart(c, n) + j
    ensures HoldsDMCode(e, table, full, q, ActiveColumns(c.includeSoundexDM, c.soundexDMColumns)[j])
  {
    var sx := ActiveColumns(c.includeSoundex, c.soundexColumns);
    var dm := ActiveColumns(c.includeSoundexDM, c.soundexDMColumns);
    var k := |sx| + j;
    PhoneticDMAbort(e, c, table, full[..n], p, j, k);
    SliceIndex(full, n, p, k, q);
    DMCodeFromParts(e, table, full, q, dm[j], full[..n] + p[..k], p[k]);
  }

  /** Under abort, DM cell `j` sits right after all the Soundex cells. */
  lemma PhoneticDMAbort(e: Engine, c: Config, table: Option<seq<ColumnDesc>>, row: seq<Cell>, p: seq<Cell>, j: nat, k: nat)
    requires c.abortOnError && PhoneticCells(e, c, table, row) == Ok(p)
    requires j < |ActiveColumns(c.includeSoundexDM, c.soundexDMColumns)|
    requires k == |ActiveColumns(c.includeSoundex, c.soundexColumns)| + j
    ensures var column := ActiveColumns(c.includeSoundexDM, c.soundexDMColumns)[j];
      && k < |p|
      && ValueOf(table, row + p[..k], column).Ok?
      && DMValue(e.dmSoundex, ValueOf(table, row + p[..k], column).value).Ok?
      && p[k] == Str(DMValue(e.dmSoundex, ValueOf(table, row + p[..k], column).value).value)
  {
    PhoneticAbortStages(e, c, table, row, p);
    DMCellAt(e, c, table, row, ColumnStage(e, c, table, SoundexStage, row, ActiveColumns(c.includeSoundex, c.soundexColumns)).value, p, j);
  }

  /** Under abort, phonetic cells that were computed hold one cell per Soundex column, then one per DM column. */
  lemma PhoneticAbortStages(e: Engine, c: Config, table: Option<seq<ColumnDesc>>, row: seq<Cell>, p: seq<Cell>)
    requires c.abortOnError && PhoneticCells(e, c, table, row) == Ok(p)
    ensures ColumnStage(e, c, table, SoundexStage, row, ActiveColumns(c.includeSoundex, c.soundexColumns)).Ok?
    ensures var sx := ColumnStage(e, c, table, SoundexStage, row, ActiveColumns(c.includeSoundex, c.soundexColumns)).value;
      && |sx| == |ActiveColumns(c.includeSoundex, c.soundexColumns)|
      && ColumnStage(e, c, table, DMStage, row + sx, ActiveColumns(c.includeSoundexDM, c.soundexDMColumns)).Ok?
      && p == sx + ColumnStage(e, c, table, DMStage, row + sx, ActiveColumns(c.includeSoundexDM, c.soundexDMColumns)).value
      && |ColumnLoop(e, table, DMStage, row + sx, ActiveColumns(c.includeSoundexDM, c.soundexDMColumns)).reached|
         == |ActiveColumns(c.includeSoundexDM, c.soundexDMColumns)|
  {
    PhoneticSplit(e, c, table, row);
  }

  /** A DM code read from the cells before position `q`, found at `q`. */
  lemma DMCodeFromParts(e: Engine, table: Option<seq<ColumnDesc>>, full: seq<Cell>, q: nat, column: string, pre: seq<Cell>, cell: Cell)
    requires q < |full| && pre == full[..q] && full[q] == cell
    requires ValueOf(table, pre, column).Ok? && DMValue(e.dmSoundex, ValueOf(table, pre, column).value).Ok?
    requires cell == Str(DMValue(e.dmSoundex, ValueOf(table, pre, column).value).value)
    ensures HoldsDMCode(e, table, full, q, column)
  {
  }

  /** Under abort, the DM cells placed after the Soundex cells hold the DM codes of their columns. */
  lemma DMCellsPlaced(e: Engine, c: Config, table: Option<seq<ColumnDesc>>, full: seq<Cell>, n: nat, p: seq<Cell>)
    requires c.abortOnError && SliceAt(full, n, p) && PhoneticCells(e, c, table, full[..n]) == Ok(p)
    ensures DMCodesAt(e, table, full, DMStart(c, n), ActiveColumns(c.includeSoundexDM, c.soundexDMColumns))
  {
    forall j | 0 <= j < |ActiveColumns(c.includeSoundexDM, c.soundexDMColumns)|
      ensures HoldsDMCode(e, table, full, DMStart(c, n) + j, ActiveColumns(c.includeSoundexDM, c.soundexDMColumns)[j])
    {
      DMCellPlaced(e, c, table, full, n, p, j, DMStart(c, n) + j);
    }
  }

  /**
   * Under abort, phonetic cells computed on the first `n` cells of a row and
   * placed right after them hold, in order, the Soundex code of each Soundex
   * column, then the DM code of each DM column, each read from the cells
   * before it.
   */
  lemma PhoneticCodesPlaced(e: Engine, c: Config, table: Option<seq<ColumnDesc>>, row: seq<Cell>, n: nat)
    requires c.abortOnError && PhoneticPlacedAt(e, c, table, row, n)
    ensures SoundexCodesAt(e, table, row, n, ActiveColumns(c.includeSoundex, c.soundexColumns))
    ensures DMCodesAt(e, table, row, DMStart(c, n), ActiveColumns(c.includeSoundexDM, c.soundexDMColumns))
  {
    SoundexCellsPlaced(e, c, table, row, n, PhoneticCells(e, c, table, row[..n]).value);
    DMCellsPlaced(e, c, table, row, n, PhoneticCells(e, c, table, row[..n]).value);
  }

  /** From `n` on, `row` holds the phonetic cells computed from the cells before `n`. */
  predicate PhoneticPlacedAt(e: Engine, c: Config, table: Option<seq<ColumnDesc>>, row: seq<Cell>, n: nat) {
    n <= |row| && PhoneticCells(e, c, table, row[..n]).Ok? && SliceAt(row, n, PhoneticCells(e, c, table, row[..n]).value)
  }
}
