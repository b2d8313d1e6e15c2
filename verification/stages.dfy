/**
 * The enrichment stages of row composition that the readers share: string
 * trimming, the per-column loops (Soundex, Daitch-Mokotoff Soundex, address
 * ranges, even/odd flags), line end points, and the projection, area and
 * centroid cells.
 *
 * A stage reads the row as it stands when it runs: `GetValue(GetOrdinal(c))`
 * looks `c` up in the cached schema and takes that cell of the current row,
 * so a per-column loop can see the cells it appended itself.
 */
module Stages {
  import opened Common
  import opened Data
  import opened Text
  import opened Geo
  import opened Schema

  // ---- attribute copy --------------------------------------------------------

  /**
   * `ShouldTrimStringData`: every string cell is replaced by its trimmed
   * value; every other cell, and the length of the row, stay as they are.
   */
  function TrimCells(row: seq<Cell>): (r: seq<Cell>)
    ensures |r| == |row|
    ensures forall i :: 0 <= i < |row| ==> (r[i].Str? <==> row[i].Str?)
    ensures forall i :: 0 <= i < |row| && !row[i].Str? ==> r[i] == row[i]
    ensures forall i :: 0 <= i < |row| && row[i].Str? ==> r[i].s == Trim(row[i].s)
  {
    seq(|row|, i requires 0 <= i < |row| => if row[i].Str? then Str(Trim(row[i].s)) else row[i])
  }

  /** Trimming the row a second time changes nothing. */
  lemma TrimCellsIdempotent(row: seq<Cell>)
    ensures TrimCells(TrimCells(row)) == TrimCells(row)
  {
    var once := TrimCells(row);
    forall i | 0 <= i < |row| && row[i].Str?
      ensures TrimCells(once)[i] == once[i]
    {
      TrimIdempotent(row[i].s);
    }
  }

  // ---- reading cells ---------------------------------------------------------

  /** `GetValue(GetOrdinal(column))` on the row as it stands. */
  function ValueOf(table: Option<seq<ColumnDesc>>, row: seq<Cell>, column: string): (r: Result<Cell, Fault>)
    ensures r.Ok? <==> Ordinal(table, column).Ok? && Ordinal(table, column).value < |row|
    ensures r.Ok? ==> r.value == row[Ordinal(table, column).value]
    ensures r.Err? && Ordinal(table, column).Ok? ==> r.error == IndexOutOfRange
  {
    var i :- Ordinal(table, column);
    if i < |row| then Ok(row[i]) else Err(IndexOutOfRange)
  }

  /** Cells appended after the one a column names do not change what is read for it. */
  lemma ValueOfExtended(table: Option<seq<ColumnDesc>>, row: seq<Cell>, extra: seq<Cell>, column: string)
    requires ValueOf(table, row, column).Ok?
    ensures ValueOf(table, row + extra, column) == ValueOf(table, row, column)
  {
  }

  /** The `(string)` cast: a string cell, null for an unset slot, an invalid cast for anything else. */
  function AsString(v: Cell): (r: Result<Option<string>, Fault>)
    ensures r.Ok? <==> v.Str? || v == Null
    ensures v.Str? ==> r == Ok(Some(v.s))
    ensures v == Null ==> r == Ok(None)
    ensures r.Err? ==> r.error == InvalidCast
  {
    match v
    case Str(s) => Ok(Some(s))
    case Null => Ok(None)
    case _ => Err(InvalidCast)
  }

  /** `GetInt32` on a cell: its integer, or an invalid cast. */
  function AsInt32(v: Cell): (r: Result<int, Fault>)
    ensures r.Ok? <==> v.Int?
    ensures r.Ok? ==> r.value == v.i
    ensures r.Err? ==> r.error == InvalidCast
  {
    if v.Int? then Ok(v.i) else Err(InvalidCast)
  }

  // ---- Soundex ---------------------------------------------------------------

  /**
   * The Soundex of one value: "" for the database null, the encoding of a
   * string otherwise. An unset slot reaches the encoder as a null string,
   * which the encoder is taken to reject with a null reference.
   */
  function SoundexValue(encode: string -> string, v: Cell): (r: Result<string, Fault>)
    ensures v == DbNull ==> r == Ok("")
    ensures v.Str? ==> r == Ok(encode(v.s))
    ensures r.Err? <==> !v.Str? && v != DbNull
    ensures v == Null ==> r == Err(NullReference)
  {
    if v == DbNull then Ok("")
    else
      match AsString(v)
      case Err(f) => Err(f)
      case Ok(None) => Err(NullReference)
      case Ok(Some(s)) => Ok(encode(s))
  }

  /**
   * The Daitch-Mokotoff Soundex of one value: "" for the database null, a
   * null string and the empty string, the encoding of any other string.
   */
  function DMValue(encode: string -> string, v: Cell): (r: Result<string, Fault>)
    ensures v == DbNull || v == Null || v == Str("") ==> r == Ok("")
    ensures v.Str? && v.s != "" ==> r == Ok(encode(v.s))
    ensures r.Err? <==> !v.Str? && v != Null && v != DbNull
  {
    if v == DbNull then Ok("")
    else
      match AsString(v)
      case Err(f) => Err(f)
      case Ok(None) => Ok("")
      case Ok(Some(s)) => if s == "" then Ok("") else Ok(encode(s))
  }

  // ---- address ranges --------------------------------------------------------

  /** A split address range: `number` is -1 when no house number was found. */
  datatype AddressRange = AddressRange(number: int, unit: string)

  /**
   * The address-range split of one value. A value that is an integer is the
   * number. Otherwise a value with exactly one '-' is split there: the text
   * after the dash is the unit, and the text before it is the number when it
   * is an integer. Anything else has neither.
   */
  function SplitAddressRange(orig: string): (r: AddressRange)
    ensures ParseInt(orig).Some? ==> r == AddressRange(ParseInt(orig).value, "")
    ensures ParseInt(orig).None? && Occurrences(orig, '-') == 1 ==>
      var d := IndexOf(orig, '-');
      0 <= d && r.unit == orig[d + 1..]
      && r.number == (if ParseInt(orig[..d]).Some? then ParseInt(orig[..d]).value else -1)
    ensures ParseInt(orig).None? && Occurrences(orig, '-') != 1 ==> r == AddressRange(-1, "")
  {
    SplitAtOnlyDash(orig);
    if orig == "" then AddressRange(-1, "")
    else
      match ParseInt(orig)
      case Some(n) => AddressRange(n, "")
      case None =>
        if IndexOf(orig, '-') >= 0 then
          var parts := Split(orig, '-');
          if |parts| == 2 then
            var number := if ParseInt(parts[0]).Some? then ParseInt(parts[0]).value else -1;
            AddressRange(number, parts[1])
          else AddressRange(-1, "")
        else AddressRange(-1, "")
  }

  /** Splitting at '-' gives two pieces exactly when there is one dash: the text before it and the text after it. */
  lemma SplitAtOnlyDash(s: string)
    ensures |Split(s, '-')| == 2 <==> Occurrences(s, '-') == 1
    ensures Occurrences(s, '-') == 1 ==>
      var d := IndexOf(s, '-');
      0 <= d && Split(s, '-') == [s[..d], s[d + 1..]]
  {
    SplitCount(s, '-');
    if Occurrences(s, '-') == 1 {
      var d := IndexOf(s, '-');
      if d < 0 {
        OccurrencesAbsent(s, '-');
      } else {
        var tail := s[d + 1..];
        SplitCount(tail, '-');
        assert |Split(tail, '-')| == 1;
      }
    }
  }

  /** The two cells of one address-range column: the number (left unset when negative) and the unit. */
  function AddressCells(r: AddressRange): (cells: seq<Cell>)
    ensures |cells| == 2
    ensures cells[0] == Null <==> r.number < 0
    ensures cells[0] != Null ==> cells[0] == Int(r.number)
    ensures cells[1] == Str(r.unit)
  {
    [if r.number >= 0 then Int(r.number) else Null, Str(r.unit)]
  }

  /** A house number written with a unit after a dash is split back into the two. */
  lemma AddressRangeRoundTrip(n: nat, unit: string)
    requires n <= Int32Max
    requires '-' !in unit
    ensures SplitAddressRange(NatToDecimal(n) + "-" + unit) == AddressRange(n, unit)
  {
    var digits := NatToDecimal(n);
    var s := digits + "-" + unit;
    NoDashInDecimal(n);
    assert Join([digits, unit], '-') == s by {
      JoinCons(digits, [unit], '-');
    }
    SplitJoin([digits, unit], '-');
    assert s[|digits|] == '-';
    assert s[1..][|digits| - 1] == '-';
    ParseIntToDecimal(n);
  }

  lemma ParseOneTwoThree()
    ensures ParseInt("123") == Some(123)
    ensures NatToDecimal(123) == "123"
  {
    assert DigitsValue("123") == 123 by {
      assert "123"[..2] == "12";
      assert "12"[..1] == "1";
      assert "1"[..0] == "";
    }
    assert NatToDecimal(12) == "12" by {
      assert NatToDecimal(1) == "1";
    }
  }

  /** A plain house number has no unit. */
  lemma AddressNumberOnly()
    ensures SplitAddressRange("123") == AddressRange(123, "")
  {
    ParseOneTwoThree();
  }

  /** A number and a unit joined by a dash. */
  lemma AddressNumberAndUnit()
    ensures SplitAddressRange("123-A") == AddressRange(123, "A")
  {
    ParseOneTwoThree();
    AddressRangeRoundTrip(123, "A");
    assert "123" + "-" + "A" == "123-A";
  }

  /** A dashed value whose first piece is not a number keeps only the unit. */
  lemma AddressUnitWithoutNumber()
    ensures SplitAddressRange("A-1") == AddressRange(-1, "1")
  {
    var s := "A-1";
    assert s[0] == 'A' && s[1] == '-';
    assert !AllDigits(s);
    assert !AllDigits(s[1..]);
    assert ParseInt(s).None?;
    assert s[1..] == "-1" && s[1..][1..] == "1" && s[1..][1..][1..] == "";
    assert Occurrences(s, '-') == 1;
    assert IndexOf(s, '-') == 1;
    assert s[..1] == "A" && s[2..] == "1";
    assert "A"[0] == 'A';
    assert ParseInt("A").None?;
  }

  /** A value with two dashes is not split at all. */
  lemma AddressTwoDashes()
    ensures SplitAddressRange("1-2-3") == AddressRange(-1, "")
  {
    var s := "1-2-3";
    assert s[1] == '-';
    assert !AllDigits(s);
    assert s[1..][0] == '-';
    assert !AllDigits(s[1..]);
    assert ParseInt(s).None?;
    assert s[1..] == "-2-3" && s[2..] == "2-3" && s[3..] == "-3" && s[4..] == "3" && s[5..] == "";
    assert s[1..][1..] == s[2..] && s[2..][1..] == s[3..] && s[3..][1..] == s[4..] && s[4..][1..] == s[5..];
    assert Occurrences(s, '-') == 2;
  }

  // ---- even / odd ------------------------------------------------------------

  /** The even flag of one value: set only for a positive value, and true exactly when it is even. */
  function EvenOddCell(v: int): (c: Cell)
    ensures c.Bool? <==> v > 0
    ensures c.Bool? ==> (c.b <==> v % 2 == 0)
    ensures !c.Bool? ==> c == Null
  {
    if v > 0 then
      var odd := v % 2 != 0;
      Bool(!odd)
    else Null
  }

  /** Consecutive positive house numbers alternate between even and odd. */
  lemma EvenOddAlternates(v: int)
    requires v > 0
    ensures EvenOddCell(v + 1) == Bool(!EvenOddCell(v).b)
  {
  }

  // ---- the per-column loops --------------------------------------------------

  /** The stages that append cells for each configured column. */
  datatype ColumnStage = SoundexStage | DMStage | AddressStage | EvenOddStage

  /** How many cells a column stage appends per column. */
  function Width(stage: ColumnStage): nat {
    if stage == AddressStage then 2 else 1
  }

  /** The cells that `n` columns of a stage append, written without a product so that it stays linear. */
  function Span(stage: ColumnStage, n: nat): nat {
    if stage == AddressStage then 2 * n else n
  }

  lemma SpanIsProduct(stage: ColumnStage, n: nat)
    ensures Span(stage, n) == Width(stage) * n
  {
  }

  function StageOf(stage: ColumnStage): StageName {
    match stage
    case SoundexStage => Soundex
    case DMStage => SoundexDM
    case AddressStage => AddressRanges
    case EvenOddStage => EvenOdd
  }

  /** One iteration of a column loop: read the column from the row as it stands, append its cells. */
  function ColumnStep(e: Engine, table: Option<seq<ColumnDesc>>, stage: ColumnStage, row: seq<Cell>, column: string): (r: Result<seq<Cell>, Fault>)
    ensures r.Ok? ==> |r.value| == Width(stage)
    ensures ValueOf(table, row, column).Err? ==> r == Err(ValueOf(table, row, column).error)
    ensures ValueOf(table, row, column).Ok? ==>
      var v := ValueOf(table, row, column).value;
      match stage
      case SoundexStage => r == (if SoundexValue(e.soundex, v).Ok? then Ok([Str(SoundexValue(e.soundex, v).value)])
                                 else Err(SoundexValue(e.soundex, v).error))
      case DMStage => r == (if DMValue(e.dmSoundex, v).Ok? then Ok([Str(DMValue(e.dmSoundex, v).value)])
                            else Err(DMValue(e.dmSoundex, v).error))
      case AddressStage => r == (if v.Str? then Ok(AddressCells(SplitAddressRange(v.s)))
                                 else if v == Null then Ok(AddressCells(SplitAddressRange("")))
                                 else Err(InvalidCast))
      case EvenOddStage => r == (if v.Int? then Ok([EvenOddCell(v.i)]) else Err(InvalidCast))
  {
    var v :- ValueOf(table, row, column);
    match stage
    case SoundexStage =>
      var s :- SoundexValue(e.soundex, v);
      Ok([Str(s)])
    case DMStage =>
      var s :- DMValue(e.dmSoundex, v);
      Ok([Str(s)])
    case AddressStage =>
      var s :- AsString(v);
      Ok(AddressCells(SplitAddressRange(if s.Some? then s.value else "")))
    case EvenOddStage =>
      var n :- AsInt32(v);
      Ok([EvenOddCell(n)])
  }

  /** One iteration of some column loop, as a function of the row as it stands and the column name. */
  type StepFn = (seq<Cell>, string) -> Result<seq<Cell>, Fault>

  /**
   * A column loop: one group of cells per column, each step reading the row
   * with the earlier groups appended; the first step that throws ends it.
   */
  function Loop(step: StepFn, row: seq<Cell>, columns: seq<string>): (a: Attempt<seq<seq<Cell>>>)
    ensures |a.reached| <= |columns|
    ensures a.fault.None? <==> |a.reached| == |columns|
    decreases |columns|
  {
    if columns == [] then Attempt([], None)
    else
      match step(row, columns[0])
      case Err(f) => Attempt([], Some(f))
      case Ok(cells) =>
        var rest := Loop(step, row + cells, columns[1..]);
        Attempt([cells] + rest.reached, rest.fault)
  }

  function Flatten(groups: seq<seq<Cell>>): seq<Cell>
    decreases |groups|
  {
    if groups == [] then [] else groups[0] + Flatten(groups[1..])
  }

  lemma {:induction false} FlattenWidth(groups: seq<seq<Cell>>, w: nat)
    requires forall i :: 0 <= i < |groups| ==> |groups[i]| == w
    ensures |Flatten(groups)| == w * |groups|
    decreases |groups|
  {
    if groups != [] {
      FlattenWidth(groups[1..], w);
    }
  }

  lemma FlattenCons(g: seq<Cell>, rest: seq<seq<Cell>>)
    ensures Flatten([g] + rest) == g + Flatten(rest)
  {
    assert ([g] + rest)[1..] == rest;
  }

  /** Group `i` is what the step gives for column `i` against the row with groups `0..i` appended. */
  lemma {:induction false} LoopStepAt(step: StepFn, row: seq<Cell>, columns: seq<string>, i: nat)
    requires i < |Loop(step, row, columns).reached|
    ensures var a := Loop(step, row, columns);
      step(row + Flatten(a.reached[..i]), columns[i]) == Ok(a.reached[i])
    decreases i
  {
    var cells := step(row, columns[0]).value;
    var rest := Loop(step, row + cells, columns[1..]);
    var reached := [cells] + rest.reached;
    assert Loop(step, row, columns).reached == reached;
    if i == 0 {
      assert row + Flatten(reached[..0]) == row;
    } else {
      LoopStepAt(step, row + cells, columns[1..], i - 1);
      var pre := rest.reached[..i - 1];
      assert reached[..i] == [cells] + pre;
      FlattenCons(cells, pre);
      assert row + (cells + Flatten(pre)) == (row + cells) + Flatten(pre);
      assert columns[i] == columns[1..][i - 1];
    }
  }

  /** A loop that ends with a fault ends at the column after the last group, with that column's fault. */
  lemma {:induction false} LoopStopsAt(step: StepFn, row: seq<Cell>, columns: seq<string>)
    requires Loop(step, row, columns).fault.Some?
    ensures var a := Loop(step, row, columns);
      step(row + Flatten(a.reached), columns[|a.reached|]) == Err(a.fault.value)
    decreases |columns|
  {
    if step(row, columns[0]).Ok? {
      var cells := step(row, columns[0]).value;
      var rest := Loop(step, row + cells, columns[1..]);
      LoopStopsAt(step, row + cells, columns[1..]);
      var reached := [cells] + rest.reached;
      assert Loop(step, row, columns) == Attempt(reached, rest.fault);
      FlattenCons(cells, rest.reached);
      assert row + (cells + Flatten(rest.reached)) == (row + cells) + Flatten(rest.reached);
      assert columns[|reached|] == columns[1..][|rest.reached|];
    } else {
      assert row + Flatten([]) == row;
    }
  }

  /** A step that always gives `w` cells makes every group `w` cells wide. */
  lemma {:induction false} LoopWidths(step: StepFn, w: nat, row: seq<Cell>, columns: seq<string>)
    requires forall r, col :: step(r, col).Ok? ==> |step(r, col).value| == w
    ensures forall i :: 0 <= i < |Loop(step, row, columns).reached| ==> |Loop(step, row, columns).reached[i]| == w
    decreases |columns|
  {
    if columns != [] && step(row, columns[0]).Ok? {
      var cells := step(row, columns[0]).value;
      LoopWidths(step, w, row + cells, columns[1..]);
      var a := Loop(step, row, columns);
      assert a.reached == [cells] + Loop(step, row + cells, columns[1..]).reached;
    }
  }

  /** A step that does not look at the appended cells gives each group from the row alone. */
  lemma {:induction false} LoopReadsRow(step: StepFn, row: seq<Cell>, columns: seq<string>)
    requires forall i, extra :: 0 <= i < |columns| ==> step(row + extra, columns[i]) == step(row, columns[i])
    ensures var a := Loop(step, row, columns);
      forall i :: 0 <= i < |a.reached| ==> step(row, columns[i]) == Ok(a.reached[i])
    decreases |columns|
  {
    if columns != [] && step(row, columns[0]).Ok? {
      var cells := step(row, columns[0]).value;
      var tail := columns[1..];
      forall i, extra | 0 <= i < |tail|
        ensures step((row + cells) + extra, tail[i]) == step(row + cells, tail[i])
      {
        assert (row + cells) + extra == row + (cells + extra);
        assert tail[i] == columns[i + 1];
      }
      LoopReadsRow(step, row + cells, tail);
      var rest := Loop(step, row + cells, tail);
      assert Loop(step, row, columns).reached == [cells] + rest.reached;
      forall i | 0 <= i < |rest.reached|
        ensures step(row, tail[i]) == Ok(rest.reached[i])
      {
        assert tail[i] == columns[i + 1];
      }
    }
  }

  /** The column loop of one stage. */
  function Stepper(e: Engine, table: Option<seq<ColumnDesc>>, stage: ColumnStage): StepFn {
    (r, col) => ColumnStep(e, table, stage, r, col)
  }

  /** The groups appended before an exception ended the loop, one per column handled. */
  function ColumnLoop(e: Engine, table: Option<seq<ColumnDesc>>, stage: ColumnStage, row: seq<Cell>, columns: seq<string>): (a: Attempt<seq<seq<Cell>>>)
    ensures |a.reached| <= |columns|
    ensures a.fault.None? <==> |a.reached| == |columns|
    ensures forall i :: 0 <= i < |a.reached| ==> |a.reached[i]| == Width(stage)
  {
    LoopWidths(Stepper(e, table, stage), Width(stage), row, columns);
    Loop(Stepper(e, table, stage), row, columns)
  }

  /**
   * Each column is handled against the row with the cells of the earlier
   * columns already appended, and the loop stops at the first column whose
   * step throws.
   */
  lemma ColumnLoopSteps(e: Engine, table: Option<seq<ColumnDesc>>, stage: ColumnStage, row: seq<Cell>, columns: seq<string>)
    ensures var a := ColumnLoop(e, table, stage, row, columns);
      && (forall i :: 0 <= i < |a.reached| ==> ColumnStep(e, table, stage, row + Flatten(a.reached[..i]), columns[i]) == Ok(a.reached[i]))
      && (a.fault.Some? ==> ColumnStep(e, table, stage, row + Flatten(a.reached), columns[|a.reached|]) == Err(a.fault.value))
  {
    var step := Stepper(e, table, stage);
    var a := ColumnLoop(e, table, stage, row, columns);
    forall i | 0 <= i < |a.reached|
      ensures ColumnStep(e, table, stage, row + Flatten(a.reached[..i]), columns[i]) == Ok(a.reached[i])
    {
      LoopStepAt(step, row, columns, i);
    }
    if a.fault.Some? {
      LoopStopsAt(step, row, columns);
    }
  }

  /**
   * When every configured column names a cell that already exists in the
   * row, each column's cells are computed from that row alone: what the loop
   * appends does not feed back into later columns.
   */
  lemma ColumnLoopReadsRow(e: Engine, table: Option<seq<ColumnDesc>>, stage: ColumnStage, row: seq<Cell>, columns: seq<string>)
    requires forall i :: 0 <= i < |columns| ==> ValueOf(table, row, columns[i]).Ok?
    ensures var a := ColumnLoop(e, table, stage, row, columns);
      forall i :: 0 <= i < |a.reached| ==> ColumnStep(e, table, stage, row, columns[i]) == Ok(a.reached[i])
  {
    var step := Stepper(e, table, stage);
    forall i, extra | 0 <= i < |columns|
      ensures step(row + extra, columns[i]) == step(row, columns[i])
    {
      ValueOfExtended(table, row, extra, columns[i]);
    }
    LoopReadsRow(step, row, columns);
  }

  /** The cells a column stage appends: the groups of the columns it got through, in column order. */
  function ColumnCells(e: Engine, table: Option<seq<ColumnDesc>>, stage: ColumnStage, row: seq<Cell>, columns: seq<string>): (a: Attempt<seq<Cell>>)
    ensures a.fault.None? ==> |a.reached| == Span(stage, |columns|)
    ensures a.fault.Some? ==> |a.reached| + Width(stage) <= Span(stage, |columns|)
    ensures a.fault == ColumnLoop(e, table, stage, row, columns).fault
    ensures a.reached == Flatten(ColumnLoop(e, table, stage, row, columns).reached)
    ensures |a.reached| == Span(stage, |ColumnLoop(e, table, stage, row, columns).reached|)
  {
    var groups := ColumnLoop(e, table, stage, row, columns);
    FlattenWidth(groups.reached, Width(stage));
    SpanIsProduct(stage, |groups.reached|);
    Attempt(Flatten(groups.reached), groups.fault)
  }

  /**
   * The flattening of equally wide groups: the first `i` groups are the
   * first `w * i` cells, and group `i` is the `w` cells after them.
   */
  lemma {:induction false} FlattenUniform(groups: seq<seq<Cell>>, w: nat, i: nat)
    requires forall j :: 0 <= j < |groups| ==> |groups[j]| == w
    requires i < |groups|
    ensures w * i + w <= |Flatten(groups)|
    ensures Flatten(groups)[..w * i] == Flatten(groups[..i])
    ensures Flatten(groups)[w * i..w * i + w] == groups[i]
    decreases i
  {
    FlattenWidth(groups, w);
    assert w * i + w <= w * |groups| by {
      MulMono(w, i + 1, |groups|);
    }
    var rest := groups[1..];
    assert groups == [groups[0]] + rest;
    FlattenCons(groups[0], rest);
    if i == 0 {
      assert groups[..0] == [];
    } else {
      FlattenUniform(rest, w, i - 1);
      assert w * i == w + w * (i - 1);
      assert groups[..i] == [groups[0]] + rest[..i - 1];
      FlattenCons(groups[0], rest[..i - 1]);
    }
  }

  /** `FlattenUniform` with the offset of group `i` given as `k`. */
  lemma FlattenGroupAt(groups: seq<seq<Cell>>, w: nat, i: nat, k: nat)
    requires forall j :: 0 <= j < |groups| ==> |groups[j]| == w
    requires i < |groups| && k == w * i
    ensures k + w <= |Flatten(groups)|
    ensures Flatten(groups)[..k] == Flatten(groups[..i])
    ensures Flatten(groups)[k..k + w] == groups[i]
  {
    FlattenUniform(groups, w, i);
  }

  lemma MulMono(w: nat, a: nat, b: nat)
    requires a <= b
    ensures w * a <= w * b
  {
  }

  /**
   * The cells of column `i` of a stage: the `Width(stage)` cells after the
   * first `Span(stage, i)`, computed against the row with those first cells appended. A
   * stage that threw stops at the column after the last group, with the
   * fault that column's step raised.
   */
  lemma ColumnCellsAt(e: Engine, table: Option<seq<ColumnDesc>>, stage: ColumnStage, row: seq<Cell>, columns: seq<string>, i: nat)
    ensures var a := ColumnCells(e, table, stage, row, columns); var k := Span(stage, i);
      i < |ColumnLoop(e, table, stage, row, columns).reached| ==>
        && k + Width(stage) <= |a.reached|
        && ColumnStep(e, table, stage, row + a.reached[..k], columns[i]) == Ok(a.reached[k..k + Width(stage)])
    ensures var a := ColumnCells(e, table, stage, row, columns);
      a.fault.Some? ==>
        ColumnStep(e, table, stage, row + a.reached, columns[|ColumnLoop(e, table, stage, row, columns).reached|]) == Err(a.fault.value)
  {
    ColumnGroupAt(e, table, stage, row, columns, i);
    ColumnLoopSteps(e, table, stage, row, columns);
  }

  /** Group `i` of a column loop is the step of column `i` on the row with the earlier groups appended. */
  lemma ColumnStepOfGroup(e: Engine, table: Option<seq<ColumnDesc>>, stage: ColumnStage, row: seq<Cell>, columns: seq<string>, i: nat)
    requires i < |ColumnLoop(e, table, stage, row, columns).reached|
    ensures var groups := ColumnLoop(e, table, stage, row, columns).reached;
      ColumnStep(e, table, stage, row + Flatten(groups[..i]), columns[i]) == Ok(groups[i])
  {
    LoopStepAt(Stepper(e, table, stage), row, columns, i);
  }

  /** The first half of `ColumnCellsAt`: the cells of a column the stage got through. */
  lemma ColumnGroupAt(e: Engine, table: Option<seq<ColumnDesc>>, stage: ColumnStage, row: seq<Cell>, columns: seq<string>, i: nat)
    ensures var a := ColumnCells(e, table, stage, row, columns); var k := Span(stage, i);
      i < |ColumnLoop(e, table, stage, row, columns).reached| ==>
        && k + Width(stage) <= |a.reached|
        && ColumnStep(e, table, stage, row + a.reached[..k], columns[i]) == Ok(a.reached[k..k + Width(stage)])
  {
    var groups := ColumnLoop(e, table, stage, row, columns).reached;
    if i < |groups| {
      var k := Span(stage, i);
      var flat := ColumnCells(e, table, stage, row, columns).reached;
      SpanIsProduct(stage, i);
      FlattenGroupAt(groups, Width(stage), i, k);
      assert ColumnStep(e, table, stage, row + flat[..k], columns[i]) == Ok(flat[k..k + Width(stage)]) by {
        ColumnStepOfGroup(e, table, stage, row, columns, i);
      }
    }
  }

  // ---- line end points -------------------------------------------------------

  function Zeros(n: nat): (r: seq<Cell>)
    ensures |r| == n && forall i :: 0 <= i < n ==> r[i] == Real(0.0)
  {
    seq(n, _ => Real(0.0))
  }

  /**
   * The line end points of a Reimers shape: fromLon, fromLat, toLon, toLat.
   * They are the start and end points of the geometry for a polyline that has
   * one and 0 otherwise. Nothing is appended for a shape with a parse error
   * or when no end-point columns are configured; a missing shape throws.
   */
  function EndPointCells(e: Engine, shape: Option<ReimersShape>, columns: Option<seq<string>>, geometry: Option<Spatial>): (a: Attempt<seq<Cell>>)
    ensures |a.reached| == 0 || |a.reached| == 4
    ensures |a.reached| == 4 <==> shape.Some? && shape.value.error == "" && columns.Some? && a.fault.None?
    ensures shape.None? ==> a.fault == Some(NullReference)
    ensures |a.reached| == 4 && !(shape.value.kind == PolyLineShape && geometry.Some?) ==> a.reached == Zeros(4)
    ensures |a.reached| == 4 && shape.value.kind == PolyLineShape && geometry.Some? ==>
      && e.startPoint(geometry.value).Ok? && e.endPoint(geometry.value).Ok?
      && var s := e.startPoint(geometry.value).value; var t := e.endPoint(geometry.value).value;
         a.reached == [Real(s.x), Real(s.y), Real(t.x), Real(t.y)]
  {
    match shape
    case None => Attempt([], Some(NullReference))
    case Some(sh) =>
      if sh.error != "" || columns.None? then Done([])
      else if sh.kind == PolyLineShape && geometry.Some? then
        match e.startPoint(geometry.value)
        case Err(f) => Attempt([], Some(f))
        case Ok(s) =>
          match e.endPoint(geometry.value)
          case Err(f) => Attempt([], Some(f))
          case Ok(t) => Done([Real(s.x), Real(s.y), Real(t.x), Real(t.y)])
      else Done(Zeros(4))
  }

  // ---- projection, area, centroid --------------------------------------------

  /** Whether a spatial variable holds a value that is neither null nor empty. */
  predicate Present(e: Engine, v: Option<Spatial>) {
    v.Some? && !e.isNullOrEmpty(v.value)
  }

  /**
   * The projected geometry: the Albers projection of a present geography.
   * Any failure on the way (the envelope centre or the projection) is
   * swallowed whatever the error policy, and leaves the cell null.
   */
  function ProjectedCell(e: Engine, geography: Option<Spatial>): (c: Cell)
    ensures !Present(e, geography) ==> c == Null
    ensures c != Null ==>
      (c.SpatialValue? && Present(e, geography)
       && e.envelopeCenter(geography.value).Ok? && e.project(Albers, geography.value) == Ok(c.value))
    ensures Present(e, geography) && e.envelopeCenter(geography.value).Ok? && e.project(Albers, geography.value).Ok? ==>
      c == SpatialValue(e.project(Albers, geography.value).value)
  {
    if Present(e, geography) then
      match e.envelopeCenter(geography.value)
      case Err(_) => Null
      case Ok(_) =>
        match e.project(Albers, geography.value)
        case Err(_) => Null
        case Ok(p) => SpatialValue(p)
    else Null
  }

  /** The area cell: the area of a present geography, 0 otherwise or when the area computation throws. */
  function AreaCells(e: Engine, geography: Option<Spatial>): (a: Attempt<seq<Cell>>)
    ensures |a.reached| == 1 && a.reached[0].Real?
    ensures !Present(e, geography) ==> a == Done([Real(0.0)])
    ensures a.fault.Some? ==> a.reached == [Real(0.0)] && e.area(geography.value) == Err(a.fault.value)
    ensures Present(e, geography) && e.area(geography.value).Ok? ==> a == Done([Real(e.area(geography.value).value)])
  {
    if Present(e, geography) then
      match e.area(geography.value)
      case Err(f) => Attempt([Real(0.0)], Some(f))
      case Ok(v) => Done([Real(v)])
    else Done([Real(0.0)])
  }

  /**
   * The centroid cells. The test is on the geography, but the centroid is
   * taken of the geometry: with a present geography and no geometry the
   * stage throws. The cells are (0, 0) unless a centroid is found.
   */
  function CentroidCells(e: Engine, geography: Option<Spatial>, geometry: Option<Spatial>): (a: Attempt<seq<Cell>>)
    ensures |a.reached| == 2
    ensures !Present(e, geography) ==> a == Done(Zeros(2))
    ensures Present(e, geography) && geometry.None? ==> a == Attempt(Zeros(2), Some(NullReference))
    ensures a.fault.Some? ==> a.reached == Zeros(2)
    ensures a.reached != Zeros(2) ==>
      (Present(e, geography) && geometry.Some?
       && e.centroid(geometry.value).Ok? && e.centroid(geometry.value).value.Some?
       && a.reached == [Real(e.centroid(geometry.value).value.value.x), Real(e.centroid(geometry.value).value.value.y)])
  {
    if Present(e, geography) then
      match geometry
      case None => Attempt(Zeros(2), Some(NullReference))
      case Some(g) =>
        match e.centroid(g)
        case Err(f) => Attempt(Zeros(2), Some(f))
        case Ok(None) => Done(Zeros(2))
        case Ok(Some(p)) => Done([Real(p.x), Real(p.y)])
    else Done(Zeros(2))
  }
}
