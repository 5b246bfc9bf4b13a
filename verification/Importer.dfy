/** The CSV importer from decoded records on: row parsing, the running summary, duplicates and the vendor
    ranking. */
module Importer {
  import opened Wrappers
  import opened Int64
  import opened Text

  datatype Direction = Outflow | Inflow | Unknown

  datatype Row = Row(
    index: int, date: string, vendor: string, memo: string, amount: int64, direction: Direction, fingerprint: string)

  datatype RowError = RowError(index: int, field: string, error: string)

  /** Column positions; a negative one is absent. */
  datatype Columns = Columns(
    date: int, vendor: int, memo: int, amount: int, debit: int, credit: int, description: int)

  /** What a record is read with: the header's columns, cell decoders, and the row fingerprint. */
  datatype Decoders = Decoders(
    detect: seq<string> -> Columns,
    money: string -> Result<Option<int64>, string>,
    date: string -> Result<string, string>,
    fingerprint: Row -> string)

  const NO_HEADER := Columns(0, 1, -1, 2, -1, -1, -1)

  predicate HasUsefulHeader(c: Columns) {
    c.date >= 0 || c.amount >= 0 || c.debit >= 0 || c.credit >= 0 || c.vendor >= 0 || c.description >= 0
  }

  function Cell(raw: seq<string>, idx: int): string {
    if 0 <= idx < |raw| then TrimSpace(raw[idx]) else ""
  }

  function FirstNonEmpty(values: seq<string>): string {
    if values == [] then ""
    else if !Blank(values[0]) then TrimSpace(values[0])
    else FirstNonEmpty(values[1..])
  }

  predicate IsBlankRow(raw: seq<string>) {
    forall i :: 0 <= i < |raw| ==> Blank(raw[i])
  }

  /** An empty cell holds no amount. */
  function Money(d: Decoders, text: string): Result<Option<int64>, string> {
    if Blank(text) then Ok(None) else d.money(text)
  }

  /** A set debit or credit column wins over the amount column; a negative amount is an outflow. */
  function ParseAmount(d: Decoders, raw: seq<string>, cols: Columns): Result<(int64, Direction), string> {
    if cols.debit >= 0 || cols.credit >= 0 then
      var debit, credit := Money(d, Cell(raw, cols.debit)), Money(d, Cell(raw, cols.credit));
      if debit.Err? then Err(debit.error)
      else if credit.Err? then Err(credit.error)
      else if debit.value.Some? && debit.value.value != 0 then Ok((Abs(debit.value.value), Outflow))
      else if credit.value.Some? && credit.value.value != 0 then Ok((Abs(credit.value.value), Inflow))
      else ParseSigned(d, Cell(raw, cols.amount))
    else ParseSigned(d, Cell(raw, cols.amount))
  }

  function ParseSigned(d: Decoders, text: string): Result<(int64, Direction), string> {
    match Money(d, text)
    case Err(e) => Err(e)
    case Ok(None) => Err("missing amount")
    case Ok(Some(amount)) => if amount < 0 then Ok((Abs(amount), Outflow)) else Ok((amount, Inflow))
  }

  function DateErrors(d: Decoders, index: int, raw: seq<string>, cols: Columns): seq<RowError> {
    if 0 <= cols.date < |raw| && d.date(raw[cols.date]).Err? then
      [RowError(index, "date", d.date(raw[cols.date]).error)]
    else []
  }

  function AmountErrors(d: Decoders, index: int, raw: seq<string>, cols: Columns): seq<RowError> {
    var amount := ParseAmount(d, raw, cols);
    if amount.Err? then [RowError(index, "amount", amount.error)] else []
  }

  function MissingDate(index: int, raw: seq<string>, cols: Columns, row: Row): seq<RowError> {
    if row.date == "" && cols.date >= 0 && Blank(Cell(raw, cols.date)) then [RowError(index, "date", "missing date")]
    else []
  }

  function MissingVendor(index: int, row: Row): seq<RowError> {
    if row.vendor == "" then [RowError(index, "vendor", "missing vendor or description")] else []
  }

  function ParseRow(d: Decoders, index: int, raw: seq<string>, cols: Columns): (Row, seq<RowError>) {
    var date := if 0 <= cols.date < |raw| then d.date(raw[cols.date]) else Ok("");
    var vendor := FirstNonEmpty([Cell(raw, cols.vendor), Cell(raw, cols.description)]);
    var memo := FirstNonEmpty([Cell(raw, cols.memo), Cell(raw, cols.description), vendor]);
    var name := if vendor == "" then memo else vendor;
    var amount := ParseAmount(d, raw, cols);
    var row := Row(index, if date.Ok? then date.value else "", name, memo,
                   if amount.Ok? then amount.value.0 else 0, if amount.Ok? then amount.value.1 else Unknown, "");
    (row,
     DateErrors(d, index, raw, cols) + AmountErrors(d, index, raw, cols) + MissingDate(index, raw, cols, row)
     + MissingVendor(index, row))
  }

  datatype Aggregate = Aggregate(count: nat, total: int64)

  /** Everything the record loop accumulates. */
  datatype Summary = Summary(
    rows: seq<Row>, errors: seq<RowError>, rowCount: nat, parsedRows: nat, errorRows: nat,
    inflow: int64, outflow: int64,
    seen: map<string, int>, duplicates: seq<int>, vendors: map<string, Aggregate>)

  const NOTHING := Summary([], [], 0, 0, 0, 0, 0, map[], [], map[])

  function Tally(vendors: map<string, Aggregate>, row: Row): map<string, Aggregate> {
    if row.vendor == "" then vendors
    else
      var agg := if row.vendor in vendors then vendors[row.vendor] else Aggregate(0, 0);
      vendors[row.vendor := Aggregate(agg.count + 1, Wrap(agg.total + row.amount))]
  }

  /** Keeping a parsed row. */
  function Keep(s: Summary, row: Row): Summary {
    s.(rows := s.rows + [row], parsedRows := s.parsedRows + 1,
       duplicates := if row.fingerprint in s.seen then s.duplicates + [s.seen[row.fingerprint], row.index]
                     else s.duplicates,
       seen := if row.fingerprint in s.seen then s.seen else s.seen[row.fingerprint := row.index],
       inflow := if row.direction == Inflow then Wrap(s.inflow + row.amount) else s.inflow,
       outflow := if row.direction == Inflow then s.outflow else Wrap(s.outflow + row.amount),
       vendors := Tally(s.vendors, row))
  }

  /** A parsed record: reported if faulty, kept otherwise. */
  function AbsorbParsed(d: Decoders, s: Summary, index: int, row: Row, errs: seq<RowError>): Summary {
    if errs != [] then s.(rowCount := s.rowCount + 1, errors := s.errors + errs, errorRows := s.errorRows + 1)
    else if row.amount <= 0 then
      s.(rowCount := s.rowCount + 1, errors := s.errors + [RowError(index, "amount", "missing or zero amount")],
         errorRows := s.errorRows + 1)
    else Keep(s.(rowCount := s.rowCount + 1), row.(fingerprint := d.fingerprint(row)))
  }

  /** One record of the file. */
  function Absorb(d: Decoders, s: Summary, cols: Columns, index: int, raw: seq<string>): Summary {
    if IsBlankRow(raw) then s
    else AbsorbParsed(d, s, index, ParseRow(d, index, raw, cols).0, ParseRow(d, index, raw, cols).1)
  }

  /** The first n data records, numbered from 1. */
  function Absorbed(d: Decoders, cols: Columns, records: seq<seq<string>>): Summary {
    if records == [] then NOTHING
    else Absorb(d, Absorbed(d, cols, records[..|records| - 1]), cols, |records|, records[|records| - 1])
  }

  function ColumnsOf(d: Decoders, records: seq<seq<string>>): Columns {
    if records != [] && HasUsefulHeader(d.detect(records[0])) then d.detect(records[0]) else NO_HEADER
  }

  /** Without any known column the first record is data, and the columns are date, vendor and amount. */
  lemma HeaderOrData(d: Decoders, records: seq<seq<string>>)
    requires records != []
    ensures var c := d.detect(records[0]);
      if c.date < 0 && c.vendor < 0 && c.amount < 0 && c.debit < 0 && c.credit < 0 && c.description < 0
      then ColumnsOf(d, records) == Columns(0, 1, -1, 2, -1, -1, -1) && DataOf(d, records) == records
      else ColumnsOf(d, records) == c && records == [records[0]] + DataOf(d, records)
  {
  }

  function DataOf(d: Decoders, records: seq<seq<string>>): seq<seq<string>> {
    if records != [] && HasUsefulHeader(d.detect(records[0])) then records[1..] else records
  }

  method KeepRow(before: Summary, row: Row) returns (s: Summary)
    ensures s == Keep(before, row)
  {
    s := before;
    if row.fingerprint in s.seen {
      s := s.(duplicates := s.duplicates + [s.seen[row.fingerprint], row.index]);
    } else {
      s := s.(seen := s.seen[row.fingerprint := row.index]);
    }
    s := s.(rows := s.rows + [row], parsedRows := s.parsedRows + 1);
    match row.direction {
      case Inflow => s := s.(inflow := Wrap(s.inflow + row.amount));
      case _ => s := s.(outflow := Wrap(s.outflow + row.amount));
    }
    s := s.(vendors := Tally(s.vendors, row));
  }

  /** A parsed record is reported if faulty or without a positive amount, and kept otherwise. */
  method SettleRecord(d: Decoders, before: Summary, index: int, row: Row, errs: seq<RowError>) returns (s: Summary)
    ensures s == AbsorbParsed(d, before, index, row, errs)
    ensures s.rowCount == before.rowCount + 1 && s.parsedRows + s.errorRows == before.parsedRows + before.errorRows + 1
    ensures if errs == [] && row.amount > 0 then s.errors == before.errors && |s.rows| == |before.rows| + 1
            else s.rows == before.rows && s.vendors == before.vendors && before.errors < s.errors
  {
    s := before.(rowCount := before.rowCount + 1);
    if |errs| > 0 {
      s := s.(errors := s.errors + errs, errorRows := s.errorRows + 1);
      return;
    }
    if row.amount <= 0 {
      s := s.(errors := s.errors + [RowError(index, "amount", "missing or zero amount")], errorRows := s.errorRows + 1);
      return;
    }
    s := KeepRow(s, row.(fingerprint := d.fingerprint(row)));
  }

  /** The loop body: a blank record is passed over. */
  method AbsorbRecord(d: Decoders, before: Summary, cols: Columns, rowIndex: int, raw: seq<string>) returns (s: Summary)
    ensures s == Absorb(d, before, cols, rowIndex, raw)
  {
    if IsBlankRow(raw) {
      return before;
    }
    var (row, errs) := ParseRow(d, rowIndex, raw, cols);
    s := SettleRecord(d, before, rowIndex, row, errs);
  }

  /** parseRecords; the vendor ranking is TopVendors. */
  method ParseRecords(d: Decoders, records: seq<seq<string>>)
    returns (s: Summary, totalCents: int64, duplicateRows: seq<int>)
    ensures s == Absorbed(d, ColumnsOf(d, records), DataOf(d, records))
    ensures totalCents == Wrap(s.outflow + s.inflow) && duplicateRows == Unique(s.duplicates)
    ensures TotalsOf(s, Movements(d, ColumnsOf(d, records), DataOf(d, records)))
  {
    s := NOTHING;
    FlowsAreRecords(d, ColumnsOf(d, records), DataOf(d, records));
    if |records| == 0 {
      return s, 0, [];
    }
    var cols := d.detect(records[0]);
    var start := 0;
    if HasUsefulHeader(cols) {
      start := 1;
    } else {
      cols := NO_HEADER;
    }
    ghost var data := DataOf(d, records);
    assert data == records[start..];
    for i := start to |records|
      invariant s == Absorbed(d, cols, data[..i - start])
    {
      assert data[..i - start + 1][..i - start] == data[..i - start] && data[i - start] == records[i];
      s := AbsorbRecord(d, s, cols, i - start + 1, records[i]);
    }
    assert data[..|records| - start] == data;
    totalCents := Wrap(s.outflow + s.inflow);
    duplicateRows := UniqueInts(s.duplicates);
  }

  // ---- What a record contributes ----

  /** The cents in a cell; none for an absent or empty one. */
  function CellCents(d: Decoders, raw: seq<string>, idx: int): Result<Option<int64>, string> {
    if 0 <= idx < |raw| && !Blank(TrimSpace(raw[idx])) then d.money(TrimSpace(raw[idx])) else Ok(None)
  }

  /** Its amount, 0 when there is none or it cannot be read. */
  function CentsOr0(d: Decoders, raw: seq<string>, idx: int): int {
    var cents := CellCents(d, raw, idx);
    if cents.Ok? && cents.value.Some? then cents.value.value else 0
  }

  function Magnitude(x: int): int {
    if x < 0 then -x else x
  }

  /** What a record moves, counted in: minus the debit cell, else the credit cell, else the amount cell with
      its own sign. */
  function SignedCents(d: Decoders, cols: Columns, raw: seq<string>): int {
    if CentsOr0(d, raw, cols.debit) != 0 then -Magnitude(CentsOr0(d, raw, cols.debit))
    else if CentsOr0(d, raw, cols.credit) != 0 then Magnitude(CentsOr0(d, raw, cols.credit))
    else CentsOr0(d, raw, cols.amount)
  }

  /** The amount can be read: with a debit or credit column both cells, and the amount cell when they are
      empty or zero. */
  predicate AmountReadable(d: Decoders, cols: Columns, raw: seq<string>) {
    && (cols.debit >= 0 || cols.credit >= 0 ==> CellCents(d, raw, cols.debit).Ok? && CellCents(d, raw, cols.credit).Ok?)
    && (CentsOr0(d, raw, cols.debit) == 0 && CentsOr0(d, raw, cols.credit) == 0 ==>
          CellCents(d, raw, cols.amount).Ok? && CellCents(d, raw, cols.amount).value.Some?)
  }

  /** The date column, when there is one, has a date that can be read. */
  predicate DateReadable(d: Decoders, cols: Columns, raw: seq<string>) {
    cols.date >= 0 ==>
      && cols.date < |raw| && d.date(raw[cols.date]).Ok?
      && (Blank(Cell(raw, cols.date)) ==> d.date(raw[cols.date]).value != "")
  }

  /** Some text names the vendor. */
  predicate VendorReadable(cols: Columns, raw: seq<string>) {
    !Blank(Cell(raw, cols.vendor)) || !Blank(Cell(raw, cols.description)) || !Blank(Cell(raw, cols.memo))
  }

  /** The records that are kept: not blank, everything readable, and an amount that is neither zero nor the one
      int64 without a magnitude. */
  predicate KeptRecord(d: Decoders, cols: Columns, raw: seq<string>) {
    && (exists i :: 0 <= i < |raw| && !Blank(raw[i]))
    && DateReadable(d, cols, raw) && VendorReadable(cols, raw) && AmountReadable(d, cols, raw)
    && SignedCents(d, cols, raw) != 0 && Magnitude(SignedCents(d, cols, raw)) <= MAX
  }

  /** The row kept for it. */
  predicate RowSays(d: Decoders, cols: Columns, raw: seq<string>, index: int, row: Row) {
    var vendor, description, memo := Cell(raw, cols.vendor), Cell(raw, cols.description), Cell(raw, cols.memo);
    && row.index == index && row.amount == Magnitude(SignedCents(d, cols, raw))
    && row.direction == (if SignedCents(d, cols, raw) < 0 then Outflow else Inflow)
    && row.vendor == TrimSpace(if !Blank(vendor) then vendor else if !Blank(description) then description else memo)
    && row.memo == TrimSpace(if !Blank(memo) then memo else if !Blank(description) then description else vendor)
    && row.date == (if 0 <= cols.date < |raw| && d.date(raw[cols.date]).Ok? then d.date(raw[cols.date]).value else "")
  }

  lemma MoneyOfCell(d: Decoders, raw: seq<string>, idx: int)
    ensures Money(d, Cell(raw, idx)) == CellCents(d, raw, idx)
  {
  }

  lemma AmountMeans(d: Decoders, cols: Columns, raw: seq<string>)
    ensures ParseAmount(d, raw, cols).Ok? <==> AmountReadable(d, cols, raw)
    ensures AmountReadable(d, cols, raw) ==>
      var (amount, direction), signed := ParseAmount(d, raw, cols).value, SignedCents(d, cols, raw);
      && (amount > 0 <==> signed != 0 && Magnitude(signed) <= MAX)
      && (amount > 0 ==> amount == Magnitude(signed) && direction == if signed < 0 then Outflow else Inflow)
  {
    MoneyOfCell(d, raw, cols.debit);
    MoneyOfCell(d, raw, cols.credit);
    MoneyOfCell(d, raw, cols.amount);
  }

  lemma FirstNonEmptyOf(values: seq<string>)
    requires |values| > 0
    ensures FirstNonEmpty(values) == if !Blank(values[0]) then TrimSpace(values[0]) else FirstNonEmpty(values[1..])
    ensures |values| == 1 && Blank(values[0]) ==> FirstNonEmpty(values) == ""
  {
  }

  lemma TextsMean(vendor: string, description: string, memo: string)
    ensures var v := FirstNonEmpty([vendor, description]);
      var m := FirstNonEmpty([memo, description, v]);
      && m == (if !Blank(memo) then TrimSpace(memo) else if !Blank(description) then TrimSpace(description)
               else TrimSpace(vendor))
      && (if v == "" then m else v)
           == TrimSpace(if !Blank(vendor) then vendor else if !Blank(description) then description else memo)
  {
    var v := FirstNonEmpty([vendor, description]);
    FirstNonEmptyOf([vendor, description]);
    FirstNonEmptyOf([description]);
    FirstNonEmptyOf([memo, description, v]);
    FirstNonEmptyOf([description, v]);
    FirstNonEmptyOf([v]);
    assert [vendor, description][1..] == [description] && [memo, description, v][1..] == [description, v];
    assert [description, v][1..] == [v];
    TrimTwice(vendor);
  }

  /** A record without errors and with a positive amount is exactly one that is kept. */
  lemma ParsedMeans(d: Decoders, cols: Columns, raw: seq<string>, index: int)
    ensures var (row, errs) := ParseRow(d, index, raw, cols);
      && (!IsBlankRow(raw) && errs == [] && row.amount > 0 <==> KeptRecord(d, cols, raw))
      && (KeptRecord(d, cols, raw) ==> RowSays(d, cols, raw, index, row))
  {
    AmountMeans(d, cols, raw);
    TextsMean(Cell(raw, cols.vendor), Cell(raw, cols.description), Cell(raw, cols.memo));
  }

  /** What the records move, in order. */
  function Movements(d: Decoders, cols: Columns, records: seq<seq<string>>): seq<int> {
    if records == [] then []
    else Movements(d, cols, records[..|records| - 1]) + [Movement(d, cols, records[|records| - 1])]
  }

  function Inward(moves: seq<int>): int {
    if moves == [] then 0
    else Inward(moves[..|moves| - 1]) + if moves[|moves| - 1] > 0 then moves[|moves| - 1] else 0
  }

  function Outward(moves: seq<int>): int {
    if moves == [] then 0
    else Outward(moves[..|moves| - 1]) + if moves[|moves| - 1] > 0 then 0 else -moves[|moves| - 1]
  }

  /** How many records are kept. */
  function KeptCount(d: Decoders, cols: Columns, records: seq<seq<string>>): nat {
    if records == [] then 0
    else
      KeptCount(d, cols, records[..|records| - 1]) + if KeptRecord(d, cols, records[|records| - 1]) then 1 else 0
  }

  ghost predicate RowOf(d: Decoders, cols: Columns, records: seq<seq<string>>, row: Row) {
    && 1 <= row.index <= |records| && KeptRecord(d, cols, records[row.index - 1])
    && RowSays(d, cols, records[row.index - 1], row.index, row)
    && row.fingerprint == d.fingerprint(row.(fingerprint := ""))
  }

  /** A row that moves this much. */
  predicate Moves(row: Row, signed: int) {
    signed != 0 && row.amount == Magnitude(signed) && row.direction == if signed < 0 then Outflow else Inflow
  }

  lemma KeptRow(d: Decoders, cols: Columns, raw: seq<string>, index: int) returns (row: Row)
    requires KeptRecord(d, cols, raw)
    ensures ParseRow(d, index, raw, cols) == (row, []) && !IsBlankRow(raw) && row.fingerprint == ""
    ensures RowSays(d, cols, raw, index, row) && Moves(row, SignedCents(d, cols, raw))
  {
    ParsedMeans(d, cols, raw, index);
    row := ParseRow(d, index, raw, cols).0;
  }

  /** Two totals after moving so much. */
  predicate Flows(inflow: int64, outflow: int64, s: Summary, signed: int) {
    && s.inflow == Wrap(inflow + if signed > 0 then signed else 0)
    && s.outflow == Wrap(outflow + if signed > 0 then 0 else -signed)
  }

  lemma KeepMeans(s: Summary, row: Row, signed: int)
    requires Moves(row, signed)
    ensures Keep(s, row).rows == s.rows + [row] && Flows(s.inflow, s.outflow, Keep(s, row), signed)
  {
  }

  lemma AbsorbRow(d: Decoders, s: Summary, cols: Columns, index: int, raw: seq<string>, row: Row, signed: int)
    requires ParseRow(d, index, raw, cols) == (row, []) && !IsBlankRow(raw) && Moves(row, signed)
    ensures Absorb(d, s, cols, index, raw).rows == s.rows + [row.(fingerprint := d.fingerprint(row))]
    ensures Flows(s.inflow, s.outflow, Absorb(d, s, cols, index, raw), signed)
  {
    AbsorbParsedKeeps(d, s, index, row);
    KeepMeans(s.(rowCount := s.rowCount + 1), row.(fingerprint := d.fingerprint(row)), signed);
    assert Absorb(d, s, cols, index, raw) == AbsorbParsed(d, s, index, row, []);
  }

  lemma AbsorbSkips(d: Decoders, s: Summary, cols: Columns, index: int, raw: seq<string>)
    requires !KeptRecord(d, cols, raw)
    ensures var s' := Absorb(d, s, cols, index, raw);
      s'.rows == s.rows && s'.inflow == s.inflow && s'.outflow == s.outflow
  {
    ParsedMeans(d, cols, raw, index);
  }

  /** What a record moves if it is kept. */
  function Movement(d: Decoders, cols: Columns, raw: seq<string>): int {
    if KeptRecord(d, cols, raw) then SignedCents(d, cols, raw) else 0
  }

  lemma AbsorbFlows(d: Decoders, s: Summary, cols: Columns, index: int, raw: seq<string>, signed: int)
    requires signed == Movement(d, cols, raw)
    ensures Flows(s.inflow, s.outflow, Absorb(d, s, cols, index, raw), signed)
  {
    if KeptRecord(d, cols, raw) {
      var row := KeptRow(d, cols, raw, index);
      AbsorbRow(d, s, cols, index, raw, row, signed);
    } else {
      AbsorbSkips(d, s, cols, index, raw);
    }
  }

  lemma RowOfMore(d: Decoders, cols: Columns, records: seq<seq<string>>, row: Row)
    requires records != [] && RowOf(d, cols, records[..|records| - 1], row)
    ensures RowOf(d, cols, records, row)
  {
    assert records[..|records| - 1][row.index - 1] == records[row.index - 1];
  }

  /** For every file: the rows kept are exactly those of the records that can be kept, and each says what its
      record says. */
  lemma {:induction false} RowsAreRecords(d: Decoders, cols: Columns, records: seq<seq<string>>)
    ensures var s := Absorbed(d, cols, records);
      && |s.rows| == KeptCount(d, cols, records)
      && forall i :: 0 <= i < |s.rows| ==> RowOf(d, cols, records, s.rows[i])
  {
    if records != [] {
      var n, init, raw := |records|, records[..|records| - 1], records[|records| - 1];
      RowsAreRecords(d, cols, init);
      var before, s := Absorbed(d, cols, init), Absorbed(d, cols, records);
      forall i | 0 <= i < |before.rows| ensures RowOf(d, cols, records, before.rows[i]) {
        RowOfMore(d, cols, records, before.rows[i]);
      }
      if KeptRecord(d, cols, raw) {
        var row := KeptRow(d, cols, raw, n);
        AbsorbRow(d, before, cols, n, raw, row, SignedCents(d, cols, raw));
        assert row.(fingerprint := d.fingerprint(row)).(fingerprint := "") == row;
        assert RowOf(d, cols, records, row.(fingerprint := d.fingerprint(row)));
      } else {
        AbsorbSkips(d, before, cols, n, raw);
      }
    }
  }

  /** The totals of a summary are those of these movements. */
  predicate TotalsOf(s: Summary, moves: seq<int>) {
    s.inflow == Wrap(Inward(moves)) && s.outflow == Wrap(Outward(moves))
  }

  lemma TotalsSnoc(before: Summary, moves: seq<int>, signed: int, after: Summary)
    requires TotalsOf(before, moves) && Flows(before.inflow, before.outflow, after, signed)
    ensures TotalsOf(after, moves + [signed])
  {
    assert (moves + [signed])[..|moves|] == moves;
    WrapAdd(Inward(moves), if signed > 0 then signed else 0);
    WrapAdd(Outward(moves), if signed > 0 then 0 else -signed);
  }

  /** And the totals are the int64 sums of the records' own cells. */
  lemma {:induction false} FlowsAreRecords(d: Decoders, cols: Columns, records: seq<seq<string>>)
    ensures TotalsOf(Absorbed(d, cols, records), Movements(d, cols, records))
  {
    if records != [] {
      var init, raw := records[..|records| - 1], records[|records| - 1];
      FlowsAreRecords(d, cols, init);
      var before, after, signed := Absorbed(d, cols, init), Absorbed(d, cols, records), Movement(d, cols, raw);
      AbsorbFlows(d, before, cols, |records|, raw, signed);
      TotalsSnoc(before, Movements(d, cols, init), signed, after);
    }
  }

  predicate Reports(errs: seq<RowError>, field: string) {
    exists i :: 0 <= i < |errs| && errs[i].field == field
  }

  lemma ReportsConcat(a: seq<RowError>, b: seq<RowError>, field: string)
    ensures Reports(a + b, field) <==> Reports(a, field) || Reports(b, field)
  {
    if Reports(a, field) {
      var i :| 0 <= i < |a| && a[i].field == field;
      assert (a + b)[i].field == field;
    }
    if Reports(b, field) {
      var i :| 0 <= i < |b| && b[i].field == field;
      assert (a + b)[|a| + i].field == field;
    }
  }

  lemma OneReport(e: RowError, field: string)
    ensures Reports([e], field) <==> e.field == field
  {
    assert [e][0] == e;
  }

  lemma DateReports(d: Decoders, cols: Columns, raw: seq<string>, index: int, row: Row, field: string)
    requires row.date ==
             if 0 <= cols.date < |raw| && d.date(raw[cols.date]).Ok? then d.date(raw[cols.date]).value else ""
    ensures Reports(DateErrors(d, index, raw, cols), field) || Reports(MissingDate(index, raw, cols, row), field)
            <==> field == "date" && !DateReadable(d, cols, raw)
  {
    if 0 <= cols.date < |raw| && d.date(raw[cols.date]).Err? {
      OneReport(RowError(index, "date", d.date(raw[cols.date]).error), field);
    }
    OneReport(RowError(index, "date", "missing date"), field);
  }

  lemma AmountReports(d: Decoders, cols: Columns, raw: seq<string>, index: int, field: string)
    ensures Reports(AmountErrors(d, index, raw, cols), field) <==> field == "amount" && !AmountReadable(d, cols, raw)
  {
    AmountMeans(d, cols, raw);
    var amount := ParseAmount(d, raw, cols);
    if amount.Err? {
      OneReport(RowError(index, "amount", amount.error), field);
    }
  }

  lemma VendorReports(index: int, row: Row, field: string)
    ensures Reports(MissingVendor(index, row), field) <==> field == "vendor" && row.vendor == ""
  {
    OneReport(RowError(index, "vendor", "missing vendor or description"), field);
  }

  /** What is reported about a record: each field that cannot be read, and nothing else. */
  lemma ErrorsMean(d: Decoders, cols: Columns, raw: seq<string>, index: int, field: string)
    ensures Reports(ParseRow(d, index, raw, cols).1, field) <==>
            || (field == "date" && !DateReadable(d, cols, raw))
            || (field == "amount" && !AmountReadable(d, cols, raw))
            || (field == "vendor" && !VendorReadable(cols, raw))
  {
    TextsMean(Cell(raw, cols.vendor), Cell(raw, cols.description), Cell(raw, cols.memo));
    var row := ParseRow(d, index, raw, cols).0;
    var dates, amounts, missing, vendors := DateErrors(d, index, raw, cols), AmountErrors(d, index, raw, cols),
      MissingDate(index, raw, cols, row), MissingVendor(index, row);
    ReportsConcat(dates + amounts + missing, vendors, field);
    ReportsConcat(dates + amounts, missing, field);
    ReportsConcat(dates, amounts, field);
    DateReports(d, cols, raw, index, row, field);
    AmountReports(d, cols, raw, index, field);
    VendorReports(index, row, field);
  }

  // ---- Duplicates without repeats ----

  function Unique(values: seq<int>): seq<int> {
    if values == [] then []
    else
      var before, last := Unique(values[..|values| - 1]), values[|values| - 1];
      if last in before then before else before + [last]
  }

  method UniqueInts(values: seq<int>) returns (out: seq<int>)
    ensures out == Unique(values)
  {
    var seen: set<int> := {};
    out := [];
    for i := 0 to |values|
      invariant out == Unique(values[..i]) && seen == set v | v in out
    {
      assert values[..i + 1][..i] == values[..i];
      if values[i] !in seen {
        seen := seen + {values[i]};
        out := out + [values[i]];
      }
    }
    assert values[..|values|] == values;
  }

  lemma {:induction false} UniqueKeepsMembers(values: seq<int>)
    ensures forall x :: x in Unique(values) <==> x in values
    ensures forall i, j :: 0 <= i < j < |Unique(values)| ==> Unique(values)[i] != Unique(values)[j]
  {
    if values != [] {
      assert values == values[..|values| - 1] + [values[|values| - 1]];
      UniqueKeepsMembers(values[..|values| - 1]);
    }
  }

  // ---- What the summary means ----

  function FlowSum(rows: seq<Row>, inflow: bool): int {
    if rows == [] then 0
    else
      FlowSum(rows[..|rows| - 1], inflow)
      + if (rows[|rows| - 1].direction == Inflow) == inflow then rows[|rows| - 1].amount else 0
  }

  function VendorSum(rows: seq<Row>, vendor: string): int {
    if rows == [] then 0
    else
      VendorSum(rows[..|rows| - 1], vendor)
      + if rows[|rows| - 1].vendor == vendor then rows[|rows| - 1].amount else 0
  }

  function VendorCount(rows: seq<Row>, vendor: string): nat {
    if rows == [] then 0
    else VendorCount(rows[..|rows| - 1], vendor) + if rows[|rows| - 1].vendor == vendor then 1 else 0
  }

  /** Row x shares its fingerprint with another row. */
  ghost predicate Repeated(rows: seq<Row>, x: int) {
    exists i, j :: Twins(rows, i, j, x)
  }

  /** Position i is where a fingerprint occurs first. */
  ghost predicate IsFirst(rows: seq<Row>, i: int, f: string) {
    0 <= i < |rows| && rows[i].fingerprint == f && forall k :: 0 <= k < i ==> rows[k].fingerprint != f
  }

  /** The first row with a fingerprint is the one remembered. */
  ghost predicate FirstSeen(rows: seq<Row>, seen: map<string, int>) {
    && (forall i :: 0 <= i < |rows| ==> rows[i].fingerprint in seen)
    && (forall f :: f in seen ==> exists i :: IsFirst(rows, i, f) && rows[i].index == seen[f])
  }

  ghost predicate SummaryOk(s: Summary, records: nat) {
    && s.rowCount == s.parsedRows + s.errorRows && s.parsedRows == |s.rows|
    && (forall i :: 0 <= i < |s.rows| ==>
         s.rows[i].amount > 0 && s.rows[i].vendor != "" && 1 <= s.rows[i].index <= records)
    && (forall i, j :: 0 <= i < j < |s.rows| ==> s.rows[i].index < s.rows[j].index)
    && s.inflow == Wrap(FlowSum(s.rows, true)) && s.outflow == Wrap(FlowSum(s.rows, false))
  }

  ghost predicate DuplicatesOk(s: Summary) {
    FirstSeen(s.rows, s.seen) && forall x :: x in s.duplicates <==> Repeated(s.rows, x)
  }

  ghost predicate HasVendor(rows: seq<Row>, v: string) {
    exists i :: 0 <= i < |rows| && rows[i].vendor == v
  }

  ghost predicate VendorsOk(s: Summary) {
    && (forall v :: v in s.vendors <==> HasVendor(s.rows, v))
    && (forall v :: v in s.vendors ==> s.vendors[v] == Aggregate(VendorCount(s.rows, v), Wrap(VendorSum(s.rows, v))))
  }

  lemma {:induction false} NoRows(rows: seq<Row>, vendor: string)
    requires forall i :: 0 <= i < |rows| ==> rows[i].vendor != vendor
    ensures VendorSum(rows, vendor) == 0 && VendorCount(rows, vendor) == 0
  {
    if rows != [] {
      NoRows(rows[..|rows| - 1], vendor);
    }
  }

  lemma KeepCounts(s: Summary, row: Row, records: nat)
    requires s.rowCount == s.parsedRows + s.errorRows + 1 && SummaryOk(s.(rowCount := s.rowCount - 1), records)
    requires row.amount > 0 && row.vendor != "" && row.index == records + 1
    ensures SummaryOk(Keep(s, row), records + 1)
  {
    assert (s.rows + [row])[..|s.rows|] == s.rows;
    WrapAdd(FlowSum(s.rows, true), row.amount);
    WrapAdd(FlowSum(s.rows, false), row.amount);
  }

  /** Rows i and j share a fingerprint, and i is row x. */
  predicate Twins(rows: seq<Row>, i: int, j: int, x: int) {
    && 0 <= i < |rows| && 0 <= j < |rows| && i != j
    && rows[i].index == x && rows[i].fingerprint == rows[j].fingerprint
  }

  /** A new row only makes twins of itself and its predecessors with the same fingerprint. */
  lemma TwinsSnoc(rows: seq<Row>, row: Row, i: int, j: int, x: int)
    ensures Twins(rows + [row], i, j, x) <==>
            || Twins(rows, i, j, x)
            || (i == |rows| && 0 <= j < |rows| && rows[j].fingerprint == row.fingerprint && row.index == x)
            || (j == |rows| && 0 <= i < |rows| && rows[i].fingerprint == row.fingerprint && rows[i].index == x)
  {
  }

  lemma RepeatedSnoc(rows: seq<Row>, row: Row, seen: map<string, int>, x: int)
    requires FirstSeen(rows, seen)
    ensures Repeated(rows + [row], x) <==>
            Repeated(rows, x) || (row.fingerprint in seen && (x == row.index || x == seen[row.fingerprint]))
  {
    var f := row.fingerprint;
    if i, j :| Twins(rows, i, j, x) {
      TwinsSnoc(rows, row, i, j, x);
    }
    if f in seen {
      var first :| IsFirst(rows, first, f) && rows[first].index == seen[f];
      TwinsSnoc(rows, row, first, |rows|, seen[f]);
      TwinsSnoc(rows, row, |rows|, first, row.index);
      forall i | 0 <= i < |rows| && rows[i].fingerprint == f && i != first
          ensures Twins(rows, i, first, rows[i].index) {}
    }
    if i, j :| Twins(rows + [row], i, j, x) {
      TwinsSnoc(rows, row, i, j, x);
    }
  }

  lemma FirstSeenSnoc(s: Summary, row: Row)
    requires FirstSeen(s.rows, s.seen)
    ensures FirstSeen(Keep(s, row).rows, Keep(s, row).seen)
  {
    var s' := Keep(s, row);
    forall f | f in s'.seen ensures exists i :: IsFirst(s'.rows, i, f) && s'.rows[i].index == s'.seen[f] {
      if f in s.seen {
        var i :| IsFirst(s.rows, i, f) && s.rows[i].index == s.seen[f];
        assert IsFirst(s'.rows, i, f);
      } else {
        assert IsFirst(s'.rows, |s.rows|, f);
      }
    }
  }

  lemma KeepDuplicates(s: Summary, row: Row)
    requires DuplicatesOk(s)
    ensures DuplicatesOk(Keep(s, row))
  {
    FirstSeenSnoc(s, row);
    forall x ensures x in Keep(s, row).duplicates <==> Repeated(s.rows + [row], x) {
      RepeatedSnoc(s.rows, row, s.seen, x);
    }
  }

  lemma HasVendorSnoc(rows: seq<Row>, row: Row, v: string)
    ensures HasVendor(rows + [row], v) <==> HasVendor(rows, v) || row.vendor == v
  {
    if HasVendor(rows, v) {
      var i :| 0 <= i < |rows| && rows[i].vendor == v;
      assert (rows + [row])[i].vendor == v;
    }
    assert (rows + [row])[|rows|] == row;
  }

  lemma VendorSumsSnoc(rows: seq<Row>, row: Row, v: string)
    ensures VendorCount(rows + [row], v) == VendorCount(rows, v) + if row.vendor == v then 1 else 0
    ensures VendorSum(rows + [row], v) == VendorSum(rows, v) + if row.vendor == v then row.amount else 0
  {
    assert (rows + [row])[..|rows|] == rows;
  }

  lemma KeepVendors(s: Summary, row: Row)
    requires VendorsOk(s) && row.vendor != ""
    ensures VendorsOk(Keep(s, row))
  {
    var s' := Keep(s, row);
    forall v ensures v in s'.vendors <==> HasVendor(s'.rows, v) {
      HasVendorSnoc(s.rows, row, v);
    }
    forall v | v in s'.vendors
      ensures s'.vendors[v] == Aggregate(VendorCount(s'.rows, v), Wrap(VendorSum(s'.rows, v)))
    {
      VendorSumsSnoc(s.rows, row, v);
      if v == row.vendor {
        WrapAdd(VendorSum(s.rows, v), row.amount);
        if v !in s.vendors {
          NoRows(s.rows, v);
        }
      }
    }
  }

  ghost predicate AllOk(s: Summary, records: nat) {
    SummaryOk(s, records) && DuplicatesOk(s) && VendorsOk(s)
  }

  lemma KeepIsRight(before: Summary, row: Row, records: nat)
    requires AllOk(before, records)
    requires row.amount > 0 && row.vendor != "" && row.index == records + 1
    ensures AllOk(Keep(before.(rowCount := before.rowCount + 1), row), records + 1)
  {
    var counted := before.(rowCount := before.rowCount + 1);
    assert counted.(rowCount := counted.rowCount - 1) == before;
    KeepCounts(counted, row, records);
    KeepDuplicates(counted, row);
    KeepVendors(counted, row);
  }

  /** A record that keeps nothing. */
  lemma SameContentIsRight(s: Summary, s': Summary, index: nat)
    requires index > 0 && AllOk(s, index - 1)
    requires s'.rows == s.rows && s'.seen == s.seen && s'.duplicates == s.duplicates && s'.vendors == s.vendors
    requires s'.inflow == s.inflow && s'.outflow == s.outflow && s'.parsedRows == s.parsedRows
    requires s'.rowCount - s'.errorRows == s.rowCount - s.errorRows
    ensures AllOk(s', index)
  {
  }

  lemma RejectedIsRight(s: Summary, errors: seq<RowError>, index: nat)
    requires index > 0 && AllOk(s, index - 1)
    ensures AllOk(s.(rowCount := s.rowCount + 1, errors := errors, errorRows := s.errorRows + 1), index)
  {
    SameContentIsRight(s, s.(rowCount := s.rowCount + 1, errors := errors, errorRows := s.errorRows + 1), index);
  }

  lemma AbsorbParsedKeeps(d: Decoders, s: Summary, index: int, row: Row)
    requires row.amount > 0
    ensures AbsorbParsed(d, s, index, row, [])
        == Keep(s.(rowCount := s.rowCount + 1), row.(fingerprint := d.fingerprint(row)))
  {
  }

  lemma KeptIsRight(d: Decoders, s: Summary, index: nat, row: Row)
    requires index > 0 && AllOk(s, index - 1)
    requires row.vendor != "" && row.index == index && row.amount > 0
    ensures AllOk(AbsorbParsed(d, s, index, row, []), index)
  {
    AbsorbParsedKeeps(d, s, index, row);
    KeepIsRight(s, row.(fingerprint := d.fingerprint(row)), index - 1);
  }

  lemma AbsorbParsedIsRight(d: Decoders, s: Summary, index: nat, row: Row, errs: seq<RowError>)
    requires index > 0 && AllOk(s, index - 1)
    requires errs == [] ==> row.vendor != "" && row.index == index
    ensures AllOk(AbsorbParsed(d, s, index, row, errs), index)
  {
    if errs != [] {
      RejectedIsRight(s, s.errors + errs, index);
    } else if row.amount <= 0 {
      RejectedIsRight(s, s.errors + [RowError(index, "amount", "missing or zero amount")], index);
    } else {
      KeptIsRight(d, s, index, row);
    }
  }

  lemma NothingIsRight()
    ensures AllOk(NOTHING, 0)
  {
    assert FirstSeen([], map[]);
    forall x ensures !Repeated([], x) {}
  }

  /** For every file: row count = parsed + error rows; the totals are the sums over the kept rows, whose
      amounts are positive; the collected duplicates are exactly the rows whose fingerprint occurs twice;
      the vendor table is the grouping of the kept rows. */
  lemma {:induction false} SummaryIsRight(d: Decoders, cols: Columns, records: seq<seq<string>>)
    ensures AllOk(Absorbed(d, cols, records), |records|)
  {
    if records == [] {
      NothingIsRight();
    } else {
      var n, before := |records|, Absorbed(d, cols, records[..|records| - 1]);
      SummaryIsRight(d, cols, records[..n - 1]);
      if IsBlankRow(records[n - 1]) {
        SameContentIsRight(before, before, n);
      } else {
        var parsed := ParseRow(d, n, records[n - 1], cols);
        ParsedRowHasVendor(d, n, records[n - 1], cols);
        AbsorbParsedIsRight(d, before, n, parsed.0, parsed.1);
      }
    }
  }

  lemma ParsedRowHasVendor(d: Decoders, index: int, raw: seq<string>, cols: Columns)
    ensures ParseRow(d, index, raw, cols).0.index == index
    ensures ParseRow(d, index, raw, cols).1 == [] ==> ParseRow(d, index, raw, cols).0.vendor != ""
  {
  }

  /** The reported duplicates: no repeats, and exactly the repeated rows. */
  lemma DuplicateRowsAreExact(d: Decoders, cols: Columns, records: seq<seq<string>>)
    ensures var s := Absorbed(d, cols, records);
      && (forall x :: x in Unique(s.duplicates) <==> Repeated(s.rows, x))
      && (forall i, j :: 0 <= i < j < |Unique(s.duplicates)| ==> Unique(s.duplicates)[i] != Unique(s.duplicates)[j])
  {
    SummaryIsRight(d, cols, records);
    UniqueKeepsMembers(Absorbed(d, cols, records).duplicates);
  }
}
