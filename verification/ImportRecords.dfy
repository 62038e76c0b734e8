/** From the cells of a spreadsheet to validated product rows.  Decoding, the CSV syntax and
    the column titles come before: a record holds the cell of each known column, and the
    cells of columns nobody knows. */
module ImportRecords {
  import opened Wrappers
  import opened Text
  import opened Price
  import opened ImportCells
  import opened ImportTypes
  import opened ImportTheorems

  datatype Record = Record(
    name: string,
    category: string,
    brand: string,
    condition: string,
    price: string,
    quantity: string,
    partNumber: string,
    crossReference: string,
    vehicles: string,
    status: string,
    conditionNotes: string,
    description: string,
    descriptionFr: string,
    others: seq<string>)

  datatype Field = FILE | NAME | CATEGORY | BRAND | CONDITION | PRICE | QUANTITY | PART_NUMBER | CROSS_REFERENCE
    | VEHICLES
                 | STATUS | CONDITION_NOTES | DESCRIPTION

  /** A complaint about a cell of the row on this line; line 0 is the file itself. */
  datatype Issue = Issue(line: nat, field: Field)

  const MAX_IMPORT_ROWS: nat := 5000

  // ---------------------------------------------------------------------
  // One record
  // ---------------------------------------------------------------------

  /** What the cells of a record say; None where a cell cannot be read. */
  datatype Cells = Cells(
    name: string,
    category: string,
    brand: string,
    condition: Option<Condition>,
    price: Option<nat>,
    quantity: Option<nat>,
    partNumber: string,
    crossReference: seq<string>,
    trucks: seq<Option<VehicleRef>>,
    hasStatus: bool,
    status: Option<ProductStatus>,
    conditionNotes: string,
    description: string,
    descriptionFr: string)

  function Read(r: Record): Cells {
    Cells(
      Trim(r.name), Trim(r.category), Trim(r.brand), ConditionOf(Trim(r.condition)), PriceOf(Trim(r.price)),
        QuantityOf(Trim(r.quantity)),
      Trim(r.partNumber), SplitMulti(Trim(r.crossReference)), TrucksOf(SplitMulti(Trim(r.vehicles))),
      Trim(r.status) != "", StatusOf(Trim(r.status)), Trim(r.conditionNotes), Trim(r.description),
        Trim(r.descriptionFr))
  }

  predicate IsBlank(r: Record) {
    && Trim(r.name) == "" && Trim(r.category) == "" && Trim(r.brand) == "" && Trim(r.condition) == ""
    && Trim(r.price) == "" && Trim(r.quantity) == "" && Trim(r.partNumber) == "" && Trim(r.crossReference) == ""
    && Trim(r.vehicles) == "" && Trim(r.status) == "" && Trim(r.conditionNotes) == "" && Trim(r.description) == ""
    && Trim(r.descriptionFr) == ""
    && forall i :: 0 <= i < |r.others| ==> Trim(r.others[i]) == ""
  }

  function Check(errors: seq<Issue>, bad: bool, line: nat, field: Field): seq<Issue> {
    if bad then errors + [Issue(line, field)] else errors
  }

  function TruckIssues(errors: seq<Issue>, trucks: seq<Option<VehicleRef>>, line: nat): seq<Issue> {
    if trucks == [] then errors
    else Check(TruckIssues(errors, trucks[..|trucks| - 1], line), trucks[|trucks| - 1].None?, line, VEHICLES)
  }

  function Found(trucks: seq<Option<VehicleRef>>): seq<VehicleRef> {
    if trucks == [] then []
    else
      var before, v := Found(trucks[..|trucks| - 1]), trucks[|trucks| - 1];
      if v.Some? then before + [v.value] else before
  }

  predicate TooLong(cells: seq<string>, limit: nat) {
    exists i :: 0 <= i < |cells| && |cells[i]| > limit
  }

  /** What is wrong with the required cells and the brand. */
  function MainIssues(c: Cells, line: nat): seq<Issue> {
    var e := Check([], |c.name| < 3 || |c.name| > 200, line, NAME);
    var e := Check(e, c.category == "" || |c.category| > 100, line, CATEGORY);
    var e := Check(e, |c.brand| > 100, line, BRAND);
    var e := Check(e, c.condition.None?, line, CONDITION);
    var e := Check(e, c.price.None? || c.price.value < 1, line, PRICE);
    Check(e, c.quantity.None?, line, QUANTITY)
  }

  function NumberIssues(e: seq<Issue>, c: Cells, line: nat): seq<Issue> {
    var e := Check(e, |c.partNumber| > 64, line, PART_NUMBER);
    var e := Check(e, |c.crossReference| > 30, line, CROSS_REFERENCE);
    Check(e, TooLong(c.crossReference, 64), line, CROSS_REFERENCE)
  }

  function TextIssues(e: seq<Issue>, c: Cells, line: nat): seq<Issue> {
    var e := Check(e, c.hasStatus && c.status.None?, line, STATUS);
    var e := Check(e, |c.conditionNotes| > 1000, line, CONDITION_NOTES);
    Check(e, |c.description| > 5000 || |c.descriptionFr| > 5000, line, DESCRIPTION)
  }

  /** What is wrong with the record by itself. */
  function CellIssues(c: Cells, line: nat): seq<Issue> {
    TextIssues(TruckIssues(NumberIssues(MainIssues(c, line), c, line), c.trucks, line), c, line)
  }

  /** What a row must say about its product. */
  predicate ValidCells(c: Cells) {
    && 3 <= |c.name| <= 200 && 1 <= |c.category| <= 100 && |c.brand| <= 100
    && c.condition.Some? && c.price.Some? && c.price.value >= 1 && c.quantity.Some?
    && |c.partNumber| <= 64
    && |c.crossReference| <= 30 && (forall i :: 0 <= i < |c.crossReference| ==> |c.crossReference[i]| <= 64)
    && (forall i :: 0 <= i < |c.trucks| ==> c.trucks[i].Some?)
    && (c.hasStatus ==> c.status.Some?)
    && |c.conditionNotes| <= 1000 && |c.description| <= 5000 && |c.descriptionFr| <= 5000
  }

  /** What is wrong with each cell by itself. */
  predicate BadField(c: Cells, f: Field) {
    match f
    case FILE => false
    case NAME => !(3 <= |c.name| <= 200)
    case CATEGORY => !(1 <= |c.category| <= 100)
    case BRAND => |c.brand| > 100
    case CONDITION => c.condition.None?
    case PRICE => c.price.None? || c.price.value < 1
    case QUANTITY => c.quantity.None?
    case PART_NUMBER => |c.partNumber| > 64
    case CROSS_REFERENCE => |c.crossReference| > 30 || TooLong(c.crossReference, 64)
    case VEHICLES => exists i :: 0 <= i < |c.trucks| && c.trucks[i].None?
    case STATUS => c.hasStatus && c.status.None?
    case CONDITION_NOTES => |c.conditionNotes| > 1000
    case DESCRIPTION => |c.description| > 5000 || |c.descriptionFr| > 5000
  }

  lemma {:induction false} TruckIssuesExactly(errors: seq<Issue>, trucks: seq<Option<VehicleRef>>, line: nat, x: Issue)
    ensures x in TruckIssues(errors, trucks, line) <==>
              x in errors || (x == Issue(line, VEHICLES) && exists i :: 0 <= i < |trucks| && trucks[i].None?)
  {
    if trucks != [] {
      var n := |trucks| - 1;
      TruckIssuesExactly(errors, trucks[..n], line, x);
      assert forall i :: 0 <= i < n ==> trucks[..n][i] == trucks[i];
      if i :| 0 <= i < |trucks| && trucks[i].None? {
        assert i < n ==> trucks[..n][i].None?;
      }
    }
  }

  lemma MainIssuesExactly(c: Cells, line: nat, x: Issue)
    ensures x in MainIssues(c, line) <==>
              x.line == line && x.field in {NAME, CATEGORY, BRAND, CONDITION, PRICE, QUANTITY} && BadField(c, x.field)
  {
  }

  lemma NumberIssuesExactly(e: seq<Issue>, c: Cells, line: nat, x: Issue)
    ensures x in NumberIssues(e, c, line) <==>
              x in e || (x.line == line && x.field in {PART_NUMBER, CROSS_REFERENCE} && BadField(c, x.field))
  {
  }

  lemma TextIssuesExactly(e: seq<Issue>, c: Cells, line: nat, x: Issue)
    ensures x in TextIssues(e, c, line) <==>
              x in e || (x.line == line && x.field in {STATUS, CONDITION_NOTES, DESCRIPTION} && BadField(c, x.field))
  {
  }

  /** The checks report exactly the bad cells of the record, each under its own title. */
  lemma CellIssuesExactly(c: Cells, line: nat)
    ensures forall x :: x in CellIssues(c, line) <==> x.line == line && BadField(c, x.field)
    ensures CellIssues(c, line) == [] <==> ValidCells(c)
  {
    forall x ensures x in CellIssues(c, line) <==> x.line == line && BadField(c, x.field) {
      MainIssuesExactly(c, line, x);
      var numbers := NumberIssues(MainIssues(c, line), c, line);
      NumberIssuesExactly(MainIssues(c, line), c, line, x);
      TruckIssuesExactly(numbers, c.trucks, line, x);
      TextIssuesExactly(TruckIssues(numbers, c.trucks, line), c, line, x);
    }
    ValidUnlessBad(c);
    if CellIssues(c, line) != [] {
      assert CellIssues(c, line)[0] in CellIssues(c, line);
    }
    forall f ensures BadField(c, f) ==> CellIssues(c, line) != [] {
      assert Issue(line, f) in CellIssues(c, line) <==> BadField(c, f);
    }
  }

  lemma ValidUnlessBad(c: Cells)
    ensures ValidCells(c) <==> forall f :: !BadField(c, f)
  {
    if forall f :: !BadField(c, f) {
      assert !BadField(c, NAME) && !BadField(c, CATEGORY) && !BadField(c, BRAND) && !BadField(c, CONDITION);
      assert !BadField(c, PRICE) && !BadField(c, QUANTITY) && !BadField(c, PART_NUMBER);
      assert !BadField(c, CROSS_REFERENCE) && !BadField(c, VEHICLES) && !BadField(c, STATUS);
      assert !BadField(c, CONDITION_NOTES) && !BadField(c, DESCRIPTION);
    }
  }

  function RowOf(c: Cells, line: nat): ImportRow
    requires ValidCells(c)
  {
    ImportRow(
      line, c.name, OrNone(c.description), OrNone(c.descriptionFr), c.category, OrNone(c.brand), OrNone(c.partNumber),
      c.crossReference, c.condition.value, OrNone(c.conditionNotes), c.price.value, c.quantity.value, Found(c.trucks),
      if c.hasStatus then c.status else None)
  }

  /** Part number and brand as they are compared within the file; None without a part
      number. */
  function PartKey(c: Cells): Option<string> {
    if c.partNumber == "" then None else Some(Key(c.partNumber) + "|" + Key(c.brand))
  }

  // ---------------------------------------------------------------------
  // All records
  // ---------------------------------------------------------------------

  /** `seen` has the line where each part number and brand was first met. */
  datatype Parsed = Parsed(rows: seq<ImportRow>, errors: seq<Issue>, seen: map<string, nat>)

  function ParseCells(before: Parsed, c: Cells, line: nat): Parsed {
    var key := PartKey(c);
    var again := key.Some? && key.value in before.seen;
    var issues := Check(CellIssues(c, line), again, line, PART_NUMBER);
    var seen := if key.Some? && !again then before.seen[key.value := line] else before.seen;
    CellIssuesExactly(c, line);
    if issues != [] then Parsed(before.rows, before.errors + issues, seen)
    else Parsed(before.rows + [RowOf(c, line)], before.errors, seen)
  }

  /** What the records say; None for a blank one. */
  function ReadAll(records: seq<Record>): (cells: seq<Option<Cells>>)
    ensures |cells| == |records|
  {
    seq(|records|, i requires 0 <= i < |records| => if IsBlank(records[i]) then None else Some(Read(records[i])))
  }

  /** The titles are on line 1, so the first record is on line 2. */
  function ParseRecords(records: seq<Option<Cells>>): Parsed {
    if records == [] then Parsed([], [], map[])
    else
      var n := |records| - 1;
      var before := ParseRecords(records[..n]);
      if records[n].None? then before else ParseCells(before, records[n].value, n + 2)
  }

  /** What the parser returns for the records below the titles. */
  function ParseFile(records: seq<Record>): (seq<ImportRow>, seq<Issue>) {
    if records == [] || |records| > MAX_IMPORT_ROWS then ([], [Issue(0, FILE)])
    else
      var parsed := ParseRecords(ReadAll(records));
      (parsed.rows, if parsed.rows == [] && parsed.errors == [] then [Issue(0, FILE)] else parsed.errors)
  }

  // ---------------------------------------------------------------------
  // Which records become rows
  // ---------------------------------------------------------------------

  /** Two rows about the same part of the same brand. */
  predicate SameCells(a: Cells, b: Cells) {
    a.partNumber != "" && b.partNumber != "" && Key(a.partNumber) == Key(b.partNumber) && Key(a.brand) == Key(b.brand)
  }

  /** An earlier record is about the same part. */
  ghost predicate Again(records: seq<Option<Cells>>, i: nat)
    requires i < |records| && records[i].Some?
  {
    exists j :: 0 <= j < i && records[j].Some? && SameCells(records[j].value, records[i].value)
  }

  ghost predicate Complains(records: seq<Option<Cells>>, i: nat, f: Field)
    requires i < |records|
  {
    records[i].Some? && (BadField(records[i].value, f) || (f == PART_NUMBER && Again(records, i)))
  }

  ghost predicate Fine(records: seq<Option<Cells>>, i: nat)
    requires i < |records|
  {
    records[i].Some? && ValidCells(records[i].value) && !Again(records, i)
  }

  predicate HasLine(rows: seq<ImportRow>, line: nat) {
    exists a :: 0 <= a < |rows| && rows[a].line == line
  }

  predicate RowMatches(records: seq<Option<Cells>>, row: ImportRow) {
    && 2 <= row.line < |records| + 2
    && records[row.line - 2].Some? && ValidCells(records[row.line - 2].value)
    && row == RowOf(records[row.line - 2].value, row.line)
  }

  ghost predicate SeenExactly(records: seq<Option<Cells>>, seen: map<string, nat>) {
    forall k :: k in seen <==>
      exists i :: 0 <= i < |records| && records[i].Some? && PartKey(records[i].value) == Some(k)
  }

  /** One issue per bad cell or repeated part, in the order of the lines. */
  ghost predicate IssuesFit(records: seq<Option<Cells>>, errors: seq<Issue>) {
    && (forall x :: x in errors <==> 2 <= x.line < |records| + 2 && Complains(records, x.line - 2, x.field))
    && (forall a, b :: 0 <= a < b < |errors| ==> errors[a].line <= errors[b].line)
  }

  /** One row per fine record, in order, each as its record says. */
  ghost predicate RowsFit(records: seq<Option<Cells>>, rows: seq<ImportRow>) {
    && (forall a, b :: 0 <= a < b < |rows| ==> rows[a].line < rows[b].line)
    && (forall a :: 0 <= a < |rows| ==> RowMatches(records, rows[a]))
    && (forall i :: 0 <= i < |records| ==> (HasLine(rows, i + 2) <==> Fine(records, i)))
  }

  lemma {:induction false} FilteredChars(s: string)
    ensures forall i :: 0 <= i < |Filtered(s)| ==> IsLowerAlnum(Filtered(s)[i])
  {
    if s != "" {
      FilteredChars(s[1..]);
    }
  }

  /** The bar cannot be part of a key, so joining two keys loses nothing. */
  lemma PartKeysExactly(a: Cells, b: Cells)
    ensures PartKey(a).Some? && PartKey(a) == PartKey(b) <==> SameCells(a, b)
  {
    if PartKey(a).Some? && PartKey(a) == PartKey(b) {
      FilteredChars(Lower(a.partNumber));
      FilteredChars(Lower(b.partNumber));
      JoinsApart(Key(a.partNumber), Key(a.brand), Key(b.partNumber), Key(b.brand));
    }
  }

  lemma JoinsApart(a: string, b: string, c: string, d: string)
    requires '|' !in a && '|' !in c && a + "|" + b == c + "|" + d
    ensures a == c && b == d
  {
    var s := a + "|" + b;
    assert s[|a|] == '|' && s[|c|] == '|';
    assert forall i :: 0 <= i < |a| ==> s[i] == a[i];
    assert forall i :: 0 <= i < |c| ==> s[i] == c[i];
    assert s[..|a|] == a && s[..|c|] == c;
    assert s[|a| + 1..] == b && s[|c| + 1..] == d;
  }

  ghost predicate ParsedOk(records: seq<Option<Cells>>, p: Parsed) {
    SeenExactly(records, p.seen) && IssuesFit(records, p.errors) && RowsFit(records, p.rows)
  }

  /** A record about a part seen before. */
  lemma SeenAgain(records: seq<Option<Cells>>, seen: map<string, nat>, c: Cells)
    requires SeenExactly(records, seen)
    ensures PartKey(c).Some? && PartKey(c).value in seen <==>
              exists i :: 0 <= i < |records| && records[i].Some? && SameCells(records[i].value, c)
  {
    forall i | 0 <= i < |records| && records[i].Some?
      ensures PartKey(c).Some? && PartKey(records[i].value) == PartKey(c) <==> SameCells(records[i].value, c)
    {
      PartKeysExactly(records[i].value, c);
    }
  }

  lemma SeenMore(records: seq<Option<Cells>>, before: map<string, nat>, line: nat)
    requires records != [] && SeenExactly(records[..|records| - 1], before)
    ensures var n := |records| - 1;
            && (records[n].None? || PartKey(records[n].value).None? || PartKey(records[n].value).value in before ==>
              SeenExactly(records, before))
            && (records[n].Some? && PartKey(records[n].value).Some? ==>
                  SeenExactly(records, before[PartKey(records[n].value).value := line]))
  {
    var n := |records| - 1;
    forall k ensures (exists i :: 0 <= i < |records| && records[i].Some? && PartKey(records[i].value) == Some(k)) <==>
                       k in before || (records[n].Some? && PartKey(records[n].value) == Some(k))
    {
      if k in before {
        var i :| 0 <= i < n && records[..n][i].Some? && PartKey(records[..n][i].value) == Some(k);
        assert records[i] == records[..n][i];
      }
      if i :| 0 <= i < |records| && records[i].Some? && PartKey(records[i].value) == Some(k) {
        assert i < n ==> records[..n][i] == records[i];
      }
    }
  }

  /** What is said about a record does not depend on those behind it. */
  lemma SaidBefore(records: seq<Option<Cells>>, i: nat)
    requires i < |records| - 1
    ensures records[..|records| - 1][i] == records[i]
    ensures records[i].Some? ==> (Again(records[..|records| - 1], i) <==> Again(records, i))
    ensures forall f :: Complains(records[..|records| - 1], i, f) <==> Complains(records, i, f)
    ensures Fine(records[..|records| - 1], i) <==> Fine(records, i)
  {
    assert forall j :: 0 <= j <= i ==> records[..|records| - 1][j] == records[j];
  }

  lemma IssuesMore(records: seq<Option<Cells>>, errors: seq<Issue>, more: seq<Issue>)
    requires records != [] && IssuesFit(records[..|records| - 1], errors)
    requires forall x :: x in more <==> x.line == |records| + 1 && Complains(records, |records| - 1, x.field)
    ensures IssuesFit(records, errors + more)
  {
    var n, all := |records| - 1, errors + more;
    forall x ensures x in all <==> 2 <= x.line < |records| + 2 && Complains(records, x.line - 2, x.field) {
      if 2 <= x.line < n + 2 {
        SaidBefore(records, x.line - 2);
      }
    }
    forall a | 0 <= a < |errors| ensures errors[a].line < n + 2 {
      assert errors[a] in errors;
    }
    forall a | 0 <= a < |more| ensures more[a].line == n + 2 {
      assert more[a] in more;
    }
  }

  lemma HasLineMore(rows: seq<ImportRow>, more: seq<ImportRow>, line: nat)
    ensures HasLine(rows + more, line) <==> HasLine(rows, line) || HasLine(more, line)
  {
    var all := rows + more;
    if a :| 0 <= a < |rows| && rows[a].line == line {
      assert all[a].line == line;
    }
    if b :| 0 <= b < |more| && more[b].line == line {
      assert all[|rows| + b].line == line;
    }
  }

  lemma RowsMore(records: seq<Option<Cells>>, rows: seq<ImportRow>, more: seq<ImportRow>)
    requires records != [] && RowsFit(records[..|records| - 1], rows)
    requires |more| <= 1 && (|more| == 1 <==> Fine(records, |records| - 1))
    requires forall a :: 0 <= a < |more| ==> RowMatches(records, more[a]) && more[a].line == |records| + 1
    ensures RowsFit(records, rows + more)
  {
    var n, after := |records| - 1, rows + more;
    forall a | 0 <= a < |rows| ensures RowMatches(records, rows[a]) && rows[a].line < n + 2 {
      assert RowMatches(records[..n], rows[a]);
    }
    forall i | 0 <= i < |records| ensures HasLine(after, i + 2) <==> Fine(records, i) {
      HasLineMore(rows, more, i + 2);
      if i < n {
        SaidBefore(records, i);
      } else if Fine(records, n) {
        assert more[0].line == n + 2;
      }
    }
  }

  lemma ParsedBlank(records: seq<Option<Cells>>, before: Parsed)
    requires records != [] && records[|records| - 1].None? && ParsedOk(records[..|records| - 1], before)
    ensures ParsedOk(records, before)
  {
    SeenMore(records, before.seen, 0);
    IssuesMore(records, before.errors, []);
    RowsMore(records, before.rows, []);
    assert before.rows + [] == before.rows && before.errors + [] == before.errors;
  }

  /** What is reported about the last record. */
  lemma LastIssues(records: seq<Option<Cells>>, seen: map<string, nat>, x: Issue)
    requires records != [] && records[|records| - 1].Some? && SeenExactly(records[..|records| - 1], seen)
    ensures var c, line := records[|records| - 1].value, |records| + 1;
            var again := PartKey(c).Some? && PartKey(c).value in seen;
            && (again <==> Again(records, |records| - 1))
            && (x in Check(CellIssues(c, line), again, line, PART_NUMBER) <==>
                  x.line == line && Complains(records, |records| - 1, x.field))
  {
    var n := |records| - 1;
    SeenAgain(records[..n], seen, records[n].value);
    CellIssuesExactly(records[n].value, n + 2);
    assert forall j :: 0 <= j < n ==> records[..n][j] == records[j];
  }

  lemma AllLastIssues(records: seq<Option<Cells>>, seen: map<string, nat>, issues: seq<Issue>)
    requires records != [] && records[|records| - 1].Some? && SeenExactly(records[..|records| - 1], seen)
    requires var c, line := records[|records| - 1].value, |records| + 1;
             issues == Check(CellIssues(c, line), PartKey(c).Some? && PartKey(c).value in seen, line, PART_NUMBER)
    ensures forall x :: x in issues <==> x.line == |records| + 1 && Complains(records, |records| - 1, x.field)
    ensures issues == [] <==> Fine(records, |records| - 1)
  {
    forall x ensures x in issues <==> x.line == |records| + 1 && Complains(records, |records| - 1, x.field) {
      LastIssues(records, seen, x);
    }
    LastIssues(records, seen, Issue(0, FILE));
    CellIssuesExactly(records[|records| - 1].value, |records| + 1);
  }

  lemma ParsedOneMore(records: seq<Option<Cells>>, before: Parsed)
    requires records != [] && records[|records| - 1].Some? && ParsedOk(records[..|records| - 1], before)
    ensures ParsedOk(records, ParseCells(before, records[|records| - 1].value, |records| + 1))
  {
    hide CellIssues, PartKey, BadField, SeenExactly, IssuesFit, RowsFit, Found;
    var n := |records| - 1;
    var c := records[n].value;
    var issues := Check(CellIssues(c, n + 2), PartKey(c).Some? && PartKey(c).value in before.seen, n + 2, PART_NUMBER);
    AllLastIssues(records, before.seen, issues);
    SeenMore(records, before.seen, n + 2);
    IssuesMore(records, before.errors, issues);
    if issues == [] {
      RowsMore(records, before.rows, [RowOf(c, n + 2)]);
      assert before.errors + [] == before.errors;
    } else {
      RowsMore(records, before.rows, []);
      assert before.rows + [] == before.rows;
    }
  }

  /** The row loop reports exactly the bad cells and the repeated parts, and turns every other
      record that is not blank into the row it says. */
  lemma {:induction false} ParsesExactly(records: seq<Option<Cells>>)
    ensures ParsedOk(records, ParseRecords(records))
  {
    if records != [] {
      var n := |records| - 1;
      ParsesExactly(records[..n]);
      if records[n].Some? {
        ParsedOneMore(records, ParseRecords(records[..n]));
      } else {
        ParsedBlank(records, ParseRecords(records[..n]));
      }
    }
  }

  // ---------------------------------------------------------------------
  // In terms of the records themselves
  // ---------------------------------------------------------------------

  function KnownCells(r: Record): seq<string> {
    [r.name, r.category, r.brand, r.condition, r.price, r.quantity, r.partNumber, r.crossReference, r.vehicles,
     r.status, r.conditionNotes, r.description, r.descriptionFr]
  }

  /** Every cell of the record, known column or not. */
  function CellsOf(r: Record): seq<string> {
    KnownCells(r) + r.others
  }

  /** A record is skipped exactly when all its cells are white space. */
  lemma BlankExactly(r: Record)
    ensures IsBlank(r) <==> forall i :: 0 <= i < |CellsOf(r)| ==> AllSpaces(CellsOf(r)[i])
  {
    var all := CellsOf(r);
    forall i | 0 <= i < |all| ensures Trim(all[i]) == "" <==> AllSpaces(all[i]) {
      EmptyExactly(all[i]);
    }
    BlankParts(r);
  }

  lemma BlankParts(r: Record)
    ensures IsBlank(r) <==> forall i :: 0 <= i < |CellsOf(r)| ==> Trim(CellsOf(r)[i]) == ""
  {
    var known := KnownCells(r);
    assert |known| == 13;
    assert forall i :: 0 <= i < 13 ==> CellsOf(r)[i] == known[i];
    assert forall i :: 13 <= i < |CellsOf(r)| ==> CellsOf(r)[i] == r.others[i - 13];
    assert forall i :: 0 <= i < |r.others| ==> CellsOf(r)[13 + i] == r.others[i];
    KnownBlank(r);
  }

  lemma KnownBlank(r: Record)
    ensures (forall i :: 0 <= i < 13 ==> Trim(KnownCells(r)[i]) == "") <==>
              && Trim(r.name) == "" && Trim(r.category) == "" && Trim(r.brand) == "" && Trim(r.condition) == ""
              && Trim(r.price) == "" && Trim(r.quantity) == "" && Trim(r.partNumber) == ""
              && Trim(r.crossReference) == "" && Trim(r.vehicles) == "" && Trim(r.status) == ""
              && Trim(r.conditionNotes) == "" && Trim(r.description) == "" && Trim(r.descriptionFr) == ""
  {
    hide Trim;
    var c := KnownCells(r);
    assert c[0] == r.name && c[1] == r.category && c[2] == r.brand && c[3] == r.condition && c[4] == r.price;
    assert c[5] == r.quantity && c[6] == r.partNumber && c[7] == r.crossReference && c[8] == r.vehicles;
    assert c[9] == r.status && c[10] == r.conditionNotes && c[11] == r.description && c[12] == r.descriptionFr;
  }

  lemma EmptyExactly(cell: string)
    ensures Trim(cell) == "" <==> AllSpaces(cell)
  {
    var before, after := TrimExactly(cell);
    if Trim(cell) != "" {
      assert cell[|before|] == Trim(cell)[0];
    }
  }

  /** The limits of each column, on the trimmed cells. */
  ghost predicate Wrong(r: Record, f: Field) {
    match f
    case FILE => false
    case NAME => |Trim(r.name)| < 3 || |Trim(r.name)| > 200
    case CATEGORY => Trim(r.category) == "" || |Trim(r.category)| > 100
    case BRAND => |Trim(r.brand)| > 100
    case CONDITION => ConditionOf(Trim(r.condition)) == None
    case PRICE => PriceOf(Trim(r.price)) == None || PriceOf(Trim(r.price)) == Some(0)
    case QUANTITY => QuantityOf(Trim(r.quantity)) == None
    case PART_NUMBER => |Trim(r.partNumber)| > 64
    case CROSS_REFERENCE =>
      |SplitMulti(Trim(r.crossReference))| > 30 || exists v :: v in SplitMulti(Trim(r.crossReference)) && |v| > 64
    case VEHICLES => exists v :: v in SplitMulti(Trim(r.vehicles)) && VehicleOf(v) == None
    case STATUS => Trim(r.status) != "" && StatusOf(Trim(r.status)) == None
    case CONDITION_NOTES => |Trim(r.conditionNotes)| > 1000
    case DESCRIPTION => |Trim(r.description)| > 5000 || |Trim(r.descriptionFr)| > 5000
  }

  lemma TrucksWrong(cells: seq<string>)
    ensures (exists v :: v in cells && VehicleOf(v) == None) <==>
              exists i :: 0 <= i < |cells| && TrucksOf(cells)[i].None?
  {
    if v :| v in cells && VehicleOf(v) == None {
      var i :| 0 <= i < |cells| && cells[i] == v;
      assert TrucksOf(cells)[i].None?;
    }
    if i :| 0 <= i < |cells| && TrucksOf(cells)[i].None? {
      assert cells[i] in cells && VehicleOf(cells[i]) == None;
    }
  }

  lemma ReferencesWrong(cells: seq<string>, limit: nat)
    ensures (exists v :: v in cells && |v| > limit) <==> TooLong(cells, limit)
  {
    if i :| 0 <= i < |cells| && |cells[i]| > limit {
      assert cells[i] in cells;
    }
  }

  lemma WrongExactly(r: Record, f: Field)
    ensures Wrong(r, f) <==> BadField(Read(r), f)
  {
    hide PriceOf, QuantityOf, ConditionOf, StatusOf, VehicleOf, SplitMulti, Trim, Key;
    if f == VEHICLES {
      TrucksWrong(SplitMulti(Trim(r.vehicles)));
    } else if f == CROSS_REFERENCE {
      ReferencesWrong(SplitMulti(Trim(r.crossReference)), 64);
    }
  }

  /** Two records about the same part number of the same brand. */
  ghost predicate SamePartIn(a: Record, b: Record) {
    && Trim(a.partNumber) != "" && Trim(b.partNumber) != ""
    && Key(Trim(a.partNumber)) == Key(Trim(b.partNumber)) && Key(Trim(a.brand)) == Key(Trim(b.brand))
  }

  ghost predicate Repeats(records: seq<Record>, i: nat)
    requires i < |records|
  {
    exists j :: 0 <= j < i && !IsBlank(records[j]) && SamePartIn(records[j], records[i])
  }

  /** A record that is not blank, has no bad cell and is about a new part. */
  ghost predicate Good(records: seq<Record>, i: nat)
    requires i < |records|
  {
    !IsBlank(records[i]) && (forall f :: !Wrong(records[i], f)) && !Repeats(records, i)
  }

  /** The value of a text cell: what trimming leaves; None where it leaves nothing. */
  predicate TextSays(cell: string, value: Option<string>) {
    if Trim(cell) == "" then value.None? else value == Some(Trim(cell))
  }

  /** The row says, column by column, what the cells of the record say. */
  ghost predicate RowSays(r: Record, row: ImportRow) {
    && row.name == Trim(r.name)
    && TextSays(r.description, row.description)
    && TextSays(r.descriptionFr, row.descriptionFr)
    && row.category == Trim(r.category)
    && TextSays(r.brand, row.brand)
    && TextSays(r.partNumber, row.partNumber)
    && row.crossReference == SplitMulti(Trim(r.crossReference))
    && ConditionOf(Trim(r.condition)) == Some(row.condition)
    && TextSays(r.conditionNotes, row.conditionNotes)
    && PriceOf(Trim(r.price)) == Some(row.price) && row.price >= 1
    && QuantityOf(Trim(r.quantity)) == Some(row.quantity)
    && |row.vehicles| == |SplitMulti(Trim(r.vehicles))|
    && (forall i :: 0 <= i < |row.vehicles| ==> VehicleOf(SplitMulti(Trim(r.vehicles))[i]) == Some(row.vehicles[i]))
    && (if Trim(r.status) == "" then row.status.None? else StatusOf(Trim(r.status)) == row.status && row.status.Some?)
  }

  lemma {:induction false} FoundAll(trucks: seq<Option<VehicleRef>>)
    requires forall i :: 0 <= i < |trucks| ==> trucks[i].Some?
    ensures |Found(trucks)| == |trucks| && forall i :: 0 <= i < |trucks| ==> trucks[i] == Some(Found(trucks)[i])
  {
    if trucks != [] {
      FoundAll(trucks[..|trucks| - 1]);
      assert forall i :: 0 <= i < |trucks| - 1 ==> trucks[..|trucks| - 1][i] == trucks[i];
    }
  }

  lemma RowSaysItsRecord(r: Record, line: nat)
    requires ValidCells(Read(r))
    ensures RowSays(r, RowOf(Read(r), line))
  {
    hide PriceOf, QuantityOf, ConditionOf, StatusOf, VehicleOf, SplitMulti, Trim, Key;
    FoundAll(Read(r).trucks);
  }

  lemma RepeatsExactly(records: seq<Record>, i: nat)
    requires i < |records| && !IsBlank(records[i])
    ensures Repeats(records, i) <==> Again(ReadAll(records), i)
  {
    var cells := ReadAll(records);
    forall j | 0 <= j < i
      ensures !IsBlank(records[j]) && SamePartIn(records[j], records[i]) <==>
                cells[j].Some? && SameCells(cells[j].value, cells[i].value)
    {
    }
  }

  lemma ComplainsExactly(records: seq<Record>, i: nat, f: Field)
    requires i < |records|
    ensures Complains(ReadAll(records), i, f) <==> Reportable(records, i, f)
  {
    if !IsBlank(records[i]) {
      RepeatsExactly(records, i);
      WrongExactly(records[i], f);
    }
  }

  lemma GoodExactly(records: seq<Record>, i: nat)
    requires i < |records|
    ensures Good(records, i) <==> Fine(ReadAll(records), i)
  {
    if !IsBlank(records[i]) {
      RepeatsExactly(records, i);
      ValidUnlessBad(Read(records[i]));
      forall f ensures Wrong(records[i], f) <==> BadField(Read(records[i]), f) {
        WrongExactly(records[i], f);
      }
    }
  }

  ghost predicate Reported(errors: seq<Issue>, i: nat, f: Field) {
    Issue(i + 2, f) in errors
  }

  /** The cell is bad, or it repeats the part of an earlier record. */
  ghost predicate Reportable(records: seq<Record>, i: nat, f: Field)
    requires i < |records|
  {
    !IsBlank(records[i]) && (Wrong(records[i], f) || (f == PART_NUMBER && Repeats(records, i)))
  }

  /** The rows are from the good records, in order. */
  ghost predicate GoodLines(records: seq<Record>, rows: seq<ImportRow>) {
    && (forall a, b :: 0 <= a < b < |rows| ==> rows[a].line < rows[b].line)
    && (forall a :: 0 <= a < |rows| ==> 2 <= rows[a].line < |records| + 2)
    && (forall i :: 0 <= i < |records| ==> (HasLine(rows, i + 2) <==> Good(records, i)))
  }

  /** What the parser returns for a file of 1 to 5000 records, record by record: an issue for
      each bad cell and each repeated part, in the order of the lines, and one row for every
      good record, in order, which says what its cells say.  The titles are on line 1. */
  ghost predicate ParsedExactly(records: seq<Record>, rows: seq<ImportRow>, errors: seq<Issue>) {
    && (forall i, f :: 0 <= i < |records| ==> (Reported(errors, i, f) <==> Reportable(records, i, f)))
    && (forall x :: x in errors ==> 2 <= x.line < |records| + 2)
    && (forall a, b :: 0 <= a < b < |errors| ==> errors[a].line <= errors[b].line)
    && GoodLines(records, rows)
    && (forall a :: 0 <= a < |rows| ==> RowSays(records[rows[a].line - 2], rows[a]))
  }

  lemma RowSaysRecord(records: seq<Record>, row: ImportRow)
    requires RowMatches(ReadAll(records), row)
    ensures 2 <= row.line < |records| + 2 && RowSays(records[row.line - 2], row)
  {
    hide RowSays;
    hide PriceOf, QuantityOf, ConditionOf, StatusOf, VehicleOf, SplitMulti, Trim, Key;
    RowSaysItsRecord(records[row.line - 2], row.line);
  }

  lemma RowsSayRecords(records: seq<Record>, rows: seq<ImportRow>)
    requires RowsFit(ReadAll(records), rows)
    ensures forall a :: 0 <= a < |rows| ==>
              2 <= rows[a].line < |records| + 2 && RowSays(records[rows[a].line - 2], rows[a])
  {
    hide RowMatches, RowSays;
    forall a | 0 <= a < |rows|
      ensures 2 <= rows[a].line < |records| + 2 && RowSays(records[rows[a].line - 2], rows[a])
    {
      RowSaysRecord(records, rows[a]);
    }
  }

  lemma LinesOfGood(records: seq<Record>, rows: seq<ImportRow>)
    requires RowsFit(ReadAll(records), rows)
    ensures GoodLines(records, rows)
  {
    forall i | 0 <= i < |records| ensures HasLine(rows, i + 2) <==> Good(records, i) {
      GoodExactly(records, i);
    }
    forall a | 0 <= a < |rows| ensures 2 <= rows[a].line < |records| + 2 {
      assert RowMatches(ReadAll(records), rows[a]);
    }
  }

  lemma IssueFits(cells: seq<Option<Cells>>, errors: seq<Issue>, i: nat, f: Field)
    requires IssuesFit(cells, errors) && i < |cells|
    ensures Reported(errors, i, f) <==> Complains(cells, i, f)
  {
    var x := Issue(i + 2, f);
    assert x.line - 2 == i && x.field == f;
  }

  lemma IssueSaysRecord(records: seq<Record>, errors: seq<Issue>, i: nat, f: Field)
    requires IssuesFit(ReadAll(records), errors) && i < |records|
    ensures Reported(errors, i, f) <==> Reportable(records, i, f)
  {
    IssueFits(ReadAll(records), errors, i, f);
    ComplainsExactly(records, i, f);
  }

  lemma IssuesSayRecords(records: seq<Record>, errors: seq<Issue>)
    requires IssuesFit(ReadAll(records), errors)
    ensures forall i, f :: 0 <= i < |records| ==> (Reported(errors, i, f) <==> Reportable(records, i, f))
    ensures forall x :: x in errors ==> 2 <= x.line < |records| + 2
  {
    forall i, f | 0 <= i < |records| ensures Reported(errors, i, f) <==> Reportable(records, i, f) {
      IssueSaysRecord(records, errors, i, f);
    }
  }

  /** What the parser returns, in terms of the records: nothing but a complaint about the file
      when it is empty or has more than 5000 records, or only blank ones. */
  lemma FileExactly(records: seq<Record>)
    ensures var (rows, errors) := ParseFile(records);
            && (!(1 <= |records| <= 5000) ==> rows == [] && errors == [Issue(0, FILE)])
            && (1 <= |records| <= 5000 && (exists i :: 0 <= i < |records| && !IsBlank(records[i])) ==>
                  ParsedExactly(records, rows, errors))
            && (errors == [] <==> AllGood(records))
            && (errors == [] ==> NoDuplicates(rows))
  {
    if 1 <= |records| <= 5000 {
      var cells, parsed := ReadAll(records), ParseRecords(ReadAll(records));
      ParsesExactly(cells);
      ParsedSays(records, parsed);
      NoErrorsExactly(records, parsed.rows, parsed.errors);
      RowsAreDistinct(cells, parsed.rows);
    }
  }

  /** A file of 1 to 5000 records, not all of them blank, whose other records are all good. */
  ghost predicate AllGood(records: seq<Record>) {
    && 1 <= |records| <= 5000 && (exists i :: 0 <= i < |records| && !IsBlank(records[i]))
    && forall i :: 0 <= i < |records| && !IsBlank(records[i]) ==> Good(records, i)
  }

  lemma ParsedSays(records: seq<Record>, p: Parsed)
    requires ParsedOk(ReadAll(records), p)
    ensures ParsedExactly(records, p.rows, p.errors)
  {
    hide RowSays, RowMatches, Reported, Reportable, Good, HasLine, Complains, Fine;
    IssuesSayRecords(records, p.errors);
    RowsSayRecords(records, p.rows);
    LinesOfGood(records, p.rows);
  }

  /** A record that is not blank is good, or something about it is reported. */
  lemma GoodUnlessReported(records: seq<Record>, i: nat)
    requires i < |records| && !IsBlank(records[i])
    ensures Good(records, i) <==> forall f :: !Reportable(records, i, f)
  {
    if !Good(records, i) {
      if f :| Wrong(records[i], f) {
        assert Reportable(records, i, f);
      } else {
        assert Reportable(records, i, PART_NUMBER);
      }
    }
  }

  lemma RecordCounts(records: seq<Record>, rows: seq<ImportRow>, errors: seq<Issue>, i: nat)
    requires ParsedExactly(records, rows, errors) && i < |records| && !IsBlank(records[i])
    ensures if Good(records, i) then rows != [] else errors != []
  {
    GoodUnlessReported(records, i);
    if Good(records, i) {
      assert HasLine(rows, i + 2);
    } else {
      var f :| Reportable(records, i, f);
      assert Reported(errors, i, f);
    }
  }

  lemma ErrorIsAbout(records: seq<Record>, rows: seq<ImportRow>, errors: seq<Issue>) returns (i: nat)
    requires ParsedExactly(records, rows, errors) && errors != []
    ensures i < |records| && !IsBlank(records[i]) && !Good(records, i)
  {
    var x := errors[0];
    assert x in errors;
    i := x.line - 2;
    assert x == Issue(i + 2, x.field);
    assert Reported(errors, i, x.field);
    GoodUnlessReported(records, i);
  }

  lemma RowIsAbout(records: seq<Record>, rows: seq<ImportRow>) returns (i: nat)
    requires GoodLines(records, rows) && rows != []
    ensures i < |records| && !IsBlank(records[i])
  {
    i := rows[0].line - 2;
    assert rows[0].line == i + 2;
    assert HasLine(rows, i + 2);
    assert Good(records, i);
  }

  lemma NoErrorsExactly(records: seq<Record>, rows: seq<ImportRow>, errors: seq<Issue>)
    requires ParsedExactly(records, rows, errors)
    ensures errors == [] <==> forall i :: 0 <= i < |records| && !IsBlank(records[i]) ==> Good(records, i)
    ensures rows == [] && errors == [] <==> forall i :: 0 <= i < |records| ==> IsBlank(records[i])
  {
    forall i | 0 <= i < |records| && !IsBlank(records[i])
      ensures if Good(records, i) then rows != [] else errors != []
    {
      RecordCounts(records, rows, errors, i);
    }
    if errors != [] {
      var i := ErrorIsAbout(records, rows, errors);
    }
    if rows != [] {
      var i := RowIsAbout(records, rows);
    }
  }

  /** The rows are about different parts. */
  lemma RowsAreDistinct(records: seq<Option<Cells>>, rows: seq<ImportRow>)
    requires RowsFit(records, rows)
    ensures NoDuplicates(rows)
  {
    forall a, b | 0 <= a < b < |rows| ensures !SamePart(rows[a], rows[b]) {
      assert RowMatches(records, rows[a]) && RowMatches(records, rows[b]);
      assert HasLine(rows, rows[b].line);
      var i, j := rows[a].line - 2, rows[b].line - 2;
      assert Fine(records, j);
      RowsDiffer(records[i].value, i + 2, records[j].value, j + 2);
    }
  }

  lemma RowsDiffer(a: Cells, i: nat, b: Cells, j: nat)
    requires ValidCells(a) && ValidCells(b) && !SameCells(a, b)
    ensures !SamePart(RowOf(a, i), RowOf(b, j))
  {
    assert Key("") == "";
  }
}
