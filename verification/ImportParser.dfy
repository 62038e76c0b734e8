/** The parser of a product spreadsheet, and the whole import of a file: from its records to
    the written catalogue. */
module ImportParser {
  import opened Wrappers
  import opened Text
  import opened Price
  import opened ImportCells
  import opened ImportTypes
  import opened ImportRecords
  import opened ImportApply
  import opened ImportTheorems
  import opened ImportPlan
  import opened ImportResult

  method CheckTrucks(trucks: seq<Option<VehicleRef>>, line: nat, before: seq<Issue>)
    returns (vehicles: seq<VehicleRef>, errors: seq<Issue>)
    ensures vehicles == Found(trucks) && errors == TruckIssues(before, trucks, line)
  {
    vehicles, errors := [], before;
    for i := 0 to |trucks|
      invariant vehicles == Found(trucks[..i]) && errors == TruckIssues(before, trucks[..i], line)
    {
      assert trucks[..i + 1][..i] == trucks[..i];
      match trucks[i]
      case None => errors := errors + [Issue(line, VEHICLES)];
      case Some(v) => vehicles := vehicles + [v];
    }
    assert trucks[..|trucks|] == trucks;
  }

  method CheckMain(c: Cells, line: nat) returns (errors: seq<Issue>)
    ensures errors == MainIssues(c, line)
  {
    errors := [];
    if |c.name| < 3 || |c.name| > 200 { errors := errors + [Issue(line, NAME)]; }
    if c.category == "" || |c.category| > 100 { errors := errors + [Issue(line, CATEGORY)]; }
    if |c.brand| > 100 { errors := errors + [Issue(line, BRAND)]; }
    if c.condition.None? { errors := errors + [Issue(line, CONDITION)]; }
    if c.price.None? || c.price.value < 1 { errors := errors + [Issue(line, PRICE)]; }
    if c.quantity.None? { errors := errors + [Issue(line, QUANTITY)]; }
  }

  method CheckNumbers(before: seq<Issue>, c: Cells, line: nat) returns (errors: seq<Issue>)
    ensures errors == NumberIssues(before, c, line)
  {
    errors := before;
    if |c.partNumber| > 64 { errors := errors + [Issue(line, PART_NUMBER)]; }
    if |c.crossReference| > 30 { errors := errors + [Issue(line, CROSS_REFERENCE)]; }
    if TooLong(c.crossReference, 64) { errors := errors + [Issue(line, CROSS_REFERENCE)]; }
  }

  method CheckTexts(before: seq<Issue>, c: Cells, line: nat) returns (errors: seq<Issue>)
    ensures errors == TextIssues(before, c, line)
  {
    errors := before;
    if c.hasStatus && c.status.None? { errors := errors + [Issue(line, STATUS)]; }
    if |c.conditionNotes| > 1000 { errors := errors + [Issue(line, CONDITION_NOTES)]; }
    if |c.description| > 5000 || |c.descriptionFr| > 5000 { errors := errors + [Issue(line, DESCRIPTION)]; }
  }

  /** The errors of one row; its trucks are collected on the way. */
  method CheckCells(c: Cells, line: nat) returns (vehicles: seq<VehicleRef>, errors: seq<Issue>)
    ensures vehicles == Found(c.trucks) && errors == CellIssues(c, line)
  {
    errors := CheckMain(c, line);
    errors := CheckNumbers(errors, c, line);
    vehicles, errors := CheckTrucks(c.trucks, line, errors);
    errors := CheckTexts(errors, c, line);
  }

  method ParseProductCsv(records: seq<Record>) returns (rows: seq<ImportRow>, errors: seq<Issue>)
    ensures (rows, errors) == ParseFile(records)
    ensures !(1 <= |records| <= 5000) ==> rows == [] && errors == [Issue(0, FILE)]
    ensures 1 <= |records| <= 5000 && (exists i :: 0 <= i < |records| && !IsBlank(records[i])) ==>
              ParsedExactly(records, rows, errors)
    ensures errors == [] <==> AllGood(records)
  {
    rows, errors := [], [];
    if |records| < 1 || |records| > MAX_IMPORT_ROWS {
      FileExactly(records);
      return [], [Issue(0, FILE)];
    }
    var seen: map<string, nat> := map[];
    ghost var all := ReadAll(records);
    for i := 0 to |records|
      invariant ParseRecords(all[..i]) == Parsed(rows, errors, seen)
    {
      assert all[..i + 1][..i] == all[..i] && all[..i + 1][i] == all[i];
      if !IsBlank(records[i]) {
        var c := ReadCells(records[i]);
        rows, errors, seen := AddRecord(c, i + 2, rows, errors, seen);
      }
    }
    assert all[..|records|] == all;
    if rows == [] && errors == [] {
      errors := [Issue(0, FILE)];
    }
    FileExactly(records);
  }

  method ReadCells(r: Record) returns (c: Cells)
    ensures c == Read(r)
  {
    var price := ParsePrice(Trim(r.price));
    c := Cells(
      Trim(r.name), Trim(r.category), Trim(r.brand), ConditionOf(Trim(r.condition)), price,
        QuantityOf(Trim(r.quantity)),
      Trim(r.partNumber), SplitMulti(Trim(r.crossReference)), TrucksOf(SplitMulti(Trim(r.vehicles))),
      Trim(r.status) != "", StatusOf(Trim(r.status)), Trim(r.conditionNotes), Trim(r.description),
        Trim(r.descriptionFr));
  }

  method AddRecord(c: Cells, line: nat, rows: seq<ImportRow>, errors: seq<Issue>, seen: map<string, nat>)
    returns (rows': seq<ImportRow>, errors': seq<Issue>, seen': map<string, nat>)
    ensures Parsed(rows', errors', seen') == ParseCells(Parsed(rows, errors, seen), c, line)
  {
    rows', errors', seen' := rows, errors, seen;
    CellIssuesExactly(c, line);
    var vehicles, rowErrors := CheckCells(c, line);
    var key := PartKey(c);
    if key.Some? {
      if key.value in seen {
        rowErrors := rowErrors + [Issue(line, PART_NUMBER)];
      } else {
        seen' := seen[key.value := line];
      }
    }
    if |rowErrors| > 0 {
      errors' := errors + rowErrors;
    } else {
      rows' := rows + [RowOf(c, line).(vehicles := vehicles)];
    }
  }

  /** The whole import of a file. */
  method CommitFile(service: ProductImportService, records: seq<Record>, defaultStatus: ColumnStatus) returns (ok: bool)
    modifies service
    ensures var (rows, errors) := ParseFile(records);
            var next := Committed(old(service.Tables()), rows, defaultStatus);
            ok == (errors == [] && next.Some?) && service.Tables() == if ok then next.value else old(service.Tables())
    ensures !AllGood(records) ==> !ok && service.Tables() == old(service.Tables())
  {
    var rows, errors := ParseProductCsv(records);
    if errors != [] {
      return false;
    }
    ok := service.Commit(rows, defaultStatus);
  }

  /** The product says what the cells of the record say. */
  ghost predicate ProductSays(c: Catalog, item: Item, r: Record) {
    && item.name == Trim(r.name)
    && PriceOf(Trim(r.price)) == Some(item.price)
    && (exists n: nat :: QuantityOf(Trim(r.quantity)) == Some(n) && item.quantity == n)
    && ConditionOf(Trim(r.condition)) == Some(item.condition)
    && TextSays(r.partNumber, item.partNumber) && TextSays(r.conditionNotes, item.conditionNotes)
    && (Trim(r.description) != "" ==> item.description == Trim(r.description))
    && (Trim(r.descriptionFr) != "" ==> item.descriptionFr == Some(Trim(r.descriptionFr)))
    && (Trim(r.status) != "" ==> StatusOf(Trim(r.status)) == Some(item.status))
    && item.category < |c.categories| && GoesBy(c.categories[item.category], Key(Trim(r.category)))
    && (Key(Trim(r.brand)) != "" ==>
          item.brand.Some? && item.brand.value < |c.brands| &&
            Key(c.brands[item.brand.value].name) == Key(Trim(r.brand)))
  }

  lemma RowToProduct(c: Catalog, item: Item, row: ImportRow, r: Record)
    requires RowSays(r, row) && Says(c, item, row)
    ensures ProductSays(c, item, r)
  {
    hide Trim, PriceOf, QuantityOf, ConditionOf, StatusOf, VehicleOf, SplitMulti, SaysTrucks;
    assert Key("") == "";
  }

  lemma GoodLine(records: seq<Record>, rows: seq<ImportRow>, i: nat)
    requires GoodLines(records, rows) && i < |records| && Good(records, i)
    ensures HasLine(rows, i + 2) && rows[RowOn(rows, i + 2)].line - 2 == i
  {
    hide Good, HasLine;
  }

  lemma SaysAtLine(records: seq<Record>, rows: seq<ImportRow>, errors: seq<Issue>, a: nat)
    requires ParsedExactly(records, rows, errors) && a < |rows|
    ensures 2 <= rows[a].line < |records| + 2 && RowSays(records[rows[a].line - 2], rows[a])
  {
    hide RowSays, Reported, Reportable, HasLine, Good;
  }

  lemma GoodRow(records: seq<Record>, i: nat)
    requires AllGood(records) && i < |records| && !IsBlank(records[i])
    ensures var rows := ParseFile(records).0;
            && NoDuplicates(rows) && HasLine(rows, i + 2) && RowSays(records[i], rows[RowOn(rows, i + 2)])
  {
    hide ParseFile, ParsedExactly, RowSays, NoDuplicates;
    FileExactly(records);
    var (rows, errors) := ParseFile(records);
    GoodLinesOf(records, rows, errors);
    GoodLine(records, rows, i);
    SaysAtLine(records, rows, errors, RowOn(rows, i + 2));
  }

  lemma GoodLinesOf(records: seq<Record>, rows: seq<ImportRow>, errors: seq<Issue>)
    requires ParsedExactly(records, rows, errors)
    ensures GoodLines(records, rows)
  {
    hide RowSays, Reported, Reportable, GoodLines;
  }

  lemma RecordToProduct(c: Catalog, records: seq<Record>, defaultStatus: ColumnStatus, i: nat)
    requires AllGood(records) && Committed(c, ParseFile(records).0, defaultStatus).Some?
    requires i < |records| && !IsBlank(records[i])
    ensures var rows := ParseFile(records).0;
            var planned, after := PlanRows(c, rows).rows, Committed(c, rows, defaultStatus).value;
            && HasLine(rows, i + 2) && |planned| == |rows|
            && var at := Target(c, planned, RowOn(rows, i + 2));
               at < |after.products| && ProductSays(after, after.products[at], records[i])
  {
    hide RowSays, Says, ProductSays, AllGood, ParseFile, Committed, PlanRows, NoDuplicates;
    GoodRow(records, i);
    var rows := ParseFile(records).0;
    var a := RowOn(rows, i + 2);
    ProductsSayTheirRows(c, rows, defaultStatus, a);
    RowToProduct(Committed(c, rows, defaultStatus).value,
      Committed(c, rows, defaultStatus).value.products[Target(c, PlanRows(c, rows).rows, a)], rows[a], records[i]);
  }

  /** Where the product of a record is. */
  ghost function ProductAt(c: Catalog, records: seq<Record>, i: nat): nat {
    var rows := ParseFile(records).0;
    var planned := PlanRows(c, rows).rows;
    if HasLine(rows, i + 2) && |planned| == |rows| then Target(c, planned, RowOn(rows, i + 2)) else 0
  }

  /** From the file to the catalogue: after a commit every record that is not blank has its
      product, which says what its cells say; different records have different products. */
  lemma ProductsSayTheirRecords(c: Catalog, records: seq<Record>, defaultStatus: ColumnStatus)
    requires AllGood(records) && Committed(c, ParseFile(records).0, defaultStatus).Some?
    ensures var after := Committed(c, ParseFile(records).0, defaultStatus).value;
            forall i :: 0 <= i < |records| && !IsBlank(records[i]) ==>
              && ProductAt(c, records, i) < |after.products|
              && ProductSays(after, after.products[ProductAt(c, records, i)], records[i])
    ensures forall i, j :: 0 <= i < j < |records| && !IsBlank(records[i]) && !IsBlank(records[j]) ==>
              ProductAt(c, records, i) != ProductAt(c, records, j)
  {
    var rows := ParseFile(records).0;
    forall i | 0 <= i < |records| && !IsBlank(records[i])
      ensures var after := Committed(c, rows, defaultStatus).value;
              && ProductAt(c, records, i) < |after.products|
              && ProductSays(after, after.products[ProductAt(c, records, i)], records[i])
    {
      RecordToProduct(c, records, defaultStatus, i);
    }
    forall i, j | 0 <= i < j < |records| && !IsBlank(records[i]) && !IsBlank(records[j])
      ensures ProductAt(c, records, i) != ProductAt(c, records, j)
    {
      ProductsOfTwo(c, records, defaultStatus, i, j);
    }
  }

  lemma ProductsOfTwo(c: Catalog, records: seq<Record>, defaultStatus: ColumnStatus, i: nat, j: nat)
    requires AllGood(records) && Committed(c, ParseFile(records).0, defaultStatus).Some?
    requires i < j < |records| && !IsBlank(records[i]) && !IsBlank(records[j])
    ensures ProductAt(c, records, i) != ProductAt(c, records, j)
  {
    hide RowSays, AllGood, ParseFile, Committed, PlanRows;
    GoodRow(records, i);
    GoodRow(records, j);
    var rows := ParseFile(records).0;
    ImportIsAnUpsert(c, rows, defaultStatus);
    var a, b := RowOn(rows, i + 2), RowOn(rows, j + 2);
    assert a != b;
    var planned := PlanRows(c, rows).rows;
    assert Target(c, planned, a) != Target(c, planned, b) by {
      if a < b {
        assert Target(c, planned, a) != Target(c, planned, b);
      } else {
        assert Target(c, planned, b) != Target(c, planned, a);
      }
    }
  }

  /** The row on a line that has one. */
  ghost function RowOn(rows: seq<ImportRow>, line: nat): (a: nat)
    requires HasLine(rows, line)
    ensures a < |rows| && rows[a].line == line
  {
    var a :| 0 <= a < |rows| && rows[a].line == line;
    a
  }
}
