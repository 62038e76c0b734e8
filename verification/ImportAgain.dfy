/** Importing the same file twice: exactly when the second import finds every row's product
    again and changes nothing. */
module ImportAgain {
  import opened Wrappers
  import opened Text
  import opened ImportTypes
  import opened ImportPlan
  import opened ImportApply
  import opened ImportTables
  import opened ImportTheorems

  /** A later import can find the row's product: the row has a part number, and its brand,
      if it has one, is a name with a letter or digit or finds nothing. */
  predicate Rematches(c: Catalog, row: ImportRow) {
    && row.partNumber.Some?
    && (NamelessBrand(row) ==> "" !in BrandKeys(c.brands))
  }

  /** Matching takes this for no brand, but writing looks it up. */
  predicate NamelessBrand(row: ImportRow) {
    row.brand.Some? && Key(row.brand.value) == ""
  }

  // ---------------------------------------------------------------------
  // Writing a row twice
  // ---------------------------------------------------------------------

  lemma WrittenTwice(item: Item, row: ImportRow, ids: Resolved, slug: string, defaultStatus: ColumnStatus)
    ensures Updated(Updated(item, row, ids), row, ids) == Updated(item, row, ids)
    ensures Updated(Created(row, ids, slug, defaultStatus), row, ids) == Created(row, ids, slug, defaultStatus)
  {
  }

  // ---------------------------------------------------------------------
  // Whom the rows fit afterwards
  // ---------------------------------------------------------------------

  /** A first import of the file that went through: `t` has the new tables, `after` the new
      products too. */
  ghost predicate Imported(c: Catalog, t: Catalog, rows: seq<ImportRow>, planned: seq<PlannedRow>, after: Catalog,
      defaultStatus: ColumnStatus) {
    && NoDuplicates(rows) && BrandsExist(c) && PlansAll(c, rows, planned)
    && Upserted(c, t, rows, planned, |rows|, after, defaultStatus)
    && (forall i :: 0 <= i < |rows| ==> Known(t, rows[i]))
    && BrandIdsKeep(c.brands, t.brands)
  }

  /** Old brands keep their ids under their keys, and new ones get new ids. */
  ghost predicate BrandIdsKeep(before: seq<Brand>, after: seq<Brand>) {
    && ("" in BrandKeys(before) <==> "" in BrandKeys(after))
    && (forall k :: k in BrandKeys(before) ==> k in BrandKeys(after) && BrandKeys(after)[k] == BrandKeys(before)[k])
    && (forall k :: k in BrandKeys(after) && k !in BrandKeys(before) ==> BrandKeys(after)[k] >= |before|)
  }

  lemma {:induction false} NoNamelessBrandAdded(bs: seq<Brand>, names: seq<string>)
    requires forall i :: 0 <= i < |names| ==> Key(names[i]) != ""
    ensures "" in BrandKeys(bs) <==> "" in BrandKeys(WithBrands(bs, names))
  {
    if names != [] {
      NoNamelessBrandAdded(bs, names[..|names| - 1]);
      var after := WithBrands(bs, names);
      assert after[..|after| - 1] == WithBrands(bs, names[..|names| - 1]);
    }
  }

  lemma ImportedOnce(c: Catalog, rows: seq<ImportRow>, defaultStatus: ColumnStatus)
    requires NoDuplicates(rows) && BrandsExist(c) && Committed(c, rows, defaultStatus).Some?
    ensures NotedOk(c, PlanRows(c, rows))
    ensures var plan := PlanRows(c, rows);
            Imported(c, WithTables(c, plan), rows, plan.rows, Committed(c, rows, defaultStatus).value, defaultStatus)
  {
    var plan := PlanRows(c, rows);
    ImportIsAnUpsert(c, rows, defaultStatus);
    PlanIsComplete(c, rows);
    BrandIdsKept(c, rows);
    NotedNamesAreFresh(BrandKeys(c.brands), plan.newBrands);
    forall i | 0 <= i < |plan.newBrands.order| ensures Key(ValuesOf(plan.newBrands)[i]) != "" {
      assert plan.newBrands.order[i] in plan.newBrands.order;
    }
    NoNamelessBrandAdded(c.brands, ValuesOf(plan.newBrands));
    forall i | 0 <= i < |rows| ensures Known(WithTables(c, plan), rows[i]) {
      EveryLookupSucceeds(c, rows, i);
    }
  }

  /** The part number and brand a row leaves in its product. */
  lemma LeavesItsKey(c: Catalog, t: Catalog, rows: seq<ImportRow>, planned: seq<PlannedRow>, after: Catalog,
      defaultStatus: ColumnStatus, i: nat)
    requires Imported(c, t, rows, planned, after, defaultStatus) && i < |rows|
    ensures Target(c, planned, i) < |after.products|
    ensures var item := after.products[Target(c, planned, i)];
            && item.partNumber == rows[i].partNumber
            && item.brand == LeftBrand(t.brands, rows[i])
  {
    assert RowWritten(c, t, rows, planned, after.products, defaultStatus, i);
    ActionExactly(c, rows[i]);
    assert Known(t, rows[i]);
  }

  function LeftBrand(bs: seq<Brand>, row: ImportRow): Option<nat> {
    if row.brand.Some? && Key(row.brand.value) in BrandKeys(bs) then Some(BrandKeys(bs)[Key(row.brand.value)]) else None
  }

  /** The row fits its own product again exactly when its brand is not a nameless one that
      the catalogue lists. */
  lemma FitsItsOwn(t: Catalog, row: ImportRow, item: Item)
    requires Known(t, row) && item.partNumber == row.partNumber && item.brand == LeftBrand(t.brands, row)
    ensures Fits(t.brands, row, item) <==> Rematches(t, row)
  {
  }

  /** A row that fits another row's product is about the same part. */
  lemma FitsOnlyItsPart(t: Catalog, row: ImportRow, other: ImportRow, item: Item)
    requires Known(t, row) && Known(t, other)
    requires item.partNumber == other.partNumber && item.brand == LeftBrand(t.brands, other)
    requires Fits(t.brands, row, item)
    ensures SamePart(row, other)
  {
    BrandKeysInvert(t.brands);
  }

  lemma {:induction false} NewProductHasRow(c: Catalog, planned: seq<PlannedRow>, j: nat) returns (i: nat)
    requires |c.products| <= j < |c.products| + CreateCount(planned)
    ensures i < |planned| && Target(c, planned, i) == j
  {
    var n := |planned| - 1;
    if j < |c.products| + CreateCount(planned[..n]) {
      i := NewProductHasRow(c, planned[..n], j);
      assert planned[..n][..i] == planned[..i];
    } else {
      i := n;
    }
  }

  /** A product no row is about is one the row did not fit before, and does not fit now. */
  lemma StillDoesNotFit(c: Catalog, t: Catalog, row: ImportRow, j: nat)
    requires BrandsExist(c) && BrandIdsKeep(c.brands, t.brands) && Known(t, row)
    requires j < |c.products| && !Fits(c.brands, row, c.products[j])
    ensures !Fits(t.brands, row, c.products[j])
  {
  }

  /** After the import a row fits no product but its own. */
  lemma FitsNoOther(c: Catalog, t: Catalog, rows: seq<ImportRow>, planned: seq<PlannedRow>, after: Catalog,
      defaultStatus: ColumnStatus, i: nat, j: nat)
    requires Imported(c, t, rows, planned, after, defaultStatus)
    requires i < |rows| && j < |after.products| && j != Target(c, planned, i)
    ensures !Fits(t.brands, rows[i], after.products[j])
  {
    if k: nat :| k < |rows| && Target(c, planned, k) == j {
      LeavesItsKey(c, t, rows, planned, after, defaultStatus, k);
      assert !SamePart(rows[if i < k then i else k], rows[if i < k then k else i]);
      if Fits(t.brands, rows[i], after.products[j]) {
        FitsOnlyItsPart(t, rows[i], rows[k], after.products[j]);
      }
    } else {
      assert planned[..|rows|] == planned;
      if j >= |c.products| {
        var k := NewProductHasRow(c, planned, j);
      }
      assert Unmatched(c, planned, |rows|, j);
      ActionExactly(c, rows[i]);
      StillDoesNotFit(c, t, rows[i], j);
    }
  }

  /** What a second import would do with the row. */
  lemma SecondAction(c: Catalog, t: Catalog, rows: seq<ImportRow>, planned: seq<PlannedRow>, after: Catalog,
      defaultStatus: ColumnStatus, i: nat)
    requires Imported(c, t, rows, planned, after, defaultStatus) && i < |rows|
    ensures ActionOf(after, rows[i]) == Some(if Rematches(c, rows[i]) then Update(Target(c, planned, i)) else Create)
  {
    LeavesItsKey(c, t, rows, planned, after, defaultStatus, i);
    FitsItsOwn(t, rows[i], after.products[Target(c, planned, i)]);
    ActionExactly(after, rows[i]);
    forall j | 0 <= j < |after.products| &&
      j != Target(c, planned, i) ensures !Fits(after.brands, rows[i], after.products[j]) {
      FitsNoOther(c, t, rows, planned, after, defaultStatus, i, j);
    }
  }

  // ---------------------------------------------------------------------
  // The second import
  // ---------------------------------------------------------------------

  /** The plan of the second import: no new tables, no errors, one action per row. */
  lemma SecondPlan(c: Catalog, t: Catalog, rows: seq<ImportRow>, planned: seq<PlannedRow>, after: Catalog,
      defaultStatus: ColumnStatus)
    requires Imported(c, t, rows, planned, after, defaultStatus)
    ensures var second := PlanRows(after, rows);
            && NotedOk(after, second) && WithTables(after, second) == after
            && second.newCategories.order == [] && second.newBrands.order == [] && second.newVehicles.order == []
            && second.errors == [] && PlansAll(after, rows, second.rows)
  {
    forall i | 0 <= i < |rows| ensures Known(after, rows[i]) {
      assert Known(t, rows[i]);
    }
    NothingNew(after, rows);
    PlanIsComplete(after, rows);
    forall row | row in rows ensures ActionOf(after, row).Some? {
      var i :| 0 <= i < |rows| && rows[i] == row;
      SecondAction(c, t, rows, planned, after, defaultStatus, i);
    }
  }

  /** The second import goes through, and is an upsert too. */
  lemma SecondGoesThrough(c: Catalog, t: Catalog, rows: seq<ImportRow>, planned: seq<PlannedRow>, after: Catalog,
      defaultStatus: ColumnStatus, again: ColumnStatus)
    requires Imported(c, t, rows, planned, after, defaultStatus)
    ensures Committed(after, rows, again).Some?
    ensures var second := PlanRows(after, rows);
            |second.rows| == |rows| &&
              Upserted(after, after, rows, second.rows, |rows|, Committed(after, rows, again).value, again)
  {
    var second := PlanRows(after, rows);
    SecondPlan(c, t, rows, planned, after, defaultStatus);
    assert rows[..|rows|] == rows;
    forall i | 0 <= i < |rows| ensures Resolve(after, rows[i]).Some? {
      assert RowWritten(c, t, rows, planned, after.products, defaultStatus, i);
      ResolveReadsTables(t, after.products, rows[i]);
    }
    RowsAreUpserted(after, after, rows, second.rows, |rows|, again);
  }

  lemma {:induction false} NoCreations(planned: seq<PlannedRow>)
    ensures CreateCount(planned) == 0 <==> forall i :: 0 <= i < |planned| ==> planned[i].action.Update?
  {
    if planned != [] {
      var n := |planned| - 1;
      NoCreations(planned[..n]);
      assert forall i :: 0 <= i < n ==> planned[..n][i] == planned[i];
    }
  }

  /** A row that finds its product again leaves it as it is. */
  lemma RewritesTheSame(c: Catalog, t: Catalog, rows: seq<ImportRow>, planned: seq<PlannedRow>, after: Catalog,
      defaultStatus: ColumnStatus, i: nat)
    requires Imported(c, t, rows, planned, after, defaultStatus) && i < |rows|
    ensures Resolve(after, rows[i]).Some? && Target(c, planned, i) < |after.products|
    ensures var item := after.products[Target(c, planned, i)];
            Updated(item, rows[i], Resolve(after, rows[i]).value) == item
  {
    assert RowWritten(c, t, rows, planned, after.products, defaultStatus, i);
    ResolveReadsTables(t, after.products, rows[i]);
    var ids, item := Resolve(t, rows[i]).value, after.products[Target(c, planned, i)];
    match planned[i].action
    case Update(p) => WrittenTwice(c.products[p], rows[i], ids, item.slug, defaultStatus);
    case Create => WrittenTwice(item, rows[i], ids, item.slug, defaultStatus);
  }

  /** `twice` is what an upsert of the same rows makes of the first import's result. */
  lemma OnlyUpdatesAreTheSame(c: Catalog, t: Catalog, rows: seq<ImportRow>, planned: seq<PlannedRow>,
      after: Catalog, defaultStatus: ColumnStatus,
                              second: seq<PlannedRow>, twice: Catalog, again: ColumnStatus)
    requires Imported(c, t, rows, planned, after, defaultStatus)
    requires |second| == |rows| && Upserted(after, after, rows, second, |rows|, twice, again)
    requires forall i :: 0 <= i < |rows| ==> second[i].action == Update(Target(c, planned, i))
    ensures twice == after
  {
    NoCreations(second);
    assert second[..|rows|] == second;
    forall j | 0 <= j < |after.products| ensures twice.products[j] == after.products[j] {
      if i: nat :| i < |rows| && Target(after, second, i) == j {
        assert RowWritten(after, after, rows, second, twice.products, again, i);
        RewritesTheSame(c, t, rows, planned, after, defaultStatus, i);
      } else {
        assert Unmatched(after, second, |rows|, j);
      }
    }
  }

  lemma SecondOutcome(c: Catalog, t: Catalog, rows: seq<ImportRow>, planned: seq<PlannedRow>, after: Catalog,
      defaultStatus: ColumnStatus,
                      second: seq<PlannedRow>, twice: Catalog, again: ColumnStatus)
    requires Imported(c, t, rows, planned, after, defaultStatus)
    requires PlansAll(after, rows, second) && Upserted(after, after, rows, second, |rows|, twice, again)
    ensures forall i :: 0 <= i < |rows| ==>
              second[i].action == if Rematches(c, rows[i]) then Update(Target(c, planned, i)) else Create
    ensures twice == after <==> forall i :: 0 <= i < |rows| ==> Rematches(c, rows[i])
  {
    forall i | 0 <= i < |rows|
      ensures second[i].action == if Rematches(c, rows[i]) then Update(Target(c, planned, i)) else Create
    {
      SecondAction(c, t, rows, planned, after, defaultStatus, i);
    }
    if forall i :: 0 <= i < |rows| ==> Rematches(c, rows[i]) {
      OnlyUpdatesAreTheSame(c, t, rows, planned, after, defaultStatus, second, twice, again);
    } else {
      var i :| 0 <= i < |rows| && !Rematches(c, rows[i]);
      NoCreations(second);
      assert second[..|rows|] == second;
    }
  }

  /** Importing a file a second time always goes through and asks for no new category,
      brand or truck.  It updates the product each row was written to the first time, and
      changes nothing, exactly when every row can be matched again; every other row is
      created once more. */
  lemma ImportTwice(c: Catalog, rows: seq<ImportRow>, defaultStatus: ColumnStatus, again: ColumnStatus)
    requires NoDuplicates(rows) && BrandsExist(c) && Committed(c, rows, defaultStatus).Some?
    ensures var first, after := PlanRows(c, rows), Committed(c, rows, defaultStatus).value;
            var second := PlanRows(after, rows);
            && |first.rows| == |second.rows| == |rows|
            && second.newCategories.order == [] && second.newBrands.order == [] && second.newVehicles.order == []
            && (forall i :: 0 <= i < |rows| ==>
                  second.rows[i].action == if Rematches(c, rows[i]) then Update(Target(c, first.rows, i)) else Create)
            && Committed(after, rows, again).Some?
            && (Committed(after, rows, again) == Some(after) <==> forall i :: 0 <= i < |rows| ==> Rematches(c, rows[i]))
  {
    var first, after := PlanRows(c, rows), Committed(c, rows, defaultStatus).value;
    var second := PlanRows(after, rows);
    ImportedOnce(c, rows, defaultStatus);
    var t := WithTables(c, first);
    SecondPlan(c, t, rows, first.rows, after, defaultStatus);
    SecondGoesThrough(c, t, rows, first.rows, after, defaultStatus, again);
    SecondOutcome(c, t, rows, first.rows, after, defaultStatus, second.rows, Committed(after, rows, again).value,
      again);
  }
}
