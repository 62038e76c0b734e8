/** What an import does to the catalogue: when it succeeds, that it is an upsert, and when
    doing it again changes nothing. */
module ImportTheorems {
  import opened Wrappers
  import opened Text
  import opened Slugs
  import opened ImportTypes
  import opened ImportPlan
  import opened ImportApply
  import opened ImportTables

  /** The parser numbers rows by their lines and refuses a second row with the part number
      and brand of an earlier one. */
  ghost predicate NoDuplicates(rows: seq<ImportRow>) {
    && (forall i, j :: 0 <= i < j < |rows| ==> rows[i].line != rows[j].line)
    && (forall i, j :: 0 <= i < j < |rows| ==> !SamePart(rows[i], rows[j]))
  }

  predicate SamePart(a: ImportRow, b: ImportRow) {
    && a.partNumber.Some? && b.partNumber.Some?
    && Key(a.partNumber.value) == Key(b.partNumber.value) && BrandKey(a).GetOr("") == BrandKey(b).GetOr("")
  }

  /** Every product's brand is in the brand table, as its foreign key demands. */
  ghost predicate BrandsExist(c: Catalog) {
    forall i :: 0 <= i < |c.products| && c.products[i].brand.Some? ==> c.products[i].brand.value < |c.brands|
  }

  // ---------------------------------------------------------------------
  // The plan of a file without ambiguous rows
  // ---------------------------------------------------------------------

  /** One planned row per row of the file, in order. */
  ghost predicate PlansAll(c: Catalog, rows: seq<ImportRow>, planned: seq<PlannedRow>) {
    && |planned| == |rows|
    && forall i :: 0 <= i < |rows| ==>
      planned[i].line == rows[i].line && ActionOf(c, rows[i]) == Some(planned[i].action)
  }

  lemma PlansOneMore(c: Catalog, plan: Plan, row: ImportRow)
    ensures PlanRow(c, plan, row).errors == [] <==> plan.errors == [] && ActionOf(c, row).Some?
    ensures ActionOf(c, row).Some? ==>
              PlanRow(c, plan, row).rows == plan.rows + [PlannedRow(row.line, ActionOf(c, row).value)]
  {
  }

  /** No errors exactly when no row is ambiguous, and then every row is planned. */
  ghost predicate Complete(c: Catalog, rows: seq<ImportRow>, plan: Plan) {
    && (plan.errors == [] <==> forall row :: row in rows ==> ActionOf(c, row).Some?)
    && (plan.errors == [] ==> PlansAll(c, rows, plan.rows))
  }

  lemma CompleteOneMore(c: Catalog, rows: seq<ImportRow>, before: Plan, after: Plan)
    requires rows != [] && Complete(c, rows[..|rows| - 1], before)
    requires after.errors == [] <==> before.errors == [] && ActionOf(c, rows[|rows| - 1]).Some?
    requires ActionOf(c, rows[|rows| - 1]).Some? ==>
               after.rows == before.rows + [PlannedRow(rows[|rows| - 1].line, ActionOf(c, rows[|rows| - 1]).value)]
    ensures Complete(c, rows, after)
  {
    var n := |rows| - 1;
    assert forall row :: row in rows <==> row in rows[..n] || row == rows[n];
    if after.errors == [] {
      forall i | 0 <= i < |rows|
        ensures after.rows[i].line == rows[i].line && ActionOf(c, rows[i]) == Some(after.rows[i].action)
      {
        assert i < n ==> rows[..n][i] == rows[i];
      }
    }
  }

  lemma {:induction false} PlanIsComplete(c: Catalog, rows: seq<ImportRow>)
    ensures Complete(c, rows, PlanRows(c, rows))
  {
    if rows != [] {
      var n := |rows| - 1;
      var before := PlanRows(c, rows[..n]);
      PlanIsComplete(c, rows[..n]);
      PlansOneMore(c, before, rows[n]);
      CompleteOneMore(c, rows, before, PlanRow(c, before, rows[n]));
    }
  }

  lemma {:induction false} FindsPlan(planned: seq<PlannedRow>, i: nat)
    requires i < |planned| && forall j, k :: 0 <= j < k < |planned| ==> planned[j].line != planned[k].line
    ensures PlannedFor(planned, planned[i].line) == Some(planned[i].action)
  {
    if i < |planned| - 1 {
      FindsPlan(planned[..|planned| - 1], i);
    }
  }

  /** Every row finds its own planned entry. */
  lemma RowFindsItsPlan(c: Catalog, rows: seq<ImportRow>, planned: seq<PlannedRow>, i: nat)
    requires NoDuplicates(rows) && PlansAll(c, rows, planned) && i < |rows|
    ensures PlannedFor(planned, rows[i].line) == ActionOf(c, rows[i])
  {
    FindsPlan(planned, i);
  }

  // ---------------------------------------------------------------------
  // Which product a row ends up in
  // ---------------------------------------------------------------------

  /** What the summary counts as created. */
  function CreateCount(planned: seq<PlannedRow>): nat {
    if planned == [] then 0
    else CreateCount(planned[..|planned| - 1]) + if planned[|planned| - 1].action == Create then 1 else 0
  }

  /** The product of a row: the one it updates, or the next new one. */
  function Target(c: Catalog, planned: seq<PlannedRow>, i: nat): nat
    requires i < |planned|
  {
    match planned[i].action
    case Update(p) => p
    case Create => |c.products| + CreateCount(planned[..i])
  }

  lemma {:induction false} CountGrows(planned: seq<PlannedRow>, i: nat, j: nat)
    requires i < j <= |planned|
    ensures CreateCount(planned[..i]) + (if planned[i].action == Create then 1 else 0) <= CreateCount(planned[..j])
    decreases j
  {
    assert planned[..j][..j - 1] == planned[..j - 1];
    if i < j - 1 {
      CountGrows(planned, i, j - 1);
    } else {
      assert planned[..j][j - 1] == planned[i];
    }
  }

  /** Rows that fit one product have the same part number and brand. */
  lemma OneRowPerProduct(bs: seq<Brand>, a: ImportRow, b: ImportRow, item: Item)
    requires Fits(bs, a, item) && Fits(bs, b, item)
    ensures SamePart(a, b)
  {
    BrandKeysInvert(bs);
  }

  /** Different rows end up in different products. */
  lemma TargetsDiffer(c: Catalog, rows: seq<ImportRow>, planned: seq<PlannedRow>, i: nat, j: nat)
    requires NoDuplicates(rows) && PlansAll(c, rows, planned) && i < j < |rows|
    ensures Target(c, planned, i) != Target(c, planned, j)
  {
    ActionExactly(c, rows[i]);
    ActionExactly(c, rows[j]);
    CountGrows(planned, i, j);
    if planned[i].action.Update? && planned[j].action == planned[i].action {
      OneRowPerProduct(c.brands, rows[i], rows[j], c.products[planned[i].action.product]);
    }
  }

  lemma TargetInRange(c: Catalog, rows: seq<ImportRow>, planned: seq<PlannedRow>, i: nat, n: nat)
    requires PlansAll(c, rows, planned) && i < n <= |rows|
    ensures Target(c, planned, i) < |c.products| + CreateCount(planned[..n])
    ensures planned[i].action.Update? <==> Target(c, planned, i) < |c.products|
  {
    ActionExactly(c, rows[i]);
    CountGrows(planned, i, n);
  }

  // ---------------------------------------------------------------------
  // The products after the first rows
  // ---------------------------------------------------------------------

  /** The row's product as the import writes it. */
  ghost predicate RowIsIn(c: Catalog, t: Catalog, row: ImportRow, action: Action, item: Item,
    defaultStatus: ColumnStatus)
    requires Resolve(t, row).Some?
  {
    match action
    case Update(p) => p < |c.products| && item == Updated(c.products[p], row, Resolve(t, row).value)
    case Create =>
      item == Created(row, Resolve(t, row).value, item.slug, defaultStatus) && SlugOf(row.name, item.slug)
  }

  ghost predicate RowWritten(c: Catalog, t: Catalog, rows: seq<ImportRow>, planned: seq<PlannedRow>,
      products: seq<Item>, defaultStatus: ColumnStatus, i: nat)
    requires i < |rows| && i < |planned|
  {
    && Resolve(t, rows[i]).Some? && Target(c, planned, i) < |products|
    && RowIsIn(c, t, rows[i], planned[i].action, products[Target(c, planned, i)], defaultStatus)
  }

  /** No row among the first `n` is about this product. */
  ghost predicate Unmatched(c: Catalog, planned: seq<PlannedRow>, n: nat, j: nat)
    requires n <= |planned|
  {
    forall i :: 0 <= i < n ==> Target(c, planned, i) != j
  }

  ghost predicate Upserted(c: Catalog, t: Catalog, rows: seq<ImportRow>, planned: seq<PlannedRow>, n: nat,
      after: Catalog, defaultStatus: ColumnStatus)
    requires n <= |rows| == |planned|
  {
    && after == t.(products := after.products)
    && |after.products| == |c.products| + CreateCount(planned[..n])
    && (forall i :: 0 <= i < n ==> RowWritten(c, t, rows, planned, after.products, defaultStatus, i))
    && (forall j :: 0 <= j < |c.products| ==> after.products[j].slug == c.products[j].slug)
    && (forall j :: 0 <= j < |c.products| && Unmatched(c, planned, n, j) ==> after.products[j] == c.products[j])
  }

  ghost predicate AllResolve(t: Catalog, rows: seq<ImportRow>) {
    forall i :: 0 <= i < |rows| ==> Resolve(t, rows[i]).Some?
  }

  lemma ResolveReadsTables(t: Catalog, products: seq<Item>, row: ImportRow)
    ensures Resolve(t.(products := products), row) == Resolve(t, row)
  {
  }

  lemma UpsertUpdate(c: Catalog, t: Catalog, rows: seq<ImportRow>, planned: seq<PlannedRow>, n: nat,
      before: Catalog, p: nat, item: Item, defaultStatus: ColumnStatus)
    requires NoDuplicates(rows) && PlansAll(c, rows, planned) && n < |rows|
    requires Upserted(c, t, rows, planned, n, before, defaultStatus)
    requires planned[n].action == Update(p) && p < |c.products| && Resolve(t, rows[n]).Some?
    requires item == Updated(before.products[p], rows[n], Resolve(t, rows[n]).value)
    ensures Upserted(c, t, rows, planned, n + 1, before.(products := before.products[p := item]), defaultStatus)
  {
    var products := before.products[p := item];
    assert planned[..n + 1][..n] == planned[..n];
    forall i | 0 <= i < n ensures Target(c, planned, i) != p {
      TargetsDiffer(c, rows, planned, i, n);
    }
    assert Unmatched(c, planned, n, p);
    forall i | 0 <= i < n + 1 ensures RowWritten(c, t, rows, planned, products, defaultStatus, i) {
      assert i < n ==> RowWritten(c, t, rows, planned, before.products, defaultStatus, i);
    }
    forall j | 0 <= j < |c.products| && Unmatched(c, planned, n + 1, j) ensures products[j] == c.products[j] {
      assert Target(c, planned, n) != j;
      assert Unmatched(c, planned, n, j);
    }
  }

  lemma UpsertCreate(c: Catalog, t: Catalog, rows: seq<ImportRow>, planned: seq<PlannedRow>, n: nat,
      before: Catalog, item: Item, defaultStatus: ColumnStatus)
    requires |planned| == |rows| && n < |rows|
    requires Upserted(c, t, rows, planned, n, before, defaultStatus)
    requires planned[n].action == Create && Resolve(t, rows[n]).Some? &&
              RowIsIn(c, t, rows[n], Create, item, defaultStatus)
    ensures Upserted(c, t, rows, planned, n + 1, before.(products := before.products + [item]), defaultStatus)
  {
    var products := before.products + [item];
    assert planned[..n + 1][..n] == planned[..n];
    forall i | 0 <= i < n + 1 ensures RowWritten(c, t, rows, planned, products, defaultStatus, i) {
      assert i < n ==> RowWritten(c, t, rows, planned, before.products, defaultStatus, i);
    }
    forall j | 0 <= j < |c.products| && Unmatched(c, planned, n + 1, j) ensures products[j] == c.products[j] {
      assert Unmatched(c, planned, n, j);
    }
  }

  lemma UpsertOne(c: Catalog, t: Catalog, rows: seq<ImportRow>, planned: seq<PlannedRow>, n: nat, before: Catalog,
      defaultStatus: ColumnStatus)
    requires NoDuplicates(rows) && PlansAll(c, rows, planned) && n < |rows|
    requires Upserted(c, t, rows, planned, n, before, defaultStatus)
    ensures var after := ApplyRow(before, rows[n], Some(planned[n].action), defaultStatus);
            && (after.Some? <==> Resolve(t, rows[n]).Some?)
            && (after.Some? ==> Upserted(c, t, rows, planned, n + 1, after.value, defaultStatus))
  {
    ResolveReadsTables(t, before.products, rows[n]);
    TargetInRange(c, rows, planned, n, n + 1);
    if Resolve(t, rows[n]).Some? {
      match planned[n].action
      case Update(p) =>
        UpsertUpdate(c, t, rows, planned, n, before, p,
          Updated(before.products[p], rows[n], Resolve(t, rows[n]).value), defaultStatus);
      case Create =>
        var slug := FreshSlug(rows[n].name, ProductSlugs(before.products));
        UpsertCreate(c, t, rows, planned, n, before, Created(rows[n], Resolve(t, rows[n]).value, slug, defaultStatus),
          defaultStatus);
    }
  }

  lemma AllResolveSplits(t: Catalog, rows: seq<ImportRow>, n: nat)
    requires n < |rows|
    ensures AllResolve(t, rows[..n + 1]) <==> AllResolve(t, rows[..n]) && Resolve(t, rows[n]).Some?
  {
    assert rows[..n + 1] == rows[..n] + [rows[n]];
    if AllResolve(t, rows[..n + 1]) {
      assert rows[..n + 1][n] == rows[n];
      forall i | 0 <= i < n ensures Resolve(t, rows[..n][i]).Some? {
        assert rows[..n + 1][i] == rows[..n][i];
      }
    }
  }

  /** Writing the rows succeeds exactly when every row's references resolve, and then it is
      an upsert. */
  lemma {:induction false} RowsAreUpserted(c: Catalog, t: Catalog, rows: seq<ImportRow>, planned: seq<PlannedRow>,
      n: nat, defaultStatus: ColumnStatus)
    requires NoDuplicates(rows) && PlansAll(c, rows, planned) && n <= |rows| && t.products == c.products
    ensures ApplyRows(t, rows[..n], planned, defaultStatus).Some? <==> AllResolve(t, rows[..n])
    ensures ApplyRows(t, rows[..n], planned, defaultStatus).Some? ==>
              Upserted(c, t, rows, planned, n, ApplyRows(t, rows[..n], planned, defaultStatus).value, defaultStatus)
  {
    if n > 0 {
      RowsAreUpserted(c, t, rows, planned, n - 1, defaultStatus);
      var before := ApplyRows(t, rows[..n - 1], planned, defaultStatus);
      assert rows[..n][..n - 1] == rows[..n - 1];
      AllResolveSplits(t, rows, n - 1);
      RowFindsItsPlan(c, rows, planned, n - 1);
      assert rows[..n][n - 1] == rows[n - 1];
      if before.Some? {
        UpsertOne(c, t, rows, planned, n - 1, before.value, defaultStatus);
      }
    }
  }

  // ---------------------------------------------------------------------
  // When an import succeeds
  // ---------------------------------------------------------------------

  ghost predicate Unambiguous(c: Catalog, row: ImportRow) {
    forall i, j :: 0 <= i < j < |c.products| ==>
      !(Fits(c.brands, row, c.products[i]) && Fits(c.brands, row, c.products[j]))
  }

  ghost predicate DistinctTrucks(vs: seq<VehicleRef>) {
    forall i, j :: 0 <= i < j < |vs| ==> KeyOfVehicle(vs[i]) != KeyOfVehicle(vs[j])
  }

  lemma ActsUnlessAmbiguous(c: Catalog, row: ImportRow)
    ensures ActionOf(c, row).Some? <==> Unambiguous(c, row)
  {
    MatchesExactly(c, row);
    var ms := MatchesOf(c, row);
    if |ms| > 1 {
      assert ms[0] in ms && ms[1] in ms && ms[0] < ms[1];
    } else {
      forall i, j | 0 <= i < j < |c.products|
        ensures !(Fits(c.brands, row, c.products[i]) && Fits(c.brands, row, c.products[j])) {
        assert i in ms <==> Fits(c.brands, row, c.products[i]);
        assert j in ms <==> Fits(c.brands, row, c.products[j]);
      }
    }
  }

  lemma TrucksDiffer(vs: seq<VehicleRef>, refs: seq<VehicleRef>)
    requires KnownVehicles(VehicleKeys(vs), refs)
    ensures Distinct(VehicleIds(VehicleKeys(vs), refs)) <==> DistinctTrucks(refs)
  {
    VehicleKeysInvert(vs);
    var ids := VehicleIds(VehicleKeys(vs), refs);
    forall i, j | 0 <= i < j < |refs| ensures ids[i] != ids[j] <==> KeyOfVehicle(refs[i]) != KeyOfVehicle(refs[j]) {
    }
  }

  lemma RowResolves(c: Catalog, rows: seq<ImportRow>, i: nat)
    requires i < |rows|
    ensures NotedOk(c, PlanRows(c, rows))
    ensures var t := WithTables(c, PlanRows(c, rows));
            && Known(t, rows[i])
            && (Resolve(t, rows[i]).Some? <==> DistinctTrucks(rows[i].vehicles) && FitsColumns(rows[i]))
  {
    EveryLookupSucceeds(c, rows, i);
    TrucksDiffer(WithTables(c, PlanRows(c, rows)).vehicles, rows[i].vehicles);
  }

  /** A commit succeeds exactly when no row fits two products, no row lists a truck twice
      and every row's price, condition and status fit their columns. */
  lemma CommitSucceeds(c: Catalog, rows: seq<ImportRow>, defaultStatus: ColumnStatus)
    requires NoDuplicates(rows)
    ensures Committed(c, rows, defaultStatus).Some? <==>
              forall i :: 0 <= i < |rows| ==>
                && Unambiguous(c, rows[i]) && DistinctTrucks(rows[i].vehicles)
                && rows[i].price < 10_000_000_000 && rows[i].condition != NO_CONDITION
                && rows[i].status != Some(NO_STATUS)
  {
    var plan := PlanRows(c, rows);
    PlanNotes(c, rows);
    PlanIsComplete(c, rows);
    var t := WithTables(c, plan);
    forall i | 0 <= i < |rows|
      ensures ActionOf(c, rows[i]).Some? <==> Unambiguous(c, rows[i])
      ensures Resolve(t, rows[i]).Some? <==> DistinctTrucks(rows[i].vehicles) && FitsColumns(rows[i])
    {
      ActsUnlessAmbiguous(c, rows[i]);
      RowResolves(c, rows, i);
    }
    assert plan.errors == [] <==> forall i :: 0 <= i < |rows| ==> ActionOf(c, rows[i]).Some?;
    if plan.errors == [] {
      assert rows[..|rows|] == rows;
      RowsAreUpserted(c, t, rows, plan.rows, |rows|, defaultStatus);
    }
  }

  // ---------------------------------------------------------------------
  // Slugs and names stay unique
  // ---------------------------------------------------------------------

  ghost predicate UniqueProductSlugs(ps: seq<Item>) {
    forall i, j :: 0 <= i < j < |ps| ==> ps[i].slug != ps[j].slug
  }

  ghost predicate UniqueCategories(cs: seq<Category>) {
    forall i, j :: 0 <= i < j < |cs| ==> cs[i].slug != cs[j].slug && cs[i].name != cs[j].name
  }

  ghost predicate UniqueBrands(bs: seq<Brand>) {
    forall i, j :: 0 <= i < j < |bs| ==> bs[i].slug != bs[j].slug && bs[i].name != bs[j].name
  }

  lemma {:induction false} ProductSlugsStayUnique(t: Catalog, rows: seq<ImportRow>, planned: seq<PlannedRow>,
      defaultStatus: ColumnStatus)
    requires UniqueProductSlugs(t.products)
    ensures var after := ApplyRows(t, rows, planned, defaultStatus); after.Some? ==>
            UniqueProductSlugs(after.value.products)
  {
    if rows != [] {
      ProductSlugsStayUnique(t, rows[..|rows| - 1], planned, defaultStatus);
      var before := ApplyRows(t, rows[..|rows| - 1], planned, defaultStatus);
      if before.Some? {
        RowKeepsSlugsUnique(before.value, rows[|rows| - 1], PlannedFor(planned, rows[|rows| - 1].line), defaultStatus);
      }
    }
  }

  lemma RowKeepsSlugsUnique(c: Catalog, row: ImportRow, action: Option<Action>, defaultStatus: ColumnStatus)
    requires UniqueProductSlugs(c.products)
    ensures var after := ApplyRow(c, row, action, defaultStatus); after.Some? ==>
            UniqueProductSlugs(after.value.products)
  {
    assert forall i :: 0 <= i < |c.products| ==> c.products[i].slug in ProductSlugs(c.products);
  }

  /** Names with new, different keys. */
  ghost predicate FreshNames(known: map<string, nat>, names: seq<string>) {
    && (forall i :: 0 <= i < |names| ==> Key(names[i]) !in known)
    && (forall i, j :: 0 <= i < j < |names| ==> Key(names[i]) != Key(names[j]))
  }

  lemma NotedNamesAreFresh(known: map<string, nat>, noted: Ordered<string, string>)
    requires NamesNoted(known, noted)
    ensures FreshNames(known, ValuesOf(noted))
  {
    forall i | 0 <= i < |noted.order| ensures Key(ValuesOf(noted)[i]) == noted.order[i] && noted.order[i] !in known {
      assert noted.order[i] in noted.order;
    }
  }

  lemma {:induction false} CategoryNamesKnown(cs: seq<Category>)
    ensures forall i :: 0 <= i < |cs| ==> Key(cs[i].name) in CategoryKeys(cs)
  {
    if cs != [] {
      CategoryNamesKnown(cs[..|cs| - 1]);
      assert forall i :: 0 <= i < |cs| - 1 ==> cs[..|cs| - 1][i] == cs[i];
    }
  }

  lemma {:induction false} BrandNamesKnown(bs: seq<Brand>)
    ensures forall i :: 0 <= i < |bs| ==> Key(bs[i].name) in BrandKeys(bs)
  {
    if bs != [] {
      BrandNamesKnown(bs[..|bs| - 1]);
      assert forall i :: 0 <= i < |bs| - 1 ==> bs[..|bs| - 1][i] == bs[i];
    }
  }

  /** The names of the rows that were there, and then the new ones. */
  ghost predicate CategoriesNamed(cs: seq<Category>, names: seq<string>, after: seq<Category>) {
    && |after| == |cs| + |names|
    && forall i :: 0 <= i < |after| ==> after[i].name == if i < |cs| then cs[i].name else names[i - |cs|]
  }

  lemma CategoryAdded(cs: seq<Category>, names: seq<string>, before: seq<Category>, slug: string)
    requires names != [] && FreshNames(CategoryKeys(cs), names) && UniqueCategories(before)
    requires CategoriesNamed(cs, names[..|names| - 1], before) && slug !in CategorySlugs(before)
    ensures var after := before + [Category(names[|names| - 1], None, slug)];
            CategoriesNamed(cs, names, after) && UniqueCategories(after)
  {
    CategoryNamesKnown(cs);
    assert forall i :: 0 <= i < |before| ==> before[i].slug in CategorySlugs(before);
  }

  lemma {:induction false} CategoriesStayUnique(cs: seq<Category>, names: seq<string>)
    requires UniqueCategories(cs) && FreshNames(CategoryKeys(cs), names)
    ensures CategoriesNamed(cs, names, WithCategories(cs, names)) && UniqueCategories(WithCategories(cs, names))
  {
    if names != [] {
      var before := WithCategories(cs, names[..|names| - 1]);
      CategoriesStayUnique(cs, names[..|names| - 1]);
      CategoryAdded(cs, names, before, FreshSlug(names[|names| - 1], CategorySlugs(before)));
    }
  }

  ghost predicate BrandsNamed(bs: seq<Brand>, names: seq<string>, after: seq<Brand>) {
    && |after| == |bs| + |names|
    && forall i :: 0 <= i < |after| ==> after[i].name == if i < |bs| then bs[i].name else names[i - |bs|]
  }

  lemma BrandAdded(bs: seq<Brand>, names: seq<string>, before: seq<Brand>, slug: string)
    requires names != [] && FreshNames(BrandKeys(bs), names) && UniqueBrands(before)
    requires BrandsNamed(bs, names[..|names| - 1], before) && slug !in BrandSlugs(before)
    ensures var after := before + [Brand(names[|names| - 1], slug)];
            BrandsNamed(bs, names, after) && UniqueBrands(after)
  {
    BrandNamesKnown(bs);
    assert forall i :: 0 <= i < |before| ==> before[i].slug in BrandSlugs(before);
  }

  lemma {:induction false} BrandsStayUnique(bs: seq<Brand>, names: seq<string>)
    requires UniqueBrands(bs) && FreshNames(BrandKeys(bs), names)
    ensures BrandsNamed(bs, names, WithBrands(bs, names)) && UniqueBrands(WithBrands(bs, names))
  {
    if names != [] {
      var before := WithBrands(bs, names[..|names| - 1]);
      BrandsStayUnique(bs, names[..|names| - 1]);
      BrandAdded(bs, names, before, FreshSlug(names[|names| - 1], BrandSlugs(before)));
    }
  }

  /** An import never breaks a unique column: slugs, category names and brand names. */
  lemma UniquenessIsKept(c: Catalog, rows: seq<ImportRow>, defaultStatus: ColumnStatus)
    requires Committed(c, rows, defaultStatus).Some?
    requires UniqueProductSlugs(c.products) && UniqueCategories(c.categories) && UniqueBrands(c.brands)
    ensures var after := Committed(c, rows, defaultStatus).value;
            UniqueProductSlugs(after.products) && UniqueCategories(after.categories) && UniqueBrands(after.brands)
  {
    var plan := PlanRows(c, rows);
    PlanNotes(c, rows);
    NotedNamesAreFresh(CategoryKeys(c.categories), plan.newCategories);
    NotedNamesAreFresh(BrandKeys(c.brands), plan.newBrands);
    CategoriesStayUnique(c.categories, ValuesOf(plan.newCategories));
    BrandsStayUnique(c.brands, ValuesOf(plan.newBrands));
    ProductSlugsStayUnique(WithTables(c, plan), rows, plan.rows, defaultStatus);
    TablesStay(WithTables(c, plan), rows, plan.rows, defaultStatus);
  }

  /** Writing products leaves the other tables alone. */
  lemma {:induction false} TablesStay(t: Catalog, rows: seq<ImportRow>, planned: seq<PlannedRow>,
      defaultStatus: ColumnStatus)
    ensures var after := ApplyRows(t, rows, planned, defaultStatus);
            after.Some? ==> after.value == t.(products := after.value.products)
  {
    if rows != [] {
      TablesStay(t, rows[..|rows| - 1], planned, defaultStatus);
    }
  }

  // ---------------------------------------------------------------------
  // An import is an upsert
  // ---------------------------------------------------------------------

  /** One product per row, updated or created as planned; the catalogue grows by the number
      of creations; products no row is about stay as they are. */
  lemma ImportIsAnUpsert(c: Catalog, rows: seq<ImportRow>, defaultStatus: ColumnStatus)
    requires NoDuplicates(rows) && Committed(c, rows, defaultStatus).Some?
    ensures var plan, after := PlanRows(c, rows), Committed(c, rows, defaultStatus).value;
            && NotedOk(c, plan) && |plan.rows| == |rows|
            && Upserted(c, WithTables(c, plan), rows, plan.rows, |rows|, after, defaultStatus)
            && (forall i, j :: 0 <= i < j < |rows| ==> Target(c, plan.rows, i) != Target(c, plan.rows, j))
            && forall i :: 0 <= i < |rows| ==> Known(after, rows[i])
  {
    var plan := PlanRows(c, rows);
    PlanNotes(c, rows);
    PlanIsComplete(c, rows);
    assert rows[..|rows|] == rows;
    RowsAreUpserted(c, WithTables(c, plan), rows, plan.rows, |rows|, defaultStatus);
    forall i, j | 0 <= i < j < |rows| ensures Target(c, plan.rows, i) != Target(c, plan.rows, j) {
      TargetsDiffer(c, rows, plan.rows, i, j);
    }
    forall i | 0 <= i < |rows| ensures Known(Committed(c, rows, defaultStatus).value, rows[i]) {
      EveryLookupSucceeds(c, rows, i);
    }
  }
}
