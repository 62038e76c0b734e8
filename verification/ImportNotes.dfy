/** Which row a lookup finds, which categories, brands and trucks an import adds, how they are
    spelled, and what is reported about a file with ambiguous rows. */
module ImportNotes {
  import opened Wrappers
  import opened Text
  import opened Slugs
  import opened ImportTypes
  import opened ImportPlan
  import opened ImportApply
  import opened ImportTables
  import opened ImportTheorems
  import opened ImportResult

  // ---------------------------------------------------------------------
  // Lookups
  // ---------------------------------------------------------------------

  /** A category is found under its name and its French name; of several the last one. */
  lemma {:induction false} CategoryLookup(cs: seq<Category>, k: string)
    ensures k in CategoryKeys(cs) <==> exists i :: 0 <= i < |cs| && GoesBy(cs[i], k)
    ensures k in CategoryKeys(cs) ==>
              var i := CategoryKeys(cs)[k];
              i < |cs| && GoesBy(cs[i], k) && forall j :: i < j < |cs| ==> !GoesBy(cs[j], k)
  {
    if cs != [] {
      var n := |cs| - 1;
      CategoryLookup(cs[..n], k);
      assert forall i :: 0 <= i < n ==> cs[..n][i] == cs[i];
    }
  }

  /** A brand is found under its name, of several the last one. */
  lemma {:induction false} BrandLookup(bs: seq<Brand>, k: string)
    ensures k in BrandKeys(bs) <==> exists i :: 0 <= i < |bs| && Key(bs[i].name) == k
    ensures k in BrandKeys(bs) ==>
              var i := BrandKeys(bs)[k];
              i < |bs| && Key(bs[i].name) == k && forall j :: i < j < |bs| ==> Key(bs[j].name) != k
  {
    if bs != [] {
      var n := |bs| - 1;
      BrandLookup(bs[..n], k);
      assert forall i :: 0 <= i < n ==> bs[..n][i] == bs[i];
    }
  }

  /** Two trucks are the same when make, model and engine have the same letters and digits and
      the years are equal. */
  predicate SameTruck(a: VehicleRef, b: VehicleRef) {
    && Key(a.manufacturer) == Key(b.manufacturer) && Key(a.model) == Key(b.model)
    && a.yearStart == b.yearStart && a.yearEnd == b.yearEnd
    && Key(a.engine.GetOr("")) == Key(b.engine.GetOr(""))
  }

  /** A truck is found when the table has the same one, of several the last one. */
  lemma {:induction false} TruckLookup(vs: seq<VehicleRef>, v: VehicleRef)
    ensures KeyOfVehicle(v) in VehicleKeys(vs) <==> exists i :: 0 <= i < |vs| && SameTruck(vs[i], v)
    ensures KeyOfVehicle(v) in VehicleKeys(vs) ==>
              var i := VehicleKeys(vs)[KeyOfVehicle(v)];
              i < |vs| && SameTruck(vs[i], v) && forall j :: i < j < |vs| ==> !SameTruck(vs[j], v)
  {
    if vs != [] {
      var n := |vs| - 1;
      TruckLookup(vs[..n], v);
      assert forall i :: 0 <= i < n ==> vs[..n][i] == vs[i];
    }
  }

  /** The row's brand as matching sees it is the product's: none, when the row has none or one
      without a letter or digit, and otherwise the last brand of that name. */
  predicate BrandIs(bs: seq<Brand>, row: ImportRow, brand: Option<nat>) {
    if row.brand.None? || Key(row.brand.value) == "" then brand == None
    else
      && brand.Some? && brand.value < |bs| && Key(bs[brand.value].name) == Key(row.brand.value)
      && forall j :: brand.value < j < |bs| ==> Key(bs[j].name) != Key(row.brand.value)
  }

  /** Which product a row is about: the part numbers have the same letters and digits, and the
      brand is the product's. */
  lemma FitsExactly(bs: seq<Brand>, row: ImportRow, item: Item)
    ensures Fits(bs, row, item) <==>
              && row.partNumber.Some? && item.partNumber.Some?
              && Key(row.partNumber.value) == Key(item.partNumber.value) && BrandIs(bs, row, item.brand)
  {
    if row.brand.Some? {
      BrandLookup(bs, Key(row.brand.value));
    }
  }

  // ---------------------------------------------------------------------
  // What a plan notes
  // ---------------------------------------------------------------------

  lemma PlanRowParts(c: Catalog, plan: Plan, row: ImportRow)
    ensures var after := PlanRow(c, plan, row);
            && after.newCategories ==
                 (if Key(row.category) in CategoryKeys(c.categories) then plan.newCategories
                  else plan.newCategories.Put(Key(row.category), row.category))
            && after.newBrands ==
                 (if BrandKey(row).None? || BrandKey(row).value in BrandKeys(c.brands) then plan.newBrands
                  else plan.newBrands.Put(BrandKey(row).value, row.brand.value))
            && after.newVehicles == NewVehicles(VehicleKeys(c.vehicles), plan.newVehicles, row.vehicles)
            && after.errors == plan.errors + if ActionOf(c, row).None? then [row.line] else []
  {
    hide CategoryKeys, BrandKeys, VehicleKeys, NewVehicles, ActionOf;
  }

  /** Entry `i` is the last one with this key. */
  predicate LastWith<K(==)>(keys: seq<K>, i: nat, k: K) {
    i < |keys| && keys[i] == k && forall j :: i < j < |keys| ==> keys[j] != k
  }

  /** The map holds, of the values whose keys are not known, the last one for each key. */
  ghost predicate HoldsLast<K(!new), V(!new)>(known: set<K>, keys: seq<K>, values: seq<V>, noted: map<K, V>)
    requires |keys| == |values|
  {
    && (forall k :: k in noted <==> k in keys && k !in known)
    && (forall k, i: nat :: k in noted && LastWith(keys, i, k) ==> noted[k] == values[i])
  }

  lemma HoldsOneMore<K(!new), V(!new)>(known: set<K>, keys: seq<K>, values: seq<V>, before: map<K, V>, after: map<K, V>)
    requires |keys| == |values| && keys != []
    requires HoldsLast(known, keys[..|keys| - 1], values[..|keys| - 1], before)
    requires after == if keys[|keys| - 1] in known then before else before[keys[|keys| - 1] := values[|keys| - 1]]
    ensures HoldsLast(known, keys, values, after)
  {
    var n := |keys| - 1;
    assert keys == keys[..n] + [keys[n]];
    forall k, i: nat | k in after && LastWith(keys, i, k) ensures after[k] == values[i] {
      if i < n {
        assert keys[..n][i] == keys[i] && forall j :: i < j < n ==> keys[..n][j] == keys[j];
        assert LastWith(keys[..n], i, k);
      }
    }
  }

  function CategoriesIn(rows: seq<ImportRow>): (names: seq<string>)
    ensures |names| == |rows|
  {
    seq(|rows|, i requires 0 <= i < |rows| => rows[i].category)
  }

  function KeysOf(names: seq<string>): (keys: seq<string>)
    ensures |keys| == |names|
  {
    seq(|names|, i requires 0 <= i < |names| => Key(names[i]))
  }

  /** A category is added when some row has it and the catalogue does not, and it is spelled
      as in the last such row. */
  lemma {:induction false} NewCategoriesExactly(c: Catalog, rows: seq<ImportRow>)
    ensures HoldsLast(CategoryKeys(c.categories).Keys, KeysOf(CategoriesIn(rows)), CategoriesIn(rows),
                      PlanRows(c, rows).newCategories.values)
  {
    if rows != [] {
      var n := |rows| - 1;
      var before := PlanRows(c, rows[..n]);
      PlanRowParts(c, before, rows[n]);
      NewCategoriesExactly(c, rows[..n]);
      assert CategoriesIn(rows)[..n] == CategoriesIn(rows[..n]);
      assert KeysOf(CategoriesIn(rows))[..n] == KeysOf(CategoriesIn(rows[..n]));
      HoldsOneMore(CategoryKeys(c.categories).Keys, KeysOf(CategoriesIn(rows)), CategoriesIn(rows),
        before.newCategories.values, PlanRows(c, rows).newCategories.values);
    }
  }

  /** The brands the rows name, without those that have no letter or digit. */
  function BrandsIn(rows: seq<ImportRow>): (names: seq<string>) {
    if rows == [] then []
    else
      var row := rows[|rows| - 1];
      BrandsIn(rows[..|rows| - 1]) + if row.brand.Some? && Key(row.brand.value) != "" then [row.brand.value] else []
  }

  /** The same for brands. */
  lemma {:induction false} NewBrandsExactly(c: Catalog, rows: seq<ImportRow>)
    ensures HoldsLast(BrandKeys(c.brands).Keys, KeysOf(BrandsIn(rows)), BrandsIn(rows),
                      PlanRows(c, rows).newBrands.values)
  {
    if rows != [] {
      var n := |rows| - 1;
      var before, names := PlanRows(c, rows[..n]), BrandsIn(rows);
      PlanRowParts(c, before, rows[n]);
      NewBrandsExactly(c, rows[..n]);
      if BrandKey(rows[n]).Some? {
        assert names[..|names| - 1] == BrandsIn(rows[..n]);
        assert KeysOf(names)[..|names| - 1] == KeysOf(BrandsIn(rows[..n]));
        HoldsOneMore(BrandKeys(c.brands).Keys, KeysOf(names), names, before.newBrands.values,
          PlanRows(c, rows).newBrands.values);
      } else {
        assert names == BrandsIn(rows[..n]);
      }
    }
  }

  /** All trucks the rows list, in order. */
  function AllTrucks(rows: seq<ImportRow>): seq<VehicleRef> {
    if rows == [] then [] else AllTrucks(rows[..|rows| - 1]) + rows[|rows| - 1].vehicles
  }

  lemma {:induction false} NewVehiclesAdd(known: map<VehicleKey, nat>, found: Ordered<VehicleKey, VehicleRef>,
      a: seq<VehicleRef>, b: seq<VehicleRef>)
    ensures NewVehicles(known, found, a + b) == NewVehicles(known, NewVehicles(known, found, a), b)
  {
    if b == [] {
      assert a + b == a;
    } else {
      var n := |b| - 1;
      NewVehiclesAdd(known, found, a, b[..n]);
      assert (a + b)[..|a + b| - 1] == a + b[..n];
    }
  }

  lemma {:induction false} PlanNotesTrucks(c: Catalog, rows: seq<ImportRow>)
    ensures PlanRows(c, rows).newVehicles ==
              NewVehicles(VehicleKeys(c.vehicles), EmptyPlan.newVehicles, AllTrucks(rows))
  {
    if rows != [] {
      var n := |rows| - 1;
      PlanNotesTrucks(c, rows[..n]);
      NewVehiclesAdd(VehicleKeys(c.vehicles), EmptyPlan.newVehicles, AllTrucks(rows[..n]), rows[n].vehicles);
    }
  }

  function TruckKeys(vs: seq<VehicleRef>): (keys: seq<VehicleKey>)
    ensures |keys| == |vs|
  {
    seq(|vs|, i requires 0 <= i < |vs| => KeyOfVehicle(vs[i]))
  }

  lemma {:induction false} NotedTrucks(known: map<VehicleKey, nat>, vs: seq<VehicleRef>)
    ensures HoldsLast(known.Keys, TruckKeys(vs), vs, NewVehicles(known, EmptyPlan.newVehicles, vs).values)
  {
    if vs != [] {
      var n := |vs| - 1;
      NotedTrucks(known, vs[..n]);
      assert TruckKeys(vs)[..n] == TruckKeys(vs[..n]);
      HoldsOneMore(known.Keys, TruckKeys(vs), vs, NewVehicles(known, EmptyPlan.newVehicles, vs[..n]).values,
        NewVehicles(known, EmptyPlan.newVehicles, vs).values);
    }
  }

  /** And for trucks. */
  lemma NewTrucksExactly(c: Catalog, rows: seq<ImportRow>)
    ensures HoldsLast(VehicleKeys(c.vehicles).Keys, TruckKeys(AllTrucks(rows)), AllTrucks(rows),
                      PlanRows(c, rows).newVehicles.values)
  {
    PlanNotesTrucks(c, rows);
    NotedTrucks(VehicleKeys(c.vehicles), AllTrucks(rows));
  }

  lemma {:induction false} NewVehiclesInOrder(known: map<VehicleKey, nat>, found: Ordered<VehicleKey, VehicleRef>,
      vs: seq<VehicleRef>)
    ensures found.order <= NewVehicles(known, found, vs).order
  {
    if vs != [] {
      NewVehiclesInOrder(known, found, vs[..|vs| - 1]);
    }
  }

  /** Things are added in the order in which the file first needs them: what the first rows add
      comes first. */
  lemma {:induction false} NotedInOrder(c: Catalog, rows: seq<ImportRow>, n: nat)
    requires n <= |rows|
    ensures var first, all := PlanRows(c, rows[..n]), PlanRows(c, rows);
            && first.newCategories.order <= all.newCategories.order
            && first.newBrands.order <= all.newBrands.order
            && first.newVehicles.order <= all.newVehicles.order
  {
    if n == |rows| {
      assert rows[..n] == rows;
    } else {
      hide PlanRow, CategoryKeys, BrandKeys, VehicleKeys, NewVehicles, Key, BrandKey;
      var last := |rows| - 1;
      PlanRowParts(c, PlanRows(c, rows[..last]), rows[last]);
      NotedInOrder(c, rows[..last], n);
      assert rows[..last][..n] == rows[..n];
      NewVehiclesInOrder(VehicleKeys(c.vehicles), PlanRows(c, rows[..last]).newVehicles, rows[last].vehicles);
    }
  }

  // ---------------------------------------------------------------------
  // What a plan reports
  // ---------------------------------------------------------------------

  ghost predicate AmbiguousAt(c: Catalog, rows: seq<ImportRow>, line: nat) {
    exists i :: 0 <= i < |rows| && rows[i].line == line && !Unambiguous(c, rows[i])
  }

  lemma AmbiguousMore(c: Catalog, rows: seq<ImportRow>, line: nat)
    requires rows != []
    ensures var n := |rows| - 1;
            AmbiguousAt(c, rows, line) <==>
              AmbiguousAt(c, rows[..n], line) || (rows[n].line == line && !Unambiguous(c, rows[n]))
  {
    hide Unambiguous;
    var n := |rows| - 1;
    assert forall i :: 0 <= i < n ==> rows[..n][i] == rows[i];
  }

  /** The lines of the ambiguous rows, and no others. */
  lemma {:induction false} AmbiguousLines(c: Catalog, rows: seq<ImportRow>, line: nat)
    ensures line in PlanRows(c, rows).errors <==> AmbiguousAt(c, rows, line)
  {
    if rows != [] {
      var n := |rows| - 1;
      PlanRowParts(c, PlanRows(c, rows[..n]), rows[n]);
      AmbiguousLines(c, rows[..n], line);
      ActsUnlessAmbiguous(c, rows[n]);
      AmbiguousMore(c, rows, line);
    }
  }

  // ---------------------------------------------------------------------
  // What is added
  // ---------------------------------------------------------------------

  /** New rows come behind the old ones, in the order of `names`, each with its name and a slug
      made of it. */
  ghost predicate CategoriesAdded(cs: seq<Category>, names: seq<string>, after: seq<Category>) {
    && |after| == |cs| + |names| && cs <= after
    && forall i :: 0 <= i < |names| ==>
        var added := after[|cs| + i]; added.name == names[i] && added.nameFr.None? && SlugOf(names[i], added.slug)
  }

  ghost predicate BrandsAdded(bs: seq<Brand>, names: seq<string>, after: seq<Brand>) {
    && |after| == |bs| + |names| && bs <= after
    && forall i :: 0 <= i < |names| ==>
        var added := after[|bs| + i]; added.name == names[i] && SlugOf(names[i], added.slug)
  }

  lemma {:induction false} AddsCategories(cs: seq<Category>, names: seq<string>)
    ensures CategoriesAdded(cs, names, WithCategories(cs, names))
  {
    if names != [] {
      var n := |names| - 1;
      var before := WithCategories(cs, names[..n]);
      AddsCategories(cs, names[..n]);
      OneMoreCategory(cs, names, before, FreshSlug(names[n], CategorySlugs(before)));
    }
  }

  lemma OneMoreCategory(cs: seq<Category>, names: seq<string>, before: seq<Category>, slug: string)
    requires names != [] && CategoriesAdded(cs, names[..|names| - 1], before) && SlugOf(names[|names| - 1], slug)
    ensures CategoriesAdded(cs, names, before + [Category(names[|names| - 1], None, slug)])
  {
    var after := before + [Category(names[|names| - 1], None, slug)];
    forall i | 0 <= i < |names| ensures after[|cs| + i].name == names[i] && after[|cs| + i].nameFr.None?
      ensures SlugOf(names[i], after[|cs| + i].slug)
    {
      assert i < |names| - 1 ==> names[..|names| - 1][i] == names[i] && after[|cs| + i] == before[|cs| + i];
    }
  }

  lemma {:induction false} AddsBrands(bs: seq<Brand>, names: seq<string>)
    ensures BrandsAdded(bs, names, WithBrands(bs, names))
  {
    if names != [] {
      var n := |names| - 1;
      var before := WithBrands(bs, names[..n]);
      AddsBrands(bs, names[..n]);
      OneMoreBrand(bs, names, before, FreshSlug(names[n], BrandSlugs(before)));
    }
  }

  lemma OneMoreBrand(bs: seq<Brand>, names: seq<string>, before: seq<Brand>, slug: string)
    requires names != [] && BrandsAdded(bs, names[..|names| - 1], before) && SlugOf(names[|names| - 1], slug)
    ensures BrandsAdded(bs, names, before + [Brand(names[|names| - 1], slug)])
  {
    var after := before + [Brand(names[|names| - 1], slug)];
    forall i | 0 <= i < |names| ensures after[|bs| + i].name == names[i] && SlugOf(names[i], after[|bs| + i].slug) {
      assert i < |names| - 1 ==> names[..|names| - 1][i] == names[i] && after[|bs| + i] == before[|bs| + i];
    }
  }

  /** A commit keeps every category, brand and truck, and adds the noted ones behind them. */
  lemma TablesGrow(c: Catalog, rows: seq<ImportRow>, defaultStatus: ColumnStatus)
    requires Committed(c, rows, defaultStatus).Some?
    ensures NotedOk(c, PlanRows(c, rows))
    ensures var plan, after := PlanRows(c, rows), Committed(c, rows, defaultStatus).value;
            && CategoriesAdded(c.categories, ValuesOf(plan.newCategories), after.categories)
            && BrandsAdded(c.brands, ValuesOf(plan.newBrands), after.brands)
            && after.vehicles == c.vehicles + ValuesOf(plan.newVehicles)
  {
    var plan := PlanRows(c, rows);
    PlanNotes(c, rows);
    TablesStay(WithTables(c, plan), rows, plan.rows, defaultStatus);
    AddsCategories(c.categories, ValuesOf(plan.newCategories));
    AddsBrands(c.brands, ValuesOf(plan.newBrands));
  }
}
