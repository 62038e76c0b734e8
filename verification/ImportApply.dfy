/** The second half of an import: the writes.  First the missing categories, brands and
    trucks, then one product per row; if any of it fails nothing is kept. */
module ImportApply {
  import opened Wrappers
  import opened Text
  import opened Slugs
  import opened ImportTypes
  import opened ImportPlan

  // ---------------------------------------------------------------------
  // Categories, brands, trucks
  // ---------------------------------------------------------------------

  function CategorySlugs(cs: seq<Category>): set<string> {
    set i | 0 <= i < |cs| :: cs[i].slug
  }

  function BrandSlugs(bs: seq<Brand>): set<string> {
    set i | 0 <= i < |bs| :: bs[i].slug
  }

  function ProductSlugs(ps: seq<Item>): set<string> {
    set i | 0 <= i < |ps| :: ps[i].slug
  }

  ghost function WithCategories(cs: seq<Category>, names: seq<string>): seq<Category> {
    if names == [] then cs
    else
      var before := WithCategories(cs, names[..|names| - 1]);
      before + [Category(names[|names| - 1], None, FreshSlug(names[|names| - 1], CategorySlugs(before)))]
  }

  ghost function WithBrands(bs: seq<Brand>, names: seq<string>): seq<Brand> {
    if names == [] then bs
    else
      var before := WithBrands(bs, names[..|names| - 1]);
      before + [Brand(names[|names| - 1], FreshSlug(names[|names| - 1], BrandSlugs(before)))]
  }

  /** The values of an insertion-ordered map, first inserted first. */
  function ValuesOf<K(==,!new), V>(m: Ordered<K, V>): (r: seq<V>)
    requires m.Valid()
    ensures |r| == |m.order|
  {
    seq(|m.order|, i requires 0 <= i < |m.order| => (assert m.order[i] in m.order; m.values[m.order[i]]))
  }

  /** The catalogue with the tables the plan asks for. */
  ghost function WithTables(c: Catalog, plan: Plan): Catalog
    requires plan.newCategories.Valid() && plan.newBrands.Valid() && plan.newVehicles.Valid()
  {
    c.(categories := WithCategories(c.categories, ValuesOf(plan.newCategories)),
       brands := WithBrands(c.brands, ValuesOf(plan.newBrands)),
       vehicles := c.vehicles + ValuesOf(plan.newVehicles))
  }

  // ---------------------------------------------------------------------
  // Products
  // ---------------------------------------------------------------------

  /** What is written to the brand column: nothing known leaves it as it is. */
  datatype BrandRef = NoBrand | KeepBrand | TheBrand(id: nat)

  datatype Resolved = Resolved(category: nat, brand: BrandRef, vehicles: seq<nat>)

  function BrandOf(bs: seq<Brand>, row: ImportRow): BrandRef {
    if row.brand.None? then NoBrand
    else if Key(row.brand.value) in BrandKeys(bs) then TheBrand(BrandKeys(bs)[Key(row.brand.value)])
    else KeepBrand
  }

  predicate KnownVehicles(known: map<VehicleKey, nat>, vs: seq<VehicleRef>) {
    forall i :: 0 <= i < |vs| ==> KeyOfVehicle(vs[i]) in known
  }

  function VehicleIds(known: map<VehicleKey, nat>, vs: seq<VehicleRef>): seq<nat>
    requires KnownVehicles(known, vs)
  {
    seq(|vs|, i requires 0 <= i < |vs| => known[KeyOfVehicle(vs[i])])
  }

  predicate Distinct(ids: seq<nat>) {
    forall i, j :: 0 <= i < j < |ids| ==> ids[i] != ids[j]
  }

  /** The price column holds ten digits before the point; the parser lets twelve through. */
  const PRICE_LIMIT: nat := 10_000_000_000

  /** The columns take the row's price, condition and status. */
  predicate FitsColumns(row: ImportRow) {
    row.price < PRICE_LIMIT && row.condition != NO_CONDITION && row.status != Some(NO_STATUS)
  }

  /** The ids a row refers to; None when a lookup finds nothing, or when the database
      refuses the row: a truck is listed twice or a value does not fit its column. */
  function Resolve(c: Catalog, row: ImportRow): Option<Resolved> {
    var known := VehicleKeys(c.vehicles);
    if Key(row.category) !in CategoryKeys(c.categories) || !KnownVehicles(known, row.vehicles)
       || !Distinct(VehicleIds(known, row.vehicles)) || !FitsColumns(row) then None
    else Some(Resolved(CategoryKeys(c.categories)[Key(row.category)], BrandOf(c.brands, row),
      VehicleIds(known, row.vehicles)))
  }

  predicate Filled(cell: Option<string>) {
    cell.Some? && cell.value != ""
  }

  /** Filled cells replace what is there, empty ones keep it. */
  function Updated(item: Item, row: ImportRow, ids: Resolved): Item {
    item.(
      name := row.name,
      price := row.price,
      quantity := row.quantity,
      condition := row.condition,
      conditionNotes := row.conditionNotes,
      partNumber := row.partNumber,
      category := ids.category,
      brand := match ids.brand { case NoBrand => None case KeepBrand => item.brand case TheBrand(id) => Some(id) },
      description := if Filled(row.description) then row.description.value else item.description,
      descriptionFr := if Filled(row.descriptionFr) then row.descriptionFr else item.descriptionFr,
      crossReference := if |row.crossReference| > 0 then row.crossReference else item.crossReference,
      status := row.status.GetOr(item.status),
      vehicles := if |ids.vehicles| > 0 then ids.vehicles else item.vehicles)
  }

  function Created(row: ImportRow, ids: Resolved, slug: string, defaultStatus: ColumnStatus): Item {
    Item(
      row.name, slug,
      row.description.GetOr(row.descriptionFr.GetOr(row.name)), row.descriptionFr,
      row.price, row.quantity, row.condition, row.conditionNotes, row.partNumber, row.crossReference,
      ids.category,
      match ids.brand { case TheBrand(id) => Some(id) case _ => None },
      row.status.GetOr(defaultStatus),
      ids.vehicles)
  }

  ghost function ApplyRow(c: Catalog, row: ImportRow, action: Option<Action>,
      defaultStatus: ColumnStatus): Option<Catalog> {
    var ids := Resolve(c, row);
    if ids.None? then None
    else
      match action
      case None => None
      case Some(Update(p)) =>
        if p < |c.products| then Some(c.(products := c.products[p := Updated(c.products[p], row, ids.value)])) else None
      case Some(Create) =>
        Some(c.(products := c.products +
          [Created(row, ids.value, FreshSlug(row.name, ProductSlugs(c.products)), defaultStatus)]))
  }

  /** What was planned for the row on this line. */
  function PlannedFor(planned: seq<PlannedRow>, line: nat): Option<Action> {
    if planned == [] then None
    else if planned[|planned| - 1].line == line then Some(planned[|planned| - 1].action)
    else PlannedFor(planned[..|planned| - 1], line)
  }

  ghost function ApplyRows(c: Catalog, rows: seq<ImportRow>, planned: seq<PlannedRow>,
      defaultStatus: ColumnStatus): Option<Catalog> {
    if rows == [] then Some(c)
    else
      var before := ApplyRows(c, rows[..|rows| - 1], planned, defaultStatus);
      var row := rows[|rows| - 1];
      if before.None? then None else ApplyRow(before.value, row, PlannedFor(planned, row.line), defaultStatus)
  }

  lemma {:induction false} PlanValid(c: Catalog, rows: seq<ImportRow>)
    ensures var plan := PlanRows(c, rows);
            plan.newCategories.Valid() && plan.newBrands.Valid() && plan.newVehicles.Valid()
  {
    if rows != [] {
      var before := PlanRows(c, rows[..|rows| - 1]);
      var row := rows[|rows| - 1];
      PlanValid(c, rows[..|rows| - 1]);
      before.newCategories.PutValid(Key(row.category), row.category);
      if BrandKey(row).Some? {
        before.newBrands.PutValid(BrandKey(row).value, row.brand.value);
      }
      NewVehiclesValid(VehicleKeys(c.vehicles), before.newVehicles, row.vehicles);
    }
  }

  lemma {:induction false} NewVehiclesValid(known: map<VehicleKey, nat>, found: Ordered<VehicleKey, VehicleRef>,
      vs: seq<VehicleRef>)
    requires found.Valid()
    ensures NewVehicles(known, found, vs).Valid()
  {
    if vs != [] {
      NewVehiclesValid(known, found, vs[..|vs| - 1]);
      NewVehicles(known, found, vs[..|vs| - 1]).PutValid(KeyOfVehicle(vs[|vs| - 1]), vs[|vs| - 1]);
    }
  }

  /** The whole import of an error-free file; None when the plan has errors or a write is
      refused. */
  ghost function Committed(c: Catalog, rows: seq<ImportRow>, defaultStatus: ColumnStatus): Option<Catalog> {
    var plan := PlanRows(c, rows);
    PlanValid(c, rows);
    if plan.errors != [] then None else ApplyRows(WithTables(c, plan), rows, plan.rows, defaultStatus)
  }

  // ---------------------------------------------------------------------
  // The service
  // ---------------------------------------------------------------------

  class ProductImportService {
    var categories: seq<Category>
    var brands: seq<Brand>
    var vehicles: seq<VehicleRef>
    var products: seq<Item>

    function Tables(): Catalog
      reads this
    {
      Catalog(categories, brands, vehicles, products)
    }

    constructor (c: Catalog)
      ensures Tables() == c
    {
      categories, brands, vehicles, products := c.categories, c.brands, c.vehicles, c.products;
    }

    /** The ids of the products whose part number matches any in the file. */
    method FindByPartNumbers(rows: seq<ImportRow>) returns (byKey: map<string, seq<nat>>)
      ensures forall row :: row in rows && row.partNumber.Some? ==>
                var key := Key(row.partNumber.value);
                (if key in byKey then byKey[key] else []) == WithKey(products, key, |products|)
    {
      var keys := set row | row in rows && row.partNumber.Some? :: Key(row.partNumber.value);
      byKey := map[];
      for i := 0 to |products|
        invariant forall key :: key in keys ==> (if key in byKey then byKey[key] else []) == WithKey(products, key, i)
      {
        var number := products[i].partNumber;
        if number.Some? && Key(number.value) in keys {
          var key := Key(number.value);
          byKey := byKey[key := (if key in byKey then byKey[key] else []) + [i]];
        }
      }
    }

    /** The trucks of one row that the catalogue does not know. */
    method NoteVehicles(known: map<VehicleKey, nat>, before: Ordered<VehicleKey, VehicleRef>, vs: seq<VehicleRef>)
      returns (found: Ordered<VehicleKey, VehicleRef>)
      ensures found == NewVehicles(known, before, vs)
    {
      found := before;
      for j := 0 to |vs|
        invariant found == NewVehicles(known, before, vs[..j])
      {
        assert vs[..j + 1][..j] == vs[..j];
        if KeyOfVehicle(vs[j]) !in known {
          found := found.Put(KeyOfVehicle(vs[j]), vs[j]);
        }
      }
      assert vs[..|vs|] == vs;
    }

    method FindMatches(row: ImportRow, existing: map<string, seq<nat>>) returns (matches: seq<nat>)
      requires row.partNumber.Some? ==>
                 var key := Key(row.partNumber.value);
                 (if key in existing then existing[key] else []) == WithKey(products, key, |products|)
      ensures matches == MatchesOf(Tables(), row)
    {
      matches := [];
      if row.partNumber.Some? {
        var key := Key(row.partNumber.value);
        matches := OfBrand(Tables(), row, if key in existing then existing[key] else []);
      }
    }

    method Plan(rows: seq<ImportRow>) returns (plan: Plan)
      ensures plan == PlanRows(Tables(), rows)
    {
      var categoryByKey, brandByKey, vehicleByKey := CategoryKeys(categories), BrandKeys(brands), VehicleKeys(vehicles);
      var existing := FindByPartNumbers(rows);
      plan := EmptyPlan;
      for i := 0 to |rows|
        invariant plan == PlanRows(Tables(), rows[..i])
      {
        var row := rows[i];
        assert row in rows;
        assert rows[..i + 1][..i] == rows[..i];
        ghost var next := PlanRow(Tables(), plan, row);
        var categoryKey := Key(row.category);
        if categoryKey !in categoryByKey {
          plan := plan.(newCategories := plan.newCategories.Put(categoryKey, row.category));
        }
        var brandKey := BrandKey(row);
        if brandKey.Some? && brandKey.value !in brandByKey {
          plan := plan.(newBrands := plan.newBrands.Put(brandKey.value, row.brand.value));
        }
        var newVehicles := NoteVehicles(vehicleByKey, plan.newVehicles, row.vehicles);
        plan := plan.(newVehicles := newVehicles);
        var matches := FindMatches(row, existing);
        if |matches| > 1 {
          plan := plan.(errors := plan.errors + [row.line]);
        } else {
          var action := if |matches| == 1 then Update(matches[0]) else Create;
          plan := plan.(rows := plan.rows + [PlannedRow(row.line, action)]);
        }
        assert plan == next;
      }
      assert rows[..|rows|] == rows;
    }

    method AddCategories(names: seq<string>)
      modifies this`categories
      ensures categories == WithCategories(old(categories), names)
    {
      for i := 0 to |names|
        invariant categories == WithCategories(old(categories), names[..i])
      {
        var reserved := new Reserved();
        var slug := reserved.UniqueSlug(names[i], CategorySlugs(categories));
        assert CategorySlugs(categories) + {} == CategorySlugs(categories);
        assert names[..i + 1][..i] == names[..i];
        categories := categories + [Category(names[i], None, slug)];
      }
      assert names[..|names|] == names;
    }

    method AddBrands(names: seq<string>)
      modifies this`brands
      ensures brands == WithBrands(old(brands), names)
    {
      for i := 0 to |names|
        invariant brands == WithBrands(old(brands), names[..i])
      {
        var reserved := new Reserved();
        var slug := reserved.UniqueSlug(names[i], BrandSlugs(brands));
        assert BrandSlugs(brands) + {} == BrandSlugs(brands);
        assert names[..i + 1][..i] == names[..i];
        brands := brands + [Brand(names[i], slug)];
      }
      assert names[..|names|] == names;
    }

    /** Writes one row; the slugs handed out earlier in the batch are all written by now. */
    method WriteRow(row: ImportRow, action: Option<Action>, defaultStatus: ColumnStatus, reserved: Reserved)
      returns (ok: bool)
      requires reserved.slugs <= ProductSlugs(products)
      modifies this`products, reserved
      ensures var next := ApplyRow(old(Tables()), row, action, defaultStatus);
              ok == next.Some? && (ok ==> Tables() == next.value)
      ensures ok ==> reserved.slugs <= ProductSlugs(products)
    {
      var ids := Resolve(Tables(), row);
      if ids.None? || action.None? {
        return false;
      }
      if action.value.Update? {
        var p := action.value.product;
        if p >= |products| {
          return false;
        }
        ghost var before := products;
        products := products[p := Updated(products[p], row, ids.value)];
        assert forall i :: 0 <= i < |products| ==> products[i].slug == before[i].slug;
      } else {
        ghost var before := products;
        var slug := reserved.UniqueSlug(row.name, ProductSlugs(products));
        assert ProductSlugs(before) + old(reserved.slugs) == ProductSlugs(before);
        products := products + [Created(row, ids.value, slug, defaultStatus)];
        forall s | s in reserved.slugs ensures s in ProductSlugs(products) {
          if s in ProductSlugs(before) {
            var i :| 0 <= i < |before| && before[i].slug == s;
            assert products[i].slug == s;
          } else {
            assert products[|before|].slug == s;
          }
        }
      }
      ok := true;
    }

    /** Writes the rows in order; stops at the first one that is refused. */
    method WriteRows(rows: seq<ImportRow>, planned: seq<PlannedRow>, defaultStatus: ColumnStatus) returns (ok: bool)
      modifies this`products
      ensures var next := ApplyRows(old(Tables()), rows, planned, defaultStatus);
              ok == next.Some? && (ok ==> Tables() == next.value)
    {
      ghost var start := Tables();
      var reserved := new Reserved();
      ok := true;
      for i := 0 to |rows|
        invariant reserved.slugs <= ProductSlugs(products)
        invariant ApplyRows(start, rows[..i], planned, defaultStatus) == Some(Tables())
      {
        assert rows[..i + 1][..i] == rows[..i];
        var done := WriteRow(rows[i], PlannedFor(planned, rows[i].line), defaultStatus, reserved);
        if !done {
          StopsEarly(start, rows, planned, defaultStatus, i + 1);
          return false;
        }
      }
      assert rows[..|rows|] == rows;
    }

    method Apply(plan: Plan, rows: seq<ImportRow>, defaultStatus: ColumnStatus) returns (ok: bool)
      requires plan.newCategories.Valid() && plan.newBrands.Valid() && plan.newVehicles.Valid()
      modifies this
      ensures var next := ApplyRows(WithTables(old(Tables()), plan), rows, plan.rows, defaultStatus);
              ok == next.Some? && (ok ==> Tables() == next.value)
    {
      ghost var c := Tables();
      AddCategories(ValuesOf(plan.newCategories));
      AddBrands(ValuesOf(plan.newBrands));
      vehicles := vehicles + ValuesOf(plan.newVehicles);
      assert Tables() == WithTables(c, plan);
      ok := WriteRows(rows, plan.rows, defaultStatus);
    }

    /** Plans the file again and applies it in one transaction: every row is written, or
        none is. */
    method Commit(rows: seq<ImportRow>, defaultStatus: ColumnStatus) returns (ok: bool)
      modifies this
      ensures var next := Committed(old(Tables()), rows, defaultStatus);
              ok == next.Some? && Tables() == if ok then next.value else old(Tables())
    {
      var plan := Plan(rows);
      PlanValid(Tables(), rows);
      if plan.errors != [] {
        return false;
      }
      var c := Tables();
      ok := Apply(plan, rows, defaultStatus);
      if !ok {
        categories, brands, vehicles, products := c.categories, c.brands, c.vehicles, c.products;
      }
    }
  }

  lemma {:induction false} StopsEarly(c: Catalog, rows: seq<ImportRow>, planned: seq<PlannedRow>,
      defaultStatus: ColumnStatus, n: nat)
    requires n <= |rows| && ApplyRows(c, rows[..n], planned, defaultStatus).None?
    ensures ApplyRows(c, rows, planned, defaultStatus).None?
    decreases |rows| - n
  {
    if n == |rows| {
      assert rows[..n] == rows;
    } else {
      assert rows[..n + 1][..n] == rows[..n];
      StopsEarly(c, rows, planned, defaultStatus, n + 1);
    }
  }
}
