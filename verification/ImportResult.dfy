/** What the catalogue says after an import: each row's product says what the row says, and
    keeps what the row leaves empty. */
module ImportResult {
  import opened Wrappers
  import opened Text
  import opened Slugs
  import opened ImportTypes
  import opened ImportPlan
  import opened ImportApply
  import opened ImportTables
  import opened ImportTheorems

  /** A category goes by its name and by its French name. */
  predicate GoesBy(c: Category, key: string) {
    Key(c.name) == key || (c.nameFr.Some? && c.nameFr.value != "" && Key(c.nameFr.value) == key)
  }

  lemma {:induction false} CategoryKeysInvert(cs: seq<Category>)
    ensures forall k :: k in CategoryKeys(cs) ==> CategoryKeys(cs)[k] < |cs| && GoesBy(cs[CategoryKeys(cs)[k]], k)
  {
    if cs != [] {
      CategoryKeysInvert(cs[..|cs| - 1]);
    }
  }

  predicate SaysCategory(c: Catalog, item: Item, row: ImportRow) {
    item.category < |c.categories| && GoesBy(c.categories[item.category], Key(row.category))
  }

  predicate SaysBrand(c: Catalog, item: Item, row: ImportRow) {
    && (row.brand.None? ==> item.brand.None?)
    && (BrandKey(row).Some? ==>
          item.brand.Some? && item.brand.value < |c.brands| &&
            Key(c.brands[item.brand.value].name) == BrandKey(row).value)
  }

  predicate SaysTrucks(c: Catalog, item: Item, row: ImportRow) {
    row.vehicles != [] ==>
      && |item.vehicles| == |row.vehicles|
      && forall i :: 0 <= i < |row.vehicles| ==>
          item.vehicles[i] < |c.vehicles| && KeyOfVehicle(c.vehicles[item.vehicles[i]]) == KeyOfVehicle(row.vehicles[i])
  }

  predicate SaysTexts(item: Item, row: ImportRow) {
    && (Filled(row.description) ==> item.description == row.description.value)
    && (Filled(row.descriptionFr) ==> item.descriptionFr == row.descriptionFr)
    && (row.crossReference != [] ==> item.crossReference == row.crossReference)
    && (row.status.Some? ==> item.status == row.status.value)
  }

  /** The product says everything the row says, through whatever rows its references name. */
  predicate Says(c: Catalog, item: Item, row: ImportRow) {
    && item.name == row.name && item.price == row.price && item.quantity == row.quantity
    && item.condition == row.condition && item.conditionNotes == row.conditionNotes && item.partNumber == row.partNumber
    && SaysCategory(c, item, row) && SaysBrand(c, item, row) && SaysTrucks(c, item, row) && SaysTexts(item, row)
  }

  /** Where the row says nothing the product is as before; its slug is as before anyway. */
  predicate KeepsTheRest(before: Item, after: Item, row: ImportRow) {
    && after.slug == before.slug
    && (!Filled(row.description) ==> after.description == before.description)
    && (!Filled(row.descriptionFr) ==> after.descriptionFr == before.descriptionFr)
    && (row.crossReference == [] ==> after.crossReference == before.crossReference)
    && (row.vehicles == [] ==> after.vehicles == before.vehicles)
    && (row.status.None? ==> after.status == before.status)
  }

  /** The brand is a name without a letter or digit, and there is no such brand. */
  predicate NamesNoBrand(c: Catalog, row: ImportRow) {
    row.brand.Some? && Key(row.brand.value) == "" && forall i :: 0 <= i < |c.brands| ==> Key(c.brands[i].name) != ""
  }

  /** A new product without a description goes by the French one or its name, and gets the
      default status unless the row has one. */
  ghost predicate StartsWell(item: Item, row: ImportRow, defaultStatus: ColumnStatus) {
    && (row.description.None? ==> item.description == row.descriptionFr.GetOr(row.name))
    && (row.status.None? ==> item.status == defaultStatus)
    && (row.vehicles == [] ==> item.vehicles == []) && (row.crossReference == [] ==> item.crossReference == [])
    && (row.descriptionFr.None? ==> item.descriptionFr.None?)
    && SlugOf(row.name, item.slug)
  }

  lemma ResolvedSays(t: Catalog, row: ImportRow, item: Item, brandBefore: Option<nat>)
    requires Known(t, row) && Resolve(t, row).Some?
    requires var ids := Resolve(t, row).value;
             && item.category == ids.category
             && item.brand == (match ids.brand
                               case NoBrand => None
                               case KeepBrand => brandBefore
                               case TheBrand(id) => Some(id))
             && (row.vehicles != [] ==> item.vehicles == ids.vehicles)
    ensures SaysCategory(t, item, row) && SaysBrand(t, item, row) && SaysTrucks(t, item, row)
    ensures NamesNoBrand(t, row) ==> item.brand == brandBefore
  {
    CategoryKeysInvert(t.categories);
    BrandKeysInvert(t.brands);
    VehicleKeysInvert(t.vehicles);
  }

  lemma UpdatedSays(t: Catalog, row: ImportRow, item: Item)
    requires Known(t, row) && Resolve(t, row).Some?
    ensures Says(t, Updated(item, row, Resolve(t, row).value), row)
    ensures KeepsTheRest(item, Updated(item, row, Resolve(t, row).value), row)
    ensures NamesNoBrand(t, row) ==> Updated(item, row, Resolve(t, row).value).brand == item.brand
  {
    ResolvedSays(t, row, Updated(item, row, Resolve(t, row).value), item.brand);
  }

  lemma CreatedSays(t: Catalog, row: ImportRow, slug: string, defaultStatus: ColumnStatus)
    requires Known(t, row) && Resolve(t, row).Some? && SlugOf(row.name, slug)
    ensures NamesNoBrand(t, row) ==> Created(row, Resolve(t, row).value, slug, defaultStatus).brand == None
    ensures Says(t, Created(row, Resolve(t, row).value, slug, defaultStatus), row)
    ensures StartsWell(Created(row, Resolve(t, row).value, slug, defaultStatus), row, defaultStatus)
  {
    ResolvedSays(t, row, Created(row, Resolve(t, row).value, slug, defaultStatus), None);
  }

  lemma WrittenSays(c: Catalog, t: Catalog, rows: seq<ImportRow>, planned: seq<PlannedRow>, products: seq<Item>,
      defaultStatus: ColumnStatus, i: nat)
    requires i < |rows| && |planned| == |rows| && Known(t, rows[i])
    requires RowWritten(c, t, rows, planned, products, defaultStatus, i)
    ensures Target(c, planned, i) < |products|
    ensures var item := products[Target(c, planned, i)];
            && Says(t, item, rows[i])
            && match planned[i].action
               case Update(p) =>
                 && p < |c.products| && KeepsTheRest(c.products[p], item, rows[i])
                 && (NamesNoBrand(t, rows[i]) ==> item.brand == c.products[p].brand)
               case Create =>
                 StartsWell(item, rows[i], defaultStatus) && (NamesNoBrand(t, rows[i]) ==> item.brand == None)
  {
    match planned[i].action
    case Update(p) => UpdatedSays(t, rows[i], c.products[p]);
    case Create => CreatedSays(t, rows[i], products[Target(c, planned, i)].slug, defaultStatus);
  }

  lemma SaysAlike(c: Catalog, t: Catalog, item: Item, row: ImportRow)
    requires Says(t, item, row) && c == t.(products := c.products)
    ensures Says(c, item, row)
  {
  }

  /** After a commit every row's product says what the row says; an updated product keeps
      what the row leaves empty, a created one starts with the documented defaults. */
  lemma ProductsSayTheirRows(c: Catalog, rows: seq<ImportRow>, defaultStatus: ColumnStatus, i: nat)
    requires NoDuplicates(rows) && Committed(c, rows, defaultStatus).Some? && i < |rows|
    ensures var planned, after := PlanRows(c, rows).rows, Committed(c, rows, defaultStatus).value;
            && |planned| == |rows| && Target(c, planned, i) < |after.products|
            && var item := after.products[Target(c, planned, i)];
               && Says(after, item, rows[i])
               && match planned[i].action
                  case Update(p) =>
                    && p < |c.products| && KeepsTheRest(c.products[p], item, rows[i])
                    && (NamesNoBrand(after, rows[i]) ==> item.brand == c.products[p].brand)
                  case Create =>
                    StartsWell(item, rows[i], defaultStatus) && (NamesNoBrand(after, rows[i]) ==> item.brand == None)
  {
    ImportIsAnUpsert(c, rows, defaultStatus);
    var plan, after := PlanRows(c, rows), Committed(c, rows, defaultStatus).value;
    var t := WithTables(c, plan);
    assert Known(after, rows[i]);
    WrittenSays(c, t, rows, plan.rows, after.products, defaultStatus, i);
    SaysAlike(after, t, after.products[Target(c, plan.rows, i)], rows[i]);
  }
}
