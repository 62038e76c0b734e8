/** The first half of an import: what each row of the file would do, and which
    categories, brands and trucks it needs. */
module ImportPlan {
  import opened Wrappers
  import opened Text
  import opened ImportTypes

  datatype Action = Create | Update(product: nat)

  datatype PlannedRow = PlannedRow(line: nat, action: Action)

  /** `errors` are the lines of rows that match more than one product. */
  datatype Plan = Plan(
    rows: seq<PlannedRow>,
    newCategories: Ordered<string, string>,
    newBrands: Ordered<string, string>,
    newVehicles: Ordered<VehicleKey, VehicleRef>,
    errors: seq<nat>)

  const EmptyPlan: Plan := Plan([], Ordered([], map[]), Ordered([], map[]), Ordered([], map[]), [])

  // ---------------------------------------------------------------------
  // Which product a row is about
  // ---------------------------------------------------------------------

  predicate HasKey(item: Item, key: string) {
    item.partNumber.Some? && Key(item.partNumber.value) == key
  }

  /** The first `n` products' ids with this part number, compared by letters and digits. */
  function WithKey(products: seq<Item>, key: string, n: nat): seq<nat>
    requires n <= |products|
  {
    if n == 0 then []
    else if HasKey(products[n - 1], key) then WithKey(products, key, n - 1) + [n - 1]
    else WithKey(products, key, n - 1)
  }

  /** A brand the catalogue does not know matches no product yet. */
  predicate BrandFits(bs: seq<Brand>, row: ImportRow, item: Item) {
    match BrandKey(row)
    case None => item.brand == None
    case Some(k) => k in BrandKeys(bs) && item.brand == Some(BrandKeys(bs)[k])
  }

  function OfBrand(c: Catalog, row: ImportRow, ids: seq<nat>): seq<nat> {
    if ids == [] then []
    else
      var n := |ids| - 1;
      if ids[n] < |c.products| && BrandFits(c.brands, row, c.products[ids[n]]) then OfBrand(c, row, ids[..n]) + [ids[n]]
      else OfBrand(c, row, ids[..n])
  }

  function MatchesOf(c: Catalog, row: ImportRow): seq<nat> {
    if row.partNumber.None? then []
    else OfBrand(c, row, WithKey(c.products, Key(row.partNumber.value), |c.products|))
  }

  /** The row is about this product. */
  predicate Fits(bs: seq<Brand>, row: ImportRow, item: Item) {
    row.partNumber.Some? && HasKey(item, Key(row.partNumber.value)) && BrandFits(bs, row, item)
  }

  /** An update when exactly one product matches, a new product when none does; None when
      the row is ambiguous. */
  function ActionOf(c: Catalog, row: ImportRow): Option<Action> {
    var matches := MatchesOf(c, row);
    if |matches| > 1 then None
    else if |matches| == 1 then Some(Update(matches[0]))
    else Some(Create)
  }

  // ---------------------------------------------------------------------
  // The plan
  // ---------------------------------------------------------------------

  function NewVehicles(known: map<VehicleKey, nat>, found: Ordered<VehicleKey, VehicleRef>,
      vs: seq<VehicleRef>): Ordered<VehicleKey, VehicleRef> {
    if vs == [] then found
    else
      var before := NewVehicles(known, found, vs[..|vs| - 1]);
      var v := vs[|vs| - 1];
      if KeyOfVehicle(v) in known then before else before.Put(KeyOfVehicle(v), v)
  }

  function PlanRow(c: Catalog, plan: Plan, row: ImportRow): Plan {
    var categoryKey, brandKey := Key(row.category), BrandKey(row);
    var tables := plan.(
      newCategories :=
        if categoryKey in CategoryKeys(c.categories) then plan.newCategories
        else plan.newCategories.Put(categoryKey, row.category),
      newBrands :=
        if brandKey.None? || brandKey.value in BrandKeys(c.brands) then plan.newBrands
        else plan.newBrands.Put(brandKey.value, row.brand.value),
      newVehicles := NewVehicles(VehicleKeys(c.vehicles), plan.newVehicles, row.vehicles));
    match ActionOf(c, row)
    case None => tables.(errors := plan.errors + [row.line])
    case Some(action) => tables.(rows := plan.rows + [PlannedRow(row.line, action)])
  }

  function PlanRows(c: Catalog, rows: seq<ImportRow>): Plan {
    if rows == [] then EmptyPlan
    else PlanRow(c, PlanRows(c, rows[..|rows| - 1]), rows[|rows| - 1])
  }

  // ---------------------------------------------------------------------
  // Matching, exactly
  // ---------------------------------------------------------------------

  ghost predicate Increasing(ids: seq<nat>) {
    forall i, j :: 0 <= i < j < |ids| ==> ids[i] < ids[j]
  }

  lemma {:induction false} WithKeyExactly(products: seq<Item>, key: string, n: nat)
    requires n <= |products|
    ensures Increasing(WithKey(products, key, n))
    ensures forall i :: i in WithKey(products, key, n) <==> 0 <= i < n && HasKey(products[i], key)
  {
    if n > 0 {
      WithKeyExactly(products, key, n - 1);
      var before := WithKey(products, key, n - 1);
      assert forall i :: 0 <= i < |before| ==> before[i] in before;
    }
  }

  lemma {:induction false} OfBrandExactly(c: Catalog, row: ImportRow, ids: seq<nat>)
    requires Increasing(ids)
    ensures Increasing(OfBrand(c, row, ids))
    ensures forall i :: i in OfBrand(c, row, ids) <==>
              i in ids && i < |c.products| && BrandFits(c.brands, row, c.products[i])
  {
    if ids != [] {
      var n := |ids| - 1;
      OfBrandExactly(c, row, ids[..n]);
      var before := OfBrand(c, row, ids[..n]);
      forall i | 0 <= i < |before| ensures before[i] < ids[n] {
        assert before[i] in ids[..n];
      }
      assert ids == ids[..n] + [ids[n]];
    }
  }

  /** The matches of a row are exactly the products it fits. */
  lemma MatchesExactly(c: Catalog, row: ImportRow)
    ensures Increasing(MatchesOf(c, row))
    ensures forall i :: i in MatchesOf(c, row) <==> 0 <= i < |c.products| && Fits(c.brands, row, c.products[i])
  {
    if row.partNumber.Some? {
      WithKeyExactly(c.products, Key(row.partNumber.value), |c.products|);
      OfBrandExactly(c, row, WithKey(c.products, Key(row.partNumber.value), |c.products|));
    }
  }

  /** What the action of a row says about the catalogue: a product is updated exactly when
      it is the only one the row fits, and created exactly when the row fits none. */
  lemma ActionExactly(c: Catalog, row: ImportRow)
    ensures ActionOf(c, row) == Some(Create) <==>
            forall i :: 0 <= i < |c.products| ==> !Fits(c.brands, row, c.products[i])
    ensures forall j: nat :: ActionOf(c, row) == Some(Update(j)) <==>
              0 <= j < |c.products| && Fits(c.brands, row, c.products[j])
              && forall i :: 0 <= i < |c.products| && i != j ==> !Fits(c.brands, row, c.products[i])
  {
    MatchesExactly(c, row);
    var ms := MatchesOf(c, row);
    if |ms| == 0 {
      forall i | 0 <= i < |c.products| ensures !Fits(c.brands, row, c.products[i]) {
        assert i !in ms;
      }
    } else {
      assert ms[0] in ms;
      assert |ms| > 1 ==> ms[1] in ms && ms[0] < ms[1];
    }
    forall j: nat ensures ActionOf(c, row) == Some(Update(j)) <==>
              0 <= j < |c.products| && Fits(c.brands, row, c.products[j])
              && forall i :: 0 <= i < |c.products| && i != j ==> !Fits(c.brands, row, c.products[i])
    {
      if |ms| == 1 {
        assert forall i :: i in ms <==> i == ms[0];
      }
    }
  }
}
