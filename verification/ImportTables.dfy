/** The categories, brands and trucks of an import: the plan notes exactly the ones that
    are missing, and once they are created every lookup of every row succeeds. */
module ImportTables {
  import opened Wrappers
  import opened Text
  import opened ImportTypes
  import opened ImportPlan
  import opened ImportApply

  /** Everything the row looks up is there. */
  predicate Known(c: Catalog, row: ImportRow) {
    && Key(row.category) in CategoryKeys(c.categories)
    && (BrandKey(row).Some? ==> BrandKey(row).value in BrandKeys(c.brands))
    && KnownVehicles(VehicleKeys(c.vehicles), row.vehicles)
  }

  // ---------------------------------------------------------------------
  // What the plan notes
  // ---------------------------------------------------------------------

  /** Names that were noted under their keys, none of which was known. */
  ghost predicate NamesNoted(known: map<string, nat>, noted: Ordered<string, string>) {
    noted.Valid() && forall k :: k in noted.values ==> Key(noted.values[k]) == k && k !in known
  }

  ghost predicate VehiclesNoted(known: map<VehicleKey, nat>, noted: Ordered<VehicleKey, VehicleRef>) {
    noted.Valid() && forall k :: k in noted.values ==> KeyOfVehicle(noted.values[k]) == k && k !in known
  }

  ghost predicate NotedOk(c: Catalog, plan: Plan) {
    && NamesNoted(CategoryKeys(c.categories), plan.newCategories)
    && NamesNoted(BrandKeys(c.brands), plan.newBrands) && "" !in plan.newBrands.values
    && VehiclesNoted(VehicleKeys(c.vehicles), plan.newVehicles)
  }

  lemma NoteName(known: map<string, nat>, noted: Ordered<string, string>, name: string)
    requires NamesNoted(known, noted) && Key(name) !in known
    ensures NamesNoted(known, noted.Put(Key(name), name))
  {
    noted.PutValid(Key(name), name);
  }

  lemma NoteVehicle(known: map<VehicleKey, nat>, noted: Ordered<VehicleKey, VehicleRef>, v: VehicleRef)
    requires VehiclesNoted(known, noted) && KeyOfVehicle(v) !in known
    ensures VehiclesNoted(known, noted.Put(KeyOfVehicle(v), v))
  {
    noted.PutValid(KeyOfVehicle(v), v);
  }

  /** Known already, or noted. */
  predicate Covered(c: Catalog, plan: Plan, row: ImportRow) {
    && (Key(row.category) in CategoryKeys(c.categories) || Key(row.category) in plan.newCategories.values)
    && (BrandKey(row).Some? ==>
      BrandKey(row).value in BrandKeys(c.brands) || BrandKey(row).value in plan.newBrands.values)
    && forall i :: 0 <= i < |row.vehicles| ==>
        VehicleCovered(VehicleKeys(c.vehicles), plan.newVehicles, KeyOfVehicle(row.vehicles[i]))
  }

  predicate VehicleCovered(known: map<VehicleKey, nat>, noted: Ordered<VehicleKey, VehicleRef>, k: VehicleKey) {
    k in known || k in noted.values
  }

  lemma {:induction false} NewVehiclesNoted(known: map<VehicleKey, nat>, found: Ordered<VehicleKey, VehicleRef>,
      vs: seq<VehicleRef>)
    requires VehiclesNoted(known, found)
    ensures VehiclesNoted(known, NewVehicles(known, found, vs))
    ensures found.values.Keys <= NewVehicles(known, found, vs).values.Keys
    ensures forall i :: 0 <= i < |vs| ==> VehicleCovered(known, NewVehicles(known, found, vs), KeyOfVehicle(vs[i]))
  {
    if vs != [] {
      var n := |vs| - 1;
      var before, after := NewVehicles(known, found, vs[..n]), NewVehicles(known, found, vs);
      NewVehiclesNoted(known, found, vs[..n]);
      if KeyOfVehicle(vs[n]) !in known {
        NoteVehicle(known, before, vs[n]);
      }
      forall i | 0 <= i < |vs| ensures VehicleCovered(known, after, KeyOfVehicle(vs[i])) {
        if i < n {
          assert VehicleCovered(known, before, KeyOfVehicle(vs[..n][i]));
        }
      }
    }
  }

  lemma RowNotesCategory(c: Catalog, plan: Plan, row: ImportRow)
    requires NamesNoted(CategoryKeys(c.categories), plan.newCategories)
    ensures var after := PlanRow(c, plan, row).newCategories;
            && NamesNoted(CategoryKeys(c.categories), after)
            && plan.newCategories.values.Keys <= after.values.Keys
            && (Key(row.category) in CategoryKeys(c.categories) || Key(row.category) in after.values)
  {
    if Key(row.category) !in CategoryKeys(c.categories) {
      NoteName(CategoryKeys(c.categories), plan.newCategories, row.category);
    }
  }

  lemma RowNotesBrand(c: Catalog, plan: Plan, row: ImportRow)
    requires NamesNoted(BrandKeys(c.brands), plan.newBrands)
    ensures var after := PlanRow(c, plan, row).newBrands;
            && NamesNoted(BrandKeys(c.brands), after)
            && plan.newBrands.values.Keys <= after.values.Keys
            && ("" !in plan.newBrands.values ==> "" !in after.values)
            && (BrandKey(row).Some? ==>
              BrandKey(row).value in BrandKeys(c.brands) || BrandKey(row).value in after.values)
  {
    if BrandKey(row).Some? && BrandKey(row).value !in BrandKeys(c.brands) {
      NoteName(BrandKeys(c.brands), plan.newBrands, row.brand.value);
    }
  }

  lemma RowNotesVehicles(c: Catalog, plan: Plan, row: ImportRow)
    requires VehiclesNoted(VehicleKeys(c.vehicles), plan.newVehicles)
    ensures var after := PlanRow(c, plan, row).newVehicles;
            && VehiclesNoted(VehicleKeys(c.vehicles), after)
            && plan.newVehicles.values.Keys <= after.values.Keys
            && forall i :: 0 <= i < |row.vehicles| ==>
                VehicleCovered(VehicleKeys(c.vehicles), after, KeyOfVehicle(row.vehicles[i]))
  {
    NewVehiclesNoted(VehicleKeys(c.vehicles), plan.newVehicles, row.vehicles);
  }

  lemma RowNoted(c: Catalog, plan: Plan, row: ImportRow)
    requires NotedOk(c, plan)
    ensures NotedOk(c, PlanRow(c, plan, row)) && Covered(c, PlanRow(c, plan, row), row)
    ensures forall earlier :: Covered(c, plan, earlier) ==> Covered(c, PlanRow(c, plan, row), earlier)
  {
    RowNotesCategory(c, plan, row);
    RowNotesBrand(c, plan, row);
    RowNotesVehicles(c, plan, row);
    var after := PlanRow(c, plan, row);
    forall earlier | Covered(c, plan, earlier) ensures Covered(c, after, earlier) {
      StaysCovered(c, plan, after, earlier);
    }
  }

  lemma StaysCovered(c: Catalog, plan: Plan, after: Plan, row: ImportRow)
    requires Covered(c, plan, row)
    requires plan.newCategories.values.Keys <= after.newCategories.values.Keys
    requires plan.newBrands.values.Keys <= after.newBrands.values.Keys
    requires plan.newVehicles.values.Keys <= after.newVehicles.values.Keys
    ensures Covered(c, after, row)
  {
  }

  ghost predicate AllCovered(c: Catalog, plan: Plan, rows: seq<ImportRow>) {
    forall row :: row in rows ==> Covered(c, plan, row)
  }

  /** The plan notes only what is missing, each thing once, and everything the rows need
      is known or noted. */
  lemma {:induction false} PlanNotes(c: Catalog, rows: seq<ImportRow>)
    ensures NotedOk(c, PlanRows(c, rows)) && AllCovered(c, PlanRows(c, rows), rows)
  {
    if rows != [] {
      var n := |rows| - 1;
      var before := PlanRows(c, rows[..n]);
      PlanNotes(c, rows[..n]);
      RowNoted(c, before, rows[n]);
      CoversOneMore(c, before, PlanRow(c, before, rows[n]), rows);
    }
  }

  lemma CoversOneMore(c: Catalog, plan: Plan, after: Plan, rows: seq<ImportRow>)
    requires rows != [] && AllCovered(c, plan, rows[..|rows| - 1]) && Covered(c, after, rows[|rows| - 1])
    requires forall earlier :: Covered(c, plan, earlier) ==> Covered(c, after, earlier)
    ensures AllCovered(c, after, rows)
  {
    assert rows == rows[..|rows| - 1] + [rows[|rows| - 1]];
  }

  // ---------------------------------------------------------------------
  // The tables afterwards
  // ---------------------------------------------------------------------

  /** Which keys a list of names adds to a lookup, and what it leaves alone. */
  ghost predicate Adds(before: map<string, nat>, after: map<string, nat>, names: seq<string>, size: nat) {
    && (forall i :: 0 <= i < |names| ==> Key(names[i]) in after)
    && before.Keys <= after.Keys
    && (forall k :: k in before && (forall i :: 0 <= i < |names| ==> Key(names[i]) != k) ==> after[k] == before[k])
    && (forall k :: k in after && k !in before ==> after[k] >= size)
  }

  lemma AddsOne(before: map<string, nat>, mid: map<string, nat>, names: seq<string>, size: nat, id: nat)
    requires names != [] && Adds(before, mid, names[..|names| - 1], size) && id >= size
    ensures Adds(before, mid[Key(names[|names| - 1]) := id], names, size)
  {
    var n := |names| - 1;
    var after := mid[Key(names[n]) := id];
    forall i | 0 <= i < |names| ensures Key(names[i]) in after {
      assert i < n ==> names[..n][i] == names[i];
    }
    forall k | k in before && (forall i :: 0 <= i < |names| ==> Key(names[i]) != k) ensures after[k] == before[k] {
      assert forall i :: 0 <= i < n ==> names[..n][i] == names[i];
      assert Key(names[n]) != k;
    }
  }

  /** New categories are found under the keys of their names, and no other lookup changes. */
  lemma {:induction false} CategoriesFound(cs: seq<Category>, names: seq<string>)
    ensures |WithCategories(cs, names)| == |cs| + |names| && cs <= WithCategories(cs, names)
    ensures Adds(CategoryKeys(cs), CategoryKeys(WithCategories(cs, names)), names, |cs|)
  {
    if names != [] {
      var n := |names| - 1;
      CategoriesFound(cs, names[..n]);
      var before, after := WithCategories(cs, names[..n]), WithCategories(cs, names);
      assert after[..|after| - 1] == before;
      AddsOne(CategoryKeys(cs), CategoryKeys(before), names, |cs|, |before|);
    }
  }

  lemma {:induction false} BrandsFound(bs: seq<Brand>, names: seq<string>)
    ensures |WithBrands(bs, names)| == |bs| + |names| && bs <= WithBrands(bs, names)
    ensures Adds(BrandKeys(bs), BrandKeys(WithBrands(bs, names)), names, |bs|)
  {
    if names != [] {
      var n := |names| - 1;
      BrandsFound(bs, names[..n]);
      var before, after := WithBrands(bs, names[..n]), WithBrands(bs, names);
      assert after[..|after| - 1] == before;
      AddsOne(BrandKeys(bs), BrandKeys(before), names, |bs|, |before|);
    }
  }

  lemma {:induction false} VehiclesFound(vs: seq<VehicleRef>, more: seq<VehicleRef>)
    ensures forall i :: 0 <= i < |more| ==> KeyOfVehicle(more[i]) in VehicleKeys(vs + more)
    ensures forall k :: k in VehicleKeys(vs) ==> k in VehicleKeys(vs + more)
  {
    if more == [] {
      assert vs + more == vs;
    } else {
      var n := |more| - 1;
      VehiclesFound(vs, more[..n]);
      assert (vs + more)[..|vs + more| - 1] == vs + more[..n];
      assert forall i :: 0 <= i < n ==> more[..n][i] == more[i];
    }
  }

  lemma ValueAt<K(!new), V>(m: Ordered<K, V>, k: K) returns (i: nat)
    requires m.Valid() && k in m.values
    ensures i < |m.order| && m.order[i] == k && ValuesOf(m)[i] == m.values[k]
  {
    assert k in m.order;
    i :| 0 <= i < |m.order| && m.order[i] == k;
  }

  /** Names of new rows have keys the old tables do not have. */
  lemma NotedAreNew(c: Catalog, plan: Plan)
    requires NotedOk(c, plan)
    ensures forall i :: 0 <= i < |ValuesOf(plan.newCategories)| ==>
            Key(ValuesOf(plan.newCategories)[i]) !in CategoryKeys(c.categories)
    ensures forall i :: 0 <= i < |ValuesOf(plan.newBrands)| ==> Key(ValuesOf(plan.newBrands)[i]) !in BrandKeys(c.brands)
  {
    forall i | 0 <= i < |plan.newCategories.order|
      ensures Key(ValuesOf(plan.newCategories)[i]) !in CategoryKeys(c.categories) {
      assert plan.newCategories.order[i] in plan.newCategories.order;
    }
    forall i | 0 <= i < |plan.newBrands.order| ensures Key(ValuesOf(plan.newBrands)[i]) !in BrandKeys(c.brands) {
      assert plan.newBrands.order[i] in plan.newBrands.order;
    }
  }

  lemma CoveredIsKnown(c: Catalog, plan: Plan, row: ImportRow)
    requires NotedOk(c, plan) && Covered(c, plan, row)
    ensures Known(WithTables(c, plan), row)
  {
    CategoriesFound(c.categories, ValuesOf(plan.newCategories));
    BrandsFound(c.brands, ValuesOf(plan.newBrands));
    VehiclesFound(c.vehicles, ValuesOf(plan.newVehicles));
    if Key(row.category) in plan.newCategories.values {
      var i := ValueAt(plan.newCategories, Key(row.category));
    }
    if BrandKey(row).Some? && BrandKey(row).value in plan.newBrands.values {
      var i := ValueAt(plan.newBrands, BrandKey(row).value);
    }
    forall j | 0 <= j < |row.vehicles|
      ensures KeyOfVehicle(row.vehicles[j]) in VehicleKeys(WithTables(c, plan).vehicles) {
      if KeyOfVehicle(row.vehicles[j]) in plan.newVehicles.values {
        var i := ValueAt(plan.newVehicles, KeyOfVehicle(row.vehicles[j]));
        assert KeyOfVehicle(ValuesOf(plan.newVehicles)[i]) in VehicleKeys(c.vehicles + ValuesOf(plan.newVehicles));
      }
    }
  }

  /** Every lookup an import makes finds something. */
  lemma EveryLookupSucceeds(c: Catalog, rows: seq<ImportRow>, i: nat)
    requires i < |rows|
    ensures NotedOk(c, PlanRows(c, rows))
    ensures Known(WithTables(c, PlanRows(c, rows)), rows[i])
  {
    PlanNotes(c, rows);
    CoveredIsKnown(c, PlanRows(c, rows), rows[i]);
  }

  /** A brand the catalogue knew keeps its id, and a new one gets an id no product has. */
  lemma BrandIdsKept(c: Catalog, rows: seq<ImportRow>)
    ensures NotedOk(c, PlanRows(c, rows))
    ensures var after := WithTables(c, PlanRows(c, rows)).brands;
            && (forall k :: k in BrandKeys(c.brands) ==>
              k in BrandKeys(after) && BrandKeys(after)[k] == BrandKeys(c.brands)[k])
            && (forall k :: k in BrandKeys(after) && k !in BrandKeys(c.brands) ==> BrandKeys(after)[k] >= |c.brands|)
  {
    PlanNotes(c, rows);
    var plan := PlanRows(c, rows);
    NotedAreNew(c, plan);
    BrandsFound(c.brands, ValuesOf(plan.newBrands));
  }

  // ---------------------------------------------------------------------
  // Nothing left to note
  // ---------------------------------------------------------------------

  lemma {:induction false} NothingNew(c: Catalog, rows: seq<ImportRow>)
    requires forall i :: 0 <= i < |rows| ==> Known(c, rows[i])
    ensures var plan := PlanRows(c, rows);
            && plan.newCategories == EmptyPlan.newCategories && plan.newBrands == EmptyPlan.newBrands
            && plan.newVehicles == EmptyPlan.newVehicles
            && NotedOk(c, plan) && WithTables(c, plan) == c
  {
    PlanNotes(c, rows);
    if rows != [] {
      var n := |rows| - 1;
      assert forall i :: 0 <= i < n ==> rows[..n][i] == rows[i];
      NothingNew(c, rows[..n]);
      NoNewVehicles(VehicleKeys(c.vehicles), PlanRows(c, rows[..n]).newVehicles, rows[n].vehicles);
    }
    var plan := PlanRows(c, rows);
    assert ValuesOf(plan.newCategories) == [] && ValuesOf(plan.newBrands) == [] && ValuesOf(plan.newVehicles) == [];
  }

  lemma {:induction false} NoNewVehicles(known: map<VehicleKey, nat>, found: Ordered<VehicleKey, VehicleRef>,
      vs: seq<VehicleRef>)
    requires KnownVehicles(known, vs)
    ensures NewVehicles(known, found, vs) == found
  {
    if vs != [] {
      var n := |vs| - 1;
      assert forall i :: 0 <= i < n ==> vs[..n][i] == vs[i];
      NoNewVehicles(known, found, vs[..n]);
    }
  }
}
