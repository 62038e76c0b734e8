/** What a product spreadsheet contains and what the catalogue keeps.  Strings are ASCII,
    as accents are stripped before anything here happens.  Catalogue rows are never
    deleted by an import, so a row's id is its position in its table. */
module ImportTypes {
  import opened Wrappers
  import opened Text

  /** The columns' values, and what the lookup of the cell "constructor" finds: something every
      JavaScript object has under that name, which passes for a value until it is written. */
  datatype Condition = NEW | USED | RECONDITIONED | NO_CONDITION
  datatype ProductStatus = DRAFT | PUBLISHED | ARCHIVED | NO_STATUS

  type ColumnStatus = s: ProductStatus | s != NO_STATUS witness DRAFT

  datatype VehicleRef = VehicleRef(
    manufacturer: string,
    model: string,
    yearStart: nat,
    yearEnd: Option<nat>,
    engine: Option<string>)

  /** A validated row of the file; None stands for an empty cell. */
  datatype ImportRow = ImportRow(
    line: nat,
    name: string,
    description: Option<string>,
    descriptionFr: Option<string>,
    category: string,
    brand: Option<string>,
    partNumber: Option<string>,
    crossReference: seq<string>,
    condition: Condition,
    conditionNotes: Option<string>,
    price: nat,
    quantity: nat,
    vehicles: seq<VehicleRef>,
    status: Option<ProductStatus>)

  datatype Category = Category(name: string, nameFr: Option<string>, slug: string)

  datatype Brand = Brand(name: string, slug: string)

  datatype Item = Item(
    name: string,
    slug: string,
    description: string,
    descriptionFr: Option<string>,
    price: nat,
    quantity: int,
    condition: Condition,
    conditionNotes: Option<string>,
    partNumber: Option<string>,
    crossReference: seq<string>,
    category: nat,
    brand: Option<nat>,
    status: ProductStatus,
    vehicles: seq<nat>)

  datatype Catalog = Catalog(categories: seq<Category>, brands: seq<Brand>, vehicles: seq<VehicleRef>,
    products: seq<Item>)

  datatype VehicleKey = VehicleKey(manufacturer: string, model: string, yearStart: nat, yearEnd: Option<nat>,
    engine: string)

  function KeyOfVehicle(v: VehicleRef): VehicleKey {
    VehicleKey(Key(v.manufacturer), Key(v.model), v.yearStart, v.yearEnd, Key(v.engine.GetOr("")))
  }

  /** A brand whose name has no letter or digit counts as no brand. */
  function BrandKey(row: ImportRow): Option<string> {
    if row.brand.Some? && Key(row.brand.value) != "" then Some(Key(row.brand.value)) else None
  }

  // ---------------------------------------------------------------------
  // Lookup tables: the last row with a key wins
  // ---------------------------------------------------------------------

  function CategoryKeys(cs: seq<Category>): map<string, nat> {
    if cs == [] then map[]
    else
      var n := |cs| - 1;
      var c := cs[n];
      var named := CategoryKeys(cs[..n])[Key(c.name) := n];
      if c.nameFr.Some? && c.nameFr.value != "" then named[Key(c.nameFr.value) := n] else named
  }

  function BrandKeys(bs: seq<Brand>): map<string, nat> {
    if bs == [] then map[] else BrandKeys(bs[..|bs| - 1])[Key(bs[|bs| - 1].name) := |bs| - 1]
  }

  function VehicleKeys(vs: seq<VehicleRef>): map<VehicleKey, nat> {
    if vs == [] then map[] else VehicleKeys(vs[..|vs| - 1])[KeyOfVehicle(vs[|vs| - 1]) := |vs| - 1]
  }

  /** A brand or truck found under a key has that key, so different keys find different
      rows. */
  lemma {:induction false} BrandKeysInvert(bs: seq<Brand>)
    ensures forall k :: k in BrandKeys(bs) ==> BrandKeys(bs)[k] < |bs| && Key(bs[BrandKeys(bs)[k]].name) == k
  {
    if bs != [] {
      BrandKeysInvert(bs[..|bs| - 1]);
    }
  }

  lemma {:induction false} VehicleKeysInvert(vs: seq<VehicleRef>)
    ensures forall k :: k in VehicleKeys(vs) ==> VehicleKeys(vs)[k] < |vs| && KeyOfVehicle(vs[VehicleKeys(vs)[k]]) == k
  {
    if vs != [] {
      VehicleKeysInvert(vs[..|vs| - 1]);
    }
  }

  // ---------------------------------------------------------------------
  // Maps that remember the order of insertion
  // ---------------------------------------------------------------------

  datatype Ordered<K(==,!new), V> = Ordered(order: seq<K>, values: map<K, V>) {

    /** Overwriting keeps the place of the first insertion. */
    function Put(k: K, v: V): Ordered<K, V> {
      Ordered(if k in values then order else order + [k], values[k := v])
    }

    ghost predicate Valid() {
      && (forall i, j :: 0 <= i < j < |order| ==> order[i] != order[j])
      && (forall k :: k in order <==> k in values)
    }

    lemma PutValid(k: K, v: V)
      requires Valid()
      ensures Put(k, v).Valid()
    {
      var after := Put(k, v).order;
      forall x ensures x in after <==> x in Put(k, v).values {
        assert x in after <==> x in order || x == k;
      }
    }
  }
}
