/** The static product catalogue: for each product id, its display data and the
    ordered list of photo slots an authentication needs, with the lookup and the
    `map`/`filter` helpers built on it. */
module ProductConfig {
  import opened Wrappers
  import opened Text
  import opened Collections

  /** One required photograph of a product. */
  datatype PhotoSlot = PhotoSlot(id: string, name: string, description: string, icon: string, required: bool)

  /** The fields stored under a product id. */
  datatype ProductEntry = ProductEntry(name: string, brand: string, category: string, requiredPhotos: seq<PhotoSlot>)

  /** `{ id, ...productConfigs[id] }`: a product carrying its own key. */
  datatype Product = Product(id: string, name: string, brand: string, category: string, requiredPhotos: seq<PhotoSlot>)

  function Slot(id: string, name: string, description: string, icon: string): PhotoSlot {
    PhotoSlot(id, name, description, icon, true)
  }

  /** The photo slots of the Alexander Wang Attica Bag. */
  const AtticaSlots: seq<PhotoSlot> := [
    Slot("front", "Front View", "Full front view of the bag showing overall shape and design", "camera-outline"),
    Slot("material", "Material Close-up", "Close-up shot of the leather texture and grain", "search-outline"),
    Slot("label", "Brand Label", "Clear shot of Alexander Wang brand label or logo", "text-outline"),
    Slot("serial", "Serial Number", "Serial number or date code inside the bag", "barcode-outline"),
    Slot("zipper", "Zipper Details", "Close-up of zipper pulls and hardware branding", "lock-closed-outline"),
    Slot("hardware", "Hardware", "All metal hardware including studs and grommets", "hammer-outline"),
    Slot("inside", "Interior", "Interior lining, pockets, and construction", "eye-outline"),
    Slot("details", "Detail Shots", "Any unique features or distinguishing characteristics", "star-outline")
  ]

  /** The photo slots of the Louis Vuitton Neverfull. */
  const NeverfullSlots: seq<PhotoSlot> := [
    Slot("front", "Front View", "Full front view showing LV monogram pattern", "camera-outline"),
    Slot("canvas", "Canvas Pattern", "Close-up of monogram canvas quality and alignment", "grid-outline"),
    Slot("date-code", "Date Code", "Date code location and clear visibility", "calendar-outline"),
    Slot("hardware", "Hardware", "All metal hardware and D-rings", "hammer-outline"),
    Slot("stitching", "Stitching", "Quality of stitching and thread color", "build-outline"),
    Slot("handles", "Handles", "Leather handles and their attachment points", "hand-left-outline")
  ]

  /** The photo slots of the Chanel Classic Flap. */
  const ClassicFlapSlots: seq<PhotoSlot> := [
    Slot("front", "Front View", "Full front view showing quilting pattern", "camera-outline"),
    Slot("quilting", "Quilting Pattern", "Close-up of diamond quilting quality", "diamond"),
    Slot("cc-turnlock", "CC Turnlock", "Chanel CC turnlock mechanism and engraving", "lock-closed-outline"),
    Slot("chain", "Chain Strap", "Chain strap construction and weight", "link-outline"),
    Slot("serial-sticker", "Serial Sticker", "Authenticity sticker inside the bag", "bookmark-outline"),
    Slot("interior", "Interior", "Interior lining and CC stamp", "eye-outline")
  ]

  /** `productConfigs`, in the key order of the object literal. */
  const ProductConfigs: seq<(string, ProductEntry)> := [
    ("attica-bag", ProductEntry("Alexander Wang Attica Bag", "Alexander Wang", "luxury-handbags", AtticaSlots)),
    ("louis-vuitton-neverfull", ProductEntry("Louis Vuitton Neverfull", "Louis Vuitton", "luxury-handbags", NeverfullSlots)),
    ("chanel-classic-flap", ProductEntry("Chanel Classic Flap", "Chanel", "luxury-handbags", ClassicFlapSlots))
  ]

  /** The slot ids of a slot list are pairwise distinct. */
  predicate DistinctIds(slots: seq<PhotoSlot>) {
    forall i, j :: 0 <= i < j < |slots| ==> slots[i].id != slots[j].id
  }

  /** The set of slot ids of a slot list. */
  function SlotIds(slots: seq<PhotoSlot>): set<string> {
    set i | 0 <= i < |slots| :: slots[i].id
  }

  /** A usable slot list: non-empty with distinct ids. */
  predicate WellFormedSlots(slots: seq<PhotoSlot>) {
    |slots| > 0 && DistinctIds(slots)
  }

  /** With distinct ids there are exactly as many ids as slots. */
  lemma {:induction false} SlotIdsCount(slots: seq<PhotoSlot>)
    requires DistinctIds(slots)
    ensures |SlotIds(slots)| == |slots|
  {
    if slots != [] {
      var rest := slots[1..];
      SlotIdsCount(rest);
      assert SlotIds(slots) == {slots[0].id} + SlotIds(rest) by {
        forall x | x in SlotIds(slots) ensures x in {slots[0].id} + SlotIds(rest) {
          var i :| 0 <= i < |slots| && slots[i].id == x;
          if i > 0 { assert rest[i - 1].id == x; }
        }
      }
      assert slots[0].id !in SlotIds(rest);
    }
  }

  /** The keys of the table are pairwise distinct. */
  predicate DistinctKeys(table: seq<(string, ProductEntry)>) {
    forall i, j :: 0 <= i < j < |table| ==> table[i].0 != table[j].0
  }

  /** Every configured product has a non-empty list of required photos whose ids
      are pairwise distinct, and no product id is configured twice. */
  lemma CatalogueWellFormed()
    ensures DistinctKeys(ProductConfigs)
    ensures forall i :: 0 <= i < |ProductConfigs| ==> WellFormedSlots(ProductConfigs[i].1.requiredPhotos)
  {
    AtticaSlotsWellFormed();
    NeverfullSlotsWellFormed();
    ClassicFlapSlotsWellFormed();
  }

  lemma AtticaSlotsWellFormed()
    ensures WellFormedSlots(AtticaSlots)
  {
  }

  lemma NeverfullSlotsWellFormed()
    ensures WellFormedSlots(NeverfullSlots)
  {
  }

  lemma ClassicFlapSlotsWellFormed()
    ensures WellFormedSlots(ClassicFlapSlots)
  {
  }

  /** The entry stored under `key`, if any. */
  function Lookup(table: seq<(string, ProductEntry)>, key: string): (r: Option<ProductEntry>)
    ensures r.None? <==> forall i :: 0 <= i < |table| ==> table[i].0 != key
    ensures r.Some? ==> exists i :: 0 <= i < |table| && table[i] == (key, r.value)
  {
    if table == [] then None
    else if table[0].0 == key then Some(table[0].1)
    else Lookup(table[1..], key)
  }

  /** `getProductConfig(productId)`: the entry for a configured id, `null` otherwise. */
  function GetProductConfig(productId: string): Option<ProductEntry> {
    Lookup(ProductConfigs, productId)
  }

  /** A configured id yields exactly its own entry; any other id yields nothing. */
  lemma GetProductConfigSpec(productId: string)
    ensures forall i :: 0 <= i < |ProductConfigs| && ProductConfigs[i].0 == productId ==>
      GetProductConfig(productId) == Some(ProductConfigs[i].1)
    ensures (forall i :: 0 <= i < |ProductConfigs| ==> ProductConfigs[i].0 != productId) ==>
      GetProductConfig(productId) == None
  {
    CatalogueWellFormed();
  }

  /** A product id the table configures. */
  predicate IsKnownProduct(productId: string) {
    GetProductConfig(productId).Some?
  }

  /** Whatever `getProductConfig` returns has a usable slot list. */
  lemma KnownProductSlots(productId: string)
    requires IsKnownProduct(productId)
    ensures WellFormedSlots(GetProductConfig(productId).value.requiredPhotos)
  {
    CatalogueWellFormed();
  }

  function WithId(key: string, e: ProductEntry): Product {
    Product(key, e.name, e.brand, e.category, e.requiredPhotos)
  }

  /** `getAllProducts()`: one product per key, in key order, carrying its key as `id`. */
  function GetAllProducts(): (r: seq<Product>)
    ensures |r| == |ProductConfigs|
    ensures forall i :: 0 <= i < |r| ==>
      && r[i].id == ProductConfigs[i].0
      && GetProductConfig(r[i].id) == Some(ProductEntry(r[i].name, r[i].brand, r[i].category, r[i].requiredPhotos))
  {
    CatalogueWellFormed();
    seq(|ProductConfigs|, i requires 0 <= i < |ProductConfigs| => WithId(ProductConfigs[i].0, ProductConfigs[i].1))
  }

  /** Every product listed by `getAllProducts` is found again by its id. */
  lemma AllProductsKnown(p: Product)
    requires p in GetAllProducts()
    ensures IsKnownProduct(p.id)
  {
    var all := GetAllProducts();
    var j :| 0 <= j < |all| && all[j] == p;
    assert GetProductConfig(all[j].id).Some?;
  }

  /** The brand test of `getProductsByBrand`: equal after lower-casing both sides. */
  predicate SameBrand(p: Product, brandName: string) {
    Lower(p.brand) == Lower(brandName)
  }

  /** `getProductsByBrand(brandName)`. */
  function GetProductsByBrand(brandName: string): (r: seq<Product>)
    ensures forall i :: 0 <= i < |r| ==> SameBrand(r[i], brandName)
    ensures forall p :: p in GetAllProducts() && SameBrand(p, brandName) ==> p in r
    ensures IsSubsequence(r, GetAllProducts())
  {
    var all, test := GetAllProducts(), (p: Product) => SameBrand(p, brandName);
    FilterComplete(all, test);
    Filter(all, test)
  }

  /** `getProductsByCategory(category)`: the category must match exactly. */
  function GetProductsByCategory(category: string): (r: seq<Product>)
    ensures forall i :: 0 <= i < |r| ==> r[i].category == category
    ensures forall p :: p in GetAllProducts() && p.category == category ==> p in r
    ensures IsSubsequence(r, GetAllProducts())
  {
    var all, test := GetAllProducts(), (p: Product) => p.category == category;
    FilterComplete(all, test);
    Filter(all, test)
  }
}
