/**
 * The products table: a read-only catalog, filled with eight demo products
 * the first time the server starts on an empty table.
 * Prices are whole cents rather than the table's floating-point REAL column.
 */
module Catalog {
  import opened Options

  /** One row of the products table. */
  datatype Product = Product(id: int, name: string, price: int, image: string)

  /** `id INTEGER PRIMARY KEY`: no two products share an id. */
  predicate UniqueIds(products: seq<Product>)
  {
    forall i, j :: 0 <= i < j < |products| ==> products[i].id != products[j].id
  }

  /** The product with the given id, as the join `cart.productId = products.id` finds it. */
  function Find(products: seq<Product>, id: int): (r: Option<Product>)
    ensures r.Some? ==> r.value in products && r.value.id == id
    ensures r.None? <==> forall k :: 0 <= k < |products| ==> products[k].id != id
  {
    if products == [] then None
    else if products[0].id == id then Some(products[0])
    else
      var r := Find(products[1..], id);
      assert r.None? ==> forall k :: 1 <= k < |products| ==> products[k].id != id by {
        if r.None? {
          forall k | 1 <= k < |products| ensures products[k].id != id {
            assert products[k] == products[1..][k - 1];
          }
        }
      }
      r
  }

  /** The seed rows in insertion order: name, price in cents, image token. */
  function SeedEntries(): (entries: seq<(string, int, string)>)
    ensures |entries| == 8
    ensures forall k :: 0 <= k < |entries| ==> entries[k].1 > 0
  {
    [
      ("Wireless Headphones", 7999, "\U{1F3A7}"),
      ("Smart Watch", 19999, "\U{231A}"),
      ("Laptop Stand", 4999, "\U{1F4BB}"),
      ("Mechanical Keyboard", 12999, "\U{2328}\U{FE0F}"),
      ("USB-C Hub", 3999, "\U{1F50C}"),
      ("Webcam HD", 8999, "\U{1F4F7}"),
      ("Phone Case", 2499, "\U{1F4F1}"),
      ("Portable Charger", 3499, "\U{1F50B}")
    ]
  }

  /** The rows an AUTOINCREMENT table gives to `entries` inserted one by one, starting at `firstId`. */
  function Numbered(entries: seq<(string, int, string)>, firstId: int): (r: seq<Product>)
    ensures |r| == |entries|
    ensures forall k :: 0 <= k < |r| ==>
      r[k] == Product(firstId + k, entries[k].0, entries[k].1, entries[k].2)
  {
    if entries == [] then []
    else [Product(firstId, entries[0].0, entries[0].1, entries[0].2)] + Numbered(entries[1..], firstId + 1)
  }

  /**
   * The products table after start-up: left alone when it has rows, otherwise
   * the eight seed entries with ids 1 to 8 (the first ids of a table that never had rows).
   */
  function SeedIfEmpty(products: seq<Product>): (r: seq<Product>)
    ensures products != [] ==> r == products
    ensures products == [] ==>
      && |r| == |SeedEntries()|
      && forall k :: 0 <= k < |r| ==>
           r[k].id == k + 1 && (r[k].name, r[k].price, r[k].image) == SeedEntries()[k]
    ensures UniqueIds(products) ==> UniqueIds(r)
    ensures r != []
  {
    if products != [] then products else Numbered(SeedEntries(), 1)
  }
}
