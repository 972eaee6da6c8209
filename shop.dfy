/**
 * The cart handlers of the server as one object: the catalog, the cart table and
 * the AUTOINCREMENT counter of the cart table. Each handler is one atomic method
 * that either succeeds or returns the error the handler answers with.
 */
module Shop {
  import opened Options
  import opened Catalog
  import opened CartTable
  import opened Pricing
  import opened OrderIds

  /** The client errors the handlers answer with (400 and 404 responses). */
  datatype Error =
    | MissingProductId        // 'productId is required'
    | InvalidQuantity         // 'Invalid quantity'
    | NotFound                // 'Cart item not found'
    | MissingCustomerDetails  // 'Name and email are required'
    | EmptyCart               // 'Cart is empty'

  datatype Result<+T> = Ok(value: T) | Err(error: Error)

  /** The body of a successful `POST /api/cart`. */
  datatype AddReply =
    | CartUpdated(productId: int, qty: int)
    | ItemAdded(id: int, productId: int, qty: int)

  /** The body of a successful `PUT /api/cart/:id`. */
  datatype UpdateReply = ItemUpdated(id: int, qty: int)

  /** The body of a successful `POST /api/checkout`. */
  datatype Receipt = Receipt(
    orderId: string,
    customerName: string,
    customerEmail: string,
    items: seq<ReceiptItem>,
    total: int,
    timestamp: string)

  /** `!productId`: an absent product id, or 0. */
  function IsFalsy(productId: Option<int>): (falsy: bool)
    ensures productId.None? ==> falsy
    ensures productId.Some? ==> (falsy <==> productId.value == 0)
  {
    productId.None? || productId.value == 0
  }

  /** `const { qty = 1 } = req.body`. */
  function QtyOrDefault(qty: Option<int>): (q: int)
    ensures qty.None? ==> q == 1
    ensures qty.Some? ==> q == qty.value
  {
    if qty.Some? then qty.value else 1
  }

  /** The negation of `!qty || qty < 1`. */
  function AcceptableQty(qty: Option<int>): (ok: bool)
    ensures qty.None? ==> !ok
    ensures qty.Some? ==> (ok <==> qty.value >= 1)
  {
    qty.Some? && qty.value >= 1
  }

  class Store {
    /** The products table, read-only once seeded. */
    const products: seq<Product>
    /** The cart table, in row order. */
    var lines: seq<Line>
    /** The id AUTOINCREMENT gives the next inserted line. */
    var nextId: int
    /** Every line id handed out so far. */
    ghost var issued: set<int>

    ghost predicate Valid()
      reads this
    {
      && UniqueIds(products)
      && OneLinePerProduct(lines)
      && IdsAscending(lines)
      && 1 <= nextId
      && (forall id :: id in issued ==> id < nextId)
      && (forall k :: 0 <= k < |lines| ==> lines[k].id in issued)
    }

    /** The server starting on a products table `stored` (seeded if empty) and an empty cart. */
    constructor (stored: seq<Product>)
      requires UniqueIds(stored)
      ensures Valid()
      ensures products == SeedIfEmpty(stored)
      ensures lines == [] && nextId == 1 && issued == {}
    {
      products := SeedIfEmpty(stored);
      lines := [];
      nextId := 1;
      issued := {};
    }

    /** `GET /api/cart`: the joined rows and their total. */
    method GetCart() returns (rows: seq<CartRow>, total: int)
      ensures rows == Join(lines, products)
      ensures total == CartTotal(rows)
      ensures lines == [] ==> rows == [] && total == 0
    {
      rows := Join(lines, products);
      total := CartTotal(rows);
    }

    /** `UPDATE cart SET qty = qty + ? WHERE productId = ?` when the line at `k` is the product's line. */
    method GrowLine(k: nat, delta: int)
      requires Valid() && k < |lines|
      modifies this
      ensures Valid()
      ensures lines == old(lines)[k := old(lines)[k].(qty := old(lines)[k].qty + delta)]
      ensures nextId == old(nextId) && issued == old(issued)
      ensures old(PositiveQuantities(lines)) && old(lines)[k].qty + delta >= 1 ==> PositiveQuantities(lines)
    {
      AddQtyTouchesOneLine(lines, lines[k].productId, delta, k);
      ReplaceQtyPreserves(lines, k, lines[k].qty + delta);
      lines := AddQtyWhereProduct(lines, lines[k].productId, delta);
    }

    /** `INSERT INTO cart (productId, qty) VALUES (?, ?)` for a product without a line; returns `this.lastID`. */
    method InsertLine(productId: int, qty: int) returns (id: int)
      requires Valid()
      requires SelectByProduct(lines, productId).None?
      modifies this
      ensures Valid()
      ensures id == old(nextId) && id !in old(issued)
      ensures lines == old(lines) + [Line(id, productId, qty)]
      ensures issued == old(issued) + {id} && nextId == old(nextId) + 1
      ensures old(PositiveQuantities(lines)) && qty >= 1 ==> PositiveQuantities(lines)
    {
      id := nextId;
      AppendPreserves(lines, Line(id, productId, qty));
      lines := lines + [Line(id, productId, qty)];
      issued := issued + {id};
      nextId := nextId + 1;
    }

    /** `POST /api/cart`: add `qty` (default 1) of a product, growing its line if it has one. */
    method Add(productId: Option<int>, qty: Option<int>) returns (r: Result<AddReply>)
      requires Valid()
      modifies this
      ensures Valid()
      ensures IsFalsy(productId) ==>
        r == Err(MissingProductId) && lines == old(lines) && nextId == old(nextId) && issued == old(issued)
      ensures !IsFalsy(productId) && SelectByProduct(old(lines), productId.value).Some? ==>
        var p, q, k := productId.value, QtyOrDefault(qty), SelectByProduct(old(lines), productId.value).value;
        && lines == old(lines)[k := old(lines)[k].(qty := old(lines)[k].qty + q)]
        && r == Ok(CartUpdated(p, lines[k].qty))
        && nextId == old(nextId) && issued == old(issued)
      ensures !IsFalsy(productId) && SelectByProduct(old(lines), productId.value).None? ==>
        var p, q := productId.value, QtyOrDefault(qty);
        && old(nextId) !in old(issued)
        && lines == old(lines) + [Line(old(nextId), p, q)]
        && r == Ok(ItemAdded(old(nextId), p, q))
        && issued == old(issued) + {old(nextId)} && nextId == old(nextId) + 1
      ensures old(PositiveQuantities(lines)) && QtyOrDefault(qty) >= 1 ==> PositiveQuantities(lines)
    {
      if IsFalsy(productId) {
        return Err(MissingProductId);
      }
      var p, q := productId.value, QtyOrDefault(qty);
      var row := SelectByProduct(lines, p);
      if row.Some? {
        var stored := lines[row.value].qty;
        GrowLine(row.value, q);
        r := Ok(CartUpdated(p, stored + q));
      } else {
        var id := InsertLine(p, q);
        r := Ok(ItemAdded(id, p, q));
      }
    }

    /** `PUT /api/cart/:id`: overwrite the quantity of one line. */
    method UpdateQty(id: int, qty: Option<int>) returns (r: Result<UpdateReply>)
      requires Valid()
      modifies this
      ensures Valid()
      ensures nextId == old(nextId) && issued == old(issued)
      ensures !AcceptableQty(qty) ==> r == Err(InvalidQuantity) && lines == old(lines)
      ensures AcceptableQty(qty) && SelectById(old(lines), id).None? ==> r == Err(NotFound) && lines == old(lines)
      ensures AcceptableQty(qty) && SelectById(old(lines), id).Some? ==>
        var k := SelectById(old(lines), id).value;
        && lines == old(lines)[k := old(lines)[k].(qty := qty.value)]
        && r == Ok(ItemUpdated(id, qty.value))
      ensures old(PositiveQuantities(lines)) ==> PositiveQuantities(lines)
    {
      if qty.None? || qty.value < 1 {
        return Err(InvalidQuantity);
      }
      var changes := CountId(lines, id);
      ghost var found := SelectById(lines, id);
      if found.Some? {
        var k := found.value;
        SetQtyTouchesOneLine(lines, id, qty.value, k);
        ReplaceQtyPreserves(lines, k, qty.value);
      } else {
        SetQtyNoMatch(lines, id, qty.value);
      }
      lines := SetQtyWhereId(lines, id, qty.value);
      if changes == 0 {
        r := Err(NotFound);
      } else {
        r := Ok(ItemUpdated(id, qty.value));
      }
    }

    /** `DELETE /api/cart/:id`: delete one line. */
    method Remove(id: int) returns (r: Result<int>)
      requires Valid()
      modifies this
      ensures Valid()
      ensures nextId == old(nextId) && issued == old(issued)
      ensures SelectById(old(lines), id).None? ==> r == Err(NotFound) && lines == old(lines)
      ensures SelectById(old(lines), id).Some? ==>
        var k := SelectById(old(lines), id).value;
        && lines == old(lines)[..k] + old(lines)[k + 1..]
        && r == Ok(id)
      ensures old(PositiveQuantities(lines)) ==> PositiveQuantities(lines)
    {
      var changes := CountId(lines, id);
      ghost var found := SelectById(lines, id);
      if found.Some? {
        var k := found.value;
        DeleteOneLine(lines, id, k);
        RemoveAtPreserves(lines, k);
      } else {
        DeleteNoMatch(lines, id);
      }
      lines := DeleteWhereId(lines, id);
      if changes == 0 {
        r := Err(NotFound);
      } else {
        r := Ok(id);
      }
    }

    /**
     * `POST /api/checkout`: turn the joined cart into a receipt and empty the cart.
     * `clock` stands for `Date.now()` and `timestamp` for the ISO time of the order.
     */
    method Checkout(name: string, email: string, clock: nat, timestamp: string) returns (r: Result<Receipt>)
      requires Valid()
      modifies this
      ensures Valid()
      ensures nextId == old(nextId) && issued == old(issued)
      ensures name == [] || email == [] ==> r == Err(MissingCustomerDetails) && lines == old(lines)
      ensures name != [] && email != [] && Join(old(lines), products) == [] ==>
        r == Err(EmptyCart) && lines == old(lines)
      ensures name != [] && email != [] && Join(old(lines), products) != [] ==>
        var items := Items(Join(old(lines), products));
        && r == Ok(Receipt(OrderId(clock), name, email, items, ItemsTotal(items), timestamp))
        && r.value.total == old(CartTotal(Join(lines, products)))
        && lines == []
    {
      if name == [] || email == [] {
        return Err(MissingCustomerDetails);
      }
      var rows := Join(lines, products);
      if |rows| == 0 {
        return Err(EmptyCart);
      }
      var items := Items(rows);
      var total := ItemsTotal(items);
      ReceiptTotalIsCartTotal(rows);
      var receipt := Receipt(OrderId(clock), name, email, items, total, timestamp);
      lines := [];
      r := Ok(receipt);
    }
  }

  /** Two adds of one unit of the same product from an empty cart leave one line of quantity two. */
  method RepeatedAddAccumulates() returns (lines: seq<Line>)
    ensures lines == [Line(1, 1, 2)]
  {
    var store := new Store([Product(1, "A", 1000, "a")]);
    var first := store.Add(Some(1), Some(1));
    assert store.lines == [Line(1, 1, 1)];
    assert SelectByProduct(store.lines, 1) == Some(0);
    var second := store.Add(Some(1), None);
    lines := store.lines;
  }

  /** A store whose cart holds two units of product A at 10.00 and one of product B at 5.00. */
  method TwoProductCart() returns (store: Store)
    ensures fresh(store) && store.Valid()
    ensures store.products == [Product(1, "A", 1000, "a"), Product(2, "B", 500, "b")]
    ensures store.lines == [Line(1, 1, 2), Line(2, 2, 1)]
  {
    store := new Store([Product(1, "A", 1000, "a"), Product(2, "B", 500, "b")]);
    var addA := store.Add(Some(1), Some(2));
    assert store.lines == [Line(1, 1, 2)];
    assert SelectByProduct(store.lines, 2).None?;
    var addB := store.Add(Some(2), Some(1));
  }

  /** Two units at 10.00 and one at 5.00 check out to 25.00, and the cart is empty afterwards. */
  method CheckoutOfTwoProducts() returns (r: Result<Receipt>, after: seq<Line>)
    ensures r.Ok?
    ensures r.value.items == [ReceiptItem("A", 2, 1000, 2000), ReceiptItem("B", 1, 500, 500)]
    ensures r.value.total == 2500
    ensures after == []
  {
    var store := TwoProductCart();
    ghost var rows := [CartRow(1, 1, 2, "A", 1000, "a"), CartRow(2, 2, 1, "B", 500, "b")];
    assert Join(store.lines, store.products) == rows by {
      assert Find(store.products, 1) == Some(store.products[0]);
      assert Find(store.products, 2) == Some(store.products[1]);
      JoinComplete(store.lines, store.products);
    }
    assert CartTotal(rows) == 2500 by {
      assert rows[..1] == [rows[0]];
    }
    assert Items(rows) == [ReceiptItem("A", 2, 1000, 2000), ReceiptItem("B", 1, 500, 500)];
    r := store.Checkout("Ada", "ada@example.com", 1700000000000, "2023-11-14T22:13:20.000Z");
    after := store.lines;
  }

  /** A line whose product is not in the catalog is invisible to checkout, which then finds the cart empty and keeps the line. */
  method OrphanLineBlocksCheckout() returns (r: Result<Receipt>, after: seq<Line>)
    ensures r == Err(EmptyCart)
    ensures after == [Line(1, 99, 1)]
  {
    var catalog := [Product(1, "A", 1000, "a")];
    var store := new Store(catalog);
    var add := store.Add(Some(99), None);
    assert store.lines == [Line(1, 99, 1)];
    assert Find(catalog, 99).None?;
    assert Join(store.lines, catalog) == [] by {
      assert store.lines[1..] == [];
    }
    r := store.Checkout("Ada", "ada@example.com", 0, "1970-01-01T00:00:00.000Z");
    after := store.lines;
  }

  /** `add` does not validate the quantity: a quantity of 0 is stored as given. */
  method ZeroQuantityIsStored() returns (r: Result<AddReply>, after: seq<Line>)
    ensures r == Ok(ItemAdded(1, 5, 0))
    ensures after == [Line(1, 5, 0)] && !PositiveQuantities(after)
  {
    var store := new Store([Product(5, "E", 100, "e")]);
    r := store.Add(Some(5), Some(0));
    after := store.lines;
    assert after[0].qty < 1;
  }
}
