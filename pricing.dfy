/**
 * What the cart is worth: the join of cart lines with the catalog, the total
 * that `GET /api/cart` reports, and the receipt items and total of a checkout.
 */
module Pricing {
  import opened Options
  import opened Catalog
  import opened CartTable

  /** One row of `cart JOIN products`: the line's columns and its product's name, price and image. */
  datatype CartRow = CartRow(id: int, productId: int, qty: int, name: string, price: int, image: string)

  /** One receipt item of a checkout. */
  datatype ReceiptItem = ReceiptItem(name: string, qty: int, price: int, subtotal: int)

  function Joined(line: Line, product: Product): CartRow
  {
    CartRow(line.id, line.productId, line.qty, product.name, product.price, product.image)
  }

  /**
   * `FROM cart JOIN products ON cart.productId = products.id`, in cart row order:
   * a line whose product is missing from the catalog yields no row.
   */
  function Join(lines: seq<Line>, products: seq<Product>): (rows: seq<CartRow>)
    ensures |rows| <= |lines|
    ensures rows == [] <==> forall k :: 0 <= k < |lines| ==> Find(products, lines[k].productId).None?
  {
    if lines == [] then []
    else
      var rest := Join(lines[1..], products);
      assert rest == [] <==> forall k :: 1 <= k < |lines| ==> Find(products, lines[k].productId).None? by {
        assert forall k :: 1 <= k < |lines| ==> lines[k] == lines[1..][k - 1];
      }
      match Find(products, lines[0].productId)
      case Some(p) => [Joined(lines[0], p)] + rest
      case None => rest
  }

  /** The price of a product, or 0 for a product the catalog lacks (its lines drop out of the join). */
  function PriceOf(products: seq<Product>, productId: int): int
  {
    match Find(products, productId)
    case Some(p) => p.price
    case None => 0
  }

  /** What one cart line adds to the cart total. */
  function LineAmount(products: seq<Product>, line: Line): int
  {
    PriceOf(products, line.productId) * line.qty
  }

  /** `rows.reduce((sum, item) => sum + item.price * item.qty, 0)`: a left fold over the joined rows. */
  function CartTotal(rows: seq<CartRow>): (total: int)
    ensures rows == [] ==> total == 0
    ensures |rows| == 1 ==> total == rows[0].price * rows[0].qty
  {
    if rows == [] then 0 else CartTotal(rows[..|rows| - 1]) + rows[|rows| - 1].price * rows[|rows| - 1].qty
  }

  /** `rows.map(...)`: one receipt item per joined row, in the same order, with subtotal = price × qty. */
  function Items(rows: seq<CartRow>): (items: seq<ReceiptItem>)
    ensures |items| == |rows|
    ensures forall k :: 0 <= k < |rows| ==>
      items[k] == ReceiptItem(rows[k].name, rows[k].qty, rows[k].price, rows[k].price * rows[k].qty)
  {
    if rows == [] then []
    else [ReceiptItem(rows[0].name, rows[0].qty, rows[0].price, rows[0].price * rows[0].qty)] + Items(rows[1..])
  }

  /** `items.reduce((sum, item) => sum + item.subtotal, 0)`. */
  function ItemsTotal(items: seq<ReceiptItem>): (total: int)
    ensures items == [] ==> total == 0
    ensures |items| == 1 ==> total == items[0].subtotal
  {
    if items == [] then 0 else ItemsTotal(items[..|items| - 1]) + items[|items| - 1].subtotal
  }

  /** The cart total is additive over a split of the joined rows. */
  lemma {:induction false} CartTotalAppend(a: seq<CartRow>, b: seq<CartRow>)
    ensures CartTotal(a + b) == CartTotal(a) + CartTotal(b)
  {
    if b == [] {
      assert a + b == a;
    } else {
      assert (a + b)[..|a + b| - 1] == a + b[..|b| - 1];
      CartTotalAppend(a, b[..|b| - 1]);
    }
  }

  /** The join keeps row order: joining two stretches of the table joins each in turn. */
  lemma {:induction false} JoinAppend(a: seq<Line>, b: seq<Line>, products: seq<Product>)
    ensures Join(a + b, products) == Join(a, products) + Join(b, products)
  {
    if a == [] {
      assert a + b == b;
    } else {
      assert (a + b)[1..] == a[1..] + b;
      JoinAppend(a[1..], b, products);
    }
  }

  /** When every line's product is in the catalog, the join has exactly one row per line, in line order. */
  lemma {:induction false} JoinComplete(lines: seq<Line>, products: seq<Product>)
    requires forall k :: 0 <= k < |lines| ==> Find(products, lines[k].productId).Some?
    ensures |Join(lines, products)| == |lines|
    ensures forall k :: 0 <= k < |lines| ==>
      Join(lines, products)[k] == Joined(lines[k], Find(products, lines[k].productId).value)
  {
    if lines != [] {
      assert forall k :: 1 <= k < |lines| ==> lines[k] == lines[1..][k - 1];
      JoinComplete(lines[1..], products);
    }
  }

  /** The total of the joined cart is the sum of the line amounts, split over any cut of the table. */
  lemma JoinTotalAppend(a: seq<Line>, b: seq<Line>, products: seq<Product>)
    ensures CartTotal(Join(a + b, products)) == CartTotal(Join(a, products)) + CartTotal(Join(b, products))
  {
    JoinAppend(a, b, products);
    CartTotalAppend(Join(a, products), Join(b, products));
  }

  /** One line contributes its amount, which is 0 for a line whose product is missing. */
  lemma JoinTotalSingle(line: Line, products: seq<Product>)
    ensures CartTotal(Join([line], products)) == LineAmount(products, line)
  {
  }

  /** An inserted line raises the total by its amount. */
  lemma TotalAfterAppend(lines: seq<Line>, line: Line, products: seq<Product>)
    ensures CartTotal(Join(lines + [line], products)) == CartTotal(Join(lines, products)) + LineAmount(products, line)
  {
    JoinTotalAppend(lines, [line], products);
    JoinTotalSingle(line, products);
  }

  /** Replacing one line changes the total by the difference of the two lines' amounts. */
  lemma TotalAfterReplace(lines: seq<Line>, k: nat, line: Line, products: seq<Product>)
    requires k < |lines|
    ensures CartTotal(Join(lines[k := line], products))
         == CartTotal(Join(lines, products)) - LineAmount(products, lines[k]) + LineAmount(products, line)
  {
    var before, after := lines[..k], lines[k + 1..];
    assert lines == before + [lines[k]] + after;
    assert lines[k := line] == before + [line] + after;
    JoinTotalAppend(before + [lines[k]], after, products);
    JoinTotalAppend(before + [line], after, products);
    TotalAfterAppend(before, lines[k], products);
    TotalAfterAppend(before, line, products);
  }

  /** Growing a line by `delta` units raises its amount by the price of `delta` units. */
  lemma GrownLineAmount(products: seq<Product>, line: Line, delta: int)
    ensures LineAmount(products, line.(qty := line.qty + delta))
         == LineAmount(products, line) + PriceOf(products, line.productId) * delta
  {
  }

  /** Growing one line by `delta` units raises the total by the price of `delta` units of its product. */
  lemma TotalAfterGrow(lines: seq<Line>, k: nat, delta: int, products: seq<Product>)
    requires k < |lines|
    ensures CartTotal(Join(lines[k := lines[k].(qty := lines[k].qty + delta)], products))
         == CartTotal(Join(lines, products)) + PriceOf(products, lines[k].productId) * delta
  {
    TotalAfterReplace(lines, k, lines[k].(qty := lines[k].qty + delta), products);
    GrownLineAmount(products, lines[k], delta);
  }

  /** Deleting one line lowers the total by that line's amount. */
  lemma TotalAfterRemove(lines: seq<Line>, k: nat, products: seq<Product>)
    requires k < |lines|
    ensures CartTotal(Join(lines[..k] + lines[k + 1..], products))
         == CartTotal(Join(lines, products)) - LineAmount(products, lines[k])
  {
    var before, after := lines[..k], lines[k + 1..];
    assert lines == before + [lines[k]] + after;
    JoinTotalAppend(before + [lines[k]], after, products);
    JoinTotalAppend(before, after, products);
    TotalAfterAppend(before, lines[k], products);
  }

  /** The receipt total of a checkout equals the cart total `GET /api/cart` reports for the same rows. */
  lemma {:induction false} ReceiptTotalIsCartTotal(rows: seq<CartRow>)
    ensures ItemsTotal(Items(rows)) == CartTotal(rows)
  {
    if rows != [] {
      var init := rows[..|rows| - 1];
      var items := Items(rows);
      assert items[..|items| - 1] == Items(init);
      ReceiptTotalIsCartTotal(init);
    }
  }

  /** With non-negative prices and quantities the total is never negative. */
  lemma {:induction false} CartTotalNonNegative(rows: seq<CartRow>)
    requires forall k :: 0 <= k < |rows| ==> rows[k].price >= 0 && rows[k].qty >= 0
    ensures CartTotal(rows) >= 0
  {
    if rows != [] {
      CartTotalNonNegative(rows[..|rows| - 1]);
    }
  }
}
