# Vibe-Commerce cart, modelled in Dafny

This project models the cart of the Vibe-Commerce demo shop's backend
(`backend/server.js`). The backend keeps two SQLite tables: a products catalog,
seeded with eight demo products on first start, and one shared cart of lines
`{id, productId, qty}`. Four route handlers change the cart, and one reads it:

- `POST /api/cart` adds to the cart. It is an upsert keyed by product: an existing
  line of that product grows by `qty`, and otherwise a new line is inserted. `qty`
  defaults to 1.
- `PUT /api/cart/:id` overwrites the quantity of one line.
- `DELETE /api/cart/:id` deletes one line.
- `GET /api/cart` joins the lines with the catalog and reports the total Σ price × qty.
- `POST /api/checkout` builds a receipt from the joined cart and then empties the cart.

Modules:

- `Catalog` (`catalog.dfy`): the products table and the seed-if-empty step.
- `CartTable` (`cart_table.dfy`): the SQL statements the handlers run on the cart
  table, each a function over the rows in row order. It also holds the table
  invariants (one line per product, ascending ids) and the lemmas showing which
  rows each statement touches.
- `Pricing` (`pricing.dfy`): the `cart JOIN products` rows, the `reduce` totals and
  the receipt items. It also has lemmas on how each cart change moves the total,
  and a lemma that the receipt total equals the cart total.
- `OrderIds` (`order_ids.dfy`): order ids of the form `ORD-<clock>`.
- `Shop` (`shop.dfy`): class `Store`. It holds the catalog, the cart lines, the
  AUTOINCREMENT counter and a ghost set of every line id handed out so far. It has
  one atomic method per handler, each returning `Ok(reply)` or `Err(error)`, with
  `Valid()` as the object invariant. Small client methods work through examples:
  a repeated add, a two-product checkout, a cart holding only an orphan line,
  and an add with quantity 0.

Modelling choices:

- Prices are integers (cents). The source stores them as floating-point `REAL`.
- An absent request field is `None` for `productId` and `qty`. JavaScript's
  falsy test `!productId` is true for an absent id and for 0, and `IsFalsy`
  says exactly that.
- An absent `name` or `email` is the empty string, because both fail `!name` in
  the same way.
- `add` does not check that the product exists. SQLite does not enforce foreign
  keys unless told to, so a line may name a product missing from the catalog. Both
  joins drop such a line. `DELETE FROM cart` on a successful checkout still removes
  it.
- When the joined cart is empty, checkout answers `EmptyCart` and deletes nothing.
  So orphan lines alone block checkout and stay in the cart
  (`Shop.OrphanLineBlocksCheckout`).
- `add` never validates `qty`. "Every quantity is at least 1" is therefore kept
  only while `add` is given quantities of at least 1. Each method states it as a
  conditional, and `Shop.ZeroQuantityIsStored` shows the other case.
- The join returns rows in cart row order: SQLite scans the cart and looks each
  product up by its primary key.
- `DELETE FROM cart` does not reset an AUTOINCREMENT counter. Line ids are
  therefore never reused, checkout included.
- The methods state the new cart lines exactly. The effect of each change on the
  cart total is stated by the `Pricing.TotalAfter*` lemmas about those same line
  sequences.

## Model

| member | source | states |
|---|---|---|
| `Catalog.Find` | backend/server.js:83 | the join's product lookup: the result is a catalog product with that id, and there is none exactly when no row has that id |
| `Catalog.SeedEntries` | backend/server.js:45-54 | the seed list has eight entries, each with a positive price (whole cents of the listed prices) |
| `Catalog.Numbered` | backend/server.js:56-57 | rows inserted one by one into an AUTOINCREMENT table get consecutive ids in insertion order, with the given name, price and image |
| `Catalog.SeedIfEmpty` | backend/server.js:38-60 | a non-empty products table is left alone; an empty one becomes the eight seed products with ids 1 to 8 in listed order; ids stay unique and the table is never empty afterwards |
| `CartTable.SelectByProduct` | backend/server.js:104 | `db.get` of `WHERE productId = ?` finds the first row of that product, or none exactly when no row has it |
| `CartTable.SelectById` | backend/server.js:143 | the first row whose id matches, or none exactly when no row carries that id |
| `CartTable.CountId` | backend/server.js:147 | `this.changes` of a statement keyed by id is 0 exactly when no row has that id, and never exceeds the row count |
| `CartTable.AddQtyWhereProduct` | backend/server.js:112 | the increment keeps every row's id, product and position; rows of the product grow by the delta and all other rows keep their quantity |
| `CartTable.SetQtyWhereId` | backend/server.js:143 | the overwrite keeps ids, products and positions; rows with the id get the new quantity and the others keep theirs |
| `CartTable.DeleteWhereId` | backend/server.js:159 | the delete removes as many rows as carry the id, and no surviving row carries it |
| `CartTable.AddQtyTouchesOneLine` | backend/server.js:104-117 | with one line per product, the increment changes exactly the line the SELECT found, to old qty + qty |
| `CartTable.SetQtyTouchesOneLine` | backend/server.js:143-151 | with ascending ids (the cart's row order), the update changes only the line with that id, to exactly the given quantity |
| `CartTable.SetQtyNoMatch` | backend/server.js:143-148 | an update whose id matches no line leaves the table unchanged (the NotFound case) |
| `CartTable.DeleteOneLine` | backend/server.js:159-166 | with ascending ids (the cart's row order), the delete removes exactly the line with that id and keeps the others in order |
| `CartTable.DeleteFirstLine` | backend/server.js:159 | with ascending ids, deleting the first row's id removes that row alone |
| `CartTable.DeleteNoMatch` | backend/server.js:159-164 | a delete whose id matches no line leaves the table unchanged (the NotFound case) |
| `CartTable.ReplaceQtyPreserves` | backend/server.js:143 | changing one line's quantity keeps ids and products, both table invariants, and positivity when the new quantity is at least 1 |
| `CartTable.RemoveAtPreserves` | backend/server.js:159 | deleting one line keeps one-line-per-product, ascending ids and positive quantities, and leaves only original lines |
| `CartTable.AppendPreserves` | backend/server.js:120-122 | inserting a line for a product not yet in the cart, with an id above all others, keeps both table invariants |
| `Pricing.Join` | backend/server.js:80-84 | the joined cart has no more rows than the table has lines, and is empty exactly when no line's product is in the catalog |
| `Pricing.JoinAppend` | backend/server.js:180-184 | the join keeps row order: joining two stretches of the table is joining each and concatenating |
| `Pricing.JoinComplete` | backend/server.js:80-84 | when every line's product exists, the join has one row per line, in line order, carrying the line's id, product and qty with its product's name, price and image |
| `Pricing.Items` | backend/server.js:194-199 | one receipt item per joined row, in the same order, with name, qty, price and subtotal = price × qty |
| `Pricing.CartTotal` | backend/server.js:89 | the reduce over the joined rows: 0 for no rows and price × qty for one row; with `Pricing.CartTotalAppend` it is the sum of price × qty over the rows, `Pricing.JoinTotalSingle` gives one line's share, and `Pricing.CartTotalNonNegative` bounds it below by 0 |
| `Pricing.ItemsTotal` | backend/server.js:201 | the reduce over the receipt subtotals: 0 for no items and the subtotal for one item; `Pricing.ReceiptTotalIsCartTotal` shows it equals `Pricing.CartTotal` of the rows the items come from |
| `Pricing.CartTotalAppend` | backend/server.js:89 | the total of the joined rows is additive over any split of the rows |
| `Pricing.CartTotalNonNegative` | backend/server.js:89 | with non-negative prices and quantities the cart total is never negative |
| `Pricing.JoinTotalAppend` | backend/server.js:79-93 | the cart total of a table is the sum of the totals of any two stretches it splits into |
| `Pricing.JoinTotalSingle` | backend/server.js:89 | one line contributes price × qty to the total, or 0 when its product is missing |
| `Pricing.TotalAfterAppend` | backend/server.js:120-128 | inserting a line raises the cart total by that line's price × qty |
| `Pricing.GrownLineAmount` | backend/server.js:112 | growing a line by delta units raises its amount by price × delta |
| `Pricing.TotalAfterGrow` | backend/server.js:110-117 | growing an existing line by qty raises the cart total by price × qty |
| `Pricing.TotalAfterReplace` | backend/server.js:143-151 | overwriting one line changes the cart total by the new amount minus the old amount |
| `Pricing.TotalAfterRemove` | backend/server.js:159-166 | deleting one line lowers the cart total by that line's amount |
| `Pricing.ReceiptTotalIsCartTotal` | backend/server.js:194-201 | the checkout total, the sum of the receipt subtotals, equals the cart total `GET /api/cart` reports for the same rows |
| `OrderIds.DigitChar` | backend/server.js:204 | a digit below ten prints as a character between '0' and '9' |
| `OrderIds.Decimal` | backend/server.js:204 | the printed clock reading is non-empty and all digits, one digit exactly for values below ten, with no leading zero |
| `OrderIds.OrderId` | backend/server.js:204 | the order id is `ORD-` followed by at least one digit and only digits, with no leading zero past a single digit |
| `OrderIds.DecimalInjective` | backend/server.js:204 | two clock readings that print the same are equal |
| `OrderIds.OrderIdsDiffer` | backend/server.js:204 | checkouts at different clock readings get different order ids |
| `Shop.IsFalsy` | backend/server.js:99 | `!productId` holds for an absent product id, and for a present one exactly when it is 0 |
| `Shop.QtyOrDefault` | backend/server.js:97 | the destructuring default: an absent qty becomes 1, a present one is taken as given |
| `Shop.AcceptableQty` | backend/server.js:139 | the update's guard `!qty \|\| qty < 1` passes no absent qty, and passes a present one exactly when it is at least 1 |
| `Shop.Store.constructor` | backend/server.js:38-60 | the server starts on the seeded catalog with an empty cart, the id counter at 1 and no ids issued, and the invariant holds |
| `Shop.Store.GetCart` | backend/server.js:79-93 | the reply is the joined rows in cart order with total Σ price × qty; an empty cart gives no rows and total 0 |
| `Shop.Store.GrowLine` | backend/server.js:110-119 | the UPDATE branch of add: only the product's line changes, its qty becomes old qty + delta; the invariant and the counter are kept |
| `Shop.Store.InsertLine` | backend/server.js:120-129 | the INSERT branch of add: exactly one line is appended, with a fresh id never issued before; the counter advances by one |
| `Shop.Store.Add` | backend/server.js:96-132 | a falsy productId is rejected with the cart unchanged; a product already in the cart keeps the line count and grows its line by qty (default 1), replying the stored qty; otherwise one new line with a fresh id and the given qty is appended; one line per product and ascending ids are kept; positive quantities are kept when qty ≥ 1 |
| `Shop.Store.UpdateQty` | backend/server.js:135-153 | a missing qty or qty < 1 is rejected, and an unknown id gives NotFound, both with the cart unchanged; otherwise only that line's qty changes, to exactly the given value |
| `Shop.Store.Remove` | backend/server.js:156-169 | an unknown id gives NotFound with the cart unchanged; otherwise exactly that line is deleted and the others keep their order |
| `Shop.Store.Checkout` | backend/server.js:172-223 | an empty name or email, or an empty joined cart, is rejected with the cart unchanged; otherwise the receipt lists the joined rows in order with subtotals, its total equals the cart total, and the cart is left with zero lines; line ids are not reset |
| `Shop.RepeatedAddAccumulates` | backend/server.js:104-128 | two adds of one unit of a product to an empty cart leave one line with qty 2 |
| `Shop.TwoProductCart` | backend/server.js:96-132 | adding two units of A and then one unit of B to an empty cart gives lines 1 and 2 in that order |
| `Shop.CheckoutOfTwoProducts` | backend/server.js:172-223 | two units at 10.00 and one at 5.00 check out to items with subtotals 20.00 and 5.00, total 25.00, and an empty cart |
| `Shop.OrphanLineBlocksCheckout` | backend/server.js:180-192 | a cart holding only a line whose product is missing checks out as EmptyCart and keeps the line |
| `Shop.ZeroQuantityIsStored` | backend/server.js:97-128 | add stores a quantity of 0 as given, so positive quantities are not an unconditional invariant |

## Left out

- Storage failures: every `500` branch, where a SQLite call reports an error, is not modelled. Each handler is one step that always reaches the database.
- Concurrency: each handler is modelled as one atomic step. The interleavings between add's SELECT and its UPDATE or INSERT, and between checkout's read and its DELETE, are not modelled.
- JSON typing: request values are modelled as integers and strings. A string or fractional `qty`, a `null` qty on add (rejected by the `NOT NULL` column), and a non-numeric `:id` in the path are not modelled. JavaScript's `+` would concatenate a string `qty`.
- Number widths: quantities, ids and totals are unbounded integers. In the source, SQLite's `INTEGER` is 64-bit and `qty = qty + ?` (backend/server.js:112) turns into a `REAL` on overflow. The add reply's `row.qty + qty` (backend/server.js:117) and the two reduce sums (backend/server.js:89 and 201) are JavaScript doubles, exact only up to 2^53. AUTOINCREMENT (backend/server.js:122) fails with `SQLITE_FULL` once the largest rowid has been used. None of these limits is modelled.
- Floating-point prices and `toFixed` formatting: prices are whole cents.
- `Date.now()` and the ISO timestamp are parameters of `Shop.Store.Checkout`. `OrderIds.OrderIdsDiffer` gives unique order ids only for distinct clock readings. Two checkouts in the same millisecond would share an id.
- `Shop.Store.constructor`: the server starts with an empty cart. A cart table kept in the database file from an earlier run is not modelled. The seeded ids 1 to 8 assume the products table never held rows before.
- `Shop.Store.Add`, `Shop.Store.UpdateQty`, `Shop.Store.Remove`: their postconditions state the new lines, not the new total. The total change is stated by `Pricing.TotalAfterGrow`, `Pricing.TotalAfterAppend`, `Pricing.TotalAfterReplace` and `Pricing.TotalAfterRemove` about those same lines.
- `GET /api/products`, `GET /api/health`, routing, middleware, the 404 and error handlers, and `app.listen` are framework I/O.
- `frontend/src/App.jsx` is not part of this model. It is presentation code, and its only check (`newQty < 1`) repeats the server's.
