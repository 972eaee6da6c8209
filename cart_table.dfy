/**
 * The cart table and the SQL statements the cart handlers run on it, each as a
 * function from the table's rows (in row order) to its answer or its new rows.
 */
module CartTable {
  import opened Options

  /** One row of the cart table: `{id, productId, qty}`. */
  datatype Line = Line(id: int, productId: int, qty: int)

  /** The upsert's invariant: at most one line per product. */
  predicate OneLinePerProduct(lines: seq<Line>)
  {
    forall i, j :: 0 <= i < j < |lines| ==> lines[i].productId != lines[j].productId
  }

  /** AUTOINCREMENT appends rows with ever larger ids, so ids ascend in row order (and are distinct). */
  predicate IdsAscending(lines: seq<Line>)
  {
    forall i, j :: 0 <= i < j < |lines| ==> lines[i].id < lines[j].id
  }

  /** Every quantity is at least one (kept only while `add` is given quantities of at least one). */
  predicate PositiveQuantities(lines: seq<Line>)
  {
    forall k :: 0 <= k < |lines| ==> lines[k].qty >= 1
  }

  /** `SELECT * FROM cart WHERE productId = ?` read with `db.get`: the position of the first matching row. */
  function SelectByProduct(lines: seq<Line>, productId: int): (r: Option<nat>)
    ensures r.Some? ==>
      && r.value < |lines|
      && lines[r.value].productId == productId
      && forall k :: 0 <= k < r.value ==> lines[k].productId != productId
    ensures r.None? <==> forall k :: 0 <= k < |lines| ==> lines[k].productId != productId
  {
    if lines == [] then None
    else if lines[0].productId == productId then Some(0)
    else
      match SelectByProduct(lines[1..], productId)
      case None =>
        assert forall k :: 1 <= k < |lines| ==> lines[k] == lines[1..][k - 1];
        None
      case Some(k) =>
        assert forall j :: 1 <= j <= k ==> lines[j] == lines[1..][j - 1];
        Some(k + 1)
  }

  /** The position of the row with the given id, if there is one. */
  ghost function SelectById(lines: seq<Line>, id: int): (r: Option<nat>)
    ensures r.Some? ==>
      && r.value < |lines|
      && lines[r.value].id == id
      && forall k :: 0 <= k < r.value ==> lines[k].id != id
    ensures r.None? <==> forall k :: 0 <= k < |lines| ==> lines[k].id != id
  {
    if lines == [] then None
    else if lines[0].id == id then Some(0)
    else
      match SelectById(lines[1..], id)
      case None =>
        assert forall k :: 1 <= k < |lines| ==> lines[k] == lines[1..][k - 1];
        None
      case Some(k) =>
        assert forall j :: 1 <= j <= k ==> lines[j] == lines[1..][j - 1];
        Some(k + 1)
  }

  /** `this.changes` after a statement `... WHERE id = ?`: how many rows carry that id. */
  function CountId(lines: seq<Line>, id: int): (n: nat)
    ensures n <= |lines|
    ensures n == 0 <==> SelectById(lines, id).None?
  {
    if lines == [] then 0
    else (if lines[0].id == id then 1 else 0) + CountId(lines[1..], id)
  }

  /** `UPDATE cart SET qty = qty + ? WHERE productId = ?`: every line of the product grows by `delta`. */
  function AddQtyWhereProduct(lines: seq<Line>, productId: int, delta: int): (r: seq<Line>)
    ensures |r| == |lines|
    ensures forall k :: 0 <= k < |lines| ==>
      && r[k].id == lines[k].id
      && r[k].productId == lines[k].productId
      && r[k].qty == lines[k].qty + (if lines[k].productId == productId then delta else 0)
  {
    if lines == [] then []
    else
      var head := if lines[0].productId == productId then lines[0].(qty := lines[0].qty + delta) else lines[0];
      [head] + AddQtyWhereProduct(lines[1..], productId, delta)
  }

  /** `UPDATE cart SET qty = ? WHERE id = ?`: every line with that id gets quantity `qty`. */
  function SetQtyWhereId(lines: seq<Line>, id: int, qty: int): (r: seq<Line>)
    ensures |r| == |lines|
    ensures forall k :: 0 <= k < |lines| ==>
      && r[k].id == lines[k].id
      && r[k].productId == lines[k].productId
      && r[k].qty == (if lines[k].id == id then qty else lines[k].qty)
  {
    if lines == [] then []
    else
      var head := if lines[0].id == id then lines[0].(qty := qty) else lines[0];
      [head] + SetQtyWhereId(lines[1..], id, qty)
  }

  /** `DELETE FROM cart WHERE id = ?`: the lines without that id, in their order. */
  function DeleteWhereId(lines: seq<Line>, id: int): (r: seq<Line>)
    ensures |r| == |lines| - CountId(lines, id)
    ensures forall j :: 0 <= j < |r| ==> r[j].id != id
  {
    if lines == [] then []
    else if lines[0].id == id then DeleteWhereId(lines[1..], id)
    else [lines[0]] + DeleteWhereId(lines[1..], id)
  }

  /** With one line per product, the increment touches exactly the line `SelectByProduct` found. */
  lemma AddQtyTouchesOneLine(lines: seq<Line>, productId: int, delta: int, k: nat)
    requires OneLinePerProduct(lines)
    requires k < |lines| && lines[k].productId == productId
    ensures AddQtyWhereProduct(lines, productId, delta) == lines[k := lines[k].(qty := lines[k].qty + delta)]
  {
  }

  /** With distinct ids, `UPDATE ... WHERE id = ?` rewrites exactly the line with that id. */
  lemma SetQtyTouchesOneLine(lines: seq<Line>, id: int, qty: int, k: nat)
    requires IdsAscending(lines)
    requires k < |lines| && lines[k].id == id
    ensures SetQtyWhereId(lines, id, qty) == lines[k := lines[k].(qty := qty)]
  {
  }

  /** An update whose id matches no line changes nothing. */
  lemma SetQtyNoMatch(lines: seq<Line>, id: int, qty: int)
    requires SelectById(lines, id).None?
    ensures SetQtyWhereId(lines, id, qty) == lines
  {
  }

  /** With ascending ids, the delete removes exactly the line at position `k`, keeping the others in order. */
  lemma {:induction false} DeleteOneLine(lines: seq<Line>, id: int, k: nat)
    requires IdsAscending(lines)
    requires k < |lines| && lines[k].id == id
    ensures DeleteWhereId(lines, id) == lines[..k] + lines[k + 1..]
  {
    if k == 0 {
      DeleteFirstLine(lines, id);
      assert lines[..k] + lines[k + 1..] == lines[1..];
    } else {
      var tail := lines[1..];
      assert DeleteWhereId(tail, id) == tail[..k - 1] + tail[k..] by {
        AscendingTail(lines);
        assert tail[k - 1] == lines[k];
        DeleteOneLine(tail, id, k - 1);
      }
      assert lines[0].id != id by { assert lines[0].id < lines[k].id; }
      assert DeleteWhereId(lines, id) == [lines[0]] + DeleteWhereId(tail, id);
      assert [lines[0]] + (tail[..k - 1] + tail[k..]) == lines[..k] + lines[k + 1..];
    }
  }

  /** With ascending ids, deleting the id of the first row removes that row alone. */
  lemma DeleteFirstLine(lines: seq<Line>, id: int)
    requires IdsAscending(lines)
    requires lines != [] && lines[0].id == id
    ensures DeleteWhereId(lines, id) == lines[1..]
  {
    var tail := lines[1..];
    forall j | 0 <= j < |tail| ensures tail[j].id != id {
      assert tail[j] == lines[j + 1] && lines[0].id < lines[j + 1].id;
    }
    DeleteNoMatch(tail, id);
  }

  /** Dropping the first row keeps the ids ascending. */
  lemma AscendingTail(lines: seq<Line>)
    requires IdsAscending(lines) && lines != []
    ensures IdsAscending(lines[1..])
  {
  }

  /** A delete whose id matches no line changes nothing. */
  lemma {:induction false} DeleteNoMatch(lines: seq<Line>, id: int)
    requires forall j :: 0 <= j < |lines| ==> lines[j].id != id
    ensures DeleteWhereId(lines, id) == lines
  {
    if lines != [] {
      DeleteNoMatch(lines[1..], id);
      assert [lines[0]] + lines[1..] == lines;
    }
  }

  /** Removing one line keeps both table invariants. */
  lemma RemoveAtPreserves(lines: seq<Line>, k: nat)
    requires k < |lines|
    ensures var r := lines[..k] + lines[k + 1..];
      && (OneLinePerProduct(lines) ==> OneLinePerProduct(r))
      && (IdsAscending(lines) ==> IdsAscending(r))
      && (PositiveQuantities(lines) ==> PositiveQuantities(r))
      && forall j :: 0 <= j < |r| ==> r[j] in lines
  {
  }

  /** Changing the quantity of one line keeps ids, products and both invariants. */
  lemma ReplaceQtyPreserves(lines: seq<Line>, k: nat, qty: int)
    requires k < |lines|
    ensures var r := lines[k := lines[k].(qty := qty)];
      && (forall j :: 0 <= j < |r| ==> r[j].id == lines[j].id && r[j].productId == lines[j].productId)
      && (OneLinePerProduct(lines) ==> OneLinePerProduct(r))
      && (IdsAscending(lines) ==> IdsAscending(r))
      && (PositiveQuantities(lines) && qty >= 1 ==> PositiveQuantities(r))
  {
  }

  /** Appending a line for a product not yet in the cart, with an id above all others, keeps both invariants. */
  lemma AppendPreserves(lines: seq<Line>, line: Line)
    requires forall k :: 0 <= k < |lines| ==> lines[k].productId != line.productId
    requires forall k :: 0 <= k < |lines| ==> lines[k].id < line.id
    requires OneLinePerProduct(lines) && IdsAscending(lines)
    ensures OneLinePerProduct(lines + [line]) && IdsAscending(lines + [line])
  {
  }
}
