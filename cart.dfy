/**
 * The shopping-cart store: an ordered list of line items, four operations
 * that replace the list, and a summary derived from it.
 *
 * Each operation is a pure function from the old list to the new one
 * (AddItem, RemoveItem, UpdateItemQuantity); the class CartStore holds the
 * current list in one field and its methods replace it, as the store's
 * single state cell is replaced.
 */
module Cart {
  import opened Catalog
  import opened Money
  import opened Sequences

  /** One product in the cart; name, price and image are snapshots taken when it was added. */
  datatype CartItem = CartItem(id: int, name: string, price: nat, imageUrl: string, quantity: int)

  /** The line item a product becomes when it is first added. */
  function NewItem(p: Product): CartItem {
    CartItem(p.id, p.name, p.price, p.imageUrl, 1)
  }

  predicate HasId(items: seq<CartItem>, id: int) {
    exists k :: 0 <= k < |items| && items[k].id == id
  }

  predicate UniqueIds(items: seq<CartItem>) {
    forall i, j :: 0 <= i < j < |items| ==> items[i].id != items[j].id
  }

  /** The store's invariant: at most one line per product, every quantity at least 1. */
  predicate WellFormed(items: seq<CartItem>) {
    UniqueIds(items) && forall k :: 0 <= k < |items| ==> items[k].quantity >= 1
  }

  // ---------------------------------------------------------------------------
  // The list operations

  /** Every item with the given id, with its quantity one higher. */
  function IncrementQuantity(items: seq<CartItem>, id: int): (r: seq<CartItem>)
    ensures |r| == |items|
  {
    if items == [] then []
    else
      var head := if items[0].id == id then items[0].(quantity := items[0].quantity + 1) else items[0];
      [head] + IncrementQuantity(items[1..], id)
  }

  /** Merges a product into the cart: one more of it if its id is there, else a new line at the end. */
  function AddItem(items: seq<CartItem>, p: Product): (r: seq<CartItem>)
    ensures |r| == if HasId(items, p.id) then |items| else |items| + 1
  {
    if HasId(items, p.id) then IncrementQuantity(items, p.id) else items + [NewItem(p)]
  }

  /** The cart without the lines of the given id. */
  function RemoveItem(items: seq<CartItem>, id: int): (r: seq<CartItem>)
    ensures forall x :: x in r <==> x in items && x.id != id
    ensures forall x :: multiset(r)[x] == if x.id != id then multiset(items)[x] else 0
    ensures IsSubsequence(r, items)
    ensures !HasId(r, id)
  {
    if items == [] then []
    else
      assert items == [items[0]] + items[1..];
      if items[0].id == id then RemoveItem(items[1..], id)
      else [items[0]] + RemoveItem(items[1..], id)
  }

  /** Every item with the given id, with its quantity replaced by q. */
  function SetQuantity(items: seq<CartItem>, id: int, q: int): (r: seq<CartItem>)
    ensures |r| == |items|
    ensures forall x :: x in r && x.id == id ==> x.quantity == q
  {
    if items == [] then []
    else
      var head := if items[0].id == id then items[0].(quantity := q) else items[0];
      [head] + SetQuantity(items[1..], id, q)
  }

  /** A quantity of zero or less removes the product; any other sets it. */
  function UpdateItemQuantity(items: seq<CartItem>, id: int, q: int): (r: seq<CartItem>)
    ensures q <= 0 ==> !HasId(r, id) && IsSubsequence(r, items)
    ensures q > 0 ==> |r| == |items| && forall x :: x in r && x.id == id ==> x.quantity == q
  {
    if q <= 0 then RemoveItem(items, id) else SetQuantity(items, id, q)
  }

  // ---------------------------------------------------------------------------
  // What the operations do to the lines

  lemma {:induction false} IncrementAt(items: seq<CartItem>, id: int, k: nat)
    requires k < |items|
    ensures IncrementQuantity(items, id)[k] ==
            if items[k].id == id then items[k].(quantity := items[k].quantity + 1) else items[k]
  {
    if k > 0 {
      IncrementAt(items[1..], id, k - 1);
    }
  }

  lemma {:induction false} SetQuantityAt(items: seq<CartItem>, id: int, q: int, k: nat)
    requires k < |items|
    ensures SetQuantity(items, id, q)[k] == if items[k].id == id then items[k].(quantity := q) else items[k]
  {
    if k > 0 {
      SetQuantityAt(items[1..], id, q, k - 1);
    }
  }

  /**
   * Adding a product already in the cart raises that line's quantity by one,
   * keeps its name, price and image as they were, and leaves every other line,
   * the length and the order alone.
   */
  lemma AddExisting(items: seq<CartItem>, p: Product)
    requires HasId(items, p.id)
    ensures |AddItem(items, p)| == |items|
    ensures forall k :: 0 <= k < |items| ==>
      AddItem(items, p)[k] ==
        if items[k].id == p.id then items[k].(quantity := items[k].quantity + 1) else items[k]
  {
    forall k | 0 <= k < |items|
      ensures AddItem(items, p)[k] ==
        if items[k].id == p.id then items[k].(quantity := items[k].quantity + 1) else items[k]
    {
      IncrementAt(items, p.id, k);
    }
  }

  /** Adding a product not in the cart appends exactly its new line. */
  lemma AddNew(items: seq<CartItem>, p: Product)
    requires !HasId(items, p.id)
    ensures AddItem(items, p) == items + [CartItem(p.id, p.name, p.price, p.imageUrl, 1)]
  {
  }

  /** Removing an id that is not in the cart changes nothing. */
  lemma {:induction false} RemoveAbsent(items: seq<CartItem>, id: int)
    requires !HasId(items, id)
    ensures RemoveItem(items, id) == items
  {
    if items != [] {
      assert items[0].id != id;
      assert !HasId(items[1..], id) by {
        forall k | 0 <= k < |items[1..]| ensures items[1..][k].id != id {
          assert items[1..][k] == items[k + 1];
        }
      }
      RemoveAbsent(items[1..], id);
    }
  }

  /** A quantity of zero or less is exactly a removal. */
  lemma UpdateNonPositiveRemoves(items: seq<CartItem>, id: int, q: int)
    requires q <= 0
    ensures UpdateItemQuantity(items, id, q) == RemoveItem(items, id)
  {
  }

  /**
   * A positive quantity replaces the quantity of the matching line only, and
   * leaves length, order and every other field alone.
   */
  lemma UpdatePositive(items: seq<CartItem>, id: int, q: int)
    requires q > 0
    ensures |UpdateItemQuantity(items, id, q)| == |items|
    ensures forall k :: 0 <= k < |items| ==>
      UpdateItemQuantity(items, id, q)[k] == if items[k].id == id then items[k].(quantity := q) else items[k]
  {
    forall k | 0 <= k < |items|
      ensures UpdateItemQuantity(items, id, q)[k] == if items[k].id == id then items[k].(quantity := q) else items[k]
    {
      SetQuantityAt(items, id, q, k);
    }
  }

  /** Updating an id that is not in the cart changes nothing, whatever the quantity. */
  lemma UpdateAbsent(items: seq<CartItem>, id: int, q: int)
    requires !HasId(items, id)
    ensures UpdateItemQuantity(items, id, q) == items
  {
    if q <= 0 {
      RemoveAbsent(items, id);
    } else {
      UpdatePositive(items, id, q);
    }
  }

  // ---------------------------------------------------------------------------
  // The invariant is kept

  lemma AddItemWellFormed(items: seq<CartItem>, p: Product)
    requires WellFormed(items)
    ensures WellFormed(AddItem(items, p))
  {
    if HasId(items, p.id) {
      AddExisting(items, p);
    }
  }

  /** The invariant, one line at a time. */
  lemma WellFormedCons(x: CartItem, rest: seq<CartItem>)
    ensures WellFormed([x] + rest) <==> x.quantity >= 1 && WellFormed(rest) && !HasId(rest, x.id)
  {
    var items := [x] + rest;
    assert items[0] == x;
    if WellFormed(items) {
      forall i, j | 0 <= i < j < |rest| ensures rest[i].id != rest[j].id {
        assert rest[i] == items[i + 1] && rest[j] == items[j + 1];
      }
      forall k | 0 <= k < |rest| ensures rest[k].quantity >= 1 && rest[k].id != x.id {
        assert rest[k] == items[k + 1];
      }
    }
    if x.quantity >= 1 && WellFormed(rest) && !HasId(rest, x.id) {
      forall i, j | 0 <= i < j < |items| ensures items[i].id != items[j].id {
        assert items[j] == rest[j - 1];
        if i > 0 {
          assert items[i] == rest[i - 1];
        }
      }
      forall k | 0 <= k < |items| ensures items[k].quantity >= 1 {
        if k > 0 {
          assert items[k] == rest[k - 1];
        }
      }
    }
  }

  lemma {:induction false} RemoveItemWellFormed(items: seq<CartItem>, id: int)
    requires WellFormed(items)
    ensures WellFormed(RemoveItem(items, id))
  {
    if items != [] {
      var x, rest := items[0], items[1..];
      assert items == [x] + rest;
      WellFormedCons(x, rest);
      RemoveItemWellFormed(rest, id);
      if x.id != id {
        var tail := RemoveItem(rest, id);
        assert !HasId(tail, x.id) by {
          forall j | 0 <= j < |tail| ensures tail[j].id != x.id {
            assert tail[j] in rest;
          }
        }
        WellFormedCons(x, tail);
      }
    }
  }

  lemma UpdateItemQuantityWellFormed(items: seq<CartItem>, id: int, q: int)
    requires WellFormed(items)
    ensures WellFormed(UpdateItemQuantity(items, id, q))
  {
    if q <= 0 {
      RemoveItemWellFormed(items, id);
    } else {
      UpdatePositive(items, id, q);
    }
  }

  /** A request the store can receive. */
  datatype CartOp = Add(product: Product) | Remove(id: int) | Update(id: int, quantity: int) | Clear

  function Apply(items: seq<CartItem>, op: CartOp): seq<CartItem> {
    match op
    case Add(p) => AddItem(items, p)
    case Remove(id) => RemoveItem(items, id)
    case Update(id, q) => UpdateItemQuantity(items, id, q)
    case Clear => []
  }

  /** The cart after the given requests, starting from the empty cart. */
  function Replay(ops: seq<CartOp>): seq<CartItem> {
    if ops == [] then [] else Apply(Replay(ops[..|ops| - 1]), ops[|ops| - 1])
  }

  /** Whatever the requests, ids stay unique and quantities stay at least 1. */
  lemma {:induction false} ReplayWellFormed(ops: seq<CartOp>)
    ensures WellFormed(Replay(ops))
  {
    if ops != [] {
      var before := Replay(ops[..|ops| - 1]);
      ReplayWellFormed(ops[..|ops| - 1]);
      match ops[|ops| - 1]
      case Add(p) => AddItemWellFormed(before, p);
      case Remove(id) => RemoveItemWellFormed(before, id);
      case Update(id, q) => UpdateItemQuantityWellFormed(before, id, q);
      case Clear =>
    }
  }

  /** The cart after adding p n more times. */
  function AddTimes(items: seq<CartItem>, p: Product, n: nat): seq<CartItem> {
    if n == 0 then items else AddItem(AddTimes(items, p, n - 1), p)
  }

  /** Adding one product n times to the empty cart gives one line with quantity n. */
  lemma {:induction false} AddRepeatedly(p: Product, n: nat)
    requires n >= 1
    ensures AddTimes([], p, n) == [NewItem(p).(quantity := n)]
  {
    if n > 1 {
      AddRepeatedly(p, n - 1);
      var before := AddTimes([], p, n - 1);
      assert before[0].id == p.id;
      AddExisting(before, p);
    }
  }

  /** Two different products added in turn stand in the order they were added. */
  lemma AddTwo(a: Product, b: Product)
    requires a.id != b.id
    ensures AddItem(AddItem([], a), b) == [NewItem(a), NewItem(b)]
  {
    assert !HasId([NewItem(a)], b.id);
  }

  // ---------------------------------------------------------------------------
  // The summary

  /** The sum of price times quantity, in cents. */
  function Subtotal(items: seq<CartItem>): (r: int)
    ensures (forall k :: 0 <= k < |items| ==> items[k].quantity >= 0) ==> r >= 0
  {
    if items == [] then 0 else items[0].price * items[0].quantity + Subtotal(items[1..])
  }

  /** The sum of the quantities. */
  function ItemCount(items: seq<CartItem>): (r: int)
    ensures (forall k :: 0 <= k < |items| ==> items[k].quantity >= 1) ==> r >= |items|
  {
    if items == [] then 0 else items[0].quantity + ItemCount(items[1..])
  }

  /** The 8% tax on a subtotal of s cents, rounded to the nearest cent (a half upward). */
  function TaxCents(s: nat): (t: nat)
    ensures 100 * t <= 8 * s + 50 < 100 * t + 100
  {
    RoundHundredth(8 * s)
  }

  /** The summary as the store shows it: three two-decimal strings and a count. */
  datatype CartSummary = CartSummary(subtotal: string, tax: string, total: string, itemCount: int)

  /**
   * Subtotal, tax and total are each rounded once from the exact amounts:
   * the tax is 8% of the unrounded subtotal and the total is that subtotal
   * plus the unrounded tax. In ten-thousandths of a dollar these are
   * 100 s, 8 s and 108 s for a subtotal of s cents.
   */
  function Summarize(items: seq<CartItem>): (r: CartSummary)
    ensures r.itemCount == ItemCount(items)
    ensures Subtotal(items) >= 0 ==>
      var s := Subtotal(items);
      && r.subtotal == CentsToString(s)
      && r.tax == CentsToString(TaxCents(s))
      && r.total == CentsToString(s + TaxCents(s))
  {
    var s := Subtotal(items);
    var r := CartSummary(ToFixed2(100 * s), ToFixed2(8 * s), ToFixed2(108 * s), ItemCount(items));
    if s >= 0 then SummaryStrings(s); r else r
  }

  /** The three display strings of a non-negative subtotal of s cents. */
  lemma SummaryStrings(s: nat)
    ensures ToFixed2(100 * s) == CentsToString(s)
    ensures ToFixed2(8 * s) == CentsToString(TaxCents(s))
    ensures ToFixed2(108 * s) == CentsToString(s + TaxCents(s))
  {
    RoundWhole(s);
    RoundShift(s);
  }

  /** On a well-formed cart the subtotal is never negative and the count is at least the number of lines. */
  lemma {:induction false} WellFormedTotals(items: seq<CartItem>)
    requires WellFormed(items)
    ensures Subtotal(items) >= 0
    ensures ItemCount(items) >= |items|
  {
    if items != [] {
      var rest := items[1..];
      assert WellFormed(rest) by {
        forall i, j | 0 <= i < j < |rest| ensures rest[i].id != rest[j].id {
          assert rest[i] == items[i + 1] && rest[j] == items[j + 1];
        }
        forall k | 0 <= k < |rest| ensures rest[k].quantity >= 1 {
          assert rest[k] == items[k + 1];
        }
      }
      WellFormedTotals(rest);
    }
  }

  lemma {:induction false} TotalsAppend(items: seq<CartItem>, x: CartItem)
    ensures Subtotal(items + [x]) == Subtotal(items) + x.price * x.quantity
    ensures ItemCount(items + [x]) == ItemCount(items) + x.quantity
  {
    if items != [] {
      assert (items + [x])[1..] == items[1..] + [x];
      TotalsAppend(items[1..], x);
    }
  }

  /** Incrementing an id that no line has changes nothing. */
  lemma {:induction false} IncrementAbsent(items: seq<CartItem>, id: int)
    requires !HasId(items, id)
    ensures IncrementQuantity(items, id) == items
  {
    if items != [] {
      assert items[0].id != id;
      assert !HasId(items[1..], id) by {
        forall k | 0 <= k < |items[1..]| ensures items[1..][k].id != id {
          assert items[1..][k] == items[k + 1];
        }
      }
      IncrementAbsent(items[1..], id);
    }
  }

  lemma {:induction false} IncrementTotals(items: seq<CartItem>, k: nat)
    requires UniqueIds(items) && k < |items|
    ensures Subtotal(IncrementQuantity(items, items[k].id)) == Subtotal(items) + items[k].price
    ensures ItemCount(IncrementQuantity(items, items[k].id)) == ItemCount(items) + 1
  {
    var id := items[k].id;
    var rest := items[1..];
    if k == 0 {
      assert !HasId(rest, id) by {
        forall m | 0 <= m < |rest| ensures rest[m].id != id {
          assert rest[m] == items[m + 1];
        }
      }
      IncrementAbsent(rest, id);
      var q := items[0].quantity;
      assert items[0].price * (q + 1) == items[0].price * q + items[0].price;
    } else {
      assert UniqueIds(rest) by {
        forall i, j | 0 <= i < j < |rest| ensures rest[i].id != rest[j].id {
          assert rest[i] == items[i + 1] && rest[j] == items[j + 1];
        }
      }
      assert rest[k - 1] == items[k];
      IncrementTotals(rest, k - 1);
    }
  }

  /**
   * Adding a product adds one to the item count and one unit price to the
   * subtotal: the price already in the cart when the product is there, the
   * product's price when it is new.
   */
  lemma AddItemTotals(items: seq<CartItem>, p: Product)
    requires UniqueIds(items)
    ensures ItemCount(AddItem(items, p)) == ItemCount(items) + 1
    ensures forall k :: 0 <= k < |items| && items[k].id == p.id ==>
      Subtotal(AddItem(items, p)) == Subtotal(items) + items[k].price
    ensures !HasId(items, p.id) ==> Subtotal(AddItem(items, p)) == Subtotal(items) + p.price
  {
    if HasId(items, p.id) {
      var k :| 0 <= k < |items| && items[k].id == p.id;
      IncrementTotals(items, k);
    } else {
      TotalsAppend(items, NewItem(p));
    }
  }

  /** The empty cart shows zero everywhere. */
  lemma EmptySummary()
    ensures Summarize([]) == CartSummary("0.00", "0.00", "0.00", 0)
  {
  }

  /** [10.00 x 2, 5.50 x 1] shows 25.50, 2.04, 27.54 and 3 items. */
  lemma ExampleSummary(a: string, b: string, u: string, v: string)
    ensures Summarize([CartItem(1, a, 1000, u, 2), CartItem(2, b, 550, v, 1)])
            == CartSummary("25.50", "2.04", "27.54", 3)
  {
    var items := [CartItem(1, a, 1000, u, 2), CartItem(2, b, 550, v, 1)];
    assert items[1..][1..] == [];
    assert Subtotal(items[1..]) == 550;
    assert ItemCount(items[1..]) == 1;
    assert Subtotal(items) == 2550;
    assert TaxCents(2550) == 204;
    assert CentsToString(2550) == "25.50" by {
      assert NatToDecimal(25) == "25";
    }
    assert CentsToString(204) == "2.04";
    assert CentsToString(2754) == "27.54" by {
      assert NatToDecimal(27) == "27";
    }
  }

  // ---------------------------------------------------------------------------
  // The store

  class CartStore {
    var items: seq<CartItem>

    predicate Valid()
      reads this
    {
      WellFormed(items)
    }

    /** A store starts with an empty cart. */
    constructor ()
      ensures Valid() && items == []
    {
      items := [];
    }

    method AddToCart(p: Product)
      requires Valid()
      modifies this
      ensures Valid() && items == AddItem(old(items), p)
    {
      AddItemWellFormed(items, p);
      items := AddItem(items, p);
    }

    method RemoveFromCart(id: int)
      requires Valid()
      modifies this
      ensures Valid() && items == RemoveItem(old(items), id)
    {
      RemoveItemWellFormed(items, id);
      items := RemoveItem(items, id);
    }

    method UpdateQuantity(id: int, q: int)
      requires Valid()
      modifies this
      ensures Valid() && items == UpdateItemQuantity(old(items), id, q)
    {
      if q <= 0 {
        RemoveFromCart(id);
        return;
      }
      UpdateItemQuantityWellFormed(items, id, q);
      items := SetQuantity(items, id, q);
    }

    method ClearCart()
      modifies this
      ensures Valid() && items == []
    {
      items := [];
    }

    /** The current summary, derived afresh from the current lines. */
    function Summary(): (r: CartSummary)
      reads this
      ensures r.itemCount == ItemCount(items)
      ensures Valid() ==>
        var s := Subtotal(items);
        && s >= 0
        && r.subtotal == CentsToString(s)
        && r.tax == CentsToString(TaxCents(s))
        && r.total == CentsToString(s + TaxCents(s))
    {
      if Valid() then WellFormedTotals(items); Summarize(items) else Summarize(items)
    }
  }
}
