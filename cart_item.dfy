/**
  The cart view's logic: the read-only totals computed over the store's items
  (per-item subtotal, total amount, total count) and the three buttons of a
  row, which decide which reducer to dispatch.

  Amounts are integers in cents; formatting with two decimals is not modelled.
  The totals read loosely shaped rows (Entry), so a null row, a falsy or
  unparseable cost and a missing quantity are all covered; Rendered gives the
  rows the view draws from the store's line items.
 */
module CartItem {
  import opened Wrappers
  import opened CartSlice

  /** A store line item as the view receives it. */
  function View(item: LineItem): Entry {
    Present(item.name, item.cost, Some(item.quantity))
  }

  /** The cart as the view reads it from the store. */
  function Rendered(items: seq<LineItem>): (r: seq<Entry>)
    ensures |r| == |items| && forall i :: 0 <= i < |items| ==> r[i] == View(items[i])
  {
    seq(|items|, i requires 0 <= i < |items| => View(items[i]))
  }

  /** `typeof item.quantity === 'number' ? item.quantity : 1`. */
  function QuantityOrOne(quantity: Option<int>): int {
    match quantity
    case Some(q) => q
    case None => 1
  }

  /** The row is null, its cost falsy, or its cost parses to NaN. */
  predicate Unpriced(item: Entry) {
    item.Null? || item.cost.Falsy? || item.cost.cents.None?
  }

  // ---------------------------------------------------------------------------
  // Totals

  /** calculateTotalCost: one row's subtotal in cents. */
  function TotalCost(item: Entry): int {
    if item.Null? || item.cost.Falsy? then 0
    else
      match item.cost.cents
      case None => 0
      case Some(c) => c * QuantityOrOne(item.quantity)
  }

  /** The callback calculateTotalAmount hands to reduce. */
  function AmountStep(sum: int, item: Entry): int {
    if item.Null? || item.cost.Falsy? then sum
    else
      match item.cost.cents
      case None => sum
      case Some(c) => sum + c * QuantityOrOne(item.quantity)
  }

  function AmountFrom(sum: int, items: seq<Entry>): int
    decreases |items|
  {
    if items == [] then sum else AmountFrom(AmountStep(sum, items[0]), items[1..])
  }

  /** calculateTotalAmount in cents: reduce from 0, left to right. */
  function TotalAmount(items: seq<Entry>): int {
    AmountFrom(0, items)
  }

  /** The sum of the rows' subtotals: the reference the total amount is held to. */
  function SumOfCosts(items: seq<Entry>): int {
    if items == [] then 0 else TotalCost(items[0]) + SumOfCosts(items[1..])
  }

  /** The callback calculateTotalCount hands to reduce. */
  function CountStep(sum: int, item: Entry): int {
    if item.Null? then sum else sum + QuantityOrOne(item.quantity)
  }

  function CountFrom(sum: int, items: seq<Entry>): int
    decreases |items|
  {
    if items == [] then sum else CountFrom(CountStep(sum, items[0]), items[1..])
  }

  /** calculateTotalCount: reduce from 0, left to right. */
  function TotalCount(items: seq<Entry>): int {
    CountFrom(0, items)
  }

  /** The sum of the quantities of the non-null rows, a missing quantity
      counting 1: the reference the total count is held to. */
  function SumOfCounts(items: seq<Entry>): int {
    if items == [] then 0
    else (if items[0].Null? then 0 else QuantityOrOne(items[0].quantity)) + SumOfCounts(items[1..])
  }

  /** The sum of the store's quantities. */
  function QuantitySum(items: seq<LineItem>): int {
    if items == [] then 0 else items[0].quantity + QuantitySum(items[1..])
  }

  lemma {:induction false} AmountFromIsSumOfCosts(sum: int, items: seq<Entry>)
    ensures AmountFrom(sum, items) == sum + SumOfCosts(items)
    decreases |items|
  {
    if items != [] {
      AmountFromIsSumOfCosts(AmountStep(sum, items[0]), items[1..]);
    }
  }

  /** The total amount is the sum of the per-row subtotals; the empty cart gives 0. */
  lemma TotalAmountIsSumOfCosts(items: seq<Entry>)
    ensures TotalAmount(items) == SumOfCosts(items)
    ensures items == [] ==> TotalAmount(items) == 0
  {
    AmountFromIsSumOfCosts(0, items);
  }

  lemma {:induction false} SumOfCostsAppend(a: seq<Entry>, b: seq<Entry>)
    ensures SumOfCosts(a + b) == SumOfCosts(a) + SumOfCosts(b)
  {
    if a == [] {
      assert a + b == b;
    } else {
      assert (a + b)[0] == a[0] && (a + b)[1..] == a[1..] + b;
      SumOfCostsAppend(a[1..], b);
    }
  }

  /** A null row, a row with a falsy cost and a row whose cost does not parse
      add nothing to the total amount, wherever they stand. */
  lemma UnpricedAddsNothing(a: seq<Entry>, item: Entry, b: seq<Entry>)
    requires Unpriced(item)
    ensures TotalAmount(a + [item] + b) == TotalAmount(a + b)
  {
    TotalAmountIsSumOfCosts(a + [item] + b);
    TotalAmountIsSumOfCosts(a + b);
    SumOfCostsAppend(a + [item], b);
    SumOfCostsAppend(a, [item]);
    SumOfCostsAppend(a, b);
    assert SumOfCosts([item]) == TotalCost(item) + SumOfCosts([item][1..]);
  }

  /** A row's subtotal is what it adds to the total amount: its parsed cost
      times its quantity (1 when missing), and 0 when it is unpriced. */
  lemma CostOfRow(item: Entry)
    ensures TotalCost(item) == TotalAmount([item])
    ensures Unpriced(item) ==> TotalCost(item) == 0
    ensures !Unpriced(item) ==> TotalCost(item) == item.cost.cents.value * QuantityOrOne(item.quantity)
  {
    TotalAmountIsSumOfCosts([item]);
  }

  lemma {:induction false} SumOfCostsUpdate(rows: seq<Entry>, k: nat, row: Entry)
    requires k < |rows|
    ensures SumOfCosts(rows[k := row]) == SumOfCosts(rows) - TotalCost(rows[k]) + TotalCost(row)
  {
    if k > 0 {
      assert rows[k := row][1..] == rows[1..][k - 1 := row];
      SumOfCostsUpdate(rows[1..], k - 1, row);
    }
  }

  /** The parsed price of one unit, 0 for a cost that does not parse. */
  function UnitPrice(cost: Cost): int {
    match cost
    case Given(Some(c)) => c
    case _ => 0
  }

  lemma AmountAfterAppend(items: seq<LineItem>, x: LineItem)
    ensures TotalAmount(Rendered(items + [x])) == TotalAmount(Rendered(items)) + TotalCost(View(x))
  {
    TotalAmountIsSumOfCosts(Rendered(items));
    TotalAmountIsSumOfCosts(Rendered(items + [x]));
    assert Rendered(items + [x]) == Rendered(items) + [View(x)];
    SumOfCostsAppend(Rendered(items), [View(x)]);
    assert SumOfCosts([View(x)]) == TotalCost(View(x)) + SumOfCosts([View(x)][1..]);
  }

  lemma AmountAfterUpdate(items: seq<LineItem>, k: nat, x: LineItem)
    requires k < |items|
    ensures TotalAmount(Rendered(items[k := x]))
         == TotalAmount(Rendered(items)) - TotalCost(View(items[k])) + TotalCost(View(x))
  {
    TotalAmountIsSumOfCosts(Rendered(items));
    TotalAmountIsSumOfCosts(Rendered(items[k := x]));
    assert Rendered(items[k := x]) == Rendered(items)[k := View(x)];
    SumOfCostsUpdate(Rendered(items), k, View(x));
  }

  /** An accepted addItem raises the total amount by one unit's price: the
      payload's for a new name, the stored item's for a name already present. */
  lemma AmountAfterAdd(items: seq<LineItem>, item: Entry)
    requires PositiveQuantities(items) && Accepted(item)
    ensures !HasName(items, item.name) ==>
      TotalAmount(Rendered(Added(items, item))) == TotalAmount(Rendered(items)) + UnitPrice(item.cost)
    ensures HasName(items, item.name) ==>
      TotalAmount(Rendered(Added(items, item)))
      == TotalAmount(Rendered(items)) + UnitPrice(items[IndexOf(items, item.name).value].cost)
  {
    var found := IndexOf(items, item.name);
    if found.None? {
      var x := LineItem(item.name, item.cost, 1);
      assert Added(items, item) == items + [x];
      AmountAfterAppend(items, x);
    } else {
      AmountAfterAddExisting(items, item, found.value);
    }
  }

  lemma AmountAfterAddExisting(items: seq<LineItem>, item: Entry, k: nat)
    requires PositiveQuantities(items) && Accepted(item) && IndexOf(items, item.name) == Some(k)
    ensures TotalAmount(Rendered(Added(items, item))) == TotalAmount(Rendered(items)) + UnitPrice(items[k].cost)
  {
    assert OrOne(items[k].quantity) == items[k].quantity;
    assert Added(items, item) == items[k := items[k].(quantity := items[k].quantity + 1)];
    AmountAfterIncrement(items, k);
  }

  lemma AmountAfterIncrement(items: seq<LineItem>, k: nat)
    requires k < |items|
    ensures TotalAmount(Rendered(items[k := items[k].(quantity := items[k].quantity + 1)]))
         == TotalAmount(Rendered(items)) + UnitPrice(items[k].cost)
  {
    var before := items[k];
    var after := before.(quantity := before.quantity + 1);
    AmountAfterUpdate(items, k, after);
    if before.cost.Given? && before.cost.cents.Some? {
      var c := before.cost.cents.value;
      assert c * (before.quantity + 1) == c * before.quantity + c;
    }
  }

  lemma {:induction false} CountFromIsSumOfCounts(sum: int, items: seq<Entry>)
    ensures CountFrom(sum, items) == sum + SumOfCounts(items)
    decreases |items|
  {
    if items != [] {
      CountFromIsSumOfCounts(CountStep(sum, items[0]), items[1..]);
    }
  }

  /** The total count is the sum over non-null rows of their quantities, a
      missing quantity counting 1; the empty cart gives 0. */
  lemma TotalCountIsSumOfCounts(items: seq<Entry>)
    ensures TotalCount(items) == SumOfCounts(items)
    ensures items == [] ==> TotalCount(items) == 0
  {
    CountFromIsSumOfCounts(0, items);
  }

  lemma {:induction false} RenderedCount(items: seq<LineItem>)
    ensures TotalCount(Rendered(items)) == QuantitySum(items)
  {
    TotalCountIsSumOfCounts(Rendered(items));
    RenderedSumOfCounts(items);
  }

  lemma {:induction false} RenderedSumOfCounts(items: seq<LineItem>)
    ensures SumOfCounts(Rendered(items)) == QuantitySum(items)
  {
    if items != [] {
      assert Rendered(items)[1..] == Rendered(items[1..]);
      RenderedSumOfCounts(items[1..]);
    }
  }

  /** With every quantity at least 1, the count is at least the number of rows. */
  lemma {:induction false} CountAtLeastRows(items: seq<LineItem>)
    requires PositiveQuantities(items)
    ensures TotalCount(Rendered(items)) >= |items|
  {
    RenderedCount(items);
    QuantitySumAtLeastLength(items);
  }

  lemma {:induction false} QuantitySumAtLeastLength(items: seq<LineItem>)
    requires PositiveQuantities(items)
    ensures QuantitySum(items) >= |items|
  {
    if items != [] {
      assert PositiveQuantities(items[1..]) by {
        forall i | 0 <= i < |items[1..]| ensures items[1..][i].quantity >= 1 {
          assert items[1..][i] == items[i + 1];
        }
      }
      QuantitySumAtLeastLength(items[1..]);
    }
  }

  lemma {:induction false} QuantitySumUpdate(items: seq<LineItem>, k: nat, x: LineItem)
    requires k < |items|
    ensures QuantitySum(items[k := x]) == QuantitySum(items) - items[k].quantity + x.quantity
  {
    if k > 0 {
      assert items[k := x][1..] == items[1..][k - 1 := x];
      QuantitySumUpdate(items[1..], k - 1, x);
    }
  }

  /** An accepted addItem raises the total count by exactly one. */
  lemma CountAfterAdd(items: seq<LineItem>, item: Entry)
    requires PositiveQuantities(items) && Accepted(item)
    ensures TotalCount(Rendered(Added(items, item))) == TotalCount(Rendered(items)) + 1
  {
    RenderedCount(items);
    RenderedCount(Added(items, item));
    match IndexOf(items, item.name)
    case None =>
      QuantitySumConcat(items, [LineItem(item.name, item.cost, 1)]);
    case Some(k) =>
      QuantitySumUpdate(items, k, items[k].(quantity := OrOne(items[k].quantity) + 1));
  }

  // ---------------------------------------------------------------------------
  // The row's buttons

  /** What handleIncrement dispatches: None when it dispatches nothing,
      otherwise a request for one more than the current quantity. */
  function IncrementAction(item: Entry): (r: Option<Action>)
    ensures r.None? <==> item.Null? || item.name == ""
    ensures r.Some? ==> r.value.SetQuantity? && r.value.key == item.name
    ensures r.Some? ==> r.value.amount == Some(QuantityOrOne(item.quantity) as real + 1.0)
  {
    if item.Null? || item.name == "" then None
    else Some(SetQuantity(item.name, Some(QuantityOrOne(item.quantity) as real + 1.0)))
  }

  /** What handleDecrement dispatches: None when it dispatches nothing, the
      removal of the row at quantity 1 or less, and otherwise a request for one
      less than the current quantity. */
  function DecrementAction(item: Entry): (r: Option<Action>)
    ensures r.None? <==> item.Null? || item.name == ""
    ensures r.Some? ==> (r.value.Remove? <==> QuantityOrOne(item.quantity) <= 1)
    ensures r.Some? && r.value.Remove? ==> r.value.target == item.name
    ensures r.Some? && !r.value.Remove? ==>
      r.value == SetQuantity(item.name, Some((QuantityOrOne(item.quantity) - 1) as real))
  {
    if item.Null? || item.name == "" then None
    else
      var current := QuantityOrOne(item.quantity);
      if current > 1 then Some(SetQuantity(item.name, Some((current - 1) as real)))
      else Some(Remove(item.name))
  }

  /** What handleRemove dispatches: None when it dispatches nothing. */
  function RemoveAction(item: Entry): (r: Option<Action>)
    ensures r.None? <==> item.Null? || item.name == ""
    ensures r.Some? ==> r.value == Remove(item.name)
  {
    if item.Null? || item.name == "" then None else Some(Remove(item.name))
  }

  /** The store's items after dispatching the action, if there is one. */
  function Dispatched(items: seq<LineItem>, action: Option<Action>): seq<LineItem> {
    match action
    case None => items
    case Some(a) => Reduce(items, a)
  }

  method HandleIncrement(cart: Cart, item: Entry)
    modifies cart
    ensures cart.items == Dispatched(old(cart.items), IncrementAction(item))
    ensures old(cart.Valid()) ==> cart.Valid()
  {
    if item.Null? || item.name == "" {
      return;
    }
    var current := QuantityOrOne(item.quantity);
    cart.UpdateQuantity(item.name, Some(current as real + 1.0));
  }

  method HandleDecrement(cart: Cart, item: Entry)
    modifies cart
    ensures cart.items == Dispatched(old(cart.items), DecrementAction(item))
    ensures old(cart.Valid()) ==> cart.Valid()
  {
    if item.Null? || item.name == "" {
      return;
    }
    var current := QuantityOrOne(item.quantity);
    if current > 1 {
      cart.UpdateQuantity(item.name, Some((current - 1) as real));
    } else {
      cart.RemoveItem(item.name);
    }
  }

  method HandleRemove(cart: Cart, item: Entry)
    modifies cart
    ensures cart.items == Dispatched(old(cart.items), RemoveAction(item))
    ensures old(cart.Valid()) ==> cart.Valid()
  {
    if item.Null? || item.name == "" {
      return;
    }
    cart.RemoveItem(item.name);
  }

  /** In a cart with unique names, the row at k is the one its name finds. */
  lemma IndexOfRow(items: seq<LineItem>, k: nat)
    requires UniqueNames(items) && k < |items|
    ensures IndexOf(items, items[k].name) == Some(k)
  {
  }

  /** Pressing "+" on a rendered row raises that item's quantity by exactly one
      and changes nothing else. */
  lemma IncrementAddsOne(items: seq<LineItem>, k: nat)
    requires WellFormed(items) && k < |items|
    ensures Dispatched(items, IncrementAction(View(items[k])))
         == items[k := items[k].(quantity := items[k].quantity + 1)]
  {
  }

  /** Pressing "-" on a rendered row lowers its quantity by exactly one when it
      is above 1, and otherwise removes that row and nothing else. */
  lemma DecrementLowersOrRemoves(items: seq<LineItem>, k: nat)
    requires WellFormed(items) && k < |items|
    ensures items[k].quantity > 1 ==>
      Dispatched(items, DecrementAction(View(items[k])))
      == items[k := items[k].(quantity := items[k].quantity - 1)]
    ensures items[k].quantity <= 1 ==>
      Dispatched(items, DecrementAction(View(items[k]))) == items[..k] + items[k + 1..]
  {
    IndexOfRow(items, k);
    var q := items[k].quantity;
    assert ((q - 1) as real).Floor == q - 1;
    WithoutUniqueAt(items, k);
  }

  /** Pressing "remove" leaves no entry of that name and keeps every other item. */
  lemma RemoveLeavesNoEntry(items: seq<LineItem>, item: Entry)
    requires item.Present? && item.name != ""
    ensures !HasName(Dispatched(items, RemoveAction(item)), item.name)
    ensures forall x :: x in items && x.name != item.name ==> x in Dispatched(items, RemoveAction(item))
  {
  }

  /** Pressing "remove" on a rendered row takes out exactly that row. */
  lemma RemoveErasesRow(items: seq<LineItem>, k: nat)
    requires WellFormed(items) && k < |items|
    ensures Dispatched(items, RemoveAction(View(items[k]))) == items[..k] + items[k + 1..]
  {
    WithoutUniqueAt(items, k);
  }

  /** On a well-formed cart, "+" raises the total count by exactly one. */
  lemma IncrementRaisesCount(items: seq<LineItem>, k: nat)
    requires WellFormed(items) && k < |items|
    ensures TotalCount(Rendered(Dispatched(items, IncrementAction(View(items[k])))))
         == TotalCount(Rendered(items)) + 1
  {
    var x := items[k];
    IncrementAddsOne(items, k);
    RenderedCount(items);
    CountAfterUpdate(items, k, x.(quantity := x.quantity + 1));
  }

  /** On a well-formed cart, "-" lowers the total count by exactly one, whether
      it lowers the quantity or removes the row. */
  lemma DecrementLowersCount(items: seq<LineItem>, k: nat)
    requires WellFormed(items) && k < |items|
    ensures TotalCount(Rendered(Dispatched(items, DecrementAction(View(items[k])))))
         == TotalCount(Rendered(items)) - 1
  {
    DecrementLowersOrRemoves(items, k);
    RenderedCount(items);
    CountAfterLowerOrDelete(items, k, Dispatched(items, DecrementAction(View(items[k]))));
  }

  /** Lowering a quantity above 1 by one, or deleting a row of quantity 1,
      lowers the count by exactly one. */
  lemma CountAfterLowerOrDelete(items: seq<LineItem>, k: nat, after: seq<LineItem>)
    requires k < |items| && items[k].quantity >= 1
    requires items[k].quantity > 1 ==> after == items[k := items[k].(quantity := items[k].quantity - 1)]
    requires items[k].quantity <= 1 ==> after == items[..k] + items[k + 1..]
    ensures TotalCount(Rendered(after)) == QuantitySum(items) - 1
  {
    var x := items[k];
    if x.quantity > 1 {
      CountAfterUpdate(items, k, x.(quantity := x.quantity - 1));
    } else {
      CountAfterDelete(items, k);
    }
  }

  lemma CountAfterUpdate(items: seq<LineItem>, k: nat, x: LineItem)
    requires k < |items|
    ensures TotalCount(Rendered(items[k := x])) == QuantitySum(items) - items[k].quantity + x.quantity
  {
    RenderedCount(items[k := x]);
    QuantitySumUpdate(items, k, x);
  }

  lemma CountAfterDelete(items: seq<LineItem>, k: nat)
    requires k < |items|
    ensures TotalCount(Rendered(items[..k] + items[k + 1..])) == QuantitySum(items) - items[k].quantity
  {
    RenderedCount(items[..k] + items[k + 1..]);
    QuantitySumDelete(items, k);
  }

  lemma QuantitySumDelete(items: seq<LineItem>, k: nat)
    requires k < |items|
    ensures QuantitySum(items[..k] + items[k + 1..]) == QuantitySum(items) - items[k].quantity
  {
    assert items == items[..k] + ([items[k]] + items[k + 1..]);
    QuantitySumConcat(items[..k], [items[k]] + items[k + 1..]);
    QuantitySumConcat([items[k]], items[k + 1..]);
    QuantitySumConcat(items[..k], items[k + 1..]);
    assert QuantitySum([items[k]]) == items[k].quantity + QuantitySum([items[k]][1..]);
  }

  lemma {:induction false} QuantitySumConcat(a: seq<LineItem>, b: seq<LineItem>)
    ensures QuantitySum(a + b) == QuantitySum(a) + QuantitySum(b)
  {
    if a == [] {
      assert a + b == b;
    } else {
      assert (a + b)[1..] == a[1..] + b;
      QuantitySumConcat(a[1..], b);
    }
  }

  /** Worked cases: a $10.00 item twice and a $5 item once total $25.00; rows
      of quantity 3, 1 and a bare object count 5; the empty cart totals 0. */
  lemma Examples()
    ensures TotalAmount([Present("Fern", Given(Some(1000)), Some(2)),
                         Present("Palm", Given(Some(500)), Some(1))]) == 2500
    ensures TotalCount([Present("Fern", Given(Some(1000)), Some(3)),
                        Present("Palm", Given(Some(500)), Some(1)),
                        Present("", Falsy, None)]) == 5
    ensures TotalAmount([]) == 0 && TotalCount([]) == 0
  {
  }
}
