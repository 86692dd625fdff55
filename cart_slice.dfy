/**
  The cart store of the shop: an ordered sequence of line items keyed by name,
  changed only through four reducers (add an item, remove an item, set a
  quantity, clear the cart). A payload that fails a reducer's guard leaves the
  items unchanged; updateQuantity with no payload object at all throws instead,
  which is outside this model.

  Each reducer is given twice: as a pure function of the old sequence (Added,
  Removed, Updated, Reduce), about which the invariants are proved, and as a
  method of the class Cart that updates the items field in place and is proved
  to produce exactly what the function describes.
 */
module CartSlice {
  import opened Wrappers

  /** A cost as the cart sees it once JS truthiness and parseFloat are abstracted:
      Falsy is every cost that fails `!item.cost` (missing, null, false, 0, NaN, ""), and
      Given(cents) a truthy cost whose parse is `cents` (None when it is NaN).
      Turning a numeric cost into its "$"-prefixed string does not change the
      parse, so it is the identity here. */
  datatype Cost =
    | Falsy
    | Given(cents: Option<int>)

  /** A loosely shaped JS object as it reaches a reducer or a button handler:
      Null for a missing object; a name of "" stands for a missing or falsy
      name; a quantity of None for one that is missing or not a number. */
  datatype Entry =
    | Null
    | Present(name: string, cost: Cost, quantity: Option<int>)

  /** A line item as the store holds it. */
  datatype LineItem = LineItem(name: string, cost: Cost, quantity: int)

  /** The actions the slice's reducers handle; a SetQuantity amount of None
      is a quantity that is not a JS number. */
  datatype Action =
    | Add(item: Entry)
    | Remove(target: string)
    | SetQuantity(key: string, amount: Option<real>)
    | Clear

  predicate HasName(items: seq<LineItem>, name: string) {
    exists i :: 0 <= i < |items| && items[i].name == name
  }

  /** No two line items share a name. */
  predicate UniqueNames(items: seq<LineItem>) {
    forall i, j :: 0 <= i < j < |items| ==> items[i].name != items[j].name
  }

  predicate PositiveQuantities(items: seq<LineItem>) {
    forall i :: 0 <= i < |items| ==> items[i].quantity >= 1
  }

  /** Every line item has a truthy name and a truthy cost. */
  predicate NamedAndPriced(items: seq<LineItem>) {
    forall i :: 0 <= i < |items| ==> items[i].name != "" && items[i].cost.Given?
  }

  /** The invariant every state reachable from the initial empty cart keeps. */
  predicate WellFormed(items: seq<LineItem>) {
    UniqueNames(items) && PositiveQuantities(items) && NamedAndPriced(items)
  }

  /** The payload passes `if (!item || !item.name || !item.cost)`. */
  predicate Accepted(item: Entry) {
    item.Present? && item.name != "" && item.cost.Given?
  }

  /** The index `items.find((i) => i.name === name)` lands on: the first match. */
  function IndexOf(items: seq<LineItem>, name: string): (r: Option<nat>)
    ensures r.Some? ==> r.value < |items| && items[r.value].name == name
    ensures r.Some? ==> forall j :: 0 <= j < r.value ==> items[j].name != name
    ensures r.None? <==> !HasName(items, name)
  {
    IndexFrom(items, name, 0)
  }

  /** The scan behind find, from position i on. */
  function IndexFrom(items: seq<LineItem>, name: string, i: nat): (r: Option<nat>)
    requires i <= |items|
    ensures r.Some? ==> i <= r.value < |items| && items[r.value].name == name
    ensures r.Some? ==> forall j :: i <= j < r.value ==> items[j].name != name
    ensures r.None? <==> forall j :: i <= j < |items| ==> items[j].name != name
    decreases |items| - i
  {
    if i == |items| then None
    else if items[i].name == name then Some(i)
    else IndexFrom(items, name, i + 1)
  }

  /** JS `quantity || 1` on a numeric quantity: 0 is the one falsy number. */
  function OrOne(q: int): (r: int)
    ensures q == 0 ==> r == 1
    ensures q != 0 ==> r == q
  {
    if q == 0 then 1 else q
  }

  /** `Math.max(1, Math.floor(q))`: an integer of at least 1, the floor of q
      when q is at least 1. */
  function Clamp(q: real): (r: int)
    ensures r >= 1
    ensures q >= 1.0 ==> r as real <= q < r as real + 1.0
    ensures q < 1.0 ==> r == 1
  {
    var f := q.Floor;
    if f < 1 then 1 else f
  }

  /** `items.filter((i) => i.name !== name)`. */
  function Without(items: seq<LineItem>, name: string): (r: seq<LineItem>)
    ensures |r| <= |items|
    ensures !HasName(r, name)
    ensures forall x :: x in r ==> x in items
    ensures forall x :: x in items && x.name != name ==> x in r
    ensures !HasName(items, name) ==> r == items
  {
    if items == [] then []
    else
      var rest := Without(items[1..], name);
      assert items == [items[0]] + items[1..];
      ConsFacts(items[0], items[1..]);
      if items[0].name == name then rest
      else
        ConsFacts(items[0], rest);
        [items[0]] + rest
  }

  /** Membership and names of a sequence with an item put in front. */
  lemma ConsFacts(head: LineItem, rest: seq<LineItem>)
    ensures forall x :: x in [head] + rest <==> x == head || x in rest
    ensures forall n :: HasName([head] + rest, n) <==> head.name == n || HasName(rest, n)
  {
    var s := [head] + rest;
    assert s[0] == head && s[1..] == rest;
    forall n | HasName(s, n) ensures head.name == n || HasName(rest, n) {
      var i :| 0 <= i < |s| && s[i].name == n;
      if i > 0 { assert rest[i - 1] == s[i]; }
    }
    forall n | HasName(rest, n) ensures HasName(s, n) {
      var i :| 0 <= i < |rest| && rest[i].name == n;
      assert s[i + 1] == rest[i];
    }
  }

  /** The addItem reducer. */
  function Added(items: seq<LineItem>, item: Entry): (r: seq<LineItem>)
    ensures !Accepted(item) ==> r == items
    ensures Accepted(item) && !HasName(items, item.name) ==>
      |r| == |items| + 1 && r[..|items|] == items && r[|items|] == LineItem(item.name, item.cost, 1)
    ensures Accepted(item) && HasName(items, item.name) ==>
      var k := IndexOf(items, item.name).value;
      |r| == |items|
      && r[k] == items[k].(quantity := OrOne(items[k].quantity) + 1)
      && forall j :: 0 <= j < |items| && j != k ==> r[j] == items[j]
  {
    if !Accepted(item) then items
    else
      match IndexOf(items, item.name)
      case None => items + [LineItem(item.name, item.cost, 1)]
      case Some(k) => items[k := items[k].(quantity := OrOne(items[k].quantity) + 1)]
  }

  /** The removeItem reducer. */
  function Removed(items: seq<LineItem>, name: string): (r: seq<LineItem>)
    ensures name == "" || !HasName(items, name) ==> r == items
    ensures name != "" ==> !HasName(r, name)
    ensures name != "" ==> r == Without(items, name)
  {
    if name == "" then items else Without(items, name)
  }

  /** The updateQuantity reducer. */
  function Updated(items: seq<LineItem>, name: string, quantity: Option<real>): (r: seq<LineItem>)
    ensures name == "" || quantity.None? || !HasName(items, name) ==> r == items
    ensures name != "" && quantity.Some? && quantity.value <= 0.0 ==>
      !HasName(r, name) && r == Without(items, name)
    ensures name != "" && quantity.Some? && quantity.value > 0.0 && HasName(items, name) ==>
      var k := IndexOf(items, name).value;
      |r| == |items|
      && r[k] == items[k].(quantity := Clamp(quantity.value))
      && forall j :: 0 <= j < |items| && j != k ==> r[j] == items[j]
  {
    if name == "" || quantity.None? then items
    else
      match IndexOf(items, name)
      case None => items
      case Some(k) =>
        if quantity.value <= 0.0 then Without(items, name)
        else items[k := items[k].(quantity := Clamp(quantity.value))]
  }

  /** The slice's reducer: one action applied to the items. */
  function Reduce(items: seq<LineItem>, action: Action): seq<LineItem> {
    match action
    case Add(item) => Added(items, item)
    case Remove(name) => Removed(items, name)
    case SetQuantity(name, quantity) => Updated(items, name, quantity)
    case Clear => []
  }

  /** The items after dispatching the actions in order. */
  function Run(items: seq<LineItem>, actions: seq<Action>): seq<LineItem>
    decreases |actions|
  {
    if actions == [] then items else Run(Reduce(items, actions[0]), actions[1..])
  }

  /** One addItem call per payload, in order. */
  function AddAll(ps: seq<Entry>): (r: seq<Action>)
    ensures |r| == |ps| && forall i :: 0 <= i < |ps| ==> r[i] == Add(ps[i])
  {
    if ps == [] then [] else [Add(ps[0])] + AddAll(ps[1..])
  }

  /** Every payload passes addItem's guard and carries the given name. */
  predicate AllNamed(ps: seq<Entry>, name: string) {
    forall i :: 0 <= i < |ps| ==> Accepted(ps[i]) && ps[i].name == name
  }

  // ---------------------------------------------------------------------------
  // Properties of the filter

  /** The filter distributes over concatenation, so the items it keeps stay in
      their original order. */
  lemma {:induction false} WithoutAppend(a: seq<LineItem>, b: seq<LineItem>, name: string)
    ensures Without(a + b, name) == Without(a, name) + Without(b, name)
  {
    if a == [] {
      assert a + b == b;
    } else {
      assert (a + b)[0] == a[0];
      assert (a + b)[1..] == a[1..] + b;
      WithoutAppend(a[1..], b, name);
    }
  }

  /** The filter keeps a single item exactly when its name differs. */
  lemma WithoutSingle(x: LineItem, name: string)
    ensures Without([x], name) == if x.name == name then [] else [x]
  {
    assert [x][1..] == [];
  }

  /** In a cart with unique names, removing the name of item k removes exactly
      position k and keeps the rest in order. */
  lemma {:induction false} WithoutUniqueAt(items: seq<LineItem>, k: nat)
    requires UniqueNames(items) && k < |items|
    ensures Without(items, items[k].name) == items[..k] + items[k + 1..]
  {
    var name := items[k].name;
    var before, after := items[..k], items[k + 1..];
    assert items == before + ([items[k]] + after);
    WithoutAppend(before, [items[k]] + after, name);
    WithoutAppend([items[k]], after, name);
    WithoutSingle(items[k], name);
    NameOnlyAt(items, k);
  }

  /** In a cart with unique names, the name of item k occurs nowhere else. */
  lemma NameOnlyAt(items: seq<LineItem>, k: nat)
    requires UniqueNames(items) && k < |items|
    ensures !HasName(items[..k], items[k].name) && !HasName(items[k + 1..], items[k].name)
  {
    var before, after := items[..k], items[k + 1..];
    forall i | 0 <= i < |before| ensures before[i].name != items[k].name {
      assert before[i] == items[i];
    }
    forall i | 0 <= i < |after| ensures after[i].name != items[k].name {
      assert after[i] == items[k + 1 + i];
    }
  }

  lemma {:induction false} WithoutKeepsUnique(items: seq<LineItem>, name: string)
    requires UniqueNames(items)
    ensures UniqueNames(Without(items, name))
  {
    if items != [] {
      UniqueSplit(items);
      WithoutKeepsUnique(items[1..], name);
      if items[0].name != name {
        UniqueCons(items[0], Without(items[1..], name));
      }
    }
  }

  /** The tail of a cart with unique names has unique names, none of them the head's. */
  lemma UniqueSplit(items: seq<LineItem>)
    requires UniqueNames(items) && items != []
    ensures UniqueNames(items[1..])
    ensures forall x :: x in items[1..] ==> x.name != items[0].name
  {
    var rest := items[1..];
    forall i, j | 0 <= i < j < |rest| ensures rest[i].name != rest[j].name {
      assert rest[i] == items[i + 1] && rest[j] == items[j + 1];
    }
    forall x | x in rest ensures x.name != items[0].name {
      var j :| 0 <= j < |rest| && rest[j] == x;
      assert items[j + 1] == x;
    }
  }

  lemma UniqueCons(head: LineItem, r: seq<LineItem>)
    requires UniqueNames(r) && forall x :: x in r ==> x.name != head.name
    ensures UniqueNames([head] + r)
  {
    var s := [head] + r;
    forall i, j | 0 <= i < j < |s| ensures s[i].name != s[j].name {
      assert s[j] == r[j - 1] && s[j] in r;
      if i > 0 { assert s[i] == r[i - 1]; }
    }
  }

  // ---------------------------------------------------------------------------
  // Invariants the reducers keep

  /** If names are unique before a reducer runs, they are unique afterwards. */
  lemma ReduceKeepsUnique(items: seq<LineItem>, action: Action)
    requires UniqueNames(items)
    ensures UniqueNames(Reduce(items, action))
  {
    match action
    case Add(item) =>
      var r := Added(items, item);
      if Accepted(item) && !HasName(items, item.name) {
        forall i, j | 0 <= i < j < |r| ensures r[i].name != r[j].name {
          if j == |items| {
            assert r[i] == r[..|items|][i] == items[i];
          } else {
            assert r[i] == r[..|items|][i] && r[j] == r[..|items|][j];
          }
        }
      }
    case Remove(name) =>
      if name != "" { WithoutKeepsUnique(items, name); }
    case SetQuantity(name, quantity) =>
      if name != "" && quantity.Some? && quantity.value <= 0.0 { WithoutKeepsUnique(items, name); }
    case Clear =>
  }

  /** Every reducer keeps all quantities at 1 or more. */
  lemma ReduceKeepsPositive(items: seq<LineItem>, action: Action)
    requires PositiveQuantities(items)
    ensures PositiveQuantities(Reduce(items, action))
  {
  }

  /** Every reducer keeps every name and every cost truthy. */
  lemma ReduceKeepsNamedAndPriced(items: seq<LineItem>, action: Action)
    requires NamedAndPriced(items)
    ensures NamedAndPriced(Reduce(items, action))
  {
  }

  lemma ReduceKeepsWellFormed(items: seq<LineItem>, action: Action)
    requires WellFormed(items)
    ensures WellFormed(Reduce(items, action))
  {
    ReduceKeepsUnique(items, action);
    ReduceKeepsPositive(items, action);
    ReduceKeepsNamedAndPriced(items, action);
  }

  /** Every state reachable from the initial empty cart is well formed. */
  lemma {:induction false} RunKeepsWellFormed(items: seq<LineItem>, actions: seq<Action>)
    requires WellFormed(items)
    ensures WellFormed(Run(items, actions))
    decreases |actions|
  {
    if actions != [] {
      ReduceKeepsWellFormed(items, actions[0]);
      RunKeepsWellFormed(Reduce(items, actions[0]), actions[1..]);
    }
  }

  /** In a cart without the name, the new item appended for it is the one find returns. */
  lemma IndexOfLast(items: seq<LineItem>, x: LineItem)
    requires !HasName(items, x.name)
    ensures IndexOf(items + [x], x.name) == Some(|items|)
  {
    var s := items + [x];
    assert s[|items|] == x;
    forall j | 0 <= j < |items| ensures s[j].name != x.name {
      assert s[j] == items[j];
    }
  }

  /** The quantity at k raised by n. */
  function Bump(s: seq<LineItem>, k: nat, n: int): seq<LineItem>
    requires k < |s|
  {
    s[k := s[k].(quantity := s[k].quantity + n)]
  }

  /** Adding a payload with a name that find lands on at k raises the quantity
      at k by one, and find still lands on k afterwards. */
  lemma AddAtFound(s: seq<LineItem>, k: nat, p: Entry)
    requires Accepted(p) && IndexOf(s, p.name) == Some(k) && s[k].quantity >= 1
    ensures Added(s, p) == Bump(s, k, 1)
  {
    var r, t := Added(s, p), Bump(s, k, 1);
    assert HasName(s, p.name);
    forall j | 0 <= j < |t| ensures r[j] == t[j] {
    }
    assert r == t;
  }

  /** addItem applied once per payload, in order. */
  function AddEach(items: seq<LineItem>, ps: seq<Entry>): seq<LineItem>
    decreases |ps|
  {
    if ps == [] then items else AddEach(Added(items, ps[0]), ps[1..])
  }

  /** Dispatching the addItem actions is applying addItem once per payload. */
  lemma {:induction false} RunAddAll(items: seq<LineItem>, ps: seq<Entry>)
    ensures Run(items, AddAll(ps)) == AddEach(items, ps)
    decreases |ps|
  {
    if ps != [] {
      assert AddAll(ps)[1..] == AddAll(ps[1..]);
      RunAddAll(Added(items, ps[0]), ps[1..]);
    }
  }

  lemma AllNamedTail(ps: seq<Entry>, name: string)
    requires ps != [] && AllNamed(ps, name)
    ensures AllNamed(ps[1..], name)
  {
    forall i | 0 <= i < |ps[1..]| ensures Accepted(ps[1..][i]) && ps[1..][i].name == name {
      assert ps[1..][i] == ps[i + 1];
    }
  }

  /** Adds of payloads sharing a name that find lands on at k only raise the
      quantity at k, by the number of adds. */
  lemma {:induction false} RepeatedAddAt(s: seq<LineItem>, k: nat, ps: seq<Entry>, name: string)
    requires IndexOf(s, name) == Some(k) && s[k].quantity >= 1 && AllNamed(ps, name)
    ensures Run(s, AddAll(ps)) == s[k := s[k].(quantity := s[k].quantity + |ps|)]
  {
    RunAddAll(s, ps);
    AddEachAt(s, k, ps, name);
  }

  /** When each addItem call takes one state of a chain to the next, the
      calls in order take the first state to the last. */
  lemma {:induction false} AddEachChain(states: seq<seq<LineItem>>, ps: seq<Entry>)
    requires |states| == |ps| + 1
    requires forall i :: 0 <= i < |ps| ==> Added(states[i], ps[i]) == states[i + 1]
    ensures AddEach(states[0], ps) == states[|ps|]
    decreases |ps|
  {
    if ps != [] {
      var rest, tail := states[1..], ps[1..];
      forall i | 0 <= i < |tail| ensures Added(rest[i], tail[i]) == rest[i + 1] {
        assert rest[i] == states[i + 1] && tail[i] == ps[i + 1] && rest[i + 1] == states[i + 2];
      }
      AddEachChain(rest, tail);
    }
  }

  /** Raising the quantity at k leaves k the first item with the name. */
  lemma FirstKept(s: seq<LineItem>, k: nat, i: int, name: string)
    requires IndexOf(s, name) == Some(k)
    ensures IndexOf(Bump(s, k, i), name) == Some(k)
  {
    var t := Bump(s, k, i);
    forall j | 0 <= j < k ensures t[j].name != name {
      assert t[j] == s[j];
    }
    assert t[k].name == name;
  }

  lemma BumpStep(s: seq<LineItem>, k: nat, i: nat, p: Entry, name: string)
    requires IndexOf(s, name) == Some(k) && s[k].quantity >= 1 && Accepted(p) && p.name == name
    ensures Added(Bump(s, k, i), p) == Bump(s, k, i + 1)
  {
    var t := Bump(s, k, i);
    FirstKept(s, k, i, name);
    AddAtFound(t, k, p);
    RaiseTwice(s, k, i, 1);
  }

  lemma AddEachAt(s: seq<LineItem>, k: nat, ps: seq<Entry>, name: string)
    requires IndexOf(s, name) == Some(k) && s[k].quantity >= 1 && AllNamed(ps, name)
    ensures AddEach(s, ps) == s[k := s[k].(quantity := s[k].quantity + |ps|)]
  {
    var states := seq(|ps| + 1, i requires 0 <= i <= |ps| => Bump(s, k, i));
    forall i | 0 <= i < |ps| ensures Added(states[i], ps[i]) == states[i + 1] {
      BumpStep(s, k, i, ps[i], name);
    }
    AddEachChain(states, ps);
    assert states[0] == s;
  }

  lemma RaiseTwice(s: seq<LineItem>, k: nat, a: int, b: int)
    requires k < |s|
    ensures Bump(Bump(s, k, a), k, b) == Bump(s, k, a + b)
  {
  }

  /** addItem called once per payload, every payload accepted and carrying the
      same name, on a cart without that name: exactly one entry for the name is
      appended, with the first payload's cost and a quantity equal to the number
      of calls; every earlier item stays as it was. */
  lemma RepeatedAdd(items: seq<LineItem>, ps: seq<Entry>, name: string)
    requires |ps| >= 1 && AllNamed(ps, name) && !HasName(items, name)
    ensures Run(items, AddAll(ps)) == items + [LineItem(name, ps[0].cost, |ps|)]
  {
    var x := LineItem(name, ps[0].cost, 1);
    assert Added(items, ps[0]) == items + [x];
    RunAddAll(items, ps);
    AllNamedTail(ps, name);
    IndexOfLast(items, x);
    AddEachAt(items + [x], |items|, ps[1..], name);
    assert (items + [x])[|items| := x.(quantity := 1 + |ps[1..]|)] == items + [LineItem(name, ps[0].cost, |ps|)];
  }

  // ---------------------------------------------------------------------------
  // The store itself

  /** The cart slice's state: `state.items`, updated in place by the reducers. */
  class Cart {
    var items: seq<LineItem>

    ghost predicate Valid()
      reads this
    {
      WellFormed(items)
    }

    /** The initial state `{ items: [] }`. */
    constructor ()
      ensures items == [] && Valid()
    {
      items := [];
    }

    /** `state.items.find((i) => i.name === name)`, as an index. */
    method Find(name: string) returns (found: Option<nat>)
      ensures found == IndexOf(items, name)
    {
      var i := 0;
      while i < |items|
        invariant 0 <= i <= |items|
        invariant forall j :: 0 <= j < i ==> items[j].name != name
      {
        if items[i].name == name {
          return Some(i);
        }
        i := i + 1;
      }
      return None;
    }

    method AddItem(item: Entry)
      modifies this
      ensures items == Added(old(items), item)
      ensures old(Valid()) ==> Valid()
    {
      ghost var before := items;
      if item.Null? || item.name == "" || item.cost.Falsy? {
        return;
      }
      var existing := Find(item.name);
      match existing
      case None =>
        items := items + [LineItem(item.name, item.cost, 1)];
      case Some(k) =>
        items := items[k := items[k].(quantity := OrOne(items[k].quantity) + 1)];
      if WellFormed(before) {
        ReduceKeepsWellFormed(before, Add(item));
      }
    }

    method RemoveItem(name: string)
      modifies this
      ensures items == Removed(old(items), name)
      ensures old(Valid()) ==> Valid()
    {
      ghost var before := items;
      if name == "" {
        return;
      }
      items := Without(items, name);
      if WellFormed(before) {
        ReduceKeepsWellFormed(before, Remove(name));
      }
    }

    method UpdateQuantity(name: string, quantity: Option<real>)
      modifies this
      ensures items == Updated(old(items), name, quantity)
      ensures old(Valid()) ==> Valid()
    {
      ghost var before := items;
      if name == "" || quantity.None? {
        return;
      }
      var found := Find(name);
      if found.Some? {
        var k := found.value;
        if quantity.value <= 0.0 {
          items := Without(items, name);
        } else {
          items := items[k := items[k].(quantity := Clamp(quantity.value))];
        }
      }
      if WellFormed(before) {
        ReduceKeepsWellFormed(before, SetQuantity(name, quantity));
      }
    }

    method ClearCart()
      modifies this
      ensures items == [] && Valid()
    {
      items := [];
    }
  }
}
