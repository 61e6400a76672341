/**
 * The cart store (app/context/CartContext.js): an ordered list of line items
 * keyed by product id, the updaters that `addToCart`, `removeFromCart`,
 * `increaseQuantity`, `decreaseQuantity` and `clearCart` hand to
 * `setCartItems`, the two derived totals, and the provider's state with its
 * hydration-gated storage slot.
 *
 * Prices are integer cents. Quantities are integers, not naturals: a cart read
 * back from storage may hold anything, so "all quantities are at least 1" is a
 * hypothesis of the lemmas below and not a fact about the type.
 */
module Cart {
  import opened Wrappers
  import opened Storage

  /** A catalog product as passed to `addToCart`. */
  datatype Product = Product(id: string, title: string, author: string, price: int, coverImage: string)

  /** `{ ...product, quantity }`: the product's fields spread into the item, plus a quantity. */
  datatype LineItem = LineItem(id: string, title: string, author: string, price: int, coverImage: string, quantity: int)

  function NewItem(p: Product): LineItem {
    LineItem(p.id, p.title, p.author, p.price, p.coverImage, 1)
  }

  // ---------------------------------------------------------------------------
  // Invariants a cart may have
  // ---------------------------------------------------------------------------

  /** `find(item => item._id === id)` finds something. */
  predicate HasId(items: seq<LineItem>, id: string) {
    exists i :: 0 <= i < |items| && items[i].id == id
  }

  /** At most one line item per product id. */
  predicate UniqueIds(items: seq<LineItem>) {
    forall i, j :: 0 <= i < j < |items| ==> items[i].id != items[j].id
  }

  /** Every quantity is at least 1. */
  predicate AllPositive(items: seq<LineItem>) {
    forall i :: 0 <= i < |items| ==> items[i].quantity >= 1
  }

  predicate WellFormed(items: seq<LineItem>) {
    UniqueIds(items) && AllPositive(items)
  }

  /** The product ids in list order. */
  function Ids(items: seq<LineItem>): seq<string> {
    seq(|items|, i requires 0 <= i < |items| => items[i].id)
  }

  // ---------------------------------------------------------------------------
  // The updaters (pure list transforms)
  // ---------------------------------------------------------------------------

  /** The `map` of `addToCart` and `increaseQuantity`: every item with that id gains 1. */
  function Increment(items: seq<LineItem>, id: string): seq<LineItem> {
    seq(|items|, i requires 0 <= i < |items| =>
      if items[i].id == id then items[i].(quantity := items[i].quantity + 1) else items[i])
  }

  /** `addToCart`: bump the existing item, or append a new one with quantity 1. */
  function Add(items: seq<LineItem>, p: Product): seq<LineItem> {
    if HasId(items, p.id) then Increment(items, p.id) else items + [NewItem(p)]
  }

  /** `removeFromCart`: `filter(item => item._id !== id)`. */
  function RemoveId(items: seq<LineItem>, id: string): seq<LineItem> {
    if items == [] then []
    else if items[0].id != id then [items[0]] + RemoveId(items[1..], id)
    else RemoveId(items[1..], id)
  }

  /** The `map` of `decreaseQuantity`: `Math.max(1, quantity - 1)` on the items with that id. */
  function Lower(items: seq<LineItem>, id: string): seq<LineItem> {
    seq(|items|, i requires 0 <= i < |items| =>
      if items[i].id == id
      then items[i].(quantity := if items[i].quantity - 1 > 1 then items[i].quantity - 1 else 1)
      else items[i])
  }

  /** The `filter(item => item.quantity > 0)` of `decreaseQuantity`. */
  function KeepPositive(items: seq<LineItem>): seq<LineItem> {
    if items == [] then []
    else if items[0].quantity > 0 then [items[0]] + KeepPositive(items[1..])
    else KeepPositive(items[1..])
  }

  /** `decreaseQuantity`. */
  function Decrease(items: seq<LineItem>, id: string): seq<LineItem> {
    KeepPositive(Lower(items, id))
  }

  /** `totalItems`: the `reduce` summing quantities. */
  function TotalItems(items: seq<LineItem>): int {
    if items == [] then 0 else items[0].quantity + TotalItems(items[1..])
  }

  /** `totalPrice`: the `reduce` summing price times quantity. */
  function TotalPrice(items: seq<LineItem>): int {
    if items == [] then 0 else items[0].price * items[0].quantity + TotalPrice(items[1..])
  }

  // ---------------------------------------------------------------------------
  // Lemmas about the totals
  // ---------------------------------------------------------------------------

  lemma {:induction false} TotalsAppend(a: seq<LineItem>, b: seq<LineItem>)
    ensures TotalItems(a + b) == TotalItems(a) + TotalItems(b)
    ensures TotalPrice(a + b) == TotalPrice(a) + TotalPrice(b)
  {
    if a == [] {
      assert a + b == b;
    } else {
      assert (a + b)[0] == a[0];
      assert (a + b)[1..] == a[1..] + b;
      TotalsAppend(a[1..], b);
    }
  }

  /** Two carts that differ in one position differ in their totals by that position alone. */
  lemma {:induction false} TotalsPointUpdate(a: seq<LineItem>, b: seq<LineItem>, k: nat)
    requires |a| == |b| && k < |a|
    requires forall i :: 0 <= i < |a| && i != k ==> a[i] == b[i]
    ensures TotalItems(b) == TotalItems(a) - a[k].quantity + b[k].quantity
    ensures TotalPrice(b) == TotalPrice(a) - a[k].price * a[k].quantity + b[k].price * b[k].quantity
  {
    if k == 0 {
      assert a[1..] == b[1..];
    } else {
      assert a[0] == b[0];
      forall i | 0 <= i < |a| - 1 && i != k - 1 ensures a[1..][i] == b[1..][i] {
        assert a[1..][i] == a[i + 1];
      }
      TotalsPointUpdate(a[1..], b[1..], k - 1);
    }
  }

  // ---------------------------------------------------------------------------
  // addToCart / increaseQuantity
  // ---------------------------------------------------------------------------

  /** Bumping the id at position k, which no other position carries, changes exactly that item, by exactly 1. */
  lemma IncrementAt(items: seq<LineItem>, k: nat)
    requires k < |items| && forall i :: 0 <= i < |items| && i != k ==> items[i].id != items[k].id
    ensures var r := Increment(items, items[k].id);
      && |r| == |items| && Ids(r) == Ids(items)
      && r[k] == items[k].(quantity := items[k].quantity + 1)
      && (forall i :: 0 <= i < |items| && i != k ==> r[i] == items[i])
      && TotalItems(r) == TotalItems(items) + 1
      && TotalPrice(r) == TotalPrice(items) + items[k].price
  {
    var r := Increment(items, items[k].id);
    forall i | 0 <= i < |items| && i != k ensures r[i] == items[i] {
    }
    assert Ids(r) == Ids(items) by {
      forall i | 0 <= i < |items| ensures Ids(r)[i] == Ids(items)[i] {
        assert r[i].id == items[i].id;
      }
    }
    TotalsPointUpdate(items, r, k);
  }

  /** Bumping an id that is in a cart with unique ids changes exactly that item, by exactly 1. */
  lemma IncrementPresent(items: seq<LineItem>, k: nat)
    requires UniqueIds(items) && k < |items|
    ensures var r := Increment(items, items[k].id);
      && |r| == |items| && Ids(r) == Ids(items)
      && r[k] == items[k].(quantity := items[k].quantity + 1)
      && (forall i :: 0 <= i < |items| && i != k ==> r[i] == items[i])
      && TotalItems(r) == TotalItems(items) + 1
      && TotalPrice(r) == TotalPrice(items) + items[k].price
  {
    forall i | 0 <= i < |items| && i != k ensures items[i].id != items[k].id {
      if i < k { assert items[i].id != items[k].id; } else { assert items[k].id != items[i].id; }
    }
    IncrementAt(items, k);
  }

  /** Bumping an id that is not in the cart changes nothing. */
  lemma IncrementAbsent(items: seq<LineItem>, id: string)
    requires !HasId(items, id)
    ensures Increment(items, id) == items
  {
    assert forall i :: 0 <= i < |items| ==> Increment(items, id)[i] == items[i];
  }

  /** `addToCart` of a product already in the cart: that item gains exactly 1; order, length and the other items are unchanged. */
  lemma AddPresent(items: seq<LineItem>, p: Product, k: nat)
    requires UniqueIds(items) && k < |items| && items[k].id == p.id
    ensures var r := Add(items, p);
      && |r| == |items| && Ids(r) == Ids(items)
      && r[k] == items[k].(quantity := items[k].quantity + 1)
      && (forall i :: 0 <= i < |items| && i != k ==> r[i] == items[i])
      && TotalItems(r) == TotalItems(items) + 1
      && TotalPrice(r) == TotalPrice(items) + items[k].price
  {
    IncrementPresent(items, k);
  }

  /** `addToCart` of a new product: one item with quantity 1 is appended; the existing items are unchanged. */
  lemma AddAbsent(items: seq<LineItem>, p: Product)
    requires !HasId(items, p.id)
    ensures var r := Add(items, p);
      && |r| == |items| + 1 && r[..|items|] == items
      && r[|items|] == NewItem(p) && r[|items|].quantity == 1
      && TotalItems(r) == TotalItems(items) + 1
      && TotalPrice(r) == TotalPrice(items) + p.price
  {
    TotalsAppend(items, [NewItem(p)]);
    assert TotalItems([NewItem(p)]) == 1;
  }

  /** `addToCart` never creates a second line item for an id, and keeps quantities positive. */
  lemma AddKeepsWellFormed(items: seq<LineItem>, p: Product)
    requires WellFormed(items)
    ensures WellFormed(Add(items, p))
    ensures HasId(Add(items, p), p.id)
  {
    var r := Add(items, p);
    if !HasId(items, p.id) {
      assert r[|items|].id == p.id;
    } else {
      var k :| 0 <= k < |items| && items[k].id == p.id;
      assert r[k].id == p.id;
      assert forall i :: 0 <= i < |r| ==> r[i].id == items[i].id;
    }
  }

  /** Adding the same new product n times: one line item of quantity n, and n more items in all. */
  function AddTimes(items: seq<LineItem>, p: Product, n: nat): seq<LineItem> {
    if n == 0 then items else Add(AddTimes(items, p, n - 1), p)
  }

  lemma {:induction false} AddTimesCount(items: seq<LineItem>, p: Product, n: nat)
    requires UniqueIds(items) && !HasId(items, p.id) && n >= 1
    ensures var r := AddTimes(items, p, n);
      && UniqueIds(r) && |r| == |items| + 1 && r[..|items|] == items
      && r[|items|] == NewItem(p).(quantity := n)
      && TotalItems(r) == TotalItems(items) + n
  {
    if n == 1 {
      AddAbsent(items, p);
    } else {
      AddTimesCount(items, p, n - 1);
      var prev := AddTimes(items, p, n - 1);
      assert prev[|items|].id == p.id;
      AddPresent(prev, p, |items|);
      var r := Add(prev, p);
      assert r[..|items|] == items by {
        forall i | 0 <= i < |items| ensures r[i] == items[i] {
          assert prev[i] == prev[..|items|][i];
        }
      }
      assert UniqueIds(r) by {
        assert forall i :: 0 <= i < |r| ==> r[i].id == prev[i].id;
      }
    }
  }

  /** From an empty cart, n additions of one product leave exactly one line item holding n, and `totalItems` is n. */
  lemma RepeatedAddFromEmpty(p: Product, n: nat)
    requires n >= 1
    ensures AddTimes([], p, n) == [NewItem(p).(quantity := n)]
    ensures TotalItems(AddTimes([], p, n)) == n
  {
    AddTimesCount([], p, n);
  }

  // ---------------------------------------------------------------------------
  // removeFromCart
  // ---------------------------------------------------------------------------

  /** The filter distributes over concatenation: so it keeps the surviving items in their order. */
  lemma {:induction false} RemoveIdConcat(a: seq<LineItem>, b: seq<LineItem>, id: string)
    ensures RemoveId(a + b, id) == RemoveId(a, id) + RemoveId(b, id)
  {
    if a == [] {
      assert a + b == b;
    } else {
      assert (a + b)[0] == a[0];
      assert (a + b)[1..] == a[1..] + b;
      RemoveIdConcat(a[1..], b, id);
      if a[0].id != id {
        calc {
          RemoveId(a + b, id);
          [a[0]] + RemoveId(a[1..] + b, id);
          [a[0]] + (RemoveId(a[1..], id) + RemoveId(b, id));
          ([a[0]] + RemoveId(a[1..], id)) + RemoveId(b, id);
        }
      }
    }
  }

  /** Removing an absent id is a no-op. */
  lemma {:induction false} RemoveAbsent(items: seq<LineItem>, id: string)
    requires !HasId(items, id)
    ensures RemoveId(items, id) == items
  {
    if items != [] {
      assert !HasId(items[1..], id) by {
        forall i | 0 <= i < |items[1..]| ensures items[1..][i].id != id {
          assert items[1..][i] == items[i + 1];
        }
      }
      RemoveAbsent(items[1..], id);
    }
  }

  /** Nothing with the id survives, and every item without it does. */
  lemma {:induction false} RemoveMembers(items: seq<LineItem>, id: string)
    ensures forall x :: x in RemoveId(items, id) <==> x in items && x.id != id
    ensures !HasId(RemoveId(items, id), id)
  {
    if items != [] {
      RemoveMembers(items[1..], id);
      assert items == [items[0]] + items[1..];
    }
    var r := RemoveId(items, id);
    assert forall i :: 0 <= i < |r| ==> r[i] in r;
  }

  /** An id appearing only at position k is absent from both sides of k. */
  lemma UniqueSplit(items: seq<LineItem>, k: nat)
    requires UniqueIds(items) && k < |items|
    ensures !HasId(items[..k], items[k].id) && !HasId(items[k + 1..], items[k].id)
  {
    var id, before, after := items[k].id, items[..k], items[k + 1..];
    forall i | 0 <= i < |before| ensures before[i].id != id { assert before[i] == items[i]; }
    forall i | 0 <= i < |after| ensures after[i].id != id { assert after[i] == items[k + 1 + i]; }
  }

  lemma RemoveAround(before: seq<LineItem>, x: LineItem, after: seq<LineItem>)
    requires !HasId(before, x.id) && !HasId(after, x.id)
    ensures RemoveId(before + [x] + after, x.id) == before + after
  {
    RemoveIdConcat(before + [x], after, x.id);
    RemoveIdConcat(before, [x], x.id);
    RemoveAbsent(before, x.id);
    RemoveAbsent(after, x.id);
    assert RemoveId([x], x.id) == [];
  }

  /** Taking one item out of the middle lowers the totals by that item alone. */
  lemma TotalsWithout(before: seq<LineItem>, x: LineItem, after: seq<LineItem>)
    ensures TotalItems(before + after) == TotalItems(before + [x] + after) - x.quantity
    ensures TotalPrice(before + after) == TotalPrice(before + [x] + after) - x.price * x.quantity
  {
    TotalsAppend(before + [x], after);
    TotalsAppend(before, [x]);
    TotalsAppend(before, after);
    assert TotalItems([x]) == x.quantity && TotalPrice([x]) == x.price * x.quantity;
  }

  /** In a cart with unique ids, `removeFromCart` deletes exactly that item and keeps the rest in order. */
  lemma RemovePresent(items: seq<LineItem>, k: nat)
    requires UniqueIds(items) && k < |items|
    ensures RemoveId(items, items[k].id) == items[..k] + items[k + 1..]
    ensures !HasId(RemoveId(items, items[k].id), items[k].id)
    ensures TotalItems(RemoveId(items, items[k].id)) == TotalItems(items) - items[k].quantity
    ensures TotalPrice(RemoveId(items, items[k].id)) == TotalPrice(items) - items[k].price * items[k].quantity
  {
    var x, before, after := items[k], items[..k], items[k + 1..];
    assert items == before + [x] + after;
    UniqueSplit(items, k);
    RemoveAround(before, x, after);
    RemoveMembers(items, x.id);
    TotalsWithout(before, x, after);
  }

  /** A filtered cart keeps unique ids. */
  lemma {:induction false} RemoveKeepsWellFormed(items: seq<LineItem>, id: string)
    requires WellFormed(items)
    ensures WellFormed(RemoveId(items, id))
  {
    RemoveMembers(items, id);
    var r := RemoveId(items, id);
    if items != [] {
      assert WellFormed(items[1..]);
      RemoveKeepsWellFormed(items[1..], id);
      RemoveMembers(items[1..], id);
      if items[0].id != id {
        assert r == [items[0]] + RemoveId(items[1..], id);
        forall j | 1 <= j < |r| ensures r[0].id != r[j].id {
          assert r[j] in RemoveId(items[1..], id);
          assert r[j] in items[1..];
        }
      }
    }
    assert forall i :: 0 <= i < |r| ==> r[i] in items;
  }

  // ---------------------------------------------------------------------------
  // decreaseQuantity
  // ---------------------------------------------------------------------------

  /** The filter keeps exactly the items with a positive quantity. */
  lemma {:induction false} KeepPositiveMembers(items: seq<LineItem>)
    ensures forall x :: x in KeepPositive(items) <==> x in items && x.quantity > 0
  {
    if items != [] {
      KeepPositiveMembers(items[1..]);
      assert items == [items[0]] + items[1..];
    }
  }

  /** On positive quantities the filter keeps everything. */
  lemma {:induction false} KeepPositiveIdentity(items: seq<LineItem>)
    requires AllPositive(items)
    ensures KeepPositive(items) == items
  {
    if items != [] {
      assert AllPositive(items[1..]) by {
        forall i | 0 <= i < |items[1..]| ensures items[1..][i].quantity >= 1 {
          assert items[1..][i] == items[i + 1];
        }
      }
      KeepPositiveIdentity(items[1..]);
      assert items == [items[0]] + items[1..];
    }
  }

  lemma KeepPositiveSpec(items: seq<LineItem>)
    ensures AllPositive(KeepPositive(items))
    ensures forall x :: x in KeepPositive(items) <==> x in items && x.quantity > 0
    ensures AllPositive(items) ==> KeepPositive(items) == items
  {
    KeepPositiveMembers(items);
    if AllPositive(items) {
      KeepPositiveIdentity(items);
    }
    var r := KeepPositive(items);
    assert forall i :: 0 <= i < |r| ==> r[i] in r;
  }

  /** `decreaseQuantity` never leaves a quantity below 1, whatever the cart held. */
  lemma DecreaseNeverBelowOne(items: seq<LineItem>, id: string)
    ensures AllPositive(Decrease(items, id))
  {
    KeepPositiveSpec(Lower(items, id));
  }

  /**
   * On a cart whose quantities are all at least 1, the `> 0` filter removes
   * nothing: the length is unchanged, the target drops by one but stops at 1,
   * and every other item is unchanged.
   */
  lemma DecreaseOnPositive(items: seq<LineItem>, id: string)
    requires AllPositive(items)
    ensures var r := Decrease(items, id);
      && |r| == |items| && Ids(r) == Ids(items) && AllPositive(r)
      && forall i :: 0 <= i < |items| ==>
           r[i] == if items[i].id == id && items[i].quantity > 1
                   then items[i].(quantity := items[i].quantity - 1) else items[i]
  {
    DecreaseIsLower(items, id);
    var l := Lower(items, id);
    assert Ids(l) == Ids(items);
    assert AllPositive(l) by {
      forall i | 0 <= i < |l| ensures l[i].quantity >= 1 {
        assert items[i].quantity >= 1;
      }
    }
  }

  /** One unit less of an item lowers its subtotal by its price (kept apart: the solver needs it without context). */
  lemma OneUnitLess(price: int, q: int)
    ensures price * (q - 1) == price * q - price
  {
  }

  /** On positive quantities the filter of `decreaseQuantity` keeps everything. */
  lemma DecreaseIsLower(items: seq<LineItem>, id: string)
    requires AllPositive(items)
    ensures Decrease(items, id) == Lower(items, id)
  {
    var l := Lower(items, id);
    assert AllPositive(l) by {
      forall i | 0 <= i < |l| ensures l[i].quantity >= 1 {
        assert items[i].quantity >= 1;
      }
    }
    KeepPositiveIdentity(l);
  }

  /** Totals after `decreaseQuantity` of an item at quantity 1 are unchanged; otherwise one unit less. */
  lemma DecreasePresent(items: seq<LineItem>, k: nat)
    requires WellFormed(items) && k < |items|
    ensures WellFormed(Decrease(items, items[k].id))
    ensures items[k].quantity == 1 ==> Decrease(items, items[k].id) == items
    ensures TotalItems(Decrease(items, items[k].id)) == TotalItems(items) - (if items[k].quantity > 1 then 1 else 0)
    ensures TotalPrice(Decrease(items, items[k].id)) == TotalPrice(items) - (if items[k].quantity > 1 then items[k].price else 0)
  {
    var id := items[k].id;
    DecreaseIsLower(items, id);
    DecreaseNeverBelowOne(items, id);
    var r := Lower(items, id);
    forall i | 0 <= i < |items| && i != k ensures r[i] == items[i] {
      assert items[i].id != id;
    }
    TotalsPointUpdate(items, r, k);
    if items[k].quantity > 1 {
      assert r[k] == items[k].(quantity := items[k].quantity - 1);
      OneUnitLess(items[k].price, items[k].quantity);
    } else {
      assert r[k] == items[k];
      assert forall i :: 0 <= i < |items| ==> r[i] == items[i];
    }
    assert UniqueIds(r) by {
      assert forall i :: 0 <= i < |items| ==> r[i].id == items[i].id;
    }
  }

  /** `decreaseQuantity` of an absent id leaves a well-formed cart unchanged. */
  lemma DecreaseAbsent(items: seq<LineItem>, id: string)
    requires AllPositive(items) && !HasId(items, id)
    ensures Decrease(items, id) == items
  {
    DecreaseOnPositive(items, id);
  }

  /** Every updater keeps "one item per id, quantities at least 1". */
  lemma UpdatersKeepWellFormed(items: seq<LineItem>, p: Product, id: string)
    requires WellFormed(items)
    ensures WellFormed(Add(items, p))
    ensures WellFormed(RemoveId(items, id))
    ensures WellFormed(Increment(items, id))
    ensures WellFormed(Decrease(items, id))
    ensures WellFormed([])
  {
    AddKeepsWellFormed(items, p);
    RemoveKeepsWellFormed(items, id);
    DecreaseOnPositive(items, id);
    var r := Decrease(items, id);
    assert forall i :: 0 <= i < |items| ==> r[i].id == items[i].id;
  }

  /** Two books, 10.00 twice and 5.00 once: 3 items, 25.00. */
  lemma TotalsExample()
    ensures var cart := [LineItem("A", "", "", 1000, "", 2), LineItem("B", "", "", 500, "", 1)];
      TotalItems(cart) == 3 && TotalPrice(cart) == 2500
  {
    var cart := [LineItem("A", "", "", 1000, "", 2), LineItem("B", "", "", 500, "", 1)];
    assert cart[1..][1..] == [];
  }

  // ---------------------------------------------------------------------------
  // The provider: cartItems, isClient and the 'cartItems' storage key
  // ---------------------------------------------------------------------------

  /**
   * `CartProvider`. `storedCart` is the storage key 'cartItems'. Every updater
   * returns a new array, so each change is followed by the save effect; each
   * mutator below is the state update together with that effect.
   */
  class CartStore {
    var cartItems: seq<LineItem>
    var isClient: bool
    var storedCart: Option<Stored<seq<LineItem>>>
    /** `typeof window !== 'undefined'`. */
    const hasWindow: bool

    /** Once hydrated, the storage slot holds exactly the current list. */
    ghost predicate Valid()
      reads this
    {
      isClient ==> hasWindow && storedCart == Some(Stringify(cartItems))
    }

    /** The first render: an empty cart, not yet hydrated, storage as found. */
    constructor (hasWindow: bool, stored: Option<Stored<seq<LineItem>>>)
      ensures Valid()
      ensures this.hasWindow == hasWindow && cartItems == [] && !isClient && storedCart == stored
    {
      this.hasWindow := hasWindow;
      cartItems := [];
      isClient := false;
      storedCart := stored;
    }

    /**
     * The load effect (runs once, on mount). A truthy slot is parsed into the
     * cart; `JSON.parse` is not guarded, so unparseable text throws out of the
     * effect (`crashed`) before `isClient` is set.
     */
    method LoadEffect() returns (crashed: bool)
      modifies this`cartItems, this`isClient
      ensures crashed <==> hasWindow && storedCart.Some? && Truthy(storedCart.value) && Parse(storedCart.value).None?
      ensures crashed ==> cartItems == old(cartItems) && isClient == old(isClient)
      ensures !crashed ==> isClient == (hasWindow || old(isClient))
      ensures !crashed ==> cartItems == (if hasWindow && storedCart.Some? && storedCart.value.Json?
                                         then storedCart.value.value else old(cartItems))
    {
      crashed := false;
      if hasWindow {
        if storedCart.Some? && Truthy(storedCart.value) {
          var parsed := Parse(storedCart.value);
          if parsed.None? {
            crashed := true;
            return;
          }
          cartItems := parsed.value;
        }
        isClient := true;
      }
    }

    /** The save effect: writes the whole list, but only once hydrated. */
    method SaveEffect()
      modifies this`storedCart
      ensures storedCart == if isClient && hasWindow then Some(Stringify(cartItems)) else old(storedCart)
    {
      if isClient && hasWindow {
        storedCart := Some(Stringify(cartItems));
      }
    }

    /**
     * Mounting. In the first commit the load effect runs first and schedules
     * its updates; the same commit's save effect still sees `isClient == false`
     * and writes nothing. The model runs that no-op save before the load,
     * which is equivalent. The load's updates trigger a second commit whose
     * save effect writes back what was loaded.
     */
    method Mount() returns (crashed: bool)
      requires !isClient
      modifies this
      ensures Valid()
      ensures crashed <==> hasWindow && old(storedCart).Some? && Truthy(old(storedCart).value) && Parse(old(storedCart).value).None?
      ensures crashed ==> !isClient && storedCart == old(storedCart) && cartItems == old(cartItems)
      ensures !crashed && hasWindow ==> isClient
      ensures !crashed && hasWindow && old(storedCart).Some? && old(storedCart).value.Json? ==>
                cartItems == old(storedCart).value.value && storedCart == old(storedCart)
      ensures !(hasWindow && old(storedCart).Some? && old(storedCart).value.Json?) ==> cartItems == old(cartItems)
      ensures !hasWindow ==> !isClient && storedCart == old(storedCart)
    {
      SaveEffect();
      crashed := LoadEffect();
      if !crashed {
        SaveEffect();
      }
    }

    method AddToCart(p: Product)
      requires Valid()
      modifies this`cartItems, this`storedCart
      ensures Valid()
      ensures cartItems == Add(old(cartItems), p)
      ensures storedCart == if isClient then Some(Stringify(cartItems)) else old(storedCart)
    {
      cartItems := Add(cartItems, p);
      SaveEffect();
    }

    method RemoveFromCart(id: string)
      requires Valid()
      modifies this`cartItems, this`storedCart
      ensures Valid()
      ensures cartItems == RemoveId(old(cartItems), id)
      ensures storedCart == if isClient then Some(Stringify(cartItems)) else old(storedCart)
    {
      cartItems := RemoveId(cartItems, id);
      SaveEffect();
    }

    method IncreaseQuantity(id: string)
      requires Valid()
      modifies this`cartItems, this`storedCart
      ensures Valid()
      ensures cartItems == Increment(old(cartItems), id)
      ensures storedCart == if isClient then Some(Stringify(cartItems)) else old(storedCart)
    {
      cartItems := Increment(cartItems, id);
      SaveEffect();
    }

    method DecreaseQuantity(id: string)
      requires Valid()
      modifies this`cartItems, this`storedCart
      ensures Valid()
      ensures cartItems == Decrease(old(cartItems), id)
      ensures storedCart == if isClient then Some(Stringify(cartItems)) else old(storedCart)
    {
      cartItems := Decrease(cartItems, id);
      SaveEffect();
    }

    method ClearCart()
      requires Valid()
      modifies this`cartItems, this`storedCart
      ensures Valid()
      ensures cartItems == [] && TotalItems(cartItems) == 0 && TotalPrice(cartItems) == 0
      ensures storedCart == if isClient then Some(Stringify([])) else old(storedCart)
    {
      cartItems := [];
      SaveEffect();
    }
  }

  /** A cart survives a reload: adding a book, then mounting a fresh store on the same storage, restores it. */
  method ReloadRestoresCart(p: Product) returns (restored: seq<LineItem>, crashed: bool)
    ensures !crashed && restored == [NewItem(p)]
  {
    var first := new CartStore(true, None);
    var firstCrashed := first.Mount();
    first.AddToCart(p);
    var second := new CartStore(true, first.storedCart);
    crashed := second.Mount();
    restored := second.cartItems;
  }
}
