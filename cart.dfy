/**
 * The cart store (src/context/CartContext.jsx): one list of lines for the
 * current identity, mirrored to the `ecomCartItems_<identity>` record, with
 * totals recomputed from the lines on every read. Prices are integer cents.
 */
module Cart {
  import opened Wrappers
  import opened Keys
  import opened Catalogue

  /** `{...product, quantity}`: the product's fields as they were when the line was made, and a quantity. */
  datatype CartLine = CartLine(item: Product, quantity: int)

  const CartPrefix := "ecomCartItems_"

  function CartKey(id: string): string {
    CartPrefix + id
  }

  /** Two identities never share a cart record. */
  lemma CartKeyInjective()
    ensures forall a, b :: CartKey(a) == CartKey(b) ==> a == b
  {
    forall a, b ensures CartKey(a) == CartKey(b) ==> a == b {
      PrefixedInjective(CartPrefix, a, b);
    }
  }

  predicate HasLine(cart: seq<CartLine>, id: int) {
    exists i :: 0 <= i < |cart| && cart[i].item.id == id
  }

  /** At most one line per product id. */
  predicate OneLinePerId(cart: seq<CartLine>) {
    forall i, j :: 0 <= i < j < |cart| ==> cart[i].item.id != cart[j].item.id
  }

  predicate AllPositive(cart: seq<CartLine>) {
    forall i :: 0 <= i < |cart| ==> cart[i].quantity >= 1
  }

  /** `totalQuantity`: the sum of the line quantities; with positive quantities, at least one unit per line. */
  function TotalQuantity(cart: seq<CartLine>): (total: int)
    ensures cart == [] ==> total == 0
    ensures AllPositive(cart) ==> total >= |cart|
    ensures AllPositive(cart) && cart != [] ==> total >= 1
  {
    if cart == [] then 0
    else
      assert AllPositive(cart) ==> AllPositive(cart[1..]) by {
        if AllPositive(cart) {
          forall i | 0 <= i < |cart[1..]| ensures cart[1..][i].quantity >= 1 {
            assert cart[1..][i] == cart[i + 1];
          }
        }
      }
      cart[0].quantity + TotalQuantity(cart[1..])
  }

  /** Every line has a non-negative price and quantity. */
  predicate NonNegative(cart: seq<CartLine>) {
    forall i :: 0 <= i < |cart| ==> cart[i].item.price >= 0 && cart[i].quantity >= 0
  }

  /** `totalCost`: the sum of price times quantity over the lines. */
  function TotalCost(cart: seq<CartLine>): (total: int)
    ensures cart == [] ==> total == 0
    ensures |cart| == 1 ==> total == cart[0].item.price * cart[0].quantity
  {
    if cart == [] then 0 else cart[0].item.price * cart[0].quantity + TotalCost(cart[1..])
  }

  /** With non-negative prices and quantities the cost is never negative. */
  lemma {:induction false} TotalCostNonNegative(cart: seq<CartLine>)
    requires NonNegative(cart)
    ensures TotalCost(cart) >= 0
  {
    if cart != [] {
      assert NonNegative(cart[1..]) by {
        forall i | 0 <= i < |cart[1..]| ensures cart[1..][i].item.price >= 0 && cart[1..][i].quantity >= 0 {
          assert cart[1..][i] == cart[i + 1];
        }
      }
      TotalCostNonNegative(cart[1..]);
      assert cart[0].item.price * cart[0].quantity >= 0;
    }
  }

  /** The quantity held under one product id, over all lines with that id. */
  function QuantityOf(cart: seq<CartLine>, id: int): int {
    if cart == [] then 0
    else (if cart[0].item.id == id then cart[0].quantity else 0) + QuantityOf(cart[1..], id)
  }

  /** `cartItems.find(item => item.id === id)`. */
  function LineFor(cart: seq<CartLine>, id: int): (r: Option<CartLine>)
    ensures r.None? <==> !HasLine(cart, id)
    ensures r.Some? ==> r.value in cart && r.value.item.id == id
    ensures r.Some? ==> exists k :: 0 <= k < |cart| && cart[k] == r.value && forall j :: 0 <= j < k ==> cart[j].item.id != id
  {
    if cart == [] then None
    else if cart[0].item.id == id then Some(cart[0])
    else
      var r := LineFor(cart[1..], id);
      assert r.Some? ==> exists k :: 0 <= k < |cart| && cart[k] == r.value && forall j :: 0 <= j < k ==> cart[j].item.id != id by {
        if r.Some? {
          var k :| 0 <= k < |cart[1..]| && cart[1..][k] == r.value && forall j :: 0 <= j < k ==> cart[1..][j].item.id != id;
          assert cart[k + 1] == r.value;
          forall j | 0 <= j < k + 1 ensures cart[j].item.id != id {
            if j > 0 { assert cart[j] == cart[1..][j - 1]; }
          }
        }
      }
      assert HasLine(cart, id) <==> HasLine(cart[1..], id) by {
        if HasLine(cart, id) {
          var i :| 0 <= i < |cart| && cart[i].item.id == id;
          assert cart[1..][i - 1] == cart[i];
        }
        if HasLine(cart[1..], id) {
          var i :| 0 <= i < |cart[1..]| && cart[1..][i].item.id == id;
          assert cart[i + 1] == cart[1..][i];
        }
      }
      r
  }

  lemma OneLinePerIdTail(cart: seq<CartLine>)
    requires cart != [] && OneLinePerId(cart)
    ensures OneLinePerId(cart[1..])
    ensures !HasLine(cart[1..], cart[0].item.id)
  {
    var rest := cart[1..];
    forall i, j | 0 <= i < j < |rest| ensures rest[i].item.id != rest[j].item.id {
      assert rest[i] == cart[i + 1] && rest[j] == cart[j + 1];
    }
    forall i | 0 <= i < |rest| ensures rest[i].item.id != cart[0].item.id {
      assert rest[i] == cart[i + 1];
    }
  }

  lemma {:induction false} TotalsConcat(a: seq<CartLine>, b: seq<CartLine>)
    ensures TotalQuantity(a + b) == TotalQuantity(a) + TotalQuantity(b)
    ensures TotalCost(a + b) == TotalCost(a) + TotalCost(b)
  {
    if a == [] {
      assert a + b == b;
    } else {
      assert (a + b)[1..] == a[1..] + b;
      TotalsConcat(a[1..], b);
    }
  }

  /** The line map of an existing product: `item.id === id ? {...item, quantity: item.quantity + q} : item`. */
  function Increment(cart: seq<CartLine>, id: int, q: int): (r: seq<CartLine>)
    ensures |r| == |cart|
    ensures forall i :: 0 <= i < |r| ==> r[i].item == cart[i].item
    ensures forall i :: 0 <= i < |r| ==> r[i].quantity == cart[i].quantity + (if cart[i].item.id == id then q else 0)
  {
    if cart == [] then []
    else [if cart[0].item.id == id then cart[0].(quantity := cart[0].quantity + q) else cart[0]]
         + Increment(cart[1..], id, q)
  }

  /**
   * `addToCart(product, quantity)`: an existing line for the id grows by `quantity`,
   * otherwise one new line `{...product, quantity}` goes at the end.
   */
  function AddLine(cart: seq<CartLine>, product: Product, quantity: int): (r: seq<CartLine>)
    ensures HasLine(cart, product.id) ==> |r| == |cart|
    ensures HasLine(cart, product.id) ==> forall i :: 0 <= i < |r| ==>
              r[i].item == cart[i].item &&
              r[i].quantity == cart[i].quantity + (if cart[i].item.id == product.id then quantity else 0)
    ensures !HasLine(cart, product.id) ==> r == cart + [CartLine(product, quantity)]
    ensures HasLine(r, product.id)
    ensures OneLinePerId(cart) ==> OneLinePerId(r)
    ensures AllPositive(cart) && quantity >= 1 ==> AllPositive(r)
  {
    if HasLine(cart, product.id) then
      var r := Increment(cart, product.id, quantity);
      assert forall i :: 0 <= i < |r| ==> r[i].item.id == cart[i].item.id;
      r
    else
      var r := cart + [CartLine(product, quantity)];
      assert r[|cart|].item.id == product.id;
      r
  }

  /** `cartItems.map(item => item.id === id ? {...item, quantity: n} : item)`. */
  function SetQuantity(cart: seq<CartLine>, id: int, n: int): (r: seq<CartLine>)
    ensures |r| == |cart|
    ensures forall i :: 0 <= i < |r| ==> r[i].item == cart[i].item
    ensures forall i :: 0 <= i < |r| ==> r[i].quantity == if cart[i].item.id == id then n else cart[i].quantity
  {
    if cart == [] then []
    else [if cart[0].item.id == id then cart[0].(quantity := n) else cart[0]] + SetQuantity(cart[1..], id, n)
  }

  /** `cartItems.filter(item => item.id !== id)`. */
  function RemoveId(cart: seq<CartLine>, id: int): (r: seq<CartLine>)
    ensures forall l :: l in r <==> l in cart && l.item.id != id
    ensures !HasLine(r, id)
    ensures |r| <= |cart|
  {
    if cart == [] then []
    else if cart[0].item.id == id then RemoveId(cart[1..], id)
    else [cart[0]] + RemoveId(cart[1..], id)
  }

  /** The label `removeFromCart` reports: `itemToRemove?.name || 'Item'`. */
  function RemovedLabel(cart: seq<CartLine>, id: int): (text: string)
    ensures text != ""
    ensures HasLine(cart, id) && LineFor(cart, id).value.item.name != "" ==> text == LineFor(cart, id).value.item.name
    ensures HasLine(cart, id) && LineFor(cart, id).value.item.name == "" ==> text == "Item"
    ensures !HasLine(cart, id) ==> text == "Item"
  {
    var line := LineFor(cart, id);
    if line.Some? && line.value.item.name != "" then line.value.item.name else "Item"
  }

  /** `getInitialCart(userId)`: the record under the identity's key, or an empty cart. */
  function InitialCart(records: map<string, seq<CartLine>>, userId: string): (cart: seq<CartLine>)
    ensures userId == "" || CartKey(userId) !in records ==> cart == []
    ensures userId != "" && CartKey(userId) in records ==> cart == records[CartKey(userId)]
  {
    if userId == "" then [] else Lookup(records, CartKey(userId)).GetOr([])
  }

  /** Raising one line's quantity raises the totals by that much and moves only that id's quantity. */
  lemma IncrementTotals(cart: seq<CartLine>, id: int, q: int)
    requires OneLinePerId(cart)
    ensures TotalQuantity(Increment(cart, id, q)) == TotalQuantity(cart) + (if HasLine(cart, id) then q else 0)
    ensures TotalCost(Increment(cart, id, q)) ==
            TotalCost(cart) + (if HasLine(cart, id) then LineFor(cart, id).value.item.price * q else 0)
    ensures QuantityOf(Increment(cart, id, q), id) == QuantityOf(cart, id) + (if HasLine(cart, id) then q else 0)
    ensures forall other :: other != id ==> QuantityOf(Increment(cart, id, q), other) == QuantityOf(cart, other)
  {
    IncrementQuantities(cart, id, q);
    IncrementCost(cart, id, q);
  }

  lemma {:induction false} IncrementQuantities(cart: seq<CartLine>, id: int, q: int)
    requires OneLinePerId(cart)
    ensures TotalQuantity(Increment(cart, id, q)) == TotalQuantity(cart) + (if HasLine(cart, id) then q else 0)
    ensures QuantityOf(Increment(cart, id, q), id) == QuantityOf(cart, id) + (if HasLine(cart, id) then q else 0)
    ensures forall other :: other != id ==> QuantityOf(Increment(cart, id, q), other) == QuantityOf(cart, other)
  {
    if cart != [] {
      var rest := cart[1..];
      OneLinePerIdTail(cart);
      IncrementQuantities(rest, id, q);
      var r := Increment(cart, id, q);
      assert r[1..] == Increment(rest, id, q);
      if cart[0].item.id == id {
        assert !HasLine(rest, id);
      } else {
        assert HasLine(cart, id) <==> HasLine(rest, id);
      }
    }
  }

  lemma {:induction false} IncrementCost(cart: seq<CartLine>, id: int, q: int)
    requires OneLinePerId(cart)
    ensures TotalCost(Increment(cart, id, q)) ==
            TotalCost(cart) + (if HasLine(cart, id) then LineFor(cart, id).value.item.price * q else 0)
  {
    if cart != [] {
      var rest := cart[1..];
      OneLinePerIdTail(cart);
      IncrementCost(rest, id, q);
      var r := Increment(cart, id, q);
      assert r[1..] == Increment(rest, id, q);
      var p, n := cart[0].item.price, cart[0].quantity;
      if cart[0].item.id == id {
        assert !HasLine(rest, id);
        assert LineFor(cart, id) == Some(cart[0]);
        assert r[0].item.price == p && r[0].quantity == n + q;
        assert p * (n + q) == p * n + p * q;
      } else {
        assert HasLine(cart, id) <==> HasLine(rest, id);
        assert r[0] == cart[0];
        assert HasLine(cart, id) ==> LineFor(cart, id) == LineFor(rest, id);
      }
    }
  }

  /** A product that is in no line contributes nothing. */
  lemma {:induction false} QuantityOfAbsent(cart: seq<CartLine>, id: int)
    requires !HasLine(cart, id)
    ensures QuantityOf(cart, id) == 0
  {
    if cart != [] {
      assert !HasLine(cart[1..], id) by {
        forall i | 0 <= i < |cart[1..]| ensures cart[1..][i].item.id != id {
          assert cart[1..][i] == cart[i + 1];
        }
      }
      QuantityOfAbsent(cart[1..], id);
    }
  }

  lemma {:induction false} QuantityOfConcat(a: seq<CartLine>, b: seq<CartLine>, id: int)
    ensures QuantityOf(a + b, id) == QuantityOf(a, id) + QuantityOf(b, id)
  {
    if a == [] {
      assert a + b == b;
    } else {
      assert (a + b)[1..] == a[1..] + b;
      QuantityOfConcat(a[1..], b, id);
    }
  }

  /**
   * On a cart with one line per id, adding `quantity` of a product raises the total
   * quantity and that product's quantity by `quantity`, leaves every other product's
   * quantity alone, and raises the cost by `quantity` times the unit price of the
   * line that holds it (the existing line's copied price, or the product's own).
   */
  lemma AddLineTotals(cart: seq<CartLine>, product: Product, quantity: int)
    requires OneLinePerId(cart)
    ensures TotalQuantity(AddLine(cart, product, quantity)) == TotalQuantity(cart) + quantity
    ensures QuantityOf(AddLine(cart, product, quantity), product.id) == QuantityOf(cart, product.id) + quantity
    ensures forall other :: other != product.id ==>
              QuantityOf(AddLine(cart, product, quantity), other) == QuantityOf(cart, other)
    ensures TotalCost(AddLine(cart, product, quantity)) ==
            TotalCost(cart) + quantity * (if HasLine(cart, product.id) then LineFor(cart, product.id).value.item.price
                                          else product.price)
  {
    if HasLine(cart, product.id) {
      IncrementTotals(cart, product.id, quantity);
    } else {
      var line := [CartLine(product, quantity)];
      assert TotalCost(line) == quantity * product.price;
      assert QuantityOf(line, product.id) == quantity;
      assert forall other :: other != product.id ==> QuantityOf(line, other) == 0;
      TotalsConcat(cart, line);
      QuantityOfConcat(cart, line, product.id);
      forall other ensures QuantityOf(cart + line, other) == QuantityOf(cart, other) + QuantityOf(line, other) {
        QuantityOfConcat(cart, line, other);
      }
    }
  }

  /** Adding the same product several times, one after the other. */
  function AddRepeatedly(cart: seq<CartLine>, product: Product, quantities: seq<int>): seq<CartLine>
    decreases quantities
  {
    if quantities == [] then cart else AddRepeatedly(AddLine(cart, product, quantities[0]), product, quantities[1..])
  }

  function Sum(xs: seq<int>): int {
    if xs == [] then 0 else xs[0] + Sum(xs[1..])
  }

  lemma {:induction false} AddRepeatedlyQuantity(cart: seq<CartLine>, product: Product, quantities: seq<int>)
    requires OneLinePerId(cart)
    ensures OneLinePerId(AddRepeatedly(cart, product, quantities))
    ensures QuantityOf(AddRepeatedly(cart, product, quantities), product.id) == QuantityOf(cart, product.id) + Sum(quantities)
    ensures HasLine(cart, product.id) || quantities != [] ==> HasLine(AddRepeatedly(cart, product, quantities), product.id)
    decreases quantities
  {
    if quantities != [] {
      AddLineTotals(cart, product, quantities[0]);
      AddRepeatedlyQuantity(AddLine(cart, product, quantities[0]), product, quantities[1..]);
    }
  }

  /** In a cart with one line per id, a line's quantity is all the cart holds of that product. */
  lemma {:induction false} QuantityOfUniqueLine(cart: seq<CartLine>, k: int)
    requires OneLinePerId(cart) && 0 <= k < |cart|
    ensures QuantityOf(cart, cart[k].item.id) == cart[k].quantity
  {
    OneLinePerIdTail(cart);
    if k == 0 {
      QuantityOfAbsent(cart[1..], cart[0].item.id);
    } else {
      assert cart[1..][k - 1] == cart[k];
      QuantityOfUniqueLine(cart[1..], k - 1);
    }
  }

  /**
   * Repeated adds of one product to a cart that lacks it leave exactly one line for it,
   * whose quantity is the sum of the added quantities.
   */
  lemma RepeatedAddsMakeOneLine(cart: seq<CartLine>, product: Product, quantities: seq<int>)
    requires OneLinePerId(cart) && !HasLine(cart, product.id) && quantities != []
    ensures var r := AddRepeatedly(cart, product, quantities);
            OneLinePerId(r) &&
            exists k :: 0 <= k < |r| && r[k].item.id == product.id && r[k].quantity == Sum(quantities)
  {
    AddRepeatedlyQuantity(cart, product, quantities);
    QuantityOfAbsent(cart, product.id);
    var r := AddRepeatedly(cart, product, quantities);
    var k :| 0 <= k < |r| && r[k].item.id == product.id;
    QuantityOfUniqueLine(r, k);
  }

  /** Removing an id takes exactly that id's quantity out of the total. */
  lemma {:induction false} RemoveIdTotals(cart: seq<CartLine>, id: int)
    ensures TotalQuantity(RemoveId(cart, id)) == TotalQuantity(cart) - QuantityOf(cart, id)
    ensures forall other :: other != id ==> QuantityOf(RemoveId(cart, id), other) == QuantityOf(cart, other)
  {
    if cart != [] {
      RemoveIdTotals(cart[1..], id);
    }
  }

  /** Removing an absent id changes nothing. */
  lemma {:induction false} RemoveAbsent(cart: seq<CartLine>, id: int)
    requires !HasLine(cart, id)
    ensures RemoveId(cart, id) == cart
  {
    if cart != [] {
      assert !HasLine(cart[1..], id) by {
        forall i | 0 <= i < |cart[1..]| ensures cart[1..][i].item.id != id {
          assert cart[1..][i] == cart[i + 1];
        }
      }
      RemoveAbsent(cart[1..], id);
    }
  }

  /** Setting the quantity of an absent id changes nothing. */
  lemma SetQuantityAbsent(cart: seq<CartLine>, id: int, n: int)
    requires !HasLine(cart, id)
    ensures SetQuantity(cart, id, n) == cart
  {
    var r := SetQuantity(cart, id, n);
    forall i | 0 <= i < |r| ensures r[i] == cart[i] {
      assert cart[i].item.id != id;
    }
  }

  /** The surviving lines keep their order: removal distributes over concatenation. */
  lemma {:induction false} RemoveConcat(a: seq<CartLine>, b: seq<CartLine>, id: int)
    ensures RemoveId(a + b, id) == RemoveId(a, id) + RemoveId(b, id)
  {
    if a == [] {
      assert a + b == b;
    } else {
      assert (a + b)[1..] == a[1..] + b;
      RemoveConcat(a[1..], b, id);
    }
  }

  /** Removal keeps one line per id and positive quantities. */
  lemma {:induction false} RemoveKeepsInvariants(cart: seq<CartLine>, id: int)
    requires OneLinePerId(cart)
    ensures OneLinePerId(RemoveId(cart, id))
    ensures AllPositive(cart) ==> AllPositive(RemoveId(cart, id))
  {
    if cart != [] {
      OneLinePerIdTail(cart);
      RemoveKeepsInvariants(cart[1..], id);
      var rest := RemoveId(cart[1..], id);
      if cart[0].item.id != id {
        var r := [cart[0]] + rest;
        forall i, j | 0 <= i < j < |r| ensures r[i].item.id != r[j].item.id {
          assert r[j] == rest[j - 1] && r[j] in cart[1..];
          if i > 0 {
            assert r[i] == rest[i - 1];
          } else {
            var k :| 0 <= k < |cart[1..]| && cart[1..][k] == r[j];
            assert HasLine(cart[1..], r[j].item.id);
          }
        }
      }
      if AllPositive(cart) {
        forall l | l in RemoveId(cart, id) ensures l.quantity >= 1 {
          var k :| 0 <= k < |cart| && cart[k] == l;
        }
      }
    }
  }

  /**
   * Setting a present product's quantity to n in a cart with one line per id
   * moves the total by n minus the old quantity, and keeps the invariants when
   * n is positive.
   */
  lemma {:induction false} SetQuantityTotals(cart: seq<CartLine>, id: int, n: int)
    requires OneLinePerId(cart)
    ensures OneLinePerId(SetQuantity(cart, id, n))
    ensures AllPositive(cart) && n >= 1 ==> AllPositive(SetQuantity(cart, id, n))
    ensures TotalQuantity(SetQuantity(cart, id, n)) ==
            TotalQuantity(cart) - QuantityOf(cart, id) + (if HasLine(cart, id) then n else 0)
  {
    var r := SetQuantity(cart, id, n);
    assert forall i :: 0 <= i < |r| ==> r[i].item.id == cart[i].item.id;
    if cart != [] {
      OneLinePerIdTail(cart);
      SetQuantityTotals(cart[1..], id, n);
      assert r[1..] == SetQuantity(cart[1..], id, n);
      if cart[0].item.id == id {
        QuantityOfAbsent(cart[1..], id);
      } else {
        assert HasLine(cart, id) <==> HasLine(cart[1..], id);
      }
    }
  }

  /** The CartProvider: the identity it is scoped to, `cartItems`, and the `ecomCartItems_*` records. */
  class CartStore {
    var scope: string
    var items: seq<CartLine>
    var storage: map<string, seq<CartLine>>

    /** The save effect has run: the current identity's record equals the list. */
    ghost predicate Valid()
      reads this
    {
      scope != "" && CartKey(scope) in storage && storage[CartKey(scope)] == items
    }

    /** Mounting: `useState(() => getInitialCart(userId))`, then the save effect and the reload effect. */
    constructor (userId: string, records: map<string, seq<CartLine>>)
      requires userId != ""
      ensures Valid() && scope == userId
      ensures items == InitialCart(records, userId)
      ensures storage == records[CartKey(userId) := items]
    {
      scope := userId;
      items := InitialCart(records, userId);
      storage := records[CartKey(userId) := InitialCart(records, userId)];
    }

    /** `setCartItems(lines)`, followed by the save effect. */
    method SetCartItems(lines: seq<CartLine>)
      requires Valid()
      modifies this
      ensures Valid() && scope == old(scope)
      ensures items == lines
      ensures storage == old(storage)[CartKey(scope) := lines]
    {
      items := lines;
      storage := storage[CartKey(scope) := items];
    }

    /** `addToCart(product, quantity)`. */
    method AddToCart(product: Product, quantity: int)
      requires Valid()
      modifies this
      ensures Valid() && scope == old(scope)
      ensures items == AddLine(old(items), product, quantity)
      ensures storage == old(storage)[CartKey(scope) := items]
    {
      SetCartItems(AddLine(items, product, quantity));
    }

    /** `removeFromCart(productId)`: returns the label the notification names. */
    method RemoveFromCart(id: int) returns (notice: string)
      requires Valid()
      modifies this
      ensures Valid() && scope == old(scope)
      ensures items == RemoveId(old(items), id)
      ensures notice == RemovedLabel(old(items), id)
      ensures storage == old(storage)[CartKey(scope) := items]
    {
      notice := RemovedLabel(items, id);
      SetCartItems(RemoveId(items, id));
    }

    /**
     * `updateQuantity(productId, n)`: a negative n is rejected and changes nothing,
     * 0 removes the line exactly as `removeFromCart`, a positive n is set verbatim.
     */
    method UpdateQuantity(id: int, n: int) returns (accepted: bool)
      requires Valid()
      modifies this
      ensures Valid() && scope == old(scope)
      ensures accepted <==> n >= 0
      ensures n < 0 ==> items == old(items) && storage == old(storage)
      ensures n == 0 ==> items == RemoveId(old(items), id)
      ensures n > 0 ==> items == SetQuantity(old(items), id, n)
      ensures n > 0 && !HasLine(old(items), id) ==> items == old(items)
      ensures n >= 0 ==> storage == old(storage)[CartKey(scope) := items]
    {
      if n < 0 {
        return false;
      }
      if n == 0 {
        var _ := RemoveFromCart(id);
        return true;
      }
      if !HasLine(items, id) {
        SetQuantityAbsent(items, id, n);
      }
      SetCartItems(SetQuantity(items, id, n));
      accepted := true;
    }

    /** `clearCart()`. */
    method ClearCart()
      requires Valid()
      modifies this
      ensures Valid() && scope == old(scope)
      ensures items == []
      ensures storage == old(storage)[CartKey(scope) := []]
    {
      SetCartItems([]);
    }

    /**
     * The identity changes to `userId`. Both effects depend on it and run in the order
     * they are declared: the save effect first writes the list still in memory under
     * the NEW identity's key, then the reload effect reads that same record back. The
     * new identity therefore sees the previous identity's lines, and its own stored
     * cart is overwritten.
     */
    method SwitchIdentity(userId: string)
      requires Valid() && userId != ""
      modifies this
      ensures Valid() && scope == userId
      ensures items == old(items)
      ensures userId != old(scope) ==> storage == old(storage)[CartKey(userId) := old(items)]
      ensures userId == old(scope) ==> storage == old(storage)
    {
      if userId != scope {
        scope := userId;
        storage := storage[CartKey(scope) := items];
        items := InitialCart(storage, scope);
        storage := storage[CartKey(scope) := items];
      }
    }
  }
}
