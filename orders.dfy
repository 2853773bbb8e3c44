/**
 * The order ledger (src/context/OrderContext.jsx): one `ecomOrderHistory_<identity>`
 * record per identity, newest order first; the current identity's history is
 * kept in memory for the history page; an admin view gathers every record,
 * tags each order with its owner and sorts by date, newest first.
 * Dates are integer milliseconds, totals integer cents.
 */
module Orders {
  import opened Wrappers
  import opened Keys
  import opened Cart

  datatype Shipping = Shipping(name: string, email: string, address: string, city: string, zip: string)

  datatype Order = Order(orderId: string, date: int, items: seq<CartLine>, total: int, shipping: Shipping)

  /** `{...order, orderUserId}` in the admin view. */
  datatype TaggedOrder = TaggedOrder(order: Order, owner: string)

  const OrderPrefix := "ecomOrderHistory_"

  function OrderKey(id: string): string {
    OrderPrefix + id
  }

  lemma OrderKeyInjective()
    ensures forall a, b :: OrderKey(a) == OrderKey(b) ==> a == b
  {
    forall a, b ensures OrderKey(a) == OrderKey(b) ==> a == b {
      PrefixedInjective(OrderPrefix, a, b);
    }
  }

  /** `getOrdersByUserId(userId)`: no identity, or no readable record, means no orders. */
  function OrdersOf(records: map<string, seq<Order>>, userId: string): (orders: seq<Order>)
    ensures userId == "" || OrderKey(userId) !in records ==> orders == []
    ensures userId != "" && OrderKey(userId) in records ==> orders == records[OrderKey(userId)]
  {
    if userId == "" then [] else Lookup(records, OrderKey(userId)).GetOr([])
  }

  /** `saveOrdersByUserId(userId, orders)`: writes one identity's record and no other. */
  function SaveOrders(records: map<string, seq<Order>>, userId: string, orders: seq<Order>): (r: map<string, seq<Order>>)
    ensures userId == "" ==> r == records
    ensures userId != "" ==> OrdersOf(r, userId) == orders && r.Keys == records.Keys + {OrderKey(userId)}
    ensures forall other :: other != userId ==> OrdersOf(r, other) == OrdersOf(records, other)
  {
    OrderKeyInjective();
    if userId == "" then records else records[OrderKey(userId) := orders]
  }

  predicate HasOrder(history: seq<Order>, orderId: string) {
    exists i :: 0 <= i < |history| && history[i].orderId == orderId
  }

  /** `history.find(order => order.orderId === orderId)`: the first order with that id. */
  function FindOrder(history: seq<Order>, orderId: string): (r: Option<Order>)
    ensures r.None? <==> !HasOrder(history, orderId)
    ensures r.Some? ==> exists i :: 0 <= i < |history| && history[i] == r.value && r.value.orderId == orderId
                          && forall j :: 0 <= j < i ==> history[j].orderId != orderId
  {
    if history == [] then None
    else if history[0].orderId == orderId then Some(history[0])
    else
      var r := FindOrder(history[1..], orderId);
      assert HasOrder(history, orderId) ==> HasOrder(history[1..], orderId) by {
        if HasOrder(history, orderId) {
          var i :| 0 <= i < |history| && history[i].orderId == orderId;
          assert history[1..][i - 1] == history[i];
        }
      }
      assert r.Some? ==> exists i :: 1 <= i < |history| && history[i] == r.value
                          && forall j :: 0 <= j < i ==> history[j].orderId != orderId by {
        if r.Some? {
          var i :| 0 <= i < |history[1..]| && history[1..][i] == r.value
                   && forall j :: 0 <= j < i ==> history[1..][j].orderId != orderId;
          assert history[i + 1] == r.value;
          forall j | 0 <= j < i + 1 ensures history[j].orderId != orderId {
            if j > 0 { assert history[j] == history[1..][j - 1]; }
          }
        }
      }
      r
  }

  /** `userOrders.filter(order => order.orderId !== orderId)`. */
  function RemoveOrder(history: seq<Order>, orderId: string): (r: seq<Order>)
    ensures forall o :: o in r <==> o in history && o.orderId != orderId
    ensures !HasOrder(r, orderId)
    ensures |r| <= |history|
  {
    if history == [] then []
    else if history[0].orderId == orderId then RemoveOrder(history[1..], orderId)
    else [history[0]] + RemoveOrder(history[1..], orderId)
  }

  /** Removing an id that no order has changes nothing. */
  lemma {:induction false} RemoveOrderAbsent(history: seq<Order>, orderId: string)
    requires !HasOrder(history, orderId)
    ensures RemoveOrder(history, orderId) == history
  {
    if history != [] {
      assert !HasOrder(history[1..], orderId) by {
        forall i | 0 <= i < |history[1..]| ensures history[1..][i].orderId != orderId {
          assert history[1..][i] == history[i + 1];
        }
      }
      RemoveOrderAbsent(history[1..], orderId);
    }
  }

  /** The surviving orders keep their order: removal distributes over concatenation. */
  lemma {:induction false} RemoveOrderConcat(a: seq<Order>, b: seq<Order>, orderId: string)
    ensures RemoveOrder(a + b, orderId) == RemoveOrder(a, orderId) + RemoveOrder(b, orderId)
  {
    if a == [] {
      assert a + b == b;
    } else {
      assert (a + b)[1..] == a[1..] + b;
      RemoveOrderConcat(a[1..], b, orderId);
    }
  }

  /**
   * Deleting an order for an identity a second time changes nothing in storage:
   * after the first delete the record exists and holds no order with that id.
   */
  lemma DeleteTwice(records: map<string, seq<Order>>, userId: string, orderId: string)
    ensures var once := SaveOrders(records, userId, RemoveOrder(OrdersOf(records, userId), orderId));
            SaveOrders(once, userId, RemoveOrder(OrdersOf(once, userId), orderId)) == once
  {
    var once := SaveOrders(records, userId, RemoveOrder(OrdersOf(records, userId), orderId));
    if userId != "" {
      RemoveOrderAbsent(OrdersOf(once, userId), orderId);
      assert once[OrderKey(userId) := OrdersOf(once, userId)] == once;
    }
  }

  /** A new order put in front is what a lookup of its id finds, whatever follows it. */
  lemma PlacedOrderIsFound(records: map<string, seq<Order>>, userId: string, order: Order)
    requires userId != ""
    ensures FindOrder(OrdersOf(SaveOrders(records, userId, [order] + OrdersOf(records, userId)), userId), order.orderId)
            == Some(order)
  {
  }

  /** `userOrders.map(order => ({...order, orderUserId: userId}))`. */
  function TagAll(orders: seq<Order>, owner: string): (r: seq<TaggedOrder>)
    ensures |r| == |orders|
    ensures forall i :: 0 <= i < |r| ==> r[i] == TaggedOrder(orders[i], owner)
  {
    if orders == [] then [] else [TaggedOrder(orders[0], owner)] + TagAll(orders[1..], owner)
  }

  /**
   * What one stored key adds to the admin view: each order of an order record,
   * tagged with the identity the key belongs to, and nothing from any other key.
   */
  function Contribution(records: map<string, seq<Order>>, key: string): (r: seq<TaggedOrder>)
    ensures !HasPrefix(OrderPrefix, key) || key !in records ==> r == []
    ensures forall t :: t in r ==> OrderKey(t.owner) == key && key in records && t.order in records[key]
    ensures forall o :: HasPrefix(OrderPrefix, key) && key in records && o in records[key] ==>
              TaggedOrder(o, StripPrefix(OrderPrefix, key)) in r
  {
    if HasPrefix(OrderPrefix, key) && key in records then
      var r := TagAll(records[key], StripPrefix(OrderPrefix, key));
      assert forall t :: t in r ==> t.order in records[key] by {
        forall t | t in r ensures t.order in records[key] {
          var i :| 0 <= i < |r| && r[i] == t;
          assert t.order == records[key][i];
        }
      }
      assert forall o :: o in records[key] ==> TaggedOrder(o, StripPrefix(OrderPrefix, key)) in r by {
        forall o | o in records[key] ensures TaggedOrder(o, StripPrefix(OrderPrefix, key)) in r {
          var i :| 0 <= i < |records[key]| && records[key][i] == o;
          assert r[i] == TaggedOrder(o, StripPrefix(OrderPrefix, key));
        }
      }
      r
    else []
  }

  /**
   * The admin view before sorting: the contributions of the keys, in
   * enumeration order. Every gathered order sits in the record of its owner's
   * key, and every order of every enumerated order record is gathered.
   */
  function Gather(records: map<string, seq<Order>>, keys: seq<string>): (r: seq<TaggedOrder>)
    ensures forall t :: t in r ==> OrderKey(t.owner) in keys && OrderKey(t.owner) in records && t.order in records[OrderKey(t.owner)]
    ensures forall k, o :: k in keys && HasPrefix(OrderPrefix, k) && k in records && o in records[k] ==>
              TaggedOrder(o, StripPrefix(OrderPrefix, k)) in r
  {
    if keys == [] then []
    else
      var init, last := keys[..|keys| - 1], keys[|keys| - 1];
      assert keys == init + [last];
      Gather(records, init) + Contribution(records, last)
  }

  predicate SortedByDateDesc(s: seq<TaggedOrder>) {
    forall i, j :: 0 <= i < j < |s| ==> s[i].order.date >= s[j].order.date
  }

  /** Insert before the first order that is not newer: equal dates keep their original order. */
  function InsertByDate(x: TaggedOrder, s: seq<TaggedOrder>): (r: seq<TaggedOrder>)
    ensures multiset(r) == multiset(s) + multiset{x}
  {
    if s == [] || s[0].order.date <= x.order.date then [x] + s
    else
      assert s == [s[0]] + s[1..];
      [s[0]] + InsertByDate(x, s[1..])
  }

  lemma SortedTail(s: seq<TaggedOrder>)
    requires s != [] && SortedByDateDesc(s)
    ensures SortedByDateDesc(s[1..])
    ensures forall e :: e in s ==> e.order.date <= s[0].order.date
  {
    forall i, j | 0 <= i < j < |s[1..]| ensures s[1..][i].order.date >= s[1..][j].order.date {
      assert s[1..][i] == s[i + 1] && s[1..][j] == s[j + 1];
    }
  }

  /** A list whose head is no older than anything after it, and whose tail is sorted, is sorted. */
  lemma ConsSorted(x: TaggedOrder, s: seq<TaggedOrder>)
    requires SortedByDateDesc(s)
    requires forall e :: e in s ==> e.order.date <= x.order.date
    ensures SortedByDateDesc([x] + s)
  {
    var r := [x] + s;
    forall i, j | 0 <= i < j < |r| ensures r[i].order.date >= r[j].order.date {
      assert r[j] == s[j - 1];
      if i > 0 {
        assert r[i] == s[i - 1];
      }
    }
  }

  /** Inserting into a sorted list keeps it sorted. */
  lemma {:induction false} InsertKeepsSorted(x: TaggedOrder, s: seq<TaggedOrder>)
    requires SortedByDateDesc(s)
    ensures SortedByDateDesc(InsertByDate(x, s))
  {
    if s == [] || s[0].order.date <= x.order.date {
      if s != [] {
        SortedTail(s);
      }
      ConsSorted(x, s);
    } else {
      SortedTail(s);
      InsertKeepsSorted(x, s[1..]);
      var tail := InsertByDate(x, s[1..]);
      forall e | e in tail ensures e.order.date <= s[0].order.date {
        assert e in multiset(tail);
      }
      ConsSorted(s[0], tail);
    }
  }

  /** `allOrders.sort((a, b) => new Date(b.date) - new Date(a.date))`: a stable sort, newest first. */
  function SortByDateDesc(s: seq<TaggedOrder>): (r: seq<TaggedOrder>)
    ensures multiset(r) == multiset(s)
    ensures SortedByDateDesc(r)
  {
    if s == [] then []
    else
      assert s == [s[0]] + s[1..];
      InsertKeepsSorted(s[0], SortByDateDesc(s[1..]));
      InsertByDate(s[0], SortByDateDesc(s[1..]))
  }

  /** The orders of one owner, in their order. */
  function OwnedBy(s: seq<TaggedOrder>, owner: string): seq<TaggedOrder> {
    if s == [] then [] else (if s[0].owner == owner then [s[0]] else []) + OwnedBy(s[1..], owner)
  }

  lemma {:induction false} OwnedByConcat(a: seq<TaggedOrder>, b: seq<TaggedOrder>, owner: string)
    ensures OwnedBy(a + b, owner) == OwnedBy(a, owner) + OwnedBy(b, owner)
  {
    if a == [] {
      assert a + b == b;
    } else {
      assert (a + b)[1..] == a[1..] + b;
      OwnedByConcat(a[1..], b, owner);
    }
  }

  lemma {:induction false} OwnedByTagAll(orders: seq<Order>, tag: string, owner: string)
    ensures OwnedBy(TagAll(orders, tag), owner) == if tag == owner then TagAll(orders, tag) else []
  {
    if orders != [] {
      OwnedByTagAll(orders[1..], tag, owner);
      assert TagAll(orders, tag)[1..] == TagAll(orders[1..], tag);
    }
  }

  lemma {:induction false} OwnedByHead(s: seq<TaggedOrder>, owner: string)
    ensures forall e :: e in OwnedBy(s, owner) ==> e in s
  {
    if s != [] {
      OwnedByHead(s[1..], owner);
    }
  }

  lemma OwnedByCons(e: TaggedOrder, t: seq<TaggedOrder>, owner: string)
    ensures OwnedBy([e] + t, owner) == (if e.owner == owner then [e] else []) + OwnedBy(t, owner)
  {
    assert ([e] + t)[1..] == t;
  }

  /** Filtering an owner out of a sorted list commutes with inserting one more order. */
  lemma {:induction false} OwnedByInsert(x: TaggedOrder, s: seq<TaggedOrder>, owner: string)
    requires SortedByDateDesc(s)
    ensures OwnedBy(InsertByDate(x, s), owner) ==
            if x.owner == owner then InsertByDate(x, OwnedBy(s, owner)) else OwnedBy(s, owner)
  {
    var f := OwnedBy(s, owner);
    if s == [] || s[0].order.date <= x.order.date {
      assert InsertByDate(x, s) == [x] + s;
      OwnedByCons(x, s, owner);
      if x.owner == owner && f != [] {
        SortedTail(s);
        OwnedByHead(s, owner);
        assert f[0] in s;
        assert InsertByDate(x, f) == [x] + f;
      }
    } else {
      var tail := InsertByDate(x, s[1..]);
      var f1 := OwnedBy(s[1..], owner);
      assert InsertByDate(x, s) == [s[0]] + tail;
      assert s == [s[0]] + s[1..];
      OwnedByCons(s[0], tail, owner);
      OwnedByCons(s[0], s[1..], owner);
      SortedTail(s);
      OwnedByInsert(x, s[1..], owner);
      var pre := if s[0].owner == owner then [s[0]] else [];
      assert f == pre + f1;
      assert OwnedBy(InsertByDate(x, s), owner) == pre + OwnedBy(tail, owner);
      if x.owner != owner {
        assert OwnedBy(tail, owner) == f1;
      } else if s[0].owner == owner {
        assert f[1..] == f1;
        assert InsertByDate(x, f) == [s[0]] + InsertByDate(x, f1);
      } else {
        assert pre + InsertByDate(x, f1) == InsertByDate(x, f1);
        assert f == f1;
      }
    }
  }

  /** The stable sort commutes with keeping one owner's orders. */
  lemma {:induction false} OwnedBySort(s: seq<TaggedOrder>, owner: string)
    ensures OwnedBy(SortByDateDesc(s), owner) == SortByDateDesc(OwnedBy(s, owner))
  {
    if s != [] {
      var f1 := OwnedBy(s[1..], owner);
      OwnedBySort(s[1..], owner);
      OwnedByInsert(s[0], SortByDateDesc(s[1..]), owner);
      assert s == [s[0]] + s[1..];
      OwnedByCons(s[0], s[1..], owner);
      if s[0].owner == owner {
        assert OwnedBy(s, owner) == [s[0]] + f1;
        assert ([s[0]] + f1)[1..] == f1;
        assert SortByDateDesc(OwnedBy(s, owner)) == InsertByDate(s[0], SortByDateDesc(f1));
      } else {
        assert OwnedBy(s, owner) == [] + f1 == f1;
      }
    }
  }

  /** One owner's orders in the gathered view come from exactly one key, the owner's own. */
  lemma {:induction false} OwnedByGather(records: map<string, seq<Order>>, keys: seq<string>, owner: string)
    requires forall i, j :: 0 <= i < j < |keys| ==> keys[i] != keys[j]
    ensures OwnedBy(Gather(records, keys), owner) ==
            if OrderKey(owner) in keys && OrderKey(owner) in records then TagAll(records[OrderKey(owner)], owner) else []
  {
    if keys != [] {
      var init, last := keys[..|keys| - 1], keys[|keys| - 1];
      assert keys == init + [last];
      OwnedByGather(records, init, owner);
      OwnedByConcat(Gather(records, init), Contribution(records, last), owner);
      PrefixedInjective(OrderPrefix, owner, owner);
      if HasPrefix(OrderPrefix, last) && last in records {
        var tag := StripPrefix(OrderPrefix, last);
        OwnedByTagAll(records[last], tag, owner);
        PrefixedInjective(OrderPrefix, tag, owner);
      }
      if last == OrderKey(owner) {
        assert OrderKey(owner) !in init;
      } else {
        assert OrderKey(owner) in keys <==> OrderKey(owner) in init;
      }
    }
  }

  /**
   * The admin view restricted to one identity is exactly that identity's own
   * history, tagged and sorted newest first.
   */
  lemma AdminViewOfOneIdentity(records: map<string, seq<Order>>, keys: seq<string>, owner: string)
    requires forall i, j :: 0 <= i < j < |keys| ==> keys[i] != keys[j]
    requires forall k :: k in records ==> k in keys
    requires owner != ""
    ensures OwnedBy(SortByDateDesc(Gather(records, keys)), owner) == SortByDateDesc(TagAll(OrdersOf(records, owner), owner))
  {
    OwnedBySort(Gather(records, keys), owner);
    OwnedByGather(records, keys, owner);
  }

  /** The OrderProvider: the current identity, `clientOrderHistory`, and the `ecomOrderHistory_*` records. */
  class OrderLedger {
    var current: string
    var history: seq<Order>
    var records: map<string, seq<Order>>

    /** The visible history is always the current identity's stored history. */
    ghost predicate Valid()
      reads this
    {
      current != "" && history == OrdersOf(records, current)
    }

    /** Mounting: the history starts empty and the load effect reads the current identity's record. */
    constructor (userId: string, stored: map<string, seq<Order>>)
      requires userId != ""
      ensures Valid() && current == userId && records == stored
    {
      current := userId;
      records := stored;
      history := [];
      history := OrdersOf(stored, userId);
    }

    /** `getOrderById(orderId, userId)`: a lookup in the identity's stored history. */
    function GetOrderById(orderId: string, userId: string): (r: Option<Order>)
      reads this
      ensures r.Some? ==> r.value.orderId == orderId && r.value in OrdersOf(records, userId)
      ensures r.None? <==> !HasOrder(OrdersOf(records, userId), orderId)
    {
      FindOrder(OrdersOf(records, userId), orderId)
    }

    /**
     * `placeOrder(items, shippingDetails, total, userId)`, with the id and the date
     * that the source draws from the clock and from `Math.random()` supplied by the caller.
     */
    method PlaceOrder(items: seq<CartLine>, shipping: Shipping, total: int, userId: string, orderId: string, date: int)
      returns (id: string)
      requires Valid()
      modifies this
      ensures Valid() && current == old(current)
      ensures id == orderId
      ensures records == SaveOrders(old(records), userId,
                                    [Order(orderId, date, items, total, shipping)] + OrdersOf(old(records), userId))
      ensures userId != "" ==> OrdersOf(records, userId) == [Order(orderId, date, items, total, shipping)] + OrdersOf(old(records), userId)
      ensures userId != "" ==> GetOrderById(orderId, userId) == Some(Order(orderId, date, items, total, shipping))
      ensures forall other :: other != userId ==> OrdersOf(records, other) == OrdersOf(old(records), other)
      ensures history == if userId == current then [Order(orderId, date, items, total, shipping)] + old(history)
                         else old(history)
    {
      var existing := OrdersOf(records, userId);
      var order := Order(orderId, date, items, total, shipping);
      var updated := [order] + existing;
      records := SaveOrders(records, userId, updated);
      if userId == current {
        history := updated;
      }
      id := order.orderId;
    }

    /**
     * `deleteOrder(orderId, orderUserId)`: refused without an identity; otherwise every
     * order with that id leaves that identity's record, and true is returned whether
     * or not one was there.
     */
    method DeleteOrder(orderId: string, userId: string) returns (ok: bool)
      requires Valid()
      modifies this
      ensures Valid() && current == old(current)
      ensures ok <==> userId != ""
      ensures !ok ==> records == old(records) && history == old(history)
      ensures records == SaveOrders(old(records), userId, RemoveOrder(OrdersOf(old(records), userId), orderId))
      ensures forall other :: other != userId ==> OrdersOf(records, other) == OrdersOf(old(records), other)
      ensures history == if userId == current then RemoveOrder(old(history), orderId) else old(history)
    {
      if userId == "" {
        return false;
      }
      var updated := RemoveOrder(OrdersOf(records, userId), orderId);
      records := SaveOrders(records, userId, updated);
      if userId == current {
        history := updated;
      }
      ok := true;
    }

    /**
     * `getAllOrders()`. `keys` is the order in which localStorage enumerates its keys:
     * each key once, including every key that holds a readable order record.
     */
    method GetAllOrders(keys: seq<string>) returns (all: seq<TaggedOrder>)
      requires forall i, j :: 0 <= i < j < |keys| ==> keys[i] != keys[j]
      requires forall k :: k in records ==> k in keys
      ensures all == SortByDateDesc(Gather(records, keys))
      ensures SortedByDateDesc(all)
      ensures multiset(all) == multiset(Gather(records, keys))
      ensures forall owner :: owner != "" ==> OwnedBy(all, owner) == SortByDateDesc(TagAll(OrdersOf(records, owner), owner))
    {
      var gathered: seq<TaggedOrder> := [];
      var i := 0;
      while i < |keys|
        invariant 0 <= i <= |keys|
        invariant gathered == Gather(records, keys[..i])
      {
        var key := keys[i];
        assert keys[..i + 1][..i] == keys[..i];
        if HasPrefix(OrderPrefix, key) && key in records {
          gathered := gathered + TagAll(records[key], StripPrefix(OrderPrefix, key));
        }
        i := i + 1;
      }
      assert keys[..|keys|] == keys;
      all := SortByDateDesc(gathered);
      forall owner | owner != ""
        ensures OwnedBy(all, owner) == SortByDateDesc(TagAll(OrdersOf(records, owner), owner))
      {
        AdminViewOfOneIdentity(records, keys, owner);
      }
    }

    /** The identity changes: the load effect replaces the visible history with the new identity's. */
    method SwitchIdentity(userId: string)
      requires Valid() && userId != ""
      modifies this
      ensures Valid() && current == userId && records == old(records)
      ensures history == OrdersOf(records, userId)
    {
      if userId != current {
        current := userId;
        history := OrdersOf(records, userId);
      }
    }
  }
}
