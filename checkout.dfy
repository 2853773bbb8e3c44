/**
 * The checkout page (src/pages/Checkout.jsx): on mount it picks up the
 * identity's Buy Now backup; it buys the cart, or the backup when the cart is
 * empty; a successful submit places the order, empties the cart and, in the
 * Buy Now flow, puts the backed-up cart back. Leaving the page removes the
 * backup.
 */
module Checkout {
  import opened Wrappers
  import opened Catalogue
  import opened Cart
  import opened Orders
  import opened Storefront
  import opened ProductCard

  /** What a submit leads to: the page was a redirect to the cart, a missing field, or an order with this id. */
  datatype SubmitOutcome = RedirectToCart | MissingShippingField | Placed(orderId: string)

  /** `Object.values(shippingDetails)`: the form's fields in declaration order. */
  function ShippingValues(s: Shipping): (values: seq<string>)
    ensures |values| == 5
  {
    [s.name, s.email, s.address, s.city, s.zip]
  }

  /** The form check: no shipping value may be empty (an empty string is falsy). */
  predicate ShippingComplete(s: Shipping): (r: bool)
    ensures r <==> forall v :: v in ShippingValues(s) ==> v != ""
  {
    var complete := s.name != "" && s.email != "" && s.address != "" && s.city != "" && s.zip != "";
    assert complete <==> forall v :: v in ShippingValues(s) ==> v != "" by {
      var values := ShippingValues(s);
      assert values == [s.name, s.email, s.address, s.city, s.zip];
      if complete {
        forall v | v in values ensures v != "" {
          var i :| 0 <= i < 5 && values[i] == v;
        }
      }
      if !complete {
        if s.name == "" { assert values[0] in values; }
        else if s.email == "" { assert values[1] in values; }
        else if s.address == "" { assert values[2] in values; }
        else if s.city == "" { assert values[3] in values; }
        else { assert values[4] in values; }
      }
    }
    complete
  }

  /**
   * `itemsToPurchase`: the cart when it has lines, otherwise the backup,
   * otherwise nothing; it never buys anything but one of the two.
   */
  function ItemsToPurchase(cart: seq<CartLine>, originalCart: Option<seq<CartLine>>): (items: seq<CartLine>)
    ensures |cart| > 0 ==> items == cart
    ensures items == [] ==> |cart| == 0
    ensures items != [] ==> items == cart || originalCart == Some(items)
    ensures |cart| == 0 && originalCart.Some? ==> items == originalCart.value
  {
    if |cart| > 0 then cart else originalCart.GetOr([])
  }

  /**
   * The page renders a redirect to /cart instead of the form: empty cart and no
   * backup in state. A redirect means there is nothing to buy; the form, in turn,
   * always has something to buy unless the backup itself is an empty list.
   */
  predicate MustRedirect(cart: seq<CartLine>, originalCart: Option<seq<CartLine>>): (r: bool)
    ensures r ==> ItemsToPurchase(cart, originalCart) == []
    ensures !r && originalCart != Some([]) ==> ItemsToPurchase(cart, originalCart) != []
  {
    |cart| == 0 && originalCart.None?
  }

  /** The order a successful submit records. */
  function CheckoutOrder(cart: seq<CartLine>, originalCart: Option<seq<CartLine>>, shipping: Shipping,
                         orderId: string, date: int): (order: Order)
    ensures order.orderId == orderId && order.date == date && order.shipping == shipping
    ensures order.items == ItemsToPurchase(cart, originalCart)
    ensures order.total == TotalCost(order.items)
    ensures |cart| > 0 ==> order.items == cart && order.total == TotalCost(cart)
  {
    var items := ItemsToPurchase(cart, originalCart);
    Order(orderId, date, items, TotalCost(items), shipping)
  }

  /**
   * Right after Buy Now the page is shown, and what it buys is the one line,
   * charged at the product's price, whatever the backed-up cart held.
   */
  lemma BuyNowCheckoutBuysOneLine(product: Product, original: seq<CartLine>, shipping: Shipping, orderId: string, date: int)
    ensures !MustRedirect([BuyNowLine(product)], Some(original))
    ensures CheckoutOrder([BuyNowLine(product)], Some(original), shipping, orderId, date)
            == Order(orderId, date, [CartLine(product, 1)], product.price, shipping)
  {
  }

  /** The checkout page and the identity it was rendered for. */
  class CheckoutPage {
    const shop: Shop
    const userId: string
    const backupKey: string
    /**
     * The first render, with `originalCart` still null, found the cart empty and
     * rendered the redirect to /cart: the page is left as soon as it is shown.
     */
    const redirected: bool
    /** `originalCart`: the backup the mount effect read, if there was one. */
    const originalCart: Option<seq<CartLine>>

    /**
     * Showing the page. The first render runs before the mount effect, so an empty
     * cart redirects even when a backup is stored; the mount effect still reads
     * the backup, and leaving the page at once runs its cleanup, which removes it.
     */
    constructor Open(shop: Shop)
      requires shop.Valid()
      modifies shop
      ensures shop.Valid()
      ensures this.shop == shop && userId == shop.UserId() && backupKey == BackupKey(userId)
      ensures originalCart == Lookup(old(shop.backups), backupKey)
      ensures redirected <==> |shop.cart.items| == 0
      ensures redirected ==> shop.backups == old(shop.backups) - {backupKey}
      ensures !redirected ==> shop.backups == old(shop.backups)
    {
      this.shop := shop;
      userId := shop.UserId();
      backupKey := BackupKey(shop.UserId());
      redirected := |shop.cart.items| == 0;
      originalCart := Lookup(shop.backups, BackupKey(shop.UserId()));
      new;
      if redirected {
        shop.backups := shop.backups - {backupKey};
      }
    }

    /**
     * `handleSubmit` with the payment delay elapsed: nothing happens on a page that
     * redirected, on a later render that redirects, or with a missing field; otherwise the order is placed for the current
     * identity, the cart is emptied and the backup, if any, is restored and removed.
     */
    method Submit(shipping: Shipping, orderId: string, date: int) returns (outcome: SubmitOutcome)
      requires shop.Valid() && shop.UserId() == userId
      modifies shop, shop.cart, shop.ledger
      ensures shop.Valid() && shop.UserId() == userId
      ensures outcome == RedirectToCart <==> redirected || MustRedirect(old(shop.cart.items), originalCart)
      ensures outcome == MissingShippingField <==>
                !redirected && !MustRedirect(old(shop.cart.items), originalCart) && !ShippingComplete(shipping)
      ensures !outcome.Placed? ==>
                shop.cart.items == old(shop.cart.items) && shop.cart.storage == old(shop.cart.storage) &&
                shop.ledger.records == old(shop.ledger.records) && shop.ledger.history == old(shop.ledger.history) &&
                shop.backups == old(shop.backups)
      ensures outcome.Placed? ==>
                var order := CheckoutOrder(old(shop.cart.items), originalCart, shipping, orderId, date);
                outcome.orderId == orderId &&
                shop.ledger.records == SaveOrders(old(shop.ledger.records), userId, [order] + OrdersOf(old(shop.ledger.records), userId)) &&
                shop.ledger.GetOrderById(orderId, userId) == Some(order) &&
                shop.ledger.history == [order] + old(shop.ledger.history) &&
                shop.cart.items == originalCart.GetOr([]) &&
                shop.cart.storage == old(shop.cart.storage)[CartKey(userId) := originalCart.GetOr([])] &&
                shop.backups == if originalCart.Some? then old(shop.backups) - {backupKey} else old(shop.backups)
    {
      if redirected || MustRedirect(shop.cart.items, originalCart) {
        return RedirectToCart;
      }
      if !ShippingComplete(shipping) {
        return MissingShippingField;
      }
      var order := CheckoutOrder(shop.cart.items, originalCart, shipping, orderId, date);
      var id := shop.ledger.PlaceOrder(order.items, shipping, order.total, shop.ledger.current, orderId, date);
      shop.cart.ClearCart();
      if originalCart.Some? {
        shop.cart.SetCartItems(originalCart.value);
        shop.backups := shop.backups - {backupKey};
      }
      outcome := Placed(id);
    }

    /** Unmounting: the cleanup removes the backup and does not restore it. */
    method Leave()
      requires shop.Valid()
      modifies shop
      ensures shop.Valid()
      ensures shop.backups == old(shop.backups) - {backupKey}
    {
      shop.backups := shop.backups - {backupKey};
    }
  }

  /**
   * Buy Now followed by a completed checkout: one order for the single line is
   * recorded, and the cart, in memory and in storage, is back to what it was.
   */
  method BuyNowThenCheckout(shop: Shop, product: Product, shipping: Shipping, orderId: string, date: int)
    returns (outcome: SubmitOutcome)
    requires shop.Valid() && shop.identity.session.authenticated && ShippingComplete(shipping)
    modifies shop, shop.cart, shop.ledger
    ensures shop.Valid() && shop.UserId() == old(shop.UserId())
    ensures outcome == Placed(orderId)
    ensures shop.cart.items == old(shop.cart.items) && shop.cart.storage == old(shop.cart.storage)
    ensures OrdersOf(shop.ledger.records, shop.UserId())
            == [Order(orderId, date, [CartLine(product, 1)], product.price, shipping)] + OrdersOf(old(shop.ledger.records), shop.UserId())
    ensures shop.backups == old(shop.backups) - {BackupKey(shop.UserId())}
  {
    var original := shop.cart.items;
    var card := HandleBuyNow(shop, product);
    var page := new CheckoutPage.Open(shop);
    BuyNowCheckoutBuysOneLine(product, original, shipping, orderId, date);
    outcome := page.Submit(shipping, orderId, date);
  }

  /**
   * Buy Now followed by leaving the checkout page: the backup is gone and the
   * cart, in memory and in storage, holds only the Buy Now line.
   */
  method BuyNowThenLeave(shop: Shop, product: Product)
    requires shop.Valid() && shop.identity.session.authenticated
    modifies shop, shop.cart
    ensures shop.Valid()
    ensures shop.cart.items == [CartLine(product, 1)]
    ensures shop.cart.storage == old(shop.cart.storage)[CartKey(shop.UserId()) := [CartLine(product, 1)]]
    ensures shop.backups == old(shop.backups) - {BackupKey(shop.UserId())}
  {
    var card := HandleBuyNow(shop, product);
    var page := new CheckoutPage.Open(shop);
    page.Leave();
  }
}
