/**
 * The two buttons of a product card (src/components/ProductCard.jsx): Add to
 * Cart and Buy Now. Both turn a signed-out visitor away to the login page; Buy
 * Now backs the cart up in sessionStorage and replaces it with the single
 * product, for the checkout page to buy and then restore.
 */
module ProductCard {
  import opened Catalogue
  import opened Cart
  import opened Storefront

  /** Where a click leaves the visitor: sent to log in, still on the page with the cart updated, or sent to checkout. */
  datatype CardOutcome = ToLoginPage | StayWithCartUpdated | ToCheckoutPage

  /** The Buy Now line: the product with quantity 1. */
  function BuyNowLine(product: Product): (line: CartLine)
    ensures line.item == product && line.quantity == 1
    ensures TotalCost([line]) == product.price && TotalQuantity([line]) == 1
  {
    CartLine(product, 1)
  }

  /** `handleAddToCart`: signed-out visitors are sent away; otherwise one unit is added. */
  method HandleAddToCart(shop: Shop, product: Product) returns (outcome: CardOutcome)
    requires shop.Valid()
    modifies shop.cart
    ensures shop.Valid()
    ensures outcome == ToLoginPage <==> !shop.identity.session.authenticated
    ensures outcome != ToLoginPage ==> outcome == StayWithCartUpdated
    ensures outcome == ToLoginPage ==> shop.cart.items == old(shop.cart.items) && shop.cart.storage == old(shop.cart.storage)
    ensures outcome == StayWithCartUpdated ==>
              shop.cart.items == AddLine(old(shop.cart.items), product, 1) &&
              shop.cart.storage == old(shop.cart.storage)[CartKey(shop.UserId()) := shop.cart.items]
  {
    if !shop.identity.session.authenticated {
      return ToLoginPage;
    }
    shop.cart.AddToCart(product, 1);
    outcome := StayWithCartUpdated;
  }

  /**
   * `handleBuyNow`: signed-out visitors are sent away; otherwise the current cart
   * is written to the identity's backup key and the cart becomes the single line.
   */
  method HandleBuyNow(shop: Shop, product: Product) returns (outcome: CardOutcome)
    requires shop.Valid()
    modifies shop, shop.cart
    ensures shop.Valid()
    ensures outcome == ToLoginPage <==> !shop.identity.session.authenticated
    ensures outcome != ToLoginPage ==> outcome == ToCheckoutPage
    ensures outcome == ToLoginPage ==>
              shop.cart.items == old(shop.cart.items) && shop.cart.storage == old(shop.cart.storage) &&
              shop.backups == old(shop.backups)
    ensures outcome == ToCheckoutPage ==>
              shop.backups == old(shop.backups)[BackupKey(shop.UserId()) := old(shop.cart.items)] &&
              shop.cart.items == [BuyNowLine(product)] &&
              shop.cart.storage == old(shop.cart.storage)[CartKey(shop.UserId()) := [BuyNowLine(product)]]
  {
    if !shop.identity.session.authenticated {
      return ToLoginPage;
    }
    var userId := shop.UserId();
    shop.backups := shop.backups[BackupKey(userId) := shop.cart.items];
    shop.cart.SetCartItems([BuyNowLine(product)]);
    outcome := ToCheckoutPage;
  }
}
