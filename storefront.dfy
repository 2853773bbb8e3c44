/**
 * The provider tree of src/main.jsx: the identity store at the top, the order
 * ledger, the catalogue and the cart below it. The ledger and the cart are
 * scoped by the identity the identity store derives (`user?.email || 'guest'`),
 * and every change of that identity re-runs their scoping effects. The page
 * session's `sessionStorage` holds the Buy Now backups.
 */
module Storefront {
  import opened Wrappers
  import opened Keys
  import opened Auth
  import opened Catalogue
  import opened Cart
  import opened Orders

  const BackupPrefix := "originalCartBackup_"

  /** The sessionStorage key of one identity's Buy Now backup: the prefix, then the identity. */
  function BackupKey(userId: string): (key: string)
    ensures |key| == |BackupPrefix| + |userId| && key[..|BackupPrefix|] == BackupPrefix
    ensures key[|BackupPrefix|..] == userId
  {
    BackupPrefix + userId
  }

  /** Two identities never share a backup. */
  lemma BackupKeyInjective()
    ensures forall a, b :: BackupKey(a) == BackupKey(b) ==> a == b
  {
    forall a, b ensures BackupKey(a) == BackupKey(b) ==> a == b {
      PrefixedInjective(BackupPrefix, a, b);
    }
  }

  class Shop {
    const identity: IdentityStore
    const catalogue: ProductStore
    const cart: CartStore
    const ledger: OrderLedger
    /** `sessionStorage`: the cart backups, by key. */
    var backups: map<string, seq<CartLine>>

    /** Every store is in sync with its storage, and both scoped stores follow the current identity. */
    ghost predicate Valid()
      reads this, identity, catalogue, cart, ledger
    {
      identity.Valid() && catalogue.Valid() && cart.Valid() && ledger.Valid()
      && cart.scope == ScopeId(identity.session.user)
      && ledger.current == cart.scope
    }

    /** The identity every scoped store and page derives from the session. */
    function UserId(): (id: string)
      reads this, identity
      ensures id != ""
    {
      ScopeId(identity.session.user)
    }

    /** Page load: every provider reads its records from storage. */
    constructor (keys: SessionKeys, registry: Option<seq<Credential>>, products: Option<seq<Product>>,
                 carts: map<string, seq<CartLine>>, orders: map<string, seq<Order>>,
                 session: map<string, seq<CartLine>>)
      ensures Valid()
      ensures identity.session == InitialSession(keys) && identity.users == InitialRegistry(registry)
      ensures catalogue.products == InitialProducts(products)
      ensures cart.items == InitialCart(carts, UserId())
      ensures cart.storage == carts[CartKey(UserId()) := cart.items]
      ensures ledger.records == orders && ledger.history == OrdersOf(orders, UserId())
      ensures backups == session
    {
      var auth := new IdentityStore(keys, registry);
      var userId := ScopeId(auth.session.user);
      identity := auth;
      catalogue := new ProductStore(products);
      cart := new CartStore(userId, carts);
      ledger := new OrderLedger(userId, orders);
      backups := session;
    }

    /** Re-runs the scoping effects of the cart and the ledger after the session changed. */
    method Rescope()
      requires identity.Valid() && catalogue.Valid() && cart.Valid() && ledger.Valid()
      requires ledger.current == cart.scope
      modifies cart, ledger
      ensures Valid()
      ensures cart.items == old(cart.items)
      ensures UserId() != old(cart.scope) ==> cart.storage == old(cart.storage)[CartKey(UserId()) := old(cart.items)]
      ensures UserId() == old(cart.scope) ==> cart.storage == old(cart.storage)
      ensures ledger.records == old(ledger.records) && ledger.history == OrdersOf(ledger.records, UserId())
      ensures UserId() == old(ledger.current) ==> ledger.history == old(ledger.history)
    {
      var userId := UserId();
      cart.SwitchIdentity(userId);
      ledger.SwitchIdentity(userId);
    }

    /**
     * `login(email, password)` and what follows it: the ledger shows the new
     * identity's orders, while the cart keeps the lines already in memory and
     * writes them over the new identity's stored cart.
     */
    method Login(email: string, password: string) returns (ok: bool)
      requires Valid()
      modifies identity, cart, ledger
      ensures Valid()
      ensures identity.users == old(identity.users)
      ensures ok <==> exists i :: 0 <= i < |identity.users| && Matches(identity.users[i], email, password)
      ensures ok ==> var c := FindCredential(old(identity.users), email, password).value;
                     identity.session == Session(true, c.role, Some(Profile(c.email, c.name, c.role)))
      ensures !ok ==> identity.session == old(identity.session) && cart.storage == old(cart.storage)
                      && ledger.history == old(ledger.history)
      ensures cart.items == old(cart.items)
      ensures UserId() != old(UserId()) ==> cart.storage == old(cart.storage)[CartKey(UserId()) := old(cart.items)]
      ensures UserId() == old(UserId()) ==> cart.storage == old(cart.storage) && ledger.history == old(ledger.history)
      ensures ledger.records == old(ledger.records) && ledger.history == OrdersOf(ledger.records, UserId())
    {
      ok := identity.Login(email, password);
      Rescope();
    }

    /** `register(name, email, password)` and what follows it, as for `Login`. */
    method Register(name: string, email: string, password: string) returns (ok: bool)
      requires Valid()
      modifies identity, cart, ledger
      ensures Valid()
      ensures ok <==> !EmailTaken(old(identity.users), email)
      ensures ok ==> identity.users == old(identity.users) + [Credential(email, password, ClientRole, name)]
      ensures !ok ==> identity.users == old(identity.users)
      ensures EmailsUnique(old(identity.users)) ==> EmailsUnique(identity.users)
      ensures ok ==> identity.session == Session(true, ClientRole, Some(Profile(email, name, ClientRole)))
      ensures ok && email != "" ==> UserId() == email
      ensures !ok ==> identity.session == old(identity.session) && cart.storage == old(cart.storage)
                      && ledger.history == old(ledger.history)
      ensures cart.items == old(cart.items)
      ensures UserId() != old(UserId()) ==> cart.storage == old(cart.storage)[CartKey(UserId()) := old(cart.items)]
      ensures UserId() == old(UserId()) ==> cart.storage == old(cart.storage) && ledger.history == old(ledger.history)
      ensures ledger.records == old(ledger.records) && ledger.history == OrdersOf(ledger.records, UserId())
    {
      ok := identity.Register(name, email, password);
      Rescope();
    }

    /** `logout()` and what follows it: the guest identity inherits the cart in memory. */
    method Logout()
      requires Valid()
      modifies identity, cart, ledger
      ensures Valid()
      ensures identity.users == old(identity.users)
      ensures identity.session == SignedOut && UserId() == "guest"
      ensures cart.items == old(cart.items)
      ensures old(UserId()) != "guest" ==> cart.storage == old(cart.storage)[CartKey("guest") := old(cart.items)]
      ensures old(UserId()) == "guest" ==> cart.storage == old(cart.storage) && ledger.history == old(ledger.history)
      ensures ledger.records == old(ledger.records) && ledger.history == OrdersOf(ledger.records, "guest")
    {
      identity.Logout();
      Rescope();
    }
  }
}
