/**
 * The catalogue store (src/context/ProductContext.jsx): the admin-editable
 * product list, mirrored in full to the `ecomProducts` record after every change.
 * Prices are integer cents.
 */
module Catalogue {
  import opened Wrappers

  datatype Product = Product(id: int, name: string, price: int, description: string, image: string, soldOut: bool)

  /** The three products used when `ecomProducts` is missing or unreadable. */
  const DefaultProducts: seq<Product> := [
    Product(1, "Premium Office Chair", 34999, "Ergonomic chair with lumbar support.",
            "https://placehold.co/400x300/403075/ffffff?text=Chair", false),
    Product(2, "Mechanical Keyboard", 12000, "RGB backlit, tactile switches.",
            "https://placehold.co/400x300/307550/ffffff?text=Keyboard", false),
    Product(3, "Wireless Mouse", 4550, "Silent click, 1600 DPI.",
            "https://placehold.co/400x300/753030/ffffff?text=Mouse", false)
  ]

  predicate HasId(products: seq<Product>, id: int) {
    exists i :: 0 <= i < |products| && products[i].id == id
  }

  predicate IdsUnique(products: seq<Product>) {
    forall i, j :: 0 <= i < j < |products| ==> products[i].id != products[j].id
  }

  /** `getInitialProducts()`: the stored list, or the defaults. */
  function InitialProducts(stored: Option<seq<Product>>): (products: seq<Product>)
    ensures stored.None? ==> products == DefaultProducts
    ensures stored.Some? ==> products == stored.value
  {
    stored.GetOr(DefaultProducts)
  }

  /** The default catalogue has distinct ids and nothing sold out. */
  lemma DefaultCatalogue()
    ensures IdsUnique(InitialProducts(None))
    ensures forall p :: p in InitialProducts(None) ==> !p.soldOut
  {
  }

  /** `[{...product, id: Date.now(), soldOut: false}, ...prev]`, with the timestamp id supplied by the caller. */
  function Prepend(products: seq<Product>, draft: Product, freshId: int): (r: seq<Product>)
    ensures |r| == |products| + 1 && r[1..] == products
    ensures r[0].id == freshId && !r[0].soldOut
    ensures r[0].name == draft.name && r[0].price == draft.price
    ensures r[0].description == draft.description && r[0].image == draft.image
    ensures IdsUnique(products) && !HasId(products, freshId) ==> IdsUnique(r)
  {
    [draft.(id := freshId, soldOut := false)] + products
  }

  /**
   * `prev.map(p => p.id === upd.id ? {...p, ...upd, price: parseFloat(upd.price)} : p)`.
   * The only caller passes every product field with an already numeric price, so the
   * merged entry is `upd` itself.
   */
  function Update(products: seq<Product>, upd: Product): (r: seq<Product>)
    ensures |r| == |products|
    ensures forall i :: 0 <= i < |r| ==> r[i] == if products[i].id == upd.id then upd else products[i]
  {
    if products == [] then []
    else [if products[0].id == upd.id then upd else products[0]] + Update(products[1..], upd)
  }

  /** `prev.filter(p => p.id !== id)`. */
  function Delete(products: seq<Product>, id: int): (r: seq<Product>)
    ensures forall p :: p in r <==> p in products && p.id != id
    ensures !HasId(r, id)
    ensures |r| <= |products|
  {
    if products == [] then []
    else if products[0].id == id then Delete(products[1..], id)
    else [products[0]] + Delete(products[1..], id)
  }

  /** Updating an id that is not in the list changes nothing. */
  lemma UpdateUnknown(products: seq<Product>, upd: Product)
    requires !HasId(products, upd.id)
    ensures Update(products, upd) == products
  {
  }

  /** An update keeps every id in place, so unique ids stay unique. */
  lemma UpdateKeepsIds(products: seq<Product>, upd: Product)
    ensures forall i :: 0 <= i < |products| ==> Update(products, upd)[i].id == products[i].id
    ensures IdsUnique(products) ==> IdsUnique(Update(products, upd))
  {
  }

  /** Deleting an absent id changes nothing. */
  lemma {:induction false} DeleteAbsent(products: seq<Product>, id: int)
    requires !HasId(products, id)
    ensures Delete(products, id) == products
  {
    if products != [] {
      assert !HasId(products[1..], id) by {
        forall i | 0 <= i < |products[1..]| ensures products[1..][i].id != id {
          assert products[1..][i] == products[i + 1];
        }
      }
      DeleteAbsent(products[1..], id);
    }
  }

  /** Deleting keeps the survivors in their original order: it distributes over concatenation. */
  lemma {:induction false} DeleteConcat(a: seq<Product>, b: seq<Product>, id: int)
    ensures Delete(a + b, id) == Delete(a, id) + Delete(b, id)
  {
    if a != [] {
      assert (a + b)[1..] == a[1..] + b;
      DeleteConcat(a[1..], b, id);
    } else {
      assert a + b == b;
    }
  }

  /** Putting a product with a new id in front of a list with unique ids keeps them unique. */
  lemma ConsKeepsIdsUnique(x: Product, rest: seq<Product>)
    requires IdsUnique(rest)
    requires forall p :: p in rest ==> p.id != x.id
    ensures IdsUnique([x] + rest)
  {
    var r := [x] + rest;
    forall i, j | 0 <= i < j < |r| ensures r[i].id != r[j].id {
      assert r[j] == rest[j - 1];
      if i > 0 {
        assert r[i] == rest[i - 1];
      }
    }
  }

  /** Deleting from a list with unique ids leaves unique ids. */
  lemma {:induction false} DeleteKeepsIdsUnique(products: seq<Product>, id: int)
    requires IdsUnique(products)
    ensures IdsUnique(Delete(products, id))
  {
    if products != [] {
      var rest := products[1..];
      assert IdsUnique(rest) by {
        forall i, j | 0 <= i < j < |rest| ensures rest[i].id != rest[j].id {
          assert rest[i] == products[i + 1] && rest[j] == products[j + 1];
        }
      }
      DeleteKeepsIdsUnique(rest, id);
      if products[0].id != id {
        forall p | p in Delete(rest, id) ensures p.id != products[0].id {
          var k :| 0 <= k < |rest| && rest[k] == p;
          assert rest[k] == products[k + 1];
        }
        ConsKeepsIdsUnique(products[0], Delete(rest, id));
      }
    }
  }

  /** The ProductProvider: `allProducts` and the `ecomProducts` record. */
  class ProductStore {
    var products: seq<Product>
    var stored: Option<seq<Product>>

    /** The persistence effect has run: the record equals the list. */
    ghost predicate Valid()
      reads this
    {
      stored == Some(products)
    }

    constructor (record: Option<seq<Product>>)
      ensures Valid() && products == InitialProducts(record)
    {
      products := InitialProducts(record);
      stored := Some(InitialProducts(record));
    }

    /** `addProduct(product)`. */
    method AddProduct(draft: Product, freshId: int)
      requires Valid()
      modifies this
      ensures Valid()
      ensures products == Prepend(old(products), draft, freshId)
      ensures IdsUnique(old(products)) && !HasId(old(products), freshId) ==> IdsUnique(products)
    {
      products := Prepend(products, draft, freshId);
      stored := Some(products);
    }

    /** `updateProduct(updatedProduct)`. */
    method UpdateProduct(upd: Product)
      requires Valid()
      modifies this
      ensures Valid()
      ensures products == Update(old(products), upd)
      ensures !HasId(old(products), upd.id) ==> products == old(products)
      ensures IdsUnique(old(products)) ==> IdsUnique(products)
    {
      if !HasId(products, upd.id) {
        UpdateUnknown(products, upd);
      }
      UpdateKeepsIds(products, upd);
      products := Update(products, upd);
      stored := Some(products);
    }

    /** `deleteProduct(productId)`. */
    method DeleteProduct(id: int)
      requires Valid()
      modifies this
      ensures Valid()
      ensures products == Delete(old(products), id)
      ensures !HasId(old(products), id) ==> products == old(products)
      ensures IdsUnique(old(products)) ==> IdsUnique(products)
    {
      if !HasId(products, id) {
        DeleteAbsent(products, id);
      }
      if IdsUnique(products) {
        DeleteKeepsIdsUnique(products, id);
      }
      products := Delete(products, id);
      stored := Some(products);
    }
  }
}
