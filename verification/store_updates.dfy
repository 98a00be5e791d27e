/**
 * The pure state updaters of context/StoreContext.tsx: the catalog edits
 * (prepend, replace by id, remove by id) shared by local actions and remote
 * events, the cart updaters, and the projection of the cart to the stored
 * product-id to quantity map.
 */
module StoreUpdates {
  import opened Types
  import opened Seqs

  // ---------------------------------------------------------------- catalog

  /** The catalog lookup by id: the first product with that id. */
  function ProductById(products: seq<Product>, id: string): (r: Option<Product>)
    ensures r.None? <==> forall i :: 0 <= i < |products| ==> products[i].id != id
    ensures r.Some? ==> exists k :: 0 <= k < |products| && products[k] == r.value && r.value.id == id &&
                                    forall j :: 0 <= j < k ==> products[j].id != id
  {
    match FirstIndex(products, (p: Product) => p.id == id)
    case None => None
    case Some(k) => Some(products[k])
  }

  /** The update by id: every product with the new product's id is replaced by it. */
  function ReplaceById(products: seq<Product>, product: Product): (r: seq<Product>)
    ensures |r| == |products|
    ensures forall i :: 0 <= i < |products| ==> r[i] == (if products[i].id == product.id then product else products[i])
    ensures forall i :: 0 <= i < |products| ==> r[i].id == products[i].id
  {
    Map(products, (p: Product) => if p.id == product.id then product else p)
  }

  /** The delete by id: every product with that id goes, the others stay in order. */
  function RemoveById(products: seq<Product>, id: string): (r: seq<Product>)
    ensures IsSubsequence(r, products)
    ensures forall i :: 0 <= i < |r| ==> r[i].id != id
    ensures forall i :: 0 <= i < |products| && products[i].id != id ==> products[i] in r
    ensures forall i :: 0 <= i < |products| ==>
              multiset(r)[products[i]] == if products[i].id != id then multiset(products)[products[i]] else 0
  {
    Filter(products, (p: Product) => p.id != id)
  }

  /**
   * The sync handler's reconciliation: NEW_PRODUCT prepends, UPDATE_PRODUCT
   * replaces by id, DELETE_PRODUCT removes by id; any other event leaves the
   * catalog as it is.
   */
  function ApplySyncEvent(products: seq<Product>, event: SyncEvent): (r: seq<Product>)
    ensures event.NewProduct? ==> r == [event.product] + products
    ensures event.UpdateProduct? ==> r == ReplaceById(products, event.product)
    ensures event.DeleteProduct? ==> r == RemoveById(products, event.productId)
    ensures event.NewProductMsg? || event.NewReport? ==> r == products
  {
    match event
    case NewProduct(p) => [p] + products
    case UpdateProduct(p) => ReplaceById(products, p)
    case DeleteProduct(id) => RemoveById(products, id)
    case _ => products
  }

  /** An update for an id the catalog does not hold changes nothing (it never inserts). */
  lemma {:induction false} UpdateOfUnknownIdIsNoOp(products: seq<Product>, product: Product)
    requires forall i :: 0 <= i < |products| ==> products[i].id != product.id
    ensures ApplySyncEvent(products, UpdateProduct(product)) == products
  {
    var r := ReplaceById(products, product);
    assert forall i :: 0 <= i < |products| ==> r[i] == products[i];
  }

  /** Deleting the product just added, whose id was new, restores the catalog. */
  lemma AddThenDeleteRestores(products: seq<Product>, product: Product)
    requires forall i :: 0 <= i < |products| ==> products[i].id != product.id
    ensures ApplySyncEvent(ApplySyncEvent(products, NewProduct(product)), DeleteProduct(product.id)) == products
  {
    var keep := (p: Product) => p.id != product.id;
    FilterKeepsAll(products, keep);
    assert ([product] + products)[1..] == products;
  }

  /** Updating and then deleting an id leaves what deleting alone leaves. */
  lemma {:induction false} DeleteAbsorbsUpdate(products: seq<Product>, product: Product)
    ensures RemoveById(ReplaceById(products, product), product.id) == RemoveById(products, product.id)
  {
    if products != [] {
      DeleteAbsorbsUpdate(products[1..], product);
      assert ReplaceById(products, product)[1..] == ReplaceById(products[1..], product);
    }
  }

  /** Applying the same update twice is applying it once. */
  lemma UpdateIdempotent(products: seq<Product>, product: Product)
    ensures ReplaceById(ReplaceById(products, product), product) == ReplaceById(products, product)
  {
  }

  // ------------------------------------------------------------------- cart

  /** No two cart lines share a product id. */
  ghost predicate UniqueIds(cart: seq<CartItem>) {
    forall i, j :: 0 <= i < j < |cart| ==> cart[i].Id() != cart[j].Id()
  }

  predicate InCart(cart: seq<CartItem>, id: string) {
    exists i :: 0 <= i < |cart| && cart[i].Id() == id
  }

  /** The quantity of the line for `id`, or 0 when there is none. */
  function QuantityOf(cart: seq<CartItem>, id: string): int {
    match FirstIndex(cart, (l: CartItem) => l.Id() == id)
    case None => 0
    case Some(k) => cart[k].quantity
  }

  /**
   * `addToCart`: a line already holding the product gets `quantity` more (its
   * product data is kept, the list keeps its length and order); otherwise the
   * product is appended at the end with `quantity`.
   */
  function AddToCart(cart: seq<CartItem>, product: Product, quantity: int): (r: seq<CartItem>)
    ensures InCart(cart, product.id) ==>
              |r| == |cart| &&
              forall i :: 0 <= i < |cart| ==>
                r[i].product == cart[i].product &&
                r[i].quantity == (if cart[i].Id() == product.id then cart[i].quantity + quantity else cart[i].quantity)
    ensures !InCart(cart, product.id) ==> r == cart + [CartItem(product, quantity)]
    ensures UniqueIds(cart) ==> UniqueIds(r)
    ensures InCart(r, product.id)
  {
    if FirstIndex(cart, (l: CartItem) => l.Id() == product.id).Some? then
      Map(cart, (l: CartItem) => if l.Id() == product.id then l.(quantity := l.quantity + quantity) else l)
    else
      assert forall i :: 0 <= i < |cart| ==> cart[i].Id() != product.id;
      var r := cart + [CartItem(product, quantity)];
      assert r[|cart|].Id() == product.id;
      r
  }

  /** `removeFromCart`: every line for `id` goes, the others stay in order. */
  function RemoveFromCart(cart: seq<CartItem>, id: string): (r: seq<CartItem>)
    ensures !InCart(r, id)
    ensures IsSubsequence(r, cart)
    ensures forall i :: 0 <= i < |cart| && cart[i].Id() != id ==> cart[i] in r
    ensures UniqueIds(cart) ==> UniqueIds(r)
  {
    var r := Filter(cart, (l: CartItem) => l.Id() != id);
    SubsequenceKeepsIdsUnique(r, cart);
    r
  }

  /** The positive branch of `updateCartQuantity`: the matching line's quantity is set. */
  function SetQuantity(cart: seq<CartItem>, id: string, quantity: int): (r: seq<CartItem>)
    ensures |r| == |cart|
    ensures forall i :: 0 <= i < |cart| ==>
              r[i].product == cart[i].product &&
              r[i].quantity == (if cart[i].Id() == id then quantity else cart[i].quantity)
    ensures UniqueIds(cart) ==> UniqueIds(r)
  {
    Map(cart, (l: CartItem) => if l.Id() == id then l.(quantity := quantity) else l)
  }

  /**
   * `updateCartQuantity`: a quantity of zero or less removes the product's
   * line; otherwise only that line's quantity changes and no line is added.
   */
  function UpdateCartQuantity(cart: seq<CartItem>, id: string, quantity: int): (r: seq<CartItem>)
    ensures quantity <= 0 ==> r == RemoveFromCart(cart, id) && !InCart(r, id)
    ensures quantity > 0 ==> r == SetQuantity(cart, id, quantity) && (InCart(r, id) <==> InCart(cart, id))
    ensures UniqueIds(cart) ==> UniqueIds(r)
  {
    if quantity <= 0 then RemoveFromCart(cart, id) else SetQuantity(cart, id, quantity)
  }

  lemma {:induction false} SubsequenceKeepsIdsUnique(a: seq<CartItem>, b: seq<CartItem>)
    requires IsSubsequence(a, b)
    ensures UniqueIds(b) ==> UniqueIds(a)
    ensures forall i :: 0 <= i < |a| ==> a[i] in b
    decreases |b|
  {
    if a != [] {
      if a[0] == b[0] && IsSubsequence(a[1..], b[1..]) {
        SubsequenceKeepsIdsUnique(a[1..], b[1..]);
        assert forall i :: 1 <= i < |a| ==> a[i] == a[1..][i - 1];
        if UniqueIds(b) {
          forall i, j | 0 <= i < j < |a| ensures a[i].Id() != a[j].Id() {
            if i == 0 {
              var k :| 0 <= k < |b[1..]| && b[1..][k] == a[j];
              assert b[k + 1] == a[j];
            } else {
              assert a[i] == a[1..][i - 1] && a[j] == a[1..][j - 1];
            }
          }
        }
      } else {
        SubsequenceKeepsIdsUnique(a, b[1..]);
      }
    }
  }

  /**
   * Adding the same product twice leaves exactly one line for it, holding
   * the earlier quantity (0 when absent) plus both amounts.
   */
  lemma AddTwiceSumsQuantities(cart: seq<CartItem>, product: Product, q1: int, q2: int)
    requires UniqueIds(cart)
    ensures var r := AddToCart(AddToCart(cart, product, q1), product, q2);
            exists k :: 0 <= k < |r| && r[k].Id() == product.id &&
                        r[k].quantity == QuantityOf(cart, product.id) + q1 + q2 &&
                        forall j :: 0 <= j < |r| && j != k ==> r[j].Id() != product.id
  {
    var once := AddToCart(cart, product, q1);
    var r := AddToCart(once, product, q2);
    var f := FirstIndex(cart, (l: CartItem) => l.Id() == product.id);
    var k: nat;
    if f.Some? {
      k := f.value;
      assert InCart(cart, product.id);
      assert QuantityOf(cart, product.id) == cart[k].quantity;
      assert InCart(once, product.id);
      assert once[k].quantity == cart[k].quantity + q1;
    } else {
      k := |cart|;
      assert !InCart(cart, product.id);
      assert once[k] == CartItem(product, q1);
    }
    assert r[k].Id() == product.id && r[k].quantity == QuantityOf(cart, product.id) + q1 + q2;
    forall j | 0 <= j < |r| && j != k ensures r[j].Id() != product.id {
      assert once[j].Id() == cart[j].Id();
    }
  }

  // ------------------------------------------------------- cart persistence

  /** The stored cart: each line's quantity under its product id; a later line with the same id wins. */
  function CartMap(cart: seq<CartItem>): (m: map<string, int>)
    ensures forall i :: 0 <= i < |cart| ==> cart[i].Id() in m
    ensures cart != [] ==> m[cart[|cart| - 1].Id()] == cart[|cart| - 1].quantity
  {
    if cart == [] then map[]
    else
      var init := cart[..|cart| - 1];
      assert forall i :: 0 <= i < |init| ==> init[i] == cart[i];
      CartMap(init)[cart[|cart| - 1].Id() := cart[|cart| - 1].quantity]
  }

  function Ids(cart: seq<CartItem>): set<string> {
    set i | 0 <= i < |cart| :: cart[i].Id()
  }

  /** The stored map has exactly the cart's product ids as keys. */
  lemma {:induction false} CartMapKeys(cart: seq<CartItem>)
    ensures CartMap(cart).Keys == Ids(cart)
  {
    if cart != [] {
      var init := cart[..|cart| - 1];
      CartMapKeys(init);
      assert forall i :: 0 <= i < |init| ==> init[i] == cart[i];
      assert Ids(cart) == Ids(init) + {cart[|cart| - 1].Id()};
    }
  }

  /** With unique ids, each id maps to its own line's quantity. */
  lemma {:induction false} CartMapOfUniqueCart(cart: seq<CartItem>)
    requires UniqueIds(cart)
    ensures forall i :: 0 <= i < |cart| ==> cart[i].Id() in CartMap(cart) && CartMap(cart)[cart[i].Id()] == cart[i].quantity
  {
    if cart != [] {
      var init := cart[..|cart| - 1];
      assert UniqueIds(init);
      CartMapOfUniqueCart(init);
    }
  }

  /**
   * The cart built at start-up: one line per stored (id, quantity) whose id
   * names a catalog product, holding the first such product and that
   * quantity; ids without a product are dropped.
   */
  ghost predicate IsDerivedCart(cart: seq<CartItem>, saved: map<string, int>, catalog: seq<Product>) {
    && UniqueIds(cart)
    && (forall i :: 0 <= i < |cart| ==>
          cart[i].Id() in saved && cart[i].quantity == saved[cart[i].Id()] &&
          ProductById(catalog, cart[i].Id()) == Some(cart[i].product))
    && (forall id :: id in saved && ProductById(catalog, id).Some? ==> InCart(cart, id))
  }

  /**
   * Persisting a freshly derived cart stores the saved map minus its entries
   * whose product has left the catalog: a deleted product's line disappears
   * from the stored cart only after the next start-up.
   */
  lemma LoadThenPersist(cart: seq<CartItem>, saved: map<string, int>, catalog: seq<Product>)
    requires IsDerivedCart(cart, saved, catalog)
    ensures CartMap(cart) == map id | id in saved && ProductById(catalog, id).Some? :: saved[id]
  {
    var want := map id | id in saved && ProductById(catalog, id).Some? :: saved[id];
    CartMapKeys(cart);
    CartMapOfUniqueCart(cart);
    forall id | id in want ensures id in CartMap(cart) && CartMap(cart)[id] == want[id] {
      var i :| 0 <= i < |cart| && cart[i].Id() == id;
    }
    forall id | id in CartMap(cart) ensures id in want {
      var i :| 0 <= i < |cart| && cart[i].Id() == id;
    }
  }
}
