/**
 * The catalog and cart state container (context/StoreContext.tsx): the
 * `products` and `cart` state, the start-up load, the sync handler, the
 * cart-persistence effect and the actions the provider exposes.
 *
 * React re-runs the persistence effect after every change of `cart`, so each
 * cart action here ends by storing the recomputed quantity map.
 */
module StoreContext {
  import opened Types
  import opened Seqs
  import opened Text
  import opened StorageService
  import opened StoreUpdates

  /**
   * The initial load's loop over the saved (id, quantity) entries. The
   * entries are visited in an unspecified order; the result is every entry
   * whose id names a catalog product, as a line of that product.
   */
  method DeriveCart(saved: map<string, int>, catalog: seq<Product>) returns (cart: seq<CartItem>)
    ensures IsDerivedCart(cart, saved, catalog)
  {
    cart := [];
    var pending := saved.Keys;
    while pending != {}
      invariant pending <= saved.Keys
      invariant UniqueIds(cart)
      invariant forall i :: 0 <= i < |cart| ==>
                  cart[i].Id() in saved && cart[i].Id() !in pending &&
                  cart[i].quantity == saved[cart[i].Id()] &&
                  ProductById(catalog, cart[i].Id()) == Some(cart[i].product)
      invariant forall id :: id in saved && id !in pending && ProductById(catalog, id).Some? ==> InCart(cart, id)
      decreases pending
    {
      var pid :| pid in pending;
      var prod := ProductById(catalog, pid);
      ghost var before := cart;
      if prod.Some? {
        cart := cart + [CartItem(prod.value, saved[pid])];
        AppendFreshLine(before, CartItem(prod.value, saved[pid]));
        assert cart[|cart| - 1].Id() == pid;
      }
      pending := pending - {pid};
      forall id | id in saved && id !in pending && ProductById(catalog, id).Some?
        ensures InCart(cart, id)
      {
        if id != pid {
          assert InCart(before, id);
          var i :| 0 <= i < |before| && before[i].Id() == id;
          assert cart[i] == before[i];
        }
      }
    }
  }

  /** Appending a line whose id is new keeps the ids unique. */
  lemma AppendFreshLine(cart: seq<CartItem>, line: CartItem)
    requires UniqueIds(cart)
    requires forall i :: 0 <= i < |cart| ==> cart[i].Id() != line.Id()
    ensures UniqueIds(cart + [line])
  {
  }

  /** The persistence effect's loop, which records each line's quantity under its product id. */
  method BuildCartMap(cart: seq<CartItem>) returns (m: map<string, int>)
    ensures m == CartMap(cart)
  {
    m := map[];
    for i := 0 to |cart|
      invariant m == CartMap(cart[..i])
    {
      assert cart[..i + 1][..i] == cart[..i];
      m := m[cart[i].Id() := cart[i].quantity];
    }
    assert cart[..|cart|] == cart;
  }

  class StoreProvider {
    var products: seq<Product>
    var cart: seq<CartItem>
    const store: Storage

    /** The store is well typed and no two cart lines share a product id. */
    ghost predicate Valid()
      reads this, store
    {
      store.Valid() && UniqueIds(cart)
    }

    /** Both state hooks start empty. */
    constructor (store: Storage)
      requires store.Valid()
      ensures Valid() && this.store == store
      ensures products == [] && cart == []
    {
      this.store := store;
      products := [];
      cart := [];
    }

    /**
     * The mount effects in order: load the catalog, rebuild the cart from the
     * stored map joined against it, subscribe the sync handler, and persist
     * the rebuilt cart.
     */
    method Mount()
      requires Valid()
      modifies this, store
      ensures Valid()
      ensures products == old(store.GetProducts())
      ensures IsDerivedCart(cart, old(store.GetCart()), products)
      ensures store.slots == old(store.slots)[CartKey := CartSlot(CartMap(cart))]
      ensures store.GetCart() == map id | id in old(store.GetCart()) && ProductById(products, id).Some? :: old(store.GetCart())[id]
      ensures store.outbox == old(store.outbox)
      ensures store.listener == Some(CatalogSync)
    {
      products := store.GetProducts();
      var savedCartMap := store.GetCart();
      var loadedProds := store.GetProducts();
      cart := DeriveCart(savedCartMap, loadedProds);
      store.SubscribeToSync(CatalogSync);
      PersistCart();
      LoadThenPersist(cart, savedCartMap, loadedProds);
    }

    /** The persistence effect: the whole quantity map of the cart is stored. */
    method PersistCart()
      requires Valid()
      modifies store`slots
      ensures Valid()
      ensures store.slots == old(store.slots)[CartKey := CartSlot(CartMap(cart))]
      ensures store.GetCart().Keys == Ids(cart)
      ensures forall i :: 0 <= i < |cart| ==> store.GetCart()[cart[i].Id()] == cart[i].quantity
    {
      var cartMap := BuildCartMap(cart);
      store.SaveCart(cartMap);
      CartMapKeys(cart);
      CartMapOfUniqueCart(cart);
    }

    /** The sync handler: remote edits patch the catalog in memory only. */
    method OnSyncEvent(event: SyncEvent)
      modifies this`products
      ensures products == ApplySyncEvent(old(products), event)
    {
      match event {
        case NewProduct(p) => products := [p] + products;
        case UpdateProduct(p) => products := ReplaceById(products, p);
        case DeleteProduct(id) => products := RemoveById(products, id);
        case _ =>
      }
    }

    /** Prepend, save the whole catalog, then publish NEW_PRODUCT. */
    method AddProduct(product: Product)
      requires Valid()
      modifies this`products, store
      ensures Valid()
      ensures products == [product] + old(products)
      ensures store.slots == old(store.slots)[ProductsKey := ProductsSlot(products)]
      ensures store.outbox == old(store.outbox) + [NewProduct(product)]
      ensures store.listener == old(store.listener)
      ensures products == ApplySyncEvent(old(products), store.outbox[|store.outbox| - 1])
    {
      var newProducts := [product] + products;
      products := newProducts;
      store.SaveProducts(newProducts);
      store.Broadcast(NewProduct(product));
    }

    /** Replace every product with that id, save, then publish UPDATE_PRODUCT. */
    method UpdateProduct(product: Product)
      requires Valid()
      modifies this`products, store
      ensures Valid()
      ensures products == ReplaceById(old(products), product)
      ensures store.slots == old(store.slots)[ProductsKey := ProductsSlot(products)]
      ensures store.outbox == old(store.outbox) + [Types.UpdateProduct(product)]
      ensures store.listener == old(store.listener)
      ensures products == ApplySyncEvent(old(products), store.outbox[|store.outbox| - 1])
    {
      var newProducts := ReplaceById(products, product);
      products := newProducts;
      store.SaveProducts(newProducts);
      store.Broadcast(Types.UpdateProduct(product));
    }

    /** Remove every product with that id, save, then publish DELETE_PRODUCT; the cart is not touched. */
    method DeleteProduct(id: string)
      requires Valid()
      modifies this`products, store
      ensures Valid()
      ensures products == RemoveById(old(products), id)
      ensures store.slots == old(store.slots)[ProductsKey := ProductsSlot(products)]
      ensures store.outbox == old(store.outbox) + [Types.DeleteProduct(id)]
      ensures store.listener == old(store.listener)
      ensures products == ApplySyncEvent(old(products), store.outbox[|store.outbox| - 1])
    {
      var newProducts := RemoveById(products, id);
      products := newProducts;
      store.SaveProducts(newProducts);
      store.Broadcast(Types.DeleteProduct(id));
    }

    /** `addToCart`: the amount defaults to one, as the feed's and product page's buttons use it. */
    method AddToCart(product: Product, quantity: int := 1)
      requires Valid()
      modifies this`cart, store`slots
      ensures Valid()
      ensures cart == StoreUpdates.AddToCart(old(cart), product, quantity)
      ensures store.slots == old(store.slots)[CartKey := CartSlot(CartMap(cart))]
    {
      cart := StoreUpdates.AddToCart(cart, product, quantity);
      PersistCart();
    }

    method RemoveFromCart(productId: string)
      requires Valid()
      modifies this`cart, store`slots
      ensures Valid()
      ensures cart == StoreUpdates.RemoveFromCart(old(cart), productId)
      ensures store.slots == old(store.slots)[CartKey := CartSlot(CartMap(cart))]
    {
      cart := StoreUpdates.RemoveFromCart(cart, productId);
      PersistCart();
    }

    method UpdateCartQuantity(productId: string, quantity: int)
      requires Valid()
      modifies this`cart, store`slots
      ensures Valid()
      ensures cart == StoreUpdates.UpdateCartQuantity(old(cart), productId, quantity)
      ensures store.slots == old(store.slots)[CartKey := CartSlot(CartMap(cart))]
    {
      if quantity <= 0 {
        RemoveFromCart(productId);
        return;
      }
      cart := SetQuantity(cart, productId, quantity);
      PersistCart();
    }

    method ClearCart()
      requires Valid()
      modifies this`cart, store`slots
      ensures Valid()
      ensures cart == []
      ensures store.slots == old(store.slots)[CartKey := CartSlot(map[])]
    {
      cart := [];
      PersistCart();
    }

    /**
     * Without a user nothing happens. Otherwise one report by that user is
     * appended to the stored reports and NEW_REPORT is published.
     */
    method ReportProduct(productId: string, reason: string, details: string, user: Option<User>, now: nat)
      requires Valid()
      modifies store
      ensures Valid()
      ensures store.listener == old(store.listener)
      ensures user.None? ==> store.slots == old(store.slots) && store.outbox == old(store.outbox)
      ensures user.Some? ==>
                var report := Report(NatToString(now), productId, user.value.id, reason, details, None, now);
                store.GetReports() == old(store.GetReports()) + [report] &&
                store.slots == old(store.slots)[ReportsKey := ReportsSlot(store.GetReports())] &&
                store.outbox == old(store.outbox) + [NewReport(report)]
    {
      if user.None? {
        return;
      }
      var reports := store.GetReports();
      var newReport := Report(NatToString(now), productId, user.value.id, reason, details, None, now);
      reports := reports + [newReport];
      store.SaveReports(reports);
      store.Broadcast(NewReport(newReport));
    }

    /** Appends one help report to the stored list; nothing is published. */
    method SubmitHelpReport(context: string, description: string, relatedUser: Option<string>, now: nat)
      requires Valid()
      modifies store`slots
      ensures Valid()
      ensures store.GetHelpReports() == old(store.GetHelpReports()) + [HelpReport(NatToString(now), context, description, relatedUser, now)]
      ensures store.slots == old(store.slots)[HelpReportsKey := HelpReportsSlot(store.GetHelpReports())]
    {
      var reports := store.GetHelpReports();
      var newReport := HelpReport(NatToString(now), context, description, relatedUser, now);
      reports := reports + [newReport];
      store.SaveHelpReports(reports);
    }
  }
}
