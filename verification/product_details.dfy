/**
 * The product page (pages/ProductDetails.tsx): which product it shows, its
 * public Q&A log kept in step with the bus, sending a question, and the
 * report form.
 */
module ProductDetailsPage {
  import opened Types
  import opened Text
  import opened StorageService
  import opened StoreUpdates
  import StoreContext

  /** The sync callback's test: a new message for this very product. */
  predicate IsMessageFor(event: SyncEvent, productId: string) {
    event.NewProductMsg? && event.message.productId == productId
  }

  /** The question a user posts on a product page. */
  function BuildMessage(product: Product, user: User, text: string, now: nat): (r: ProductMessage)
    ensures r.productId == product.id && r.senderId == user.id && r.text == text
    ensures r.isSeller <==> user.id == product.sellerId
  {
    ProductMessage(NatToString(now), product.id, user.id, user.name, user.avatar, text, now,
                   user.id == product.sellerId)
  }

  /**
   * The event a sent question publishes is taken up by every page showing
   * the same product and ignored by pages of other products.
   */
  lemma SentMessageReachesOnlyItsProduct(product: Product, user: User, text: string, now: nat, otherId: string)
    ensures IsMessageFor(NewProductMsg(BuildMessage(product, user, text, now)), otherId) <==> otherId == product.id
  {
  }

  class ProductDetailsView {
    const routeId: string
    var messages: seq<ProductMessage>
    var newMessage: string
    var reportReason: string
    var reportDetails: string
    const store: Storage

    ghost predicate Valid()
      reads this, store
    {
      store.Valid()
    }

    constructor (store: Storage, routeId: string)
      requires store.Valid()
      ensures Valid() && this.store == store && this.routeId == routeId
      ensures messages == [] && newMessage == "" && reportReason == "Fraude" && reportDetails == ""
    {
      this.store := store;
      this.routeId := routeId;
      messages := [];
      newMessage := "";
      reportReason := "Fraude";
      reportDetails := "";
    }

    /** The product shown: the first catalog product with the route's id; `None` shows "not found". */
    function Shown(products: seq<Product>): (r: Option<Product>)
      reads this
      ensures r.None? <==> forall i :: 0 <= i < |products| ==> products[i].id != routeId
      ensures r.Some? ==> exists k :: 0 <= k < |products| && products[k] == r.value && r.value.id == routeId &&
                                      forall j :: 0 <= j < k ==> products[j].id != routeId
    {
      ProductById(products, routeId)
    }

    /**
     * The loading effect: with a product shown, the list becomes its stored
     * log and this page's callback replaces the channel's handler.
     */
    method Mount(products: seq<Product>)
      modifies this`messages, store`listener
      ensures Shown(products).None? ==> messages == old(messages) && store.listener == old(store.listener)
      ensures Shown(products).Some? ==>
                messages == store.GetProductMessages(routeId) &&
                store.listener == Some(ProductPageSync(routeId))
    {
      var product := Shown(products);
      if product.None? {
        return;
      }
      messages := store.GetProductMessages(product.value.id);
      store.SubscribeToSync(ProductPageSync(product.value.id));
    }

    /** The effect's clean-up: the disposer clears the channel's handler. */
    method Unmount()
      modifies store`listener
      ensures store.listener == None
    {
      store.DisposeSubscription();
    }

    /** The page's sync callback: only a new message for this product is appended. */
    method OnSyncEvent(event: SyncEvent)
      modifies this`messages
      ensures IsMessageFor(event, routeId) ==> messages == old(messages) + [event.message]
      ensures !IsMessageFor(event, routeId) ==> messages == old(messages)
    {
      if event.NewProductMsg? && event.message.productId == routeId {
        messages := messages + [event.message];
      }
    }

    method SetNewMessage(text: string)
      modifies this`newMessage
      ensures newMessage == text
    {
      newMessage := text;
    }

    /**
     * `handleSendMessage`: nothing happens for blank text, no user or no
     * product. Otherwise the question is appended to the product's stored log
     * (which publishes it) and to the end of the local list, and the input is
     * cleared.
     */
    method HandleSendMessage(products: seq<Product>, user: Option<User>, now: nat)
      requires Valid()
      modifies this`messages, this`newMessage, store`slots, store`outbox
      ensures Valid()
      ensures IsBlank(old(newMessage)) || user.None? || Shown(products).None? ==>
                messages == old(messages) && newMessage == old(newMessage) &&
                store.slots == old(store.slots) && store.outbox == old(store.outbox)
      ensures !IsBlank(old(newMessage)) && user.Some? && Shown(products).Some? ==>
                var msg := BuildMessage(Shown(products).value, user.value, old(newMessage), now);
                && messages == old(messages) + [msg]
                && store.slots == old(store.slots)[MessageKey(routeId) := MessagesSlot(old(store.GetProductMessages(routeId)) + [msg])]
                && store.GetProductMessages(routeId) == old(store.GetProductMessages(routeId)) + [msg]
                && store.outbox == old(store.outbox) + [NewProductMsg(msg)]
                && newMessage == ""
    {
      var product := Shown(products);
      if IsBlank(newMessage) || user.None? || product.None? {
        return;
      }
      var msg := BuildMessage(product.value, user.value, newMessage, now);
      store.SaveProductMessage(product.value.id, msg);
      messages := messages + [msg];
      newMessage := "";
    }

    /** The reason chosen in the report form's select. */
    method SetReportReason(reason: string)
      modifies this`reportReason
      ensures reportReason == reason
    {
      reportReason := reason;
    }

    method SetReportDetails(details: string)
      modifies this`reportDetails
      ensures reportDetails == details
    {
      reportDetails := details;
    }

    /**
     * `handleReport`: a report is filed only for a shown product and
     * non-empty details, and `reportProduct` files nothing without a user.
     */
    method HandleReport(products: seq<Product>, user: Option<User>, catalog: StoreContext.StoreProvider, now: nat)
      requires catalog.Valid()
      modifies catalog.store
      ensures catalog.Valid()
      ensures catalog.store.listener == old(catalog.store.listener)
      ensures Shown(products).None? || reportDetails == "" || user.None? ==>
                catalog.store.slots == old(catalog.store.slots) && catalog.store.outbox == old(catalog.store.outbox)
      ensures Shown(products).Some? && reportDetails != "" && user.Some? ==>
                var report := Report(NatToString(now), routeId, user.value.id, reportReason, reportDetails, None, now);
                catalog.store.GetReports() == old(catalog.store.GetReports()) + [report] &&
                catalog.store.slots == old(catalog.store.slots)[ReportsKey := ReportsSlot(catalog.store.GetReports())] &&
                catalog.store.outbox == old(catalog.store.outbox) + [NewReport(report)]
    {
      var product := Shown(products);
      if product.Some? && reportDetails != "" {
        catalog.ReportProduct(product.value.id, reportReason, reportDetails, user, now);
      }
    }
  }
}
