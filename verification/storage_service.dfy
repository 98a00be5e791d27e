/**
 * The persistent store and the cross-tab bus (services/storageService.ts).
 *
 * Local storage is one key space; here it is a map from key to a typed slot,
 * so that JSON (de)serialisation drops out. Every save overwrites one whole
 * slot. The broadcast channel is an outbox of published events plus the one
 * `onmessage` handler the channel holds.
 */
module StorageService {
  import opened Types

  /**
   * The storage keys: seven fixed ones and one message log per product. The
   * model indexes storage by these; `KeyName` gives the string actually used.
   */
  datatype Key =
    | UsersKey
    | SessionKey
    | ProductsKey
    | ChatsKey
    | ReportsKey
    | CartKey
    | HelpReportsKey
    | MessageKey(productId: string)

  const MessagesPrefix := "dropshop_msg_prod_"

  /** The `localStorage` key string of each key. */
  function KeyName(k: Key): string {
    match k
    case UsersKey => "dropshop_users"
    case SessionKey => "dropshop_session"
    case ProductsKey => "dropshop_products"
    case ChatsKey => "dropshop_chats"
    case ReportsKey => "dropshop_reports"
    case CartKey => "dropshop_cart"
    case HelpReportsKey => "dropshop_help_reports"
    case MessageKey(productId) => MessagesPrefix + productId
  }

  /** Characters 9 and 10 of each key string, which tell the kinds of key apart. */
  function Signature(k: Key): (char, char) {
    match k
    case UsersKey => ('u', 's')
    case SessionKey => ('s', 'e')
    case ProductsKey => ('p', 'r')
    case ChatsKey => ('c', 'h')
    case ReportsKey => ('r', 'e')
    case CartKey => ('c', 'a')
    case HelpReportsKey => ('h', 'e')
    case MessageKey(_) => ('m', 's')
  }

  lemma NameCarriesSignature(k: Key)
    ensures |KeyName(k)| > 10 && (KeyName(k)[9], KeyName(k)[10]) == Signature(k)
  {
    if k.MessageKey? {
      assert KeyName(k)[..|MessagesPrefix|] == MessagesPrefix;
      assert MessagesPrefix[9] == 'm' && MessagesPrefix[10] == 's';
    }
  }

  /**
   * Distinct keys have distinct key strings: no two fixed keys coincide, no
   * message log overwrites a fixed key, and two products share a log only
   * when their ids are equal. This is what justifies indexing by `Key`.
   */
  lemma {:induction false} KeyNameInjective(a: Key, b: Key)
    ensures KeyName(a) == KeyName(b) <==> a == b
  {
    if KeyName(a) == KeyName(b) {
      NameCarriesSignature(a);
      NameCarriesSignature(b);
      if a.MessageKey? {
        assert b.MessageKey?;
        assert a.productId == KeyName(a)[|MessagesPrefix|..];
        assert b.productId == KeyName(b)[|MessagesPrefix|..];
      }
    }
  }

  datatype Slot =
    | UsersSlot(users: seq<User>)
    | SessionSlot(user: User)
    | ProductsSlot(products: seq<Product>)
    | ChatsSlot(chats: seq<ChatSession>)
    | ReportsSlot(reports: seq<Report>)
    | CartSlot(quantities: map<string, int>)
    | HelpReportsSlot(helpReports: seq<HelpReport>)
    | MessagesSlot(messages: seq<ProductMessage>)

  /** The slot kind each key holds. */
  predicate SlotFits(key: Key, slot: Slot) {
    match slot
    case UsersSlot(_) => key == UsersKey
    case SessionSlot(_) => key == SessionKey
    case ProductsSlot(_) => key == ProductsKey
    case ChatsSlot(_) => key == ChatsKey
    case ReportsSlot(_) => key == ReportsKey
    case CartSlot(_) => key == CartKey
    case HelpReportsSlot(_) => key == HelpReportsKey
    case MessagesSlot(_) => key.MessageKey?
  }

  /** Which component's callback currently sits in the channel's `onmessage`. */
  datatype Listener = CatalogSync | ProductPageSync(productId: string)

  class Storage {
    var slots: map<Key, Slot>
    var outbox: seq<SyncEvent>
    var listener: Option<Listener>

    /** Every slot holds the kind of value its key names. */
    ghost predicate Valid()
      reads this
    {
      forall k :: k in slots ==> SlotFits(k, slots[k])
    }

    /** A fresh browser profile: nothing stored, nothing published, no handler. */
    constructor ()
      ensures Valid() && slots == map[] && outbox == [] && listener == None
    {
      slots := map[];
      outbox := [];
      listener := None;
    }

    // Reads. An absent slot reads as the empty list or the empty map.

    function GetUsers(): (r: seq<User>)
      reads this
      ensures UsersKey !in slots ==> r == []
    {
      if UsersKey in slots && slots[UsersKey].UsersSlot? then slots[UsersKey].users else []
    }

    function GetCurrentUser(): (r: Option<User>)
      reads this
      ensures SessionKey !in slots ==> r == None
    {
      if SessionKey in slots && slots[SessionKey].SessionSlot? then Some(slots[SessionKey].user) else None
    }

    function GetProducts(): (r: seq<Product>)
      reads this
      ensures ProductsKey !in slots ==> r == []
    {
      if ProductsKey in slots && slots[ProductsKey].ProductsSlot? then slots[ProductsKey].products else []
    }

    function GetChats(): (r: seq<ChatSession>)
      reads this
      ensures ChatsKey !in slots ==> r == []
    {
      if ChatsKey in slots && slots[ChatsKey].ChatsSlot? then slots[ChatsKey].chats else []
    }

    function GetReports(): (r: seq<Report>)
      reads this
      ensures ReportsKey !in slots ==> r == []
    {
      if ReportsKey in slots && slots[ReportsKey].ReportsSlot? then slots[ReportsKey].reports else []
    }

    function GetCart(): (r: map<string, int>)
      reads this
      ensures CartKey !in slots ==> r == map[]
    {
      if CartKey in slots && slots[CartKey].CartSlot? then slots[CartKey].quantities else map[]
    }

    function GetHelpReports(): (r: seq<HelpReport>)
      reads this
      ensures HelpReportsKey !in slots ==> r == []
    {
      if HelpReportsKey in slots && slots[HelpReportsKey].HelpReportsSlot? then slots[HelpReportsKey].helpReports else []
    }

    function GetProductMessages(productId: string): (r: seq<ProductMessage>)
      reads this
      ensures MessageKey(productId) !in slots ==> r == []
    {
      var key := MessageKey(productId);
      if key in slots && slots[key].MessagesSlot? then slots[key].messages else []
    }

    // Writes. Each overwrites exactly one slot.

    method SaveUsers(users: seq<User>)
      requires Valid()
      modifies this`slots
      ensures Valid()
      ensures slots == old(slots)[UsersKey := UsersSlot(users)]
      ensures GetUsers() == users
    {
      slots := slots[UsersKey := UsersSlot(users)];
    }

    /** `null` removes the session slot; a user is stored as given. */
    method SaveCurrentUser(user: Option<User>)
      requires Valid()
      modifies this`slots
      ensures Valid()
      ensures user.None? ==> slots == old(slots) - {SessionKey}
      ensures user.Some? ==> slots == old(slots)[SessionKey := SessionSlot(user.value)]
      ensures GetCurrentUser() == user
    {
      if user.Some? {
        slots := slots[SessionKey := SessionSlot(user.value)];
      } else {
        slots := slots - {SessionKey};
      }
    }

    /** Writes the catalog; unlike `SaveProductMessage` it publishes nothing. */
    method SaveProducts(products: seq<Product>)
      requires Valid()
      modifies this`slots
      ensures Valid()
      ensures slots == old(slots)[ProductsKey := ProductsSlot(products)]
      ensures GetProducts() == products
    {
      slots := slots[ProductsKey := ProductsSlot(products)];
    }

    method SaveChats(chats: seq<ChatSession>)
      requires Valid()
      modifies this`slots
      ensures Valid()
      ensures slots == old(slots)[ChatsKey := ChatsSlot(chats)]
      ensures GetChats() == chats
    {
      slots := slots[ChatsKey := ChatsSlot(chats)];
    }

    method SaveReports(reports: seq<Report>)
      requires Valid()
      modifies this`slots
      ensures Valid()
      ensures slots == old(slots)[ReportsKey := ReportsSlot(reports)]
      ensures GetReports() == reports
    {
      slots := slots[ReportsKey := ReportsSlot(reports)];
    }

    method SaveCart(quantities: map<string, int>)
      requires Valid()
      modifies this`slots
      ensures Valid()
      ensures slots == old(slots)[CartKey := CartSlot(quantities)]
      ensures GetCart() == quantities
    {
      slots := slots[CartKey := CartSlot(quantities)];
    }

    method SaveHelpReports(reports: seq<HelpReport>)
      requires Valid()
      modifies this`slots
      ensures Valid()
      ensures slots == old(slots)[HelpReportsKey := HelpReportsSlot(reports)]
      ensures GetHelpReports() == reports
    {
      slots := slots[HelpReportsKey := HelpReportsSlot(reports)];
    }

    /**
     * Read-append-write of one product's log, then one NEW_PRODUCT_MSG
     * publish. Every other slot, the fixed ones included, reads as before.
     */
    method SaveProductMessage(productId: string, message: ProductMessage)
      requires Valid()
      modifies this`slots, this`outbox
      ensures Valid()
      ensures slots == old(slots)[MessageKey(productId) := MessagesSlot(old(GetProductMessages(productId)) + [message])]
      ensures GetProductMessages(productId) == old(GetProductMessages(productId)) + [message]
      ensures forall q :: q != productId ==> GetProductMessages(q) == old(GetProductMessages(q))
      ensures GetUsers() == old(GetUsers()) && GetCurrentUser() == old(GetCurrentUser())
      ensures GetProducts() == old(GetProducts()) && GetChats() == old(GetChats())
      ensures GetReports() == old(GetReports()) && GetCart() == old(GetCart())
      ensures GetHelpReports() == old(GetHelpReports())
      ensures outbox == old(outbox) + [NewProductMsg(message)]
    {
      var key := MessageKey(productId);
      var existing := GetProductMessages(productId);
      existing := existing + [message];
      slots := slots[key := MessagesSlot(existing)];
      Broadcast(NewProductMsg(message));
    }

    /** `broadcast`: the event joins the outbox behind everything published before. */
    method Broadcast(event: SyncEvent)
      modifies this`outbox
      ensures outbox == old(outbox) + [event]
    {
      outbox := outbox + [event];
    }

    /** `subscribeToSync`: the new callback replaces whatever handler was installed. */
    method SubscribeToSync(callback: Listener)
      modifies this`listener
      ensures listener == Some(callback)
    {
      listener := Some(callback);
    }

    /**
     * The disposer `subscribeToSync` returns: it clears the channel's handler,
     * whichever callback is installed by then.
     */
    method DisposeSubscription()
      modifies this`listener
      ensures listener == None
    {
      listener := None;
    }
  }
}
