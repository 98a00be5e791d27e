/**
 * The entities of the marketplace (types.ts): users, products, cart lines,
 * chats, per-product Q&A messages, reports and the events carried by the
 * cross-tab bus. Optional TypeScript properties become `Option` fields, where
 * `None` means the property is absent.
 */
module Types {

  datatype Option<+T> = None | Some(value: T) {

    /** The wrapped value, or `default` when absent. */
    function GetOr(default: T): T {
      if Some? then value else default
    }

    /** This option when present, otherwise `other` (object spread of an optional property). */
    function OrElse(other: Option<T>): Option<T> {
      if Some? then this else other
    }
  }

  datatype Role = Buyer | Seller

  datatype User = User(
    id: string,
    name: string,
    username: string,
    email: string,
    role: Role,
    avatar: Option<string>,
    phone: Option<string>,
    address: Option<string>,
    bio: Option<string>,
    pixKey: Option<string>,
    blocked: Option<bool>,
    isOnline: Option<bool>,
    createdAt: int)
  {
    /** `!u.blocked` is false only when the flag is present and true. */
    predicate IsBlocked() {
      blocked == Some(true)
    }
  }

  datatype Condition = New | Used

  datatype Product = Product(
    id: string,
    sellerId: string,
    sellerName: string,
    sellerAvatar: Option<string>,
    name: string,
    description: string,
    price: real,
    stock: int,
    category: string,
    images: seq<string>,
    condition: Condition,
    paymentMethods: seq<string>,
    createdAt: int,
    active: bool,
    shopName: string)

  /** A product together with the quantity the user wants (`CartItem extends Product`). */
  datatype CartItem = CartItem(product: Product, quantity: int) {
    function Id(): string {
      product.id
    }
  }

  datatype ChatMessage = ChatMessage(
    id: string,
    senderId: string,
    text: Option<string>,
    imageUrl: Option<string>,
    timestamp: int)

  /** A message in the public Q&A log of one product. */
  datatype ProductMessage = ProductMessage(
    id: string,
    productId: string,
    senderId: string,
    senderName: string,
    senderAvatar: Option<string>,
    text: string,
    timestamp: int,
    isSeller: bool)

  datatype ChatSession = ChatSession(
    id: string,
    participants: seq<string>,
    productId: Option<string>,
    messages: seq<ChatMessage>,
    lastUpdated: int)

  datatype Report = Report(
    id: string,
    targetId: string,
    reporterId: string,
    reason: string,
    details: string,
    evidence: Option<string>,
    timestamp: int)

  datatype HelpReport = HelpReport(
    id: string,
    context: string,
    description: string,
    relatedUser: Option<string>,
    timestamp: int)

  /** The tagged union broadcast to the other open tabs. */
  datatype SyncEvent =
    | NewProduct(product: Product)
    | UpdateProduct(product: Product)
    | DeleteProduct(productId: string)
    | NewProductMsg(message: ProductMessage)
    | NewReport(report: Report)
}
