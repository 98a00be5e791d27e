/**
 * The listing form (pages/ProductForm.tsx): its ordered checks, the product
 * it builds and the list of uploaded images. The parsed price and stock
 * (`parseFloat`, `parseInt`) are inputs; `None` stands for NaN.
 */
module ProductFormPage {
  import opened Types
  import opened Seqs
  import opened Text
  import opened StorageService
  import StoreContext

  const NameRequired := "Nome do produto é obrigatório."
  const DescriptionRequired := "Descrição é obrigatória."
  const ShopNameRequired := "Nome da loja é obrigatório."
  const PriceInvalid := "Preço deve ser um valor positivo."
  const StockInvalid := "Estoque deve ser um número inteiro válido."
  const ImagesRequired := "Adicione pelo menos 1 imagem real do produto."

  /** The upload slot is offered while fewer than this many images exist. */
  const MaxImages := 5

  datatype PaymentFlags = PaymentFlags(pix: bool, credit: bool, debit: bool)

  datatype ListingForm = ListingForm(
    name: string,
    description: string,
    shopName: string,
    category: string,
    condition: Condition,
    paymentMethods: PaymentFlags)

  /** The form as the page opens it: shop name from the user's name, category "Geral", every payment on. */
  function InitialForm(user: Option<User>): (r: ListingForm)
    ensures r.paymentMethods == PaymentFlags(true, true, true) && r.condition == New
    ensures r.shopName == (if user.Some? then user.value.name else "")
  {
    ListingForm("", "", if user.Some? then user.value.name else "", "Geral", New, PaymentFlags(true, true, true))
  }

  /**
   * `handleSubmit`'s checks in order: the three text fields (trimmed), then
   * the price, the stock and the images; the first failure gives the message.
   */
  function ValidateListing(form: ListingForm, price: Option<real>, stock: Option<int>, imageCount: nat): (r: Option<string>)
    ensures r.None? <==>
              !IsBlank(form.name) && !IsBlank(form.description) && !IsBlank(form.shopName) &&
              price.Some? && price.value > 0.0 && stock.Some? && stock.value >= 0 && imageCount > 0
    ensures r == Some(NameRequired) <==> IsBlank(form.name)
    ensures r == Some(DescriptionRequired) <==> !IsBlank(form.name) && IsBlank(form.description)
    ensures r == Some(ShopNameRequired) <==> !IsBlank(form.name) && !IsBlank(form.description) && IsBlank(form.shopName)
    ensures r == Some(PriceInvalid) <==>
              !IsBlank(form.name) && !IsBlank(form.description) && !IsBlank(form.shopName) &&
              (price.None? || price.value <= 0.0)
    ensures r == Some(StockInvalid) <==>
              !IsBlank(form.name) && !IsBlank(form.description) && !IsBlank(form.shopName) &&
              price.Some? && price.value > 0.0 && (stock.None? || stock.value < 0)
    ensures r == Some(ImagesRequired) <==>
              !IsBlank(form.name) && !IsBlank(form.description) && !IsBlank(form.shopName) &&
              price.Some? && price.value > 0.0 && stock.Some? && stock.value >= 0 && imageCount == 0
  {
    if IsBlank(form.name) then Some(NameRequired)
    else if IsBlank(form.description) then Some(DescriptionRequired)
    else if IsBlank(form.shopName) then Some(ShopNameRequired)
    else if price.None? || price.value <= 0.0 then Some(PriceInvalid)
    else if stock.None? || stock.value < 0 then Some(StockInvalid)
    else if imageCount == 0 then Some(ImagesRequired)
    else None
  }

  /** The names of the enabled payment flags, in the order pix, credit, debit. */
  function PaymentMethods(flags: PaymentFlags): (r: seq<string>)
    ensures IsSubsequence(r, ["pix", "credit", "debit"])
    ensures ("pix" in r <==> flags.pix) && ("credit" in r <==> flags.credit) && ("debit" in r <==> flags.debit)
  {
    var all := ["pix", "credit", "debit"];
    var r := Filter(all, (k: string) => (k == "pix" && flags.pix) || (k == "credit" && flags.credit) || (k == "debit" && flags.debit));
    assert all[0] == "pix" && all[1] == "credit" && all[2] == "debit";
    r
  }

  /** The listing `handleSubmit` hands to `addProduct`. */
  function BuildProduct(form: ListingForm, user: User, images: seq<string>, price: real, stock: int, now: nat): (r: Product)
    ensures r.sellerId == user.id && r.sellerName == user.name && r.sellerAvatar == user.avatar
    ensures r.active && r.images == images && r.price == price && r.stock == stock
    ensures r.id == NatToString(now) && r.createdAt == now
    ensures r.name == form.name && r.description == form.description && r.shopName == form.shopName
    ensures r.category == form.category && r.condition == form.condition
    ensures r.paymentMethods == PaymentMethods(form.paymentMethods)
  {
    Product(NatToString(now), user.id, user.name, user.avatar, form.name, form.description, price, stock,
            form.category, images, form.condition, PaymentMethods(form.paymentMethods), now, true, form.shopName)
  }

  class ProductFormView {
    var form: ListingForm
    var images: seq<string>
    var error: string

    /** At most five images, since the upload slot disappears at five. */
    ghost predicate Valid()
      reads this
    {
      |images| <= MaxImages
    }

    constructor (user: Option<User>)
      ensures Valid() && form == InitialForm(user) && images == [] && error == ""
    {
      form := InitialForm(user);
      images := [];
      error := "";
    }

    method SetForm(f: ListingForm)
      modifies this`form
      ensures form == f
    {
      form := f;
    }

    /** The upload slot is rendered only below the limit. */
    predicate UploadSlotShown()
      reads this
    {
      |images| < MaxImages
    }

    /** `handleImageUpload` through the rendered slot: a chosen file's address joins the end. */
    method HandleImageUpload(file: Option<string>)
      requires Valid() && UploadSlotShown()
      modifies this`images
      ensures Valid()
      ensures images == old(images) + (if file.Some? then [file.value] else [])
    {
      if file.Some? {
        images := images + [file.value];
      }
    }

    /** The remove button of image `idx`: the other images stay, in order. */
    method RemoveImage(idx: nat)
      requires Valid() && idx < |images|
      modifies this`images
      ensures Valid()
      ensures images == old(images)[..idx] + old(images)[idx + 1..]
      ensures |images| == |old(images)| - 1 && UploadSlotShown()
    {
      images := images[..idx] + images[idx + 1..];
    }

    /**
     * `handleSubmit`: a failed check sets its message and adds nothing; with
     * every check passed but no user nothing happens; otherwise the built
     * product goes through `addProduct`.
     */
    method HandleSubmit(user: Option<User>, catalog: StoreContext.StoreProvider, price: Option<real>, stock: Option<int>, now: nat)
      requires catalog.Valid()
      modifies this`error, catalog`products, catalog.store
      ensures catalog.Valid()
      ensures catalog.store.listener == old(catalog.store.listener)
      ensures var v := ValidateListing(form, price, stock, |images|);
              && (v.Some? ==> error == v.value)
              && (v.None? ==> error == "")
              && (v.Some? || user.None? ==>
                    catalog.products == old(catalog.products) &&
                    catalog.store.slots == old(catalog.store.slots) && catalog.store.outbox == old(catalog.store.outbox))
              && (v.None? && user.Some? ==>
                    var p := BuildProduct(form, user.value, images, price.value, stock.value, now);
                    catalog.products == [p] + old(catalog.products) &&
                    catalog.store.slots == old(catalog.store.slots)[ProductsKey := ProductsSlot(catalog.products)] &&
                    catalog.store.outbox == old(catalog.store.outbox) + [NewProduct(p)])
    {
      error := "";
      var check := ValidateListing(form, price, stock, |images|);
      if check.Some? {
        error := check.value;
        return;
      }
      if user.None? {
        return;
      }
      var newProduct := BuildProduct(form, user.value, images, price.value, stock.value, now);
      catalog.AddProduct(newProduct);
    }
  }
}
