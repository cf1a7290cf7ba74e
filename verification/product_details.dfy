/** The page of one pre-made product: the quantity box, the personalization of a pre-made cake,
    the add-to-cart request, and the state of the add button. */
module ProductDetails {
  import opened Common
  import opened Domain
  import CustomerOrders
  import AdminProducts
  import Text

  /** The personalization a pre-made cake starts with: no message, one tier, no notes. */
  const InitialCustomization := Customization(None, None, None, Some("1"), Some(""), Some(""), None)

  const AddedToCart := "Added to cart!"
  const AddToOrder := "Add to Order"
  const OutOfStock := "Out of Stock"
  const TieredCake := "Tiered Cake"

  /** The tier selector is shown only for a product whose sub-category is "Tiered Cake". */
  predicate TierSelectorShown(p: Product) { p.subCategory == Some(TieredCake) }

  /** `addToCart`: without a token an error alert and no request; otherwise the product with the
      chosen quantity, a cake carrying the personalization with the product's own flavour and shape,
      anything else the empty object. */
  function AddToCart(session: Session, p: Product, quantity: int, c: Customization): (r: CartAttempt)
    ensures r == Refused(LoginToOrder, "error") <==> !HasToken(session)
    ensures r.Send? <==> HasToken(session)
    ensures r.Send? ==> r.request.productId == p.id && r.request.quantity == quantity
    ensures r.Send? && IsCakeProduct(p) ==>
      var k := r.request.customization;
      k.message == c.message && k.tiers == c.tiers && k.notes == c.notes && k.color == c.color
      && k.flavor == p.flavor && k.shape == p.subCategory && k.isCustomBuild == Some(false)
    ensures r.Send? && !IsCakeProduct(p) ==> r.request.customization == EmptyCustomization
  {
    if !HasToken(session) then Refused(LoginToOrder, "error")
    else
      var k := if IsCakeProduct(p) then c.(flavor := p.flavor, shape := p.subCategory, isCustomBuild := Some(false))
               else EmptyCustomization;
      Send(CartRequest(p.id, quantity, k))
  }

  /** The tiers default is sent even when its selector never appeared: a signed-in customer who orders
      a pre-made cake that is not tiered, whatever they type into the other inputs, sends tiers "1",
      and the order page then shows "Tiers: 1" as the cake's last detail line. */
  lemma HiddenSelectorSendsDefaultTiers(session: Session, p: Product, quantity: int, edits: seq<FieldEdit>)
    requires HasToken(session) && IsCakeProduct(p) && !TierSelectorShown(p)
    requires forall i :: 0 <= i < |edits| ==> edits[i].name != "tiers"
    ensures var r := AddToCart(session, p, quantity, ApplyEdits(InitialCustomization, edits));
      r.Send? && r.request.customization.tiers == Some("1")
      && CustomerOrders.ShowsTiers(r.request.customization)
      && var lines := CustomerOrders.CustomizationDetails(r.request.customization);
         |lines| > 0 && lines[|lines| - 1] == "Tiers: 1"
  {
    EditsKeepField(InitialCustomization, edits, "tiers");
  }

  /** The add button's caption. */
  function AddLabel(stock: int): (caption: string)
    ensures caption == AddToOrder <==> stock > 0
    ensures caption == OutOfStock <==> stock <= 0
  {
    if stock > 0 then AddToOrder else OutOfStock
  }

  /** The add button's `disabled` test as the page writes it: a stock of exactly zero. A disabled
      button always reads "Out of Stock" (the converse fails, see `NegativeStockStaysEnabled`). */
  predicate AddDisabledAsWritten(stock: int)
    ensures AddDisabledAsWritten(stock) ==> AddLabel(stock) == OutOfStock
  {
    stock == 0
  }

  /** With a negative stock the button reads "Out of Stock" yet stays enabled. */
  lemma NegativeStockStaysEnabled()
    ensures !AddDisabledAsWritten(-1) && AddLabel(-1) == OutOfStock
  {
  }

  /** A negative stock can reach the catalogue: an administrator who types "-1" into the stock input of
      an otherwise complete edit form saves a product whose stock is -1. */
  lemma {:induction false} NegativeStockCanBeSaved(form: AdminProducts.ProductForm, tab: string,
                                                   id: Option<string>, imageFile: Option<string>)
    requires form.name != "" && AdminProducts.Truthy(form.price) && form.description != ""
    ensures var r := AdminProducts.SubmitRequest(AdminProducts.SetFormField(form, "countInStock", "-1"), tab, true, id, imageFile);
      r.Ok? && r.value.payload.countInStock == -1
  {
    var s := "-1";
    assert !Text.AllDigits(s) by { assert !Text.IsAsciiDigit(s[0]); }
    assert s[1..] == "1";
    assert AdminProducts.DigitsValue("1") == 1 by { assert "1"[..0] == []; }
  }

  /** The add button is disabled exactly when it reads "Out of Stock", so a product without stock can
      never be added from this page. */
  function AddDisabled(stock: int): (disabled: bool)
    ensures disabled <==> AddLabel(stock) == OutOfStock
    ensures stock >= 0 ==> (disabled <==> AddDisabledAsWritten(stock))
  {
    stock <= 0
  }

  /** The page's state: the fetched product, the quantity box and the personalization. */
  class ProductDetailsPage {
    var product: Option<Product>
    var quantity: int
    var customization: Customization

    /** The quantity box never holds less than one. */
    predicate Valid()
      reads this
    {
      quantity >= 1
    }

    constructor ()
      ensures Valid()
      ensures product.None? && quantity == 1 && customization == InitialCustomization
    {
      product := None;
      quantity := 1;
      customization := InitialCustomization;
    }

    /** The product the API returned, or none when the fetch failed. */
    method Loaded(p: Option<Product>)
      modifies this
      requires Valid()
      ensures Valid()
      ensures product == p && quantity == old(quantity) && customization == old(customization)
    {
      product := p;
    }

    /** The quantity box's change handler: the entered number, but at least one. */
    method SetQuantity(entered: int)
      modifies this
      requires Valid()
      ensures Valid()
      ensures quantity == Max(1, entered) && quantity >= entered
      ensures product == old(product) && customization == old(customization)
    {
      quantity := Max(1, entered);
    }

    /** `handleCustomChange`: only the named field of the personalization changes. */
    method HandleCustomChange(name: string, value: string)
      modifies this
      requires Valid()
      ensures Valid()
      ensures customization == SetTextField(old(customization), name, value)
      ensures product == old(product) && quantity == old(quantity)
    {
      customization := SetTextField(customization, name, value);
    }
  }
}
