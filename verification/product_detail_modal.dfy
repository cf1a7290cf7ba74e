/** The product dialog opened from the catalogue: a cake offers personalization, anything else a
    quick add guarded by the stock. */
module ProductDetailModal {
  import opened Common
  import opened Domain
  import ProductDetails

  const AddToCartCaption := "Add to Cart"
  const OutOfStock := "Out of Stock"

  /** The one action button the dialog offers. */
  datatype Action = Personalize | QuickAdd(enabled: bool, caption: string)

  /** The quick-add button's caption. */
  function QuickAddCaption(stock: int): (caption: string)
    ensures caption == AddToCartCaption <==> stock > 0
    ensures caption == OutOfStock <==> stock <= 0
  {
    if stock > 0 then AddToCartCaption else OutOfStock
  }

  /** The quick-add button's enabling test as the dialog writes it: any stock but zero. A button
      reading "Add to Cart" is always enabled (the converse fails, see `NegativeStockQuickAddEnabled`). */
  predicate QuickAddEnabledAsWritten(stock: int)
    ensures QuickAddCaption(stock) == AddToCartCaption ==> QuickAddEnabledAsWritten(stock)
  {
    stock != 0
  }

  /** With a negative stock the button reads "Out of Stock" yet can be pressed, and pressing it hands
      the product to the quick add. */
  lemma NegativeStockQuickAddEnabled(p: Product)
    requires !IsCakeProduct(p) && p.countInStock < 0
    ensures ActionFor(Some(p)) == Some(QuickAdd(true, OutOfStock))
    ensures Click(p) == [Closed, QuickAddRequested(p)]
  {
  }

  /** The quick-add button is enabled exactly when it reads "Add to Cart"; on a stock that is not
      negative this is the dialog's own test. */
  function QuickAddEnabled(stock: int): (enabled: bool)
    ensures enabled <==> QuickAddCaption(stock) == AddToCartCaption
    ensures stock >= 0 ==> (enabled <==> QuickAddEnabledAsWritten(stock))
  {
    stock > 0
  }

  /** The dialog's action as written: nothing at all without a product, personalization for a cake,
      otherwise a quick add enabled for any stock but zero and captioned by whether stock is positive. */
  function ActionFor(product: Option<Product>): (a: Option<Action>)
    ensures a.None? <==> product.None?
    ensures a.Some? ==> (a.value.Personalize? <==> IsCakeProduct(product.value))
    ensures a.Some? && a.value.QuickAdd? ==> (a.value.enabled <==> product.value.countInStock != 0)
    ensures a.Some? && a.value.QuickAdd? ==> (a.value.caption == AddToCartCaption <==> product.value.countInStock > 0)
  {
    if product.None? then None
    else
      var p := product.value;
      if IsCakeProduct(p) then Some(Personalize)
      else Some(QuickAdd(QuickAddEnabledAsWritten(p.countInStock), QuickAddCaption(p.countInStock)))
  }

  /** The dialog's action under the corrected rule: the same, except that the quick add is enabled
      exactly when its caption reads "Add to Cart". */
  function CorrectedActionFor(product: Option<Product>): (a: Option<Action>)
    ensures a.None? <==> product.None?
    ensures a.Some? ==> (a.value.Personalize? <==> IsCakeProduct(product.value))
    ensures a.Some? && a.value.QuickAdd? ==> (a.value.enabled <==> a.value.caption == AddToCartCaption)
    ensures product.Some? && product.value.countInStock >= 0 ==> a == ActionFor(product)
  {
    if product.None? then None
    else
      var p := product.value;
      if IsCakeProduct(p) then Some(Personalize)
      else Some(QuickAdd(QuickAddEnabled(p.countInStock), QuickAddCaption(p.countInStock)))
  }

  /** The quick add here and the add button of the product's own page are enabled for the same stocks,
      both as written (any stock but zero) and under the corrected rule (a positive stock). */
  lemma AddButtonsAgree(p: Product)
    requires !IsCakeProduct(p)
    ensures ActionFor(Some(p)).value.enabled <==> !ProductDetails.AddDisabledAsWritten(p.countInStock)
    ensures CorrectedActionFor(Some(p)).value.enabled <==> !ProductDetails.AddDisabled(p.countInStock)
  {
  }

  /** What the dialog hands to its parent, in order. */
  datatype ModalEvent = Closed | PersonalizeRequested(product: Product) | QuickAddRequested(product: Product)

  /** Pressing the (enabled) action button: the dialog asks to close first, then passes the product on
      to personalization for a cake and to the quick add otherwise. */
  function Click(p: Product): (events: seq<ModalEvent>)
    requires IsCakeProduct(p) || QuickAddEnabledAsWritten(p.countInStock)
    ensures |events| == 2 && events[0] == Closed && !events[1].Closed?
    ensures events[1].product == p
    ensures events[1].PersonalizeRequested? <==> ActionFor(Some(p)) == Some(Personalize)
  {
    if IsCakeProduct(p) then [Closed, PersonalizeRequested(p)] else [Closed, QuickAddRequested(p)]
  }
}
