/** The dialog that personalizes a catalogue cake before it is added: message, flavour, shape,
    colours and notes, starting from the product's own shape. */
module CakeCustomizationModal {
  import opened Common
  import opened Domain
  import CustomerOrders

  const Flavors := ["Chocolate", "Vanilla", "Mocha", "Ube", "Strawberry", "Red Velvet", "Caramel"]
  const Shapes := ["Round", "Square", "Heart", "Rectangle (Sheet)", "Tiered"]

  /** The inputs of the dialog, by name. */
  const InputNames := ["message", "flavor", "shape", "color", "notes"]

  /** The starting state: every text empty, the shape taken from the product's sub-category, or
      "Round" when there is none (or no product yet); no tiers and no custom-build mark. */
  function InitialCustomization(product: Option<Product>): (c: Customization)
    ensures c.message == c.flavor == c.color == c.notes == Some("")
    ensures c.shape.Some? && c.shape.value != ""
    ensures product.Some? && product.value.subCategory.Some? && product.value.subCategory.value != ""
            ==> c.shape == product.value.subCategory
    ensures c.shape != Some("Round") ==> product.Some? && c.shape == product.value.subCategory
    ensures c.tiers.None? && c.isCustomBuild.None?
  {
    var shape := if product.Some? && product.value.subCategory.Some? && product.value.subCategory.value != ""
                 then product.value.subCategory.value else "Round";
    Customization(None, Some(shape), Some(""), None, Some(""), Some(""), Some(""))
  }

  /** A tiered catalogue cake opens with a shape its own shape menu does not list. */
  lemma TieredCakeOpensOffMenu(p: Product)
    requires p.subCategory == Some("Tiered Cake")
    ensures InitialCustomization(Some(p)).shape.value !in Shapes
  {
  }

  /** Whatever is typed into the dialog's inputs, the cake it submits carries no tiers, so the
      customer's order page never shows a tiers line for it, and it is never marked as a custom build. */
  lemma {:induction false} SubmittedCakeHasNoTiers(product: Option<Product>, edits: seq<FieldEdit>)
    requires forall i :: 0 <= i < |edits| ==> edits[i].name in InputNames
    ensures var c := ApplyEdits(InitialCustomization(product), edits);
      c.tiers.None? && !CustomerOrders.ShowsTiers(c) && c.isCustomBuild.None?
  {
    EditsKeepField(InitialCustomization(product), edits, "tiers");
  }

  /** What the dialog hands to its parent, in order. */
  datatype ModalEvent = AddToCart(product: Option<Product>, customization: Customization) | Closed

  /** The dialog is drawn only when it has a product. */
  predicate Renders(product: Option<Product>) { product.Some? }

  /** The dialog's state, created afresh for each product. */
  class Customizer {
    const product: Option<Product>
    var customization: Customization

    constructor (product: Option<Product>)
      ensures this.product == product && customization == InitialCustomization(product)
    {
      this.product := product;
      customization := InitialCustomization(product);
    }

    /** `handleChange`: only the named field changes. */
    method HandleChange(name: string, value: string)
      modifies this
      ensures customization == SetTextField(old(customization), name, value)
    {
      customization := SetTextField(customization, name, value);
    }

    /** `handleSubmit`: the product with the current personalization, then the close request. */
    method HandleSubmit() returns (events: seq<ModalEvent>)
      ensures events == [AddToCart(product, customization), Closed]
    {
      events := [AddToCart(product, customization), Closed];
    }
  }
}
