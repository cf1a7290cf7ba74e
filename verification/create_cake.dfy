/** The custom cake builder: a design chosen among the cake products, shape, flavour, tiers,
    message and notes, and the cart request it sends. */
module CreateCake {
  import opened Common
  import opened Domain
  import Home
  import CustomerOrders

  /** The builder's record; `designProductId` is the id of the cake chosen as the design. */
  datatype Build = Build(shape: string, flavor: string, tiers: string, designProductId: Option<string>,
                         message: string, notes: string)

  /** The builder's starting values: a one-tier round chocolate cake with no design chosen. */
  const InitialBuild := Build("Round Cake", "Chocolate", "1", None, "", "")

  const TieredCake := "Tiered Cake"
  const SelectDesign := "Please select a Cake Design"

  /** Reads a field of the build by its input name. */
  function BuildField(b: Build, name: string): Option<string> {
    match name
    case "shape" => Some(b.shape)
    case "flavor" => Some(b.flavor)
    case "tiers" => Some(b.tiers)
    case "message" => Some(b.message)
    case "notes" => Some(b.notes)
    case _ => None
  }

  /** `{ ...build, [name]: value }` for the builder's inputs. */
  function SetBuildField(b: Build, name: string, value: string): (r: Build)
    ensures BuildField(b, name).Some? ==> BuildField(r, name) == Some(value)
    ensures forall other :: other != name ==> BuildField(r, other) == BuildField(b, other)
    ensures r.designProductId == b.designProductId
  {
    match name
    case "shape" => b.(shape := value)
    case "flavor" => b.(flavor := value)
    case "tiers" => b.(tiers := value)
    case "message" => b.(message := value)
    case "notes" => b.(notes := value)
    case _ => b
  }

  /** The design options: the cake products, in catalogue order. */
  function Designs(products: seq<Product>): (r: seq<Product>)
    ensures IsSubsequence(r, products)
    ensures forall p :: p in r <==> p in products && IsCakeProduct(p)
  {
    Filter(products, IsCakeProduct)
  }

  /** The design options are exactly what the catalogue lists under its "Cakes" pill. */
  lemma DesignsAreCatalogueCakes(products: seq<Product>)
    ensures Designs(products) == Home.FilterCatalogue(products, Home.LabelToFilter("Cakes"))
  {
    FilterCongruent(products, IsCakeProduct, Home.Shows("cake"));
  }

  /** `addToCart`: the token is checked first, then the design; a custom build is always one cake,
      and its tiers are sent only for a tiered cake ("N/A" otherwise). */
  function AddToCart(session: Session, b: Build): (r: CartAttempt)
    ensures !HasToken(session) ==> r == Refused(LoginToOrder, "error")
    ensures HasToken(session) && (b.designProductId.None? || b.designProductId.value == "") ==> r == Refused(SelectDesign, "warning")
    ensures r.Send? <==> HasToken(session) && b.designProductId.Some? && b.designProductId.value != ""
    ensures r.Send? ==> r.request.productId == b.designProductId.value && r.request.quantity == 1
    ensures r.Send? ==> r.request.customization.isCustomBuild == Some(true)
    ensures r.Send? ==> r.request.customization.tiers == Some(if b.shape == TieredCake then b.tiers else "N/A")
    ensures r.Send? ==> r.request.customization.shape == Some(b.shape) && r.request.customization.flavor == Some(b.flavor)
    ensures r.Send? ==> r.request.customization.message == Some(b.message) && r.request.customization.notes == Some(b.notes)
  {
    if !HasToken(session) then Refused(LoginToOrder, "error")
    else if b.designProductId.None? || b.designProductId.value == "" then Refused(SelectDesign, "warning")
    else
      Send(CartRequest(b.designProductId.value, 1,
        Customization(Some(true), Some(b.shape), Some(b.flavor),
                      Some(if b.shape == TieredCake then b.tiers else "N/A"),
                      Some(b.message), Some(b.notes), None)))
  }

  /** On the customer's order page a custom cake shows a tiers line exactly when it was built as a tiered
      cake with a tier count chosen. */
  lemma CustomBuildTiersShownIffTiered(session: Session, b: Build)
    requires AddToCart(session, b).Send?
    ensures CustomerOrders.ShowsTiers(AddToCart(session, b).request.customization)
        <==> b.shape == TieredCake && b.tiers != "" && b.tiers != "N/A"
  {
  }

  /** The builder page's state: the design options and the build being edited. */
  class CakeBuilder {
    var designs: seq<Product>
    var build: Build

    constructor ()
      ensures designs == [] && build == InitialBuild
    {
      designs := [];
      build := InitialBuild;
    }

    /** Stores the design options from the fetched catalogue. */
    method LoadDesigns(products: seq<Product>)
      modifies this
      ensures designs == Designs(products) && build == old(build)
    {
      designs := Designs(products);
    }

    /** `handleChange`: only the named field of the build changes. */
    method HandleChange(name: string, value: string)
      modifies this
      ensures build == SetBuildField(old(build), name, value) && designs == old(designs)
    {
      build := SetBuildField(build, name, value);
    }

    /** `handleDesignSelect`: the chosen design replaces the previous one; nothing else changes. */
    method HandleDesignSelect(id: string)
      modifies this
      ensures build == old(build).(designProductId := Some(id)) && designs == old(designs)
    {
      build := build.(designProductId := Some(id));
    }
  }

  /** Choosing a design after signing in is all it takes: the initial build with a design is sent,
      with "N/A" tiers because the initial shape is round. */
  lemma InitialBuildWithDesignSends(session: Session, id: string)
    requires HasToken(session) && id != ""
    ensures var r := AddToCart(session, InitialBuild.(designProductId := Some(id)));
      r.Send? && r.request.customization.tiers == Some("N/A")
  {
  }
}
