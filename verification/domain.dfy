/** The records the storefront exchanges with its REST API, as the pages read them:
    products, cart and order lines, cake customizations, orders and their status,
    and the locally stored session. */
module Domain {
  import opened Common

  /** A calendar date in local time; clock times and time zones are not part of the model. */
  datatype Date = Date(year: int, month: int, day: int)

  /** A catalogue product. `category` is "bakery" or "cake" in practice, but any text can arrive. */
  datatype Product = Product(
    id: string,
    name: string,
    price: int,
    category: string,
    subCategory: Option<string>,
    flavor: Option<string>,
    description: string,
    image: string,
    countInStock: int)

  predicate IsCakeProduct(p: Product) { p.category == "cake" }

  /** A customization object. Every key may be absent; the empty object `{}` has none of them. */
  datatype Customization = Customization(
    isCustomBuild: Option<bool>,
    shape: Option<string>,
    flavor: Option<string>,
    tiers: Option<string>,
    message: Option<string>,
    notes: Option<string>,
    color: Option<string>)

  /** The object `{}`. */
  const EmptyCustomization := Customization(None, None, None, None, None, None, None)

  /** The text-valued keys a form can write with `{ ...c, [name]: value }`. */
  const TextKeys := ["shape", "flavor", "tiers", "message", "notes", "color"]

  /** Reads the text-valued key `name`. */
  function TextField(c: Customization, name: string): Option<string> {
    match name
    case "shape" => c.shape
    case "flavor" => c.flavor
    case "tiers" => c.tiers
    case "message" => c.message
    case "notes" => c.notes
    case "color" => c.color
    case _ => None
  }

  /** `{ ...c, [name]: value }` for a text field of a customization form. */
  function SetTextField(c: Customization, name: string, value: string): (r: Customization)
    ensures name in TextKeys ==> TextField(r, name) == Some(value)
    ensures forall other :: other != name ==> TextField(r, other) == TextField(c, other)
    ensures r.isCustomBuild == c.isCustomBuild
  {
    match name
    case "shape" => c.(shape := Some(value))
    case "flavor" => c.(flavor := Some(value))
    case "tiers" => c.(tiers := Some(value))
    case "message" => c.(message := Some(value))
    case "notes" => c.(notes := Some(value))
    case "color" => c.(color := Some(value))
    case _ => c
  }

  /** Writing the same field twice keeps only the second value. */
  lemma SetTextFieldLastWins(c: Customization, name: string, v: string, w: string)
    ensures SetTextField(SetTextField(c, name, v), name, w) == SetTextField(c, name, w)
  {
  }

  /** One change event of a customization form: the input's name and its new value. */
  datatype FieldEdit = FieldEdit(name: string, value: string)

  /** The customization after a series of change events, applied in order. */
  function ApplyEdits(c: Customization, edits: seq<FieldEdit>): Customization
    decreases |edits|
  {
    if edits == [] then c else ApplyEdits(SetTextField(c, edits[0].name, edits[0].value), edits[1..])
  }

  /** A field that no event names keeps its value, whatever the other events do. */
  lemma {:induction false} EditsKeepField(c: Customization, edits: seq<FieldEdit>, name: string)
    requires forall i :: 0 <= i < |edits| ==> edits[i].name != name
    ensures TextField(ApplyEdits(c, edits), name) == TextField(c, name)
    ensures ApplyEdits(c, edits).isCustomBuild == c.isCustomBuild
    decreases |edits|
  {
    if edits != [] {
      var c' := SetTextField(c, edits[0].name, edits[0].value);
      EditsKeepField(c', edits[1..], name);
    }
  }

  /** One line of a cart or an order: a snapshot of name and price, a quantity,
      the populated product when it still exists, and an optional customization. */
  datatype LineItem = LineItem(
    name: string,
    price: int,
    quantity: int,
    product: Option<Product>,
    customization: Option<Customization>)

  /** The amount shown for a line: unit price times quantity. No units cost nothing and one unit costs
      the unit price; `Cart.SplitLineKeepsTotal` shows that the amount counts units. */
  function LineAmount(item: LineItem): (amount: int)
    ensures item.quantity == 0 ==> amount == 0
    ensures item.quantity == 1 ==> amount == item.price
  {
    item.price * item.quantity
  }

  /** The known values of `orderStatus`. */
  datatype OrderStatus =
    | Pending | Approved | InProcess | ReadyForPickup | Completed | Rejected | Cancelled
    | Unrecognized(text: string)

  const KnownStatusNames := {"pending", "approved", "in_process", "ready_for_pickup", "completed", "rejected", "cancelled"}

  /** The text the API uses for a status. */
  function StatusName(s: OrderStatus): string {
    match s
    case Pending => "pending"
    case Approved => "approved"
    case InProcess => "in_process"
    case ReadyForPickup => "ready_for_pickup"
    case Completed => "completed"
    case Rejected => "rejected"
    case Cancelled => "cancelled"
    case Unrecognized(t) => t
  }

  /** Reads a status text; text that names no known status stays as it is. */
  function ParseStatus(text: string): (s: OrderStatus)
    ensures s.Unrecognized? <==> text !in KnownStatusNames
  {
    match text
    case "pending" => Pending
    case "approved" => Approved
    case "in_process" => InProcess
    case "ready_for_pickup" => ReadyForPickup
    case "completed" => Completed
    case "rejected" => Rejected
    case "cancelled" => Cancelled
    case _ => Unrecognized(text)
  }

  /** A status as it can arise from the API: an unrecognized one never spells a known name. */
  predicate WellFormedStatus(s: OrderStatus) {
    s.Unrecognized? ==> s.text !in KnownStatusNames
  }

  /** Reading the text back gives the text: comparing parsed statuses is comparing the raw strings. */
  lemma StatusNameOfParse(text: string)
    ensures StatusName(ParseStatus(text)) == text
    ensures WellFormedStatus(ParseStatus(text))
  {
  }

  /** Parsing the name of a well-formed status gives the status back. */
  lemma ParseOfStatusName(s: OrderStatus)
    requires WellFormedStatus(s)
    ensures ParseStatus(StatusName(s)) == s
  {
    match s
    case Unrecognized(t) =>
    case _ =>
  }

  /** An order as returned by the API. `orderStatus` is kept as the raw text. */
  datatype Order = Order(
    id: string,
    orderStatus: string,
    items: seq<LineItem>,
    totalPrice: int,
    createdAt: Date)

  function Status(o: Order): OrderStatus { ParseStatus(o.orderStatus) }

  predicate IsRejectedOrCancelled(o: Order) { Status(o) == Rejected || Status(o) == Cancelled }

  predicate IsCompleted(o: Order) { Status(o) == Completed }

  /** The dashboard's notion of a cake order: some line carries a customization object. */
  predicate IsCakeOrder(o: Order) {
    exists i :: 0 <= i < |o.items| && o.items[i].customization.Some?
  }

  /** The session record kept in local storage; every key may be missing. */
  datatype Session = Session(
    token: Option<string>,
    role: Option<string>,
    firstName: Option<string>,
    lastName: Option<string>,
    email: Option<string>,
    contactNumber: Option<string>)

  /** `!!userInfo.token`: a token is present and non-empty. */
  predicate HasToken(s: Session) { s.token.Some? && s.token.value != "" }

  /** What a guarded page does when it mounts. */
  datatype PageLoad<T> = RedirectToAuth | Proceed(value: T)

  /** The guard shared by the customer pages: without a token, go to `/auth` and do nothing else. */
  function GuardPage<T>(session: Session, next: T): (r: PageLoad<T>)
    ensures r == RedirectToAuth <==> !HasToken(session)
    ensures r.Proceed? ==> r.value == next
  {
    if !HasToken(session) then RedirectToAuth else Proceed(next)
  }

  /** The body of `POST /cart`. */
  datatype CartRequest = CartRequest(productId: string, quantity: int, customization: Customization)

  /** The result of pressing an add-to-cart button: an alert and no request, or a request. */
  datatype CartAttempt = Refused(message: string, severity: string) | Send(request: CartRequest)

  const LoginToOrder := "Please login to order"
}
