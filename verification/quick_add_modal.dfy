/** The quick-add dialog for a bread product: a quantity stepper bounded by the stock, and a confirm
    button that hands the quantity to the page and starts over at one. */
module QuickAddModal {
  import opened Common
  import opened Domain

  /** The two stepper buttons. */
  datatype Press = Decrement | Increment

  /** The plus button is disabled once the quantity has reached the stock. */
  predicate IncrementDisabled(quantity: int, stock: int) { quantity >= stock }

  /** The quantity after one press of an enabled button (a disabled one does nothing). */
  function Step(quantity: int, stock: int, press: Press): (q: int)
    ensures quantity >= 1 || press.Decrement? ==> q >= 1
    ensures press.Decrement? ==> q <= Max(1, quantity) && (quantity > 1 ==> q == quantity - 1)
    ensures press.Increment? ==> q == quantity || (q == quantity + 1 && q <= stock)
  {
    match press
    case Decrement => Max(1, quantity - 1)
    case Increment => if IncrementDisabled(quantity, stock) then quantity else quantity + 1
  }

  /** The quantity after a series of presses, in order. */
  function Run(quantity: int, stock: int, presses: seq<Press>): int
    decreases |presses|
  {
    if presses == [] then quantity else Run(Step(quantity, stock, presses[0]), stock, presses[1..])
  }

  /** Whatever is pressed, a quantity between one and the stock (or one, when the stock is smaller)
      stays there: the stepper can never go below one nor past what is available. */
  lemma {:induction false} PressesStayInRange(quantity: int, stock: int, presses: seq<Press>)
    requires 1 <= quantity <= Max(1, stock)
    ensures 1 <= Run(quantity, stock, presses) <= Max(1, stock)
    decreases |presses|
  {
    if presses != [] {
      PressesStayInRange(Step(quantity, stock, presses[0]), stock, presses[1..]);
    }
  }

  /** `k` presses of the plus button from `quantity` give `quantity + k`, capped at the stock: the bound
      is reached and never passed. */
  lemma {:induction false} IncrementsReachStock(quantity: int, stock: int, k: nat)
    requires quantity >= 1
    ensures Run(quantity, stock, seq(k, _ => Increment)) == Max(quantity, Min(quantity + k, stock))
    decreases k
  {
    var presses := seq(k, _ => Increment);
    if k > 0 {
      assert presses[1..] == seq(k - 1, _ => Increment);
      IncrementsReachStock(Step(quantity, stock, Increment), stock, k - 1);
    }
  }

  /** What the dialog hands to its parent, in order. */
  datatype ModalEvent = Confirmed(product: Product, quantity: int) | Closed

  /** What the dialog shows: nothing without a product. */
  datatype QuickAddView = QuickAddView(name: string, price: int, quantity: int, incrementEnabled: bool,
                                       available: int, confirmCount: int)

  function View(product: Option<Product>, quantity: int): (v: Option<QuickAddView>)
    ensures v.None? <==> product.None?
    ensures v.Some? ==> v.value.quantity == v.value.confirmCount == quantity
    ensures v.Some? ==> (v.value.incrementEnabled <==> quantity < product.value.countInStock)
    ensures v.Some? ==> v.value.available == product.value.countInStock
  {
    if product.None? then None
    else
      var p := product.value;
      Some(QuickAddView(p.name, p.price, quantity, !IncrementDisabled(quantity, p.countInStock), p.countInStock, quantity))
  }

  /** The dialog's state: the quantity, which survives closing the dialog and is reset only by confirming. */
  class QuickAdd {
    var quantity: int

    predicate Valid()
      reads this
    {
      quantity >= 1
    }

    constructor ()
      ensures Valid() && quantity == 1
    {
      quantity := 1;
    }

    /** The minus button: one less, but never below one. */
    method Decrement(stock: int)
      modifies this
      requires Valid()
      ensures Valid()
      ensures quantity == Step(old(quantity), stock, Press.Decrement)
    {
      quantity := Max(1, quantity - 1);
    }

    /** The plus button, which does nothing while it is disabled. */
    method Increment(stock: int)
      modifies this
      requires Valid()
      ensures Valid()
      ensures quantity == Step(old(quantity), stock, Press.Increment)
    {
      if !IncrementDisabled(quantity, stock) {
        quantity := quantity + 1;
      }
    }

    /** `handleConfirm`: the product with the current quantity, then the close request; the quantity
        starts over at one. */
    method Confirm(product: Product) returns (events: seq<ModalEvent>)
      modifies this
      requires Valid()
      ensures Valid()
      ensures events == [Confirmed(product, old(quantity)), Closed] && quantity == 1
    {
      events := [Confirmed(product, quantity), Closed];
      quantity := 1;
    }
  }
}
