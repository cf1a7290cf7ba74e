/** The administrator's product page: the catalogue split by tab, the add/edit form with its
    validation and the payload it sends, and the stock buttons with their optimistic update. */
module AdminProducts {
  import opened Common
  import opened Text
  import opened Domain

  // ---------------------------------------------------------------------------
  // Form values
  // ---------------------------------------------------------------------------

  /** A form value: what an input produces (text) or what was copied from a product (a number). */
  datatype FieldValue = Text(text: string) | Number(number: int)

  /** JavaScript truthiness of a form value: the empty text and the number 0 are false. */
  predicate Truthy(v: FieldValue) {
    match v
    case Text(s) => s != ""
    case Number(n) => n != 0
  }

  /** The value of a run of decimal digits. */
  function DigitsValue(s: string): (n: nat)
    requires forall i :: 0 <= i < |s| ==> IsAsciiDigit(s[i])
  {
    if s == [] then 0
    else
      assert IsAsciiDigit(s[|s| - 1]);
      10 * DigitsValue(s[..|s| - 1]) + (s[|s| - 1] as int - '0' as int)
  }

  /** `Number(v) || 0` for the texts a number input yields: digits, or a minus sign and digits;
      any other text counts as 0. */
  function ToNumber(v: FieldValue): (n: int)
    ensures v.Number? ==> n == v.number
    ensures v.Text? && v.text == "" ==> n == 0
    ensures v.Text? && AllDigits(v.text) ==> n >= 0
  {
    match v
    case Number(n) => n
    case Text(s) =>
      if AllDigits(s) then DigitsValue(s)
      else if |s| >= 2 && s[0] == '-' && AllDigits(s[1..]) then -(DigitsValue(s[1..]) as int)
      else 0
  }

  function DigitChar(d: int): char
    requires 0 <= d < 10
  {
    ('0' as int + d) as char
  }

  /** The decimal text a number input shows for a non-negative number. */
  function DecimalText(n: nat): (s: string)
    ensures AllDigits(s)
  {
    if n < 10 then [DigitChar(n)] else DecimalText(n / 10) + [DigitChar(n % 10)]
  }

  /** A non-negative number copied into the form and then edited back unchanged reads as the same number. */
  lemma {:induction false} DecimalTextRoundTrip(n: nat)
    ensures ToNumber(Text(DecimalText(n))) == n
    ensures DigitsValue(DecimalText(n)) == n
  {
    var s := DecimalText(n);
    if n >= 10 {
      DecimalTextRoundTrip(n / 10);
      assert s[..|s| - 1] == DecimalText(n / 10);
    } else {
      assert s[..0] == [] && s[0] as int == '0' as int + n;
      assert DigitsValue(s) == n;
    }
  }

  // ---------------------------------------------------------------------------
  // The product form and what it sends
  // ---------------------------------------------------------------------------

  datatype ProductForm = ProductForm(
    name: string,
    price: FieldValue,
    category: string,
    subCategory: string,
    description: string,
    countInStock: FieldValue)

  /** The blank form of a tab. */
  function EmptyForm(tab: string): (f: ProductForm)
    ensures f.name == "" && f.description == "" && f.subCategory == "" && f.category == tab
    ensures !Truthy(f.price) && ToNumber(f.price) == 0 && ToNumber(f.countInStock) == 0
  {
    ProductForm("", Text(""), tab, "", "", Number(0))
  }

  /** The form filled from an existing product, as the edit button does. */
  function FormFromProduct(p: Product): (f: ProductForm)
    ensures f.name == p.name && f.description == p.description && f.category == p.category
    ensures ToNumber(f.price) == p.price && ToNumber(f.countInStock) == p.countInStock
    ensures Truthy(f.price) <==> p.price != 0
    ensures p.subCategory.Some? ==> f.subCategory == p.subCategory.value
    ensures p.subCategory.None? ==> f.subCategory == ""
  {
    ProductForm(p.name, Number(p.price), p.category,
                if p.subCategory.Some? then p.subCategory.value else "",
                p.description, Number(p.countInStock))
  }

  /** `handleChange` on the form: the named input takes the typed text; number inputs now hold text. */
  function SetFormField(f: ProductForm, name: string, value: string): (r: ProductForm)
    ensures name !in {"name", "price", "category", "subCategory", "description", "countInStock"} ==> r == f
    ensures name == "name" ==> r == f.(name := value)
    ensures name == "price" ==> r == f.(price := Text(value))
    ensures name == "category" ==> r == f.(category := value)
    ensures name == "subCategory" ==> r == f.(subCategory := value)
    ensures name == "description" ==> r == f.(description := value)
    ensures name == "countInStock" ==> r == f.(countInStock := Text(value))
  {
    match name
    case "name" => f.(name := value)
    case "price" => f.(price := Text(value))
    case "category" => f.(category := value)
    case "subCategory" => f.(subCategory := value)
    case "description" => f.(description := value)
    case "countInStock" => f.(countInStock := Text(value))
    case _ => f
  }

  /** The multipart body of a save: numbers already converted, the category taken from the tab,
      the sub-category only for a cake, the image only when one was chosen. */
  datatype ProductPayload = ProductPayload(
    name: string,
    price: int,
    countInStock: int,
    description: string,
    category: string,
    subCategory: Option<string>,
    image: Option<string>)

  /** `PUT /products/:id` when editing, `POST /products` when adding. */
  datatype SaveRequest = Update(id: Option<string>, payload: ProductPayload) | Create(payload: ProductPayload)

  /** `PUT /products/:id` with the body `{ countInStock }`, sent by the stock buttons. */
  datatype StockUpdate = StockUpdate(id: string, countInStock: int)

  const MissingFields := "Please fill in all required fields (Name, Price, Description)"
  const MissingImage := "Please select an image for the new product."

  /** `handleSubmit`: the alert that stops it, or the request it sends. */
  function SubmitRequest(f: ProductForm, activeTab: string, editMode: bool, selectedId: Option<string>,
                         imageFile: Option<string>): (r: Result<SaveRequest>)
    ensures r.Err? <==> f.name == "" || !Truthy(f.price) || f.description == "" || (!editMode && imageFile.None?)
    ensures r.Err? ==> r.message == if f.name == "" || !Truthy(f.price) || f.description == "" then MissingFields else MissingImage
    ensures r.Ok? ==> (r.value.Update? <==> editMode) && (editMode ==> r.value.id == selectedId)
    ensures r.Ok? ==> r.value.payload.category == activeTab && r.value.payload.image == imageFile
    ensures r.Ok? ==> (r.value.payload.subCategory.Some? <==> activeTab == "cake" && f.subCategory != "")
    ensures r.Ok? && r.value.payload.subCategory.Some? ==> r.value.payload.subCategory.value == f.subCategory
    ensures r.Ok? ==> r.value.payload.name == f.name && r.value.payload.description == f.description
    ensures r.Ok? ==> r.value.payload.price == ToNumber(f.price) && r.value.payload.countInStock == ToNumber(f.countInStock)
  {
    if f.name == "" || !Truthy(f.price) || f.description == "" then Err(MissingFields)
    else if !editMode && imageFile.None? then Err(MissingImage)
    else
      var payload := ProductPayload(
        f.name, ToNumber(f.price), ToNumber(f.countInStock), f.description, activeTab,
        if activeTab == "cake" && f.subCategory != "" then Some(f.subCategory) else None,
        imageFile);
      if editMode then Ok(Update(selectedId, payload)) else Ok(Create(payload))
  }

  /** Saving an unchanged edit form sends the product's own fields back under its id. */
  lemma EditUnchangedRoundTrip(p: Product, imageFile: Option<string>)
    requires p.name != "" && p.price != 0 && p.description != ""
    ensures var r := SubmitRequest(FormFromProduct(p), p.category, true, Some(p.id), imageFile);
      && r == Ok(Update(Some(p.id), r.value.payload))
      && r.value.payload.name == p.name && r.value.payload.price == p.price
      && r.value.payload.countInStock == p.countInStock && r.value.payload.description == p.description
      && r.value.payload.category == p.category
      && (p.category == "cake" ==> r.value.payload.subCategory == if p.subCategory == Some("") then None else p.subCategory)
  {
  }

  /** A product whose price is 0 cannot be saved from the edit form until its price is changed. */
  lemma ZeroPriceBlocksSave(p: Product, imageFile: Option<string>)
    requires p.price == 0
    ensures SubmitRequest(FormFromProduct(p), p.category, true, Some(p.id), imageFile) == Err(MissingFields)
  {
  }

  /** The blank form is always refused: it has no name. */
  lemma BlankFormRefused(tab: string, editMode: bool, selectedId: Option<string>, imageFile: Option<string>)
    ensures SubmitRequest(EmptyForm(tab), tab, editMode, selectedId, imageFile) == Err(MissingFields)
  {
  }

  // ---------------------------------------------------------------------------
  // The catalogue and stock
  // ---------------------------------------------------------------------------

  function InCategory(tab: string): Product -> bool { (p: Product) => p.category == tab }

  /** The products of the active tab. */
  function TabProducts(products: seq<Product>, tab: string): (r: seq<Product>)
    ensures IsSubsequence(r, products)
    ensures forall p :: p in r <==> p in products && p.category == tab
  {
    Filter(products, InCategory(tab))
  }

  /** `products.map(p => p._id === id ? { ...p, countInStock: n } : p)` */
  function SetStock(products: seq<Product>, id: string, n: int): (r: seq<Product>)
    ensures |r| == |products|
    ensures forall i :: 0 <= i < |products| ==>
      r[i] == if products[i].id == id then products[i].(countInStock := n) else products[i]
  {
    if products == [] then []
    else [if products[0].id == id then products[0].(countInStock := n) else products[0]] + SetStock(products[1..], id, n)
  }

  /** Setting a stock twice keeps only the second value. */
  lemma SetStockLastWins(products: seq<Product>, id: string, a: int, b: int)
    ensures SetStock(SetStock(products, id, a), id, b) == SetStock(products, id, b)
  {
  }

  /** A stock change is undone by setting the previous stock back. */
  lemma SetStockUndo(products: seq<Product>, id: string, n: int, previous: int)
    requires forall p :: p in products && p.id == id ==> p.countInStock == previous
    ensures SetStock(SetStock(products, id, n), id, previous) == products
  {
    var r := SetStock(SetStock(products, id, n), id, previous);
    forall i | 0 <= i < |products|
      ensures r[i] == products[i]
    {
      assert products[i] in products;
    }
  }

  /** A stock change does not move a product between tabs. */
  lemma {:induction false} SetStockKeepsTabs(products: seq<Product>, id: string, n: int, tab: string)
    ensures TabProducts(SetStock(products, id, n), tab) == SetStock(TabProducts(products, tab), id, n)
  {
    if products != [] {
      SetStockKeepsTabs(products[1..], id, n, tab);
      assert SetStock(products, id, n)[1..] == SetStock(products[1..], id, n);
    }
  }

  /** The minus button is disabled at a stock of 0 or less: exactly the stocks for which a press would
      fail the guard of `updateStock`, so every enabled press sends a request. */
  predicate DecrementDisabled(stock: int)
    ensures !DecrementDisabled(stock) <==> stock + -1 >= 0
  {
    stock <= 0
  }

  // ---------------------------------------------------------------------------
  // The page state
  // ---------------------------------------------------------------------------

  /** The page's state: the fetched catalogue, the active tab, and the add/edit dialog. */
  class ProductsPage {
    var products: seq<Product>
    var activeTab: string
    var open: bool
    var editMode: bool
    var selectedId: Option<string>
    var form: ProductForm
    var imageFile: Option<string>
    var imagePreview: string

    /** Editing always targets a product, and adding never does. */
    predicate Valid()
      reads this
    {
      editMode <==> selectedId.Some?
    }

    constructor ()
      ensures Valid()
      ensures products == [] && activeTab == "bakery" && !open && !editMode && selectedId.None?
      ensures form == ProductForm("", Text(""), "bakery", "", "", Number(0))
      ensures imageFile.None? && imagePreview == ""
    {
      products := [];
      activeTab := "bakery";
      open := false;
      editMode := false;
      selectedId := None;
      form := EmptyForm("bakery");
      imageFile := None;
      imagePreview := "";
    }

    /** `fetchProducts` has answered: a fetched catalogue replaces the list; a failed fetch keeps it. */
    method Loaded(fetched: Option<seq<Product>>)
      modifies this
      requires Valid()
      ensures Valid()
      ensures products == if fetched.Some? then fetched.value else old(products)
      ensures activeTab == old(activeTab) && open == old(open) && editMode == old(editMode) && form == old(form)
      ensures selectedId == old(selectedId) && imageFile == old(imageFile) && imagePreview == old(imagePreview)
    {
      if fetched.Some? {
        products := fetched.value;
      }
    }

    /** `resetForm`: back to adding, with the blank form of the active tab and no image. */
    method ResetForm()
      modifies this
      requires Valid()
      ensures Valid()
      ensures !editMode && selectedId.None? && form == EmptyForm(activeTab) && imageFile.None? && imagePreview == ""
      ensures products == old(products) && activeTab == old(activeTab) && open == old(open)
    {
      editMode := false;
      selectedId := None;
      form := EmptyForm(activeTab);
      imageFile := None;
      imagePreview := "";
    }

    /** The "Add" button: a blank form in an open dialog. */
    method OpenAddModal()
      modifies this
      requires Valid()
      ensures Valid()
      ensures open && !editMode && form == EmptyForm(activeTab) && imageFile.None? && imagePreview == ""
      ensures products == old(products) && activeTab == old(activeTab)
    {
      ResetForm();
      open := true;
    }

    /** `openEditModal`: the dialog opens on the product's values, with its image as preview and no new file. */
    method OpenEditModal(p: Product)
      modifies this
      requires Valid()
      ensures Valid()
      ensures open && editMode && selectedId == Some(p.id) && form == FormFromProduct(p)
      ensures imagePreview == p.image && imageFile.None?
      ensures products == old(products) && activeTab == old(activeTab)
    {
      editMode := true;
      selectedId := Some(p.id);
      form := FormFromProduct(p);
      imagePreview := p.image;
      imageFile := None;
      open := true;
    }

    /** The success path of `handleSubmit`: the dialog closes and the form is reset; the list is reloaded
        afterwards, when `fetchProducts` answers (`Loaded`). */
    method OnSaveSucceeded()
      modifies this
      requires Valid()
      ensures Valid()
      ensures !open && !editMode && selectedId.None? && form == EmptyForm(activeTab) && imageFile.None? && imagePreview == ""
      ensures products == old(products) && activeTab == old(activeTab)
    {
      open := false;
      ResetForm();
    }

    /** `updateStock`: a change that would go below zero does nothing; otherwise the list is updated at
        once and the request to send (the product's id and its new stock) is returned. No stock becomes
        negative. */
    method UpdateStock(id: string, currentStock: int, change: int) returns (request: Option<StockUpdate>)
      modifies this
      requires Valid()
      ensures Valid()
      ensures request.None? <==> currentStock + change < 0
      ensures request.Some? ==> request.value == StockUpdate(id, currentStock + change) && request.value.countInStock >= 0
      ensures products == if currentStock + change < 0 then old(products) else SetStock(old(products), id, currentStock + change)
      ensures forall i :: 0 <= i < |products| && products[i].countInStock < 0 ==> old(products)[i].countInStock < 0
      ensures activeTab == old(activeTab) && open == old(open) && form == old(form) && editMode == old(editMode)
      ensures selectedId == old(selectedId) && imageFile == old(imageFile) && imagePreview == old(imagePreview)
    {
      var newStock := currentStock + change;
      if newStock < 0 {
        return None;
      }
      products := SetStock(products, id, newStock);
      request := Some(StockUpdate(id, newStock));
    }
  }
}
