# BakeReserve storefront — a Dafny model

BakeReserve is a bakery's web storefront. React pages sit over a REST API. Customers browse breads
and cakes, personalize catalogue cakes or build a custom one, and fill a cart. They sign up or sign
in, and follow their orders. Administrators run the catalogue (stock included) and move orders
through their lifecycle. They also read sales figures: order counts, revenue and best- and
worst-selling products.

This project models the logic of those pages, not their rendering. Each page's computations become
Dafny:

- filters, counts, totals, validations, the request bodies the pages send, and the state changes
  made by their event handlers;
- the properties the pages rely on, proved as lemmas.

The modules follow the source files:

| module | file | models |
|---|---|---|
| `Common`, `Text` | `common.dfy`, `text.dfy` | `Array.prototype.filter`; the string operations the pages use: trimming, upper-casing, replacing, `indexOf` |
| `Domain` | `domain.dfy` | products, line items, customizations, orders and their status texts, the stored session, the token guard |
| `Home` | `home.dfy` | the catalogue's category pills and filter |
| `ProductDetails` | `product_details.dfy` | a product's own page: quantity, cake options, add to cart, stock button |
| `ProductDetailModal`, `QuickAddModal`, `CakeCustomizationModal` | the three `*_modal.dfy` | the catalogue dialogs |
| `CreateCake` | `create_cake.dfy` | the custom cake builder |
| `Cart` | `cart.dfy` | the cart page and its total |
| `CustomerOrders` | `orders.dfy` | the customer's orders page: active/past tabs, status chips, customization lines |
| `Profile` | `profile.dfy` | the profile page |
| `Auth` | `auth.dfy` | the sign-in / sign-up form: its validation chain and its requests |
| `AdminProducts` | `admin_products.dfy` | the product admin: form, save request, stock buttons |
| `AdminDashboard` | `dashboard.dfy` | the order admin: tabs, counts, lifecycle buttons; the statistics: period window, revenue, rankings |

How the model represents the JavaScript:

- **Where state changes step by step, the model uses classes.** The component state that event
  handlers update becomes a class whose methods state the new state (`ProductsPage`,
  `ProductDetailsPage`, `QuickAdd`, `Customizer`, `CakeBuilder`).
- **The statistics' tallying loop is a method with loop invariants.** It is proved against
  specification functions. Those state the units sold per product name and whether a name sold at
  all.
- **Page logic that only computes becomes functions.** Their contracts are tied by lemmas to an
  inverse, a partner or a reference definition.
- **Missing keys are modelled as values.** JavaScript's `undefined` and missing keys are `Option`.
- **Truthiness and `||` defaults are written out** case by case.
- **The string operations are modelled character by character.** A string is a sequence of Unicode
  characters (code points), where JavaScript counts UTF-16 code units; the two agree on every
  character outside the astral planes.
  - `replace` with a string pattern changes only the first match.
  - The regular expressions' `\s` is ECMAScript's white-space and line-terminator set.
  - `.` does not match a line terminator.
- **Numbers are integers.** Form fields are texts until `Number(...) || 0` turns them into numbers.
  The model reads digit strings, with an optional leading minus, and the empty text.

## Model

| member | source | states |
|---|---|---|
| `Common.Filter` | src/pages/admin/AdminProducts.jsx:70 | `Array.prototype.filter`: the elements that satisfy the predicate, in their order, each exactly as many times as in the input, and nothing else |
| `Text.UpperChar` | src/pages/Profile.jsx:25-26 | the result is never a lower-case ASCII letter; a lower-case ASCII letter moves to its capital, anything else is kept |
| `Text.Upper` | src/pages/Orders.jsx:74 | upper-casing keeps the length and upper-cases each character in place |
| `Text.TrimStart` | src/pages/Auth.jsx:58-65 | the result is a suffix of the input; everything cut is white space; it does not start with white space |
| `Text.TrimEnd` | src/pages/Auth.jsx:58-65 | the result is a prefix of the input; everything cut is white space; it does not end with white space |
| `Text.Trim` | src/pages/Auth.jsx:58-65 | the result is the slice of the input that follows its leading white space; everything cut from either end is white space, and the result neither starts nor ends with white space |
| `Text.ReplaceAll` | src/pages/Orders.jsx:74 | a global replace keeps the length and replaces every occurrence and nothing else |
| `Text.ReplaceAllRemoves` | src/pages/Orders.jsx:74 | after a global replace by another character, the replaced character no longer occurs |
| `Text.IndexOf` | src/pages/admin/AdminDashboard.jsx:257 | the result is -1 or an index holding the character, and no earlier index holds it |
| `Text.ReplaceFirst` | src/pages/admin/AdminDashboard.jsx:257 | a replace with a string pattern changes exactly the first occurrence and keeps the length |
| `Domain.SetTextField` | src/pages/ProductDetails.jsx:54-56 | `{...c, [name]: value}` sets the named text field and leaves every other field (and the custom-build mark) as it was |
| `Domain.SetTextFieldLastWins` | src/pages/ProductDetails.jsx:54-56 | writing a field twice keeps only the second value |
| `Domain.EditsKeepField` | src/components/CakeCustomizationModal.jsx:28-30 | a field that no change event names keeps its value through any series of events |
| `Domain.ParseStatus` | src/pages/admin/AdminDashboard.jsx:58-101 | a status text is unrecognized exactly when it is not one of the seven known names |
| `Domain.StatusNameOfParse` | src/pages/admin/AdminDashboard.jsx:58-101 | reading a status text back gives the same text, so comparing parsed statuses is comparing raw texts |
| `Domain.ParseOfStatusName` | src/pages/admin/AdminDashboard.jsx:58-101 | parsing a well-formed status's name gives the status back |
| `Domain.Status` | src/pages/admin/AdminDashboard.jsx:121 | an order's status is its parsed status text |
| `Domain.IsCakeOrder` | src/pages/admin/AdminDashboard.jsx:190 | an order is a cake order when some line carries a customization |
| `Domain.LineAmount` | src/pages/Orders.jsx:210 | the line subtotal `price * quantity` shown on the order page and summed by the cart: 0 for no units, the unit price for one |
| `Domain.GuardPage` | src/pages/Cart.jsx:29-35 | a page redirects to sign-in exactly when the stored session has no token, and otherwise proceeds with its load |
| `Home.LabelToFilter` | src/pages/Home.jsx:46-51 | each pill maps to "all", "bakery" or "cake"; "Breads" is the only one for bakery and "Cakes" the only one for cake |
| `Home.OnePillPerFilter` | src/pages/Home.jsx:46-51 | each of the three filters has a pill, and no two pills share a filter |
| `Home.FilterCatalogue` | src/pages/Home.jsx:28-30 | the shown products are, in order, exactly those of the selected category (all of them for "all") |
| `Home.AllShowsEverything` | src/pages/Home.jsx:28-30 | the "all" filter shows the whole catalogue unchanged |
| `Home.CategoriesAreDisjoint` | src/pages/Home.jsx:28-30 | the breads and the cakes together never outnumber the catalogue |
| `ProductDetails.AddToCart` | src/pages/ProductDetails.jsx:58-94 | without a token the button is refused with "Please login to order"; otherwise the product and quantity are sent, with the customization's message, tiers, notes and colour plus the product's flavour and shape for a cake, and `{}` for anything else |
| `ProductDetails.TierSelectorShown` | src/pages/ProductDetails.jsx:179 | the tier selector is shown only for a product whose sub-category is "Tiered Cake" |
| `ProductDetails.HiddenSelectorSendsDefaultTiers` | src/pages/ProductDetails.jsx:27-31 | a cake whose tier selector is hidden still sends tiers "1", so the order page shows "Tiers: 1" |
| `ProductDetails.AddLabel` | src/pages/ProductDetails.jsx:237 | the button reads "Add to Order" for a positive stock and "Out of Stock" otherwise |
| `ProductDetails.AddDisabledAsWritten` | src/pages/ProductDetails.jsx:226 | the written `countInStock === 0` test: whenever the button is disabled its label reads "Out of Stock" |
| `ProductDetails.NegativeStockStaysEnabled` | src/pages/ProductDetails.jsx:226 | with stock -1 the button reads "Out of Stock" yet is enabled (see Findings) |
| `ProductDetails.NegativeStockCanBeSaved` | src/pages/admin/AdminProducts.jsx:101-115 | the admin form saves a stock typed as "-1" as the number -1, so a negative stock can reach the catalogue |
| `ProductDetails.AddDisabled` | src/pages/ProductDetails.jsx:226 | corrected rule: disabled exactly when the label reads "Out of Stock"; agrees with the written `=== 0` on every stock that is not negative |
| `ProductDetails.ProductDetailsPage.constructor` | src/pages/ProductDetails.jsx:22-31 | no product yet, quantity 1, customization with tiers "1" and empty texts |
| `ProductDetails.ProductDetailsPage.Loaded` | src/pages/ProductDetails.jsx:40-52 | the fetched product is stored and nothing else changes |
| `ProductDetails.ProductDetailsPage.SetQuantity` | src/pages/ProductDetails.jsx:214-216 | the quantity becomes the entered number but never less than 1; the rest of the state is kept |
| `ProductDetails.ProductDetailsPage.HandleCustomChange` | src/pages/ProductDetails.jsx:54-56 | only the named customization field changes |
| `ProductDetailModal.QuickAddCaption` | src/components/ProductDetailModal.jsx:107 | "Add to Cart" for a positive stock, "Out of Stock" otherwise |
| `ProductDetailModal.QuickAddEnabledAsWritten` | src/components/ProductDetailModal.jsx:100 | the written `countInStock !== 0` test: whenever the caption reads "Add to Cart" the button is enabled |
| `ProductDetailModal.NegativeStockQuickAddEnabled` | src/components/ProductDetailModal.jsx:100 | for a bread with any negative stock the quick-add button reads "Out of Stock" yet is enabled, and pressing it closes the dialog and hands the product to the quick add (see Findings) |
| `ProductDetailModal.QuickAddEnabled` | src/components/ProductDetailModal.jsx:100 | corrected rule: enabled exactly when the caption reads "Add to Cart"; agrees with the written `!== 0` test on every stock that is not negative |
| `ProductDetailModal.ActionFor` | src/components/ProductDetailModal.jsx:16-108 | as written: nothing without a product; personalization exactly for a cake; otherwise a quick add enabled exactly for a stock other than 0, captioned "Add to Cart" exactly for a positive stock |
| `ProductDetailModal.CorrectedActionFor` | src/components/ProductDetailModal.jsx:16-108 | corrected rule: nothing without a product; personalization exactly for a cake; a quick add enabled exactly when it reads "Add to Cart"; the same action as written for every stock that is not negative |
| `ProductDetailModal.AddButtonsAgree` | src/components/ProductDetailModal.jsx:100 | the dialog's quick add and the product page's add button are enabled for the same stocks, both as written (any stock but 0) and under the corrected rules (a positive stock) |
| `ProductDetailModal.Click` | src/components/ProductDetailModal.jsx:72-99 | pressing the button of a cake, or a quick add the written `!== 0` test enables: the dialog first asks to close, then hands the same product to personalization (a cake) or to the quick add |
| `QuickAddModal.Step` | src/components/QuickAddModal.jsx:39-48 | minus never goes below 1 and takes one off above 1; plus either does nothing or adds one without passing the stock |
| `QuickAddModal.IncrementDisabled` | src/components/QuickAddModal.jsx:48 | plus is disabled once the quantity reaches the stock |
| `QuickAddModal.PressesStayInRange` | src/components/QuickAddModal.jsx:39-48 | any series of presses keeps a quantity between 1 and the stock (or 1 when the stock is smaller) |
| `QuickAddModal.IncrementsReachStock` | src/components/QuickAddModal.jsx:46-48 | k presses of plus reach the starting quantity plus k, capped at the stock |
| `QuickAddModal.View` | src/components/QuickAddModal.jsx:15-66 | nothing is shown without a product; the view shows the quantity on the confirm button, the stock as available, and plus enabled exactly below the stock |
| `QuickAddModal.QuickAdd.constructor` | src/components/QuickAddModal.jsx:13 | the quantity starts at 1 |
| `QuickAddModal.QuickAdd.Decrement` | src/components/QuickAddModal.jsx:39 | the quantity after one minus press, at least 1 |
| `QuickAddModal.QuickAdd.Increment` | src/components/QuickAddModal.jsx:46-48 | the quantity after one plus press, unchanged while the button is disabled |
| `QuickAddModal.QuickAdd.Confirm` | src/components/QuickAddModal.jsx:17-21 | the product with the current quantity goes to the parent, then the close request; the quantity starts over at 1 |
| `CakeCustomizationModal.InitialCustomization` | src/components/CakeCustomizationModal.jsx:20-26 | empty texts, the product's sub-category as shape or "Round" when there is none; no tiers and no custom-build mark |
| `CakeCustomizationModal.TieredCakeOpensOffMenu` | src/components/CakeCustomizationModal.jsx:20-48 | a "Tiered Cake" product opens with a shape the shape menu does not list |
| `CakeCustomizationModal.SubmittedCakeHasNoTiers` | src/components/CakeCustomizationModal.jsx:20-35 | whatever is typed into the dialog's inputs, the submitted cake has no tiers (the order page shows no tiers line) and no custom-build mark |
| `CakeCustomizationModal.Customizer.constructor` | src/components/CakeCustomizationModal.jsx:20-26 | the dialog starts from the initial customization for its product |
| `CakeCustomizationModal.Customizer.HandleChange` | src/components/CakeCustomizationModal.jsx:28-30 | only the named field changes |
| `CakeCustomizationModal.Customizer.HandleSubmit` | src/components/CakeCustomizationModal.jsx:32-35 | the product and the current customization go to the parent, then the close request |
| `CreateCake.SetBuildField` | src/pages/CreateCake.jsx:53-55 | a change event sets the named build field and leaves the others and the chosen design alone |
| `CreateCake.Designs` | src/pages/CreateCake.jsx:43 | the design options are, in order, exactly the catalogue's cakes |
| `CreateCake.DesignsAreCatalogueCakes` | src/pages/CreateCake.jsx:43 | the design options are what the home page's "Cakes" pill shows |
| `CreateCake.AddToCart` | src/pages/CreateCake.jsx:61-95 | refused with "Please login to order" without a token, with "Please select a Cake Design" without a design; otherwise quantity 1 of the design, marked as a custom build, with the build's texts and tiers only for a "Tiered Cake" ("N/A" otherwise) |
| `CreateCake.CustomBuildTiersShownIffTiered` | src/pages/CreateCake.jsx:89 | a sent custom cake shows a tiers line on the order page exactly when it was built as a tiered cake with a real tier count |
| `CreateCake.CakeBuilder.constructor` | src/pages/CreateCake.jsx:18-29 | no designs yet; the initial build (round, chocolate, 1 tier, no design) |
| `CreateCake.CakeBuilder.LoadDesigns` | src/pages/CreateCake.jsx:38-51 | the designs become the catalogue's cakes and the build is kept |
| `CreateCake.CakeBuilder.HandleChange` | src/pages/CreateCake.jsx:53-55 | only the named build field changes |
| `CreateCake.CakeBuilder.HandleDesignSelect` | src/pages/CreateCake.jsx:57-59 | only the chosen design changes |
| `CreateCake.InitialBuildWithDesignSends` | src/pages/CreateCake.jsx:22-29 | after signing in, the initial build with a design is sent, with tiers "N/A" |
| `Cart.CartFromResponse` | src/pages/Cart.jsx:21 | a response without items gives an empty cart, otherwise its items |
| `Cart.CalculateTotal` | src/pages/Cart.jsx:37-39 | the sum over the lines of price times quantity |
| `Cart.TotalConcat` | src/pages/Cart.jsx:37-39 | the total of two carts put together is the sum of their totals |
| `Cart.TotalAppend` | src/pages/Cart.jsx:37-39 | the empty cart totals 0; a further line adds price times quantity |
| `Cart.TotalFromFront` | src/pages/Cart.jsx:37-39 | the total is the first line's amount plus the rest's total |
| `Cart.TotalPermutation` | src/pages/Cart.jsx:37-39 | the total does not depend on the order of the lines |
| `Cart.TotalNonNegative` | src/pages/Cart.jsx:37-39 | lines with no negative price or quantity never total below 0 |
| `Cart.SplitLineKeepsTotal` | src/pages/Cart.jsx:37-39 | splitting a line into two lines of the same item whose quantities add up to the original leaves the total unchanged |
| `Cart.OpenCart` | src/pages/Cart.jsx:29-39 | without a token the page redirects; otherwise it shows the fetched items, with subtotal and total both equal to their total |
| `Cart.NoTokenNoFetch` | src/pages/Cart.jsx:29-35 | without a token the response plays no part in the outcome |
| `CustomerOrders.OpenOrders` | src/pages/Orders.jsx:17-43 | without a token the page redirects; otherwise it opens on the "active" tab with the fetched orders (none when the fetch fails) |
| `CustomerOrders.IsPast` | src/pages/Orders.jsx:46-48 | an order is past when its status is completed, cancelled or rejected |
| `CustomerOrders.FilteredOrders` | src/pages/Orders.jsx:45-51 | the "active" tab lists, in order, exactly the orders that are not completed, cancelled or rejected; any other tab lists exactly those that are |
| `CustomerOrders.TabsPartitionOrders` | src/pages/Orders.jsx:45-51 | every order appears in exactly one of the two tabs |
| `CustomerOrders.HistoryIsFinalBadge` | src/pages/Orders.jsx:47-49 | the customer's past orders are exactly those the dashboard shows with a final badge; every active order with a known status still has a dashboard action |
| `CustomerOrders.StatusColor` | src/pages/Orders.jsx:53-71 | the chip is "default" exactly for unknown statuses and "error" exactly for rejected and cancelled |
| `CustomerOrders.StatusColorsDistinguish` | src/pages/Orders.jsx:53-71 | two known statuses other than the rejected/cancelled pair get different colours |
| `CustomerOrders.FormatStatus` | src/pages/Orders.jsx:73-75 | the chip text has the status's length, no underscore and no lower-case letter; each character is the status's, with `_` as a space, upper-cased |
| `CustomerOrders.FormatStatusIdempotent` | src/pages/Orders.jsx:73-75 | formatting a formatted status changes nothing |
| `CustomerOrders.NotTiersLine` | src/pages/Orders.jsx:191-205 | a flavour, shape or message line is never taken for a tiers line |
| `CustomerOrders.ShowsTiers` | src/pages/Orders.jsx:202-204 | the tiers line is shown when tiers is present, non-empty and not "N/A" |
| `CustomerOrders.CustomizationDetails` | src/pages/Orders.jsx:191-205 | at most four detail lines, in the page's order: a flavour line first when the flavour is shown, then the shape line, then the message line, each only for a present, non-empty value; a tiers line appears exactly when tiers is set, non-empty and not "N/A", and it comes last |
| `Profile.FirstLetter` | src/pages/Profile.jsx:25-26 | one character, the name's first, exactly when the name is present and non-empty; otherwise nothing |
| `Profile.Initials` | src/pages/Profile.jsx:25-26 | at most two characters, one per non-empty name, each the upper-cased first letter, with no lower-case letter |
| `Profile.OrDefault` | src/pages/Profile.jsx:47 | a missing or empty value shows the fallback; any other value shows itself |
| `Profile.OpenProfile` | src/pages/Profile.jsx:19-86 | without a token the page redirects; otherwise initials, full name, the email (or the empty text), role or "Customer", and contact number or "Not provided" |
| `Profile.TwoInitials` | src/pages/Profile.jsx:25-26 | a customer with both names gets the two upper-cased first letters |
| `Auth.HandleChange` | src/pages/Auth.jsx:36-38 | a change event sets the named form field and leaves the others alone |
| `Auth.IsValidEmail` | src/pages/Auth.jsx:43-47 | `/^[^\s@]+@[^\s@]+\.[^\s@]+$/`: an accepted address has at least five characters, an `@` and no white space |
| `Auth.IsStrongPassword` | src/pages/Auth.jsx:81-87 | the strength pattern: an accepted password has at least three characters, among them an ASCII letter, a digit and one of `!@#$%^&*` |
| `Auth.ValidateForm` | src/pages/Auth.jsx:40-91 | the message reported is one of the page's seven; in sign-in mode only the email or password message; passing means a valid email and a non-empty password |
| `Auth.ValidEmailMatches` | src/pages/Auth.jsx:43-47 | an address the model's email test accepts matches the page's pattern |
| `Auth.MatchIsValidEmail` | src/pages/Auth.jsx:43-47 | an address that matches the page's pattern passes the model's email test |
| `Auth.ValidEmailIsPattern` | src/pages/Auth.jsx:43-47 | the email test accepts exactly the addresses the pattern matches: no white space, one `@` with text on both sides, and a dot with text on both sides after it |
| `Auth.StrongPasswordOnOneLine` | src/pages/Auth.jsx:81-87 | on a password without line breaks, the strength pattern holds exactly when it contains an ASCII letter, a digit and one of `!@#$%^&*` |
| `Auth.LineBreakHidesRest` | src/pages/Auth.jsx:81-87 | the lookaheads stop at a line terminator: a password whose digit and special character follow a LINE SEPARATOR (U+2028) is refused |
| `Auth.FirstFailureIsFirst` | src/pages/Auth.jsx:40-91 | the checks pass exactly when none fails; otherwise the message is that of the first failing check |
| `Auth.ChainIsFirstFailure` | src/pages/Auth.jsx:40-91 | the page's chain of early returns reports the same message as the first failing check of the list |
| `Auth.ValidateFormReportsFirstFailure` | src/pages/Auth.jsx:40-91 | validation reports the message of the first failing check, in the page's order |
| `Auth.LoginAcceptance` | src/pages/Auth.jsx:43-53 | a sign-in form is accepted exactly when the email is valid and the password is non-empty |
| `Auth.SignupAcceptance` | src/pages/Auth.jsx:40-91 | a sign-up form is accepted exactly when the email is valid, both names have at least two characters after trimming, the contact number is digits only, and the password has at least seven characters and passes the strength pattern |
| `Auth.SignupStricterThanLogin` | src/pages/Auth.jsx:40-91 | every form accepted for sign-up is accepted for sign-in |
| `Auth.Submit` | src/pages/Auth.jsx:93-129 | a request is made exactly when validation passes, and a refusal carries the validation message: a sign-in request in sign-in mode, otherwise a registration with the typed names and the country code put before the contact digits |
| `Auth.SplitContact` | src/pages/Auth.jsx:118 | a split finds a known country code that the full number starts with, and the number is code plus rest |
| `Auth.ContactNumberRoundTrip` | src/pages/Auth.jsx:118 | splitting the registered contact number gives back the country code and the typed digits |
| `Auth.AfterLogin` | src/pages/Auth.jsx:111-115 | after a successful sign-in an administrator stays on the page (with a notice) and anyone else is sent to "/home" |
| `Auth.RequestError` | src/pages/Auth.jsx:134-136 | the error shown is never empty and is the server's message when it sent one |
| `AdminProducts.ToNumber` | src/pages/admin/AdminProducts.jsx:104-105 | `Number(x) \|\| 0`: a number stays itself, the empty text reads 0, a digit string reads a non-negative number |
| `AdminProducts.DecimalText` | src/pages/admin/AdminProducts.jsx:449-452 | the decimal text of a non-negative number is made of digits |
| `AdminProducts.DecimalTextRoundTrip` | src/pages/admin/AdminProducts.jsx:104-105 | reading back the decimal text of a non-negative number gives the number |
| `AdminProducts.SetFormField` | src/pages/admin/AdminProducts.jsx:81-83 | a change event sets the named field: name, category, sub-category and description take the typed text, price and stock become that text; an unknown name changes nothing |
| `AdminProducts.EmptyForm` | src/pages/admin/AdminProducts.jsx:196-209 | the blank form: empty texts, the given tab as category, a falsy price, price and stock reading 0 |
| `AdminProducts.FormFromProduct` | src/pages/admin/AdminProducts.jsx:180-194 | the edit form copies the product's name, description and category; price and stock read back as the product's; the price is truthy exactly when it is not 0; the sub-category or the empty text |
| `AdminProducts.SubmitRequest` | src/pages/admin/AdminProducts.jsx:88-133 | refused with the missing-fields message for a blank name, a falsy price or a blank description, then with the missing-image message for a new product without an image; otherwise a PUT exactly in edit mode (to the selected id), carrying the form's name and description, `Number(...) \|\| 0` of its price and stock, the active tab's category, the image, and the form's sub-category only for a cake |
| `AdminProducts.EditUnchangedRoundTrip` | src/pages/admin/AdminProducts.jsx:101-115 | saving an edit form left as it was sends back the product's own fields |
| `AdminProducts.ZeroPriceBlocksSave` | src/pages/admin/AdminProducts.jsx:88-97 | a product priced 0 cannot be saved from its edit form |
| `AdminProducts.BlankFormRefused` | src/pages/admin/AdminProducts.jsx:88-97 | a blank form is refused with the missing-fields message |
| `AdminProducts.TabProducts` | src/pages/admin/AdminProducts.jsx:70 | the tab lists, in order, exactly the products of its category |
| `AdminProducts.SetStock` | src/pages/admin/AdminProducts.jsx:162-166 | the product with the id gets the new stock; every other product is unchanged |
| `AdminProducts.SetStockLastWins` | src/pages/admin/AdminProducts.jsx:162-166 | two stock updates of one product leave only the second |
| `AdminProducts.SetStockUndo` | src/pages/admin/AdminProducts.jsx:162-166 | setting the stock back to its previous value restores the list |
| `AdminProducts.SetStockKeepsTabs` | src/pages/admin/AdminProducts.jsx:70 | a stock update commutes with the tab filter |
| `AdminProducts.DecrementDisabled` | src/pages/admin/AdminProducts.jsx:329 | the minus button is enabled exactly when one less is not negative, i.e. exactly when a press passes the guard of `updateStock` |
| `AdminProducts.ProductsPage.constructor` | src/pages/admin/AdminProducts.jsx:26-48 | the page's initial state: bakery tab, closed form, no product selected, blank fields with stock 0 |
| `AdminProducts.ProductsPage.Loaded` | src/pages/admin/AdminProducts.jsx:53-66 | `fetchProducts` answering: a fetched catalogue replaces the list, a failed fetch keeps it, and nothing else changes; it serves the first load, the reload after a save and the reload after a failed stock update |
| `AdminProducts.ProductsPage.ResetForm` | src/pages/admin/AdminProducts.jsx:196-209 | the form is blank for the active tab and edit mode is left; the list, tab and dialog are kept |
| `AdminProducts.ProductsPage.OpenAddModal` | src/pages/admin/AdminProducts.jsx:245-248 | the dialog opens on a blank form, out of edit mode |
| `AdminProducts.ProductsPage.OpenEditModal` | src/pages/admin/AdminProducts.jsx:180-194 | the dialog opens in edit mode on the product's fields, with its image as preview |
| `AdminProducts.ProductsPage.OnSaveSucceeded` | src/pages/admin/AdminProducts.jsx:135-137 | after a save the dialog closes, edit mode is left, no product is selected, the form is blank for the active tab and the image and its preview are cleared; the tab is kept, and the list is then reloaded by the refetch (`Loaded`) |
| `AdminProducts.ProductsPage.UpdateStock` | src/pages/admin/AdminProducts.jsx:157-178 | a change that would go below 0 sends nothing and changes nothing; otherwise a PUT for that product's id with the new stock is sent and the stock is set on that product only; no stock becomes negative this way; tab, dialog, form, edit mode, selection, image and preview are kept |
| `AdminDashboard.GetCount` | src/pages/admin/AdminDashboard.jsx:48-56 | a count never exceeds the number of orders, and "all" counts them all |
| `AdminDashboard.GetManageOrders` | src/pages/admin/AdminDashboard.jsx:182-195 | the list holds, in order, exactly the orders that pass both the status tab and the type filter |
| `AdminDashboard.RejectedTabListsRejectedAndCancelled` | src/pages/admin/AdminDashboard.jsx:182-195 | the "rejected" tab lists the rejected and the cancelled orders |
| `AdminDashboard.TabCountMatchesList` | src/pages/admin/AdminDashboard.jsx:225-227 | each tab's badge count is the length of the list the tab shows |
| `AdminDashboard.TypeFiltersPartition` | src/pages/admin/AdminDashboard.jsx:182-195 | under any tab, the cake and regular filters split the "all" list between them |
| `AdminDashboard.TabHeadingAsWritten` | src/pages/admin/AdminDashboard.jsx:257 | the heading as written: the tab's text with only its first underscore (the `indexOf` position) turned into a space, followed by " Orders" |
| `AdminDashboard.TabHeadingKeepsUnderscore` | src/pages/admin/AdminDashboard.jsx:257 | the heading as written for "ready_for_pickup" still has an underscore (see Findings) |
| `AdminDashboard.TabHeading` | src/pages/admin/AdminDashboard.jsx:257 | corrected heading: every underscore of the tab becomes a space, nothing else changes, and " Orders" follows |
| `AdminDashboard.HeadingsAgreeIffOneUnderscore` | src/pages/admin/AdminDashboard.jsx:257 | the heading as written equals the corrected one exactly when the tab has no underscore after its first; otherwise the written heading still shows an underscore (see Findings) |
| `AdminDashboard.OfferedActionsAreForwardSteps` | src/pages/admin/AdminDashboard.jsx:322-362 | the buttons offered for a status are exactly the allowed next steps of the lifecycle |
| `AdminDashboard.OfferedActions` | src/pages/admin/AdminDashboard.jsx:322-362 | the lifecycle buttons shown for each status |
| `AdminDashboard.ConfirmQuestion` | src/pages/admin/AdminDashboard.jsx:170-172 | "Are you sure you want to … this order?", asking to "reject" exactly for "rejected" and to "mark as" the status otherwise |
| `AdminDashboard.ConfirmQuestionNamesStatus` | src/pages/admin/AdminDashboard.jsx:170-172 | the status can be read back from its question, so different statuses get different questions |
| `AdminDashboard.ActionsOrBadge` | src/pages/admin/AdminDashboard.jsx:322-372 | a final status shows a badge and no button; a status has buttons exactly when it is known and not final |
| `AdminDashboard.UpdateStatus` | src/pages/admin/AdminDashboard.jsx:170-180 | the admin is asked the page's question for the target status; a request is made exactly when the admin confirms, for that order and exactly the target status's name, which is one allowed step forward |
| `AdminDashboard.InWindow` | src/pages/admin/AdminDashboard.jsx:107-117 | an order date is in the "day", "month" or "year" period of now; any other period admits every date |
| `AdminDashboard.Window` | src/pages/admin/AdminDashboard.jsx:107-117 | the orders of the selected period, in order |
| `AdminDashboard.WindowsNest` | src/pages/admin/AdminDashboard.jsx:107-117 | today's orders are among this month's, which are among this year's; any other period keeps every order |
| `AdminDashboard.RevenueConcat` | src/pages/admin/AdminDashboard.jsx:123 | revenue adds up over the parts of an order list |
| `AdminDashboard.RevenueCountsOnlyCompleted` | src/pages/admin/AdminDashboard.jsx:120-123 | one more order adds its total to the revenue exactly when it is completed |
| `AdminDashboard.Revenue` | src/pages/admin/AdminDashboard.jsx:123 | the sum of the orders' totals |
| `AdminDashboard.RankKey` | src/pages/admin/AdminDashboard.jsx:130-143 | a cake line is ranked by its sub-category or "Custom Cake", any other line by its name |
| `AdminDashboard.Bump` | src/pages/admin/AdminDashboard.jsx:130-143 | adding units to a name raises that name's tally alone, creating the entry if it is missing, and keeps names distinct |
| `AdminDashboard.TallyLines` | src/pages/admin/AdminDashboard.jsx:130-143 | one order's lines add each product's units to the bread or cake tally, and exactly the products mentioned gain an entry |
| `AdminDashboard.TallyUnits` | src/pages/admin/AdminDashboard.jsx:126-144 | each tally holds, per product name, the units sold in the completed orders, and has an entry exactly for the names that sold |
| `AdminDashboard.InsertTallySorted` | src/pages/admin/AdminDashboard.jsx:147-154 | inserting into a sorted ranking keeps it sorted |
| `AdminDashboard.SortTallies` | src/pages/admin/AdminDashboard.jsx:147-154 | the sort is sorted by count, in the requested direction, and is a permutation of its input |
| `AdminDashboard.SortRank` | src/pages/admin/AdminDashboard.jsx:147-154 | the ranking holds the first ten (or all) entries, sorted, drawn from the tally; an entry left out ranks after every kept one |
| `AdminDashboard.SortRankIsRanking` | src/pages/admin/AdminDashboard.jsx:147-165 | the ranking of a correct tally holds at most ten distinct products that sold, sorted, with their true units, and no left-out product outranks a kept one |
| `AdminDashboard.GetStats` | src/pages/admin/AdminDashboard.jsx:104-166 | the period's order count, completed count, rejected-or-cancelled count and revenue; the two rankings are true rankings of the period's completed orders: distinct names, sorted, true units, no left-out product ahead |

## Left out

- The HTTP requests themselves are not modelled: their failures, timing and retries. A fetch appears as the `Option` it yields, a request as the value the page would send.
- AdminDashboard.UpdateStatus: the reload of the order list that follows a status change (`fetchOrders`) is not modelled; the dashboard functions take the order list as a parameter.
- Browser storage, navigation, `alert`/`confirm` dialogs and `setTimeout` are not modelled. The stored session and the admin's answer to `confirm` are parameters.
- The loading and submitting flags, images, `FormData` and `URL.createObjectURL` are not modelled. An image file is an optional name.
- Rendering and styling are not modelled, beyond the texts and enabled states the contracts name.
- Dates: `createdAt` is a calendar date in local time. Parsing date strings, clock times and time zones are not modelled.
- Money is integral: floating-point prices and `toFixed(2)` are not modelled.
- AdminProducts.ToNumber: reads only digit strings (with an optional leading minus) and the empty text. Decimals, exponents, surrounding white space and `NaN` are not modelled.
- AdminDashboard.SortRank: the order among products with equal counts is not fixed. The stable sort over JavaScript's key order (integer-like names first) is not modelled.
- AdminDashboard.TallyUnits: the maps are keyed by plain names. Names that clash with `Object.prototype` members (such as `__proto__`) are not modelled.
- Auth.ValidateForm: the name and password length checks count characters (code points), where JavaScript counts UTF-16 code units. A first name made of one astral character such as an emoji is two units long to the page but one character here, so the model refuses a first name the page accepts.
- Text.Upper: upper-cases ASCII letters only. UTF-16 code units and the other characters JavaScript's `toUpperCase` changes are not modelled.
- Whether the server stores the `{}` customization a bread line sends is not part of the model. Were it stored, the dashboard's cake filter would count that order as a cake order; the model assumes it is not.
- Deleting a product (`handleDelete`), the image picker, logging out, checkout and the route guards of the router are not modelled. Neither are the pages outside the storefront's core.
- The parents that open the three dialogs are not part of this model. The dialogs' events are modelled as the values they hand to their parent.
- The product page does not check the quantity against the stock, and neither does the model.
- Any checks the server makes on stock or prices are not part of this model.

## Findings

| source | as written | input that shows it | evidently intended | confidence | as-written member | corrected member |
|---|---|---|---|---|---|---|
| src/pages/admin/AdminDashboard.jsx:257 | `replace("_", " ")` with a string pattern replaces only the first underscore | tab "ready_for_pickup" gives the heading "ready for_pickup Orders" | every underscore becomes a space: "ready for pickup Orders" | high; not executed | `AdminDashboard.TabHeadingKeepsUnderscore` | `AdminDashboard.TabHeading` |
| src/pages/ProductDetails.jsx:226 | the add button is disabled only for `countInStock === 0`, while its label says "Out of Stock" for every stock of 0 or less | a product with stock -1, which the admin form saves when "-1" is typed into its stock field | disabled whenever the label says "Out of Stock" (stock of 0 or less) | medium; not executed | `ProductDetails.NegativeStockStaysEnabled` | `ProductDetails.AddDisabled` |
| src/components/ProductDetailModal.jsx:100 | the quick-add button is disabled only for `countInStock === 0`, while its caption says "Out of Stock" for every stock of 0 or less | a bread with a negative stock, such as -1: the enabled button reads "Out of Stock" and a press hands the bread to the quick add | disabled whenever the caption says "Out of Stock" | medium; not executed | `ProductDetailModal.NegativeStockQuickAddEnabled` | `ProductDetailModal.QuickAddEnabled` |
