/** The customer's "My Orders" page: the active and history tabs, the status chip
    (label and colour) and the customization details shown under each line. */
module CustomerOrders {
  import opened Common
  import opened Text
  import opened Domain
  import AdminDashboard

  /** The page once it has loaded: the orders and the selected tab. */
  datatype OrdersPage = OrdersPage(orders: seq<Order>, activeTab: string)

  /** Opening the page: without a token the visitor is sent to sign in and no request is made; otherwise
      the orders the API returned (none when the request failed), on the "active" tab. */
  function OpenOrders(session: Session, response: Option<seq<Order>>): (r: PageLoad<OrdersPage>)
    ensures r == RedirectToAuth <==> !HasToken(session)
    ensures r.Proceed? ==> r.value.activeTab == "active"
    ensures r.Proceed? && response.Some? ==> r.value.orders == response.value
    ensures r.Proceed? && response.None? ==> r.value.orders == []
  {
    GuardPage(session, OrdersPage(if response.Some? then response.value else [], "active"))
  }

  /** Completed, cancelled and rejected orders belong to the history. */
  predicate IsPast(o: Order) {
    Status(o) == Completed || Status(o) == Cancelled || Status(o) == Rejected
  }

  function ShownUnder(tab: string): Order -> bool {
    (o: Order) => if tab == "active" then !IsPast(o) else IsPast(o)
  }

  /** The orders of the selected tab: "active" shows the orders still under way, any other tab the history. */
  function FilteredOrders(orders: seq<Order>, tab: string): (r: seq<Order>)
    ensures IsSubsequence(r, orders)
    ensures forall o :: o in r <==> o in orders && (if tab == "active" then !IsPast(o) else IsPast(o))
  {
    Filter(orders, ShownUnder(tab))
  }

  /** The two tabs split the orders: every order is listed under exactly one of them. */
  lemma TabsPartitionOrders(orders: seq<Order>)
    ensures |FilteredOrders(orders, "active")| + |FilteredOrders(orders, "past")| == |orders|
    ensures multiset(FilteredOrders(orders, "active")) + multiset(FilteredOrders(orders, "past")) == multiset(orders)
  {
    FilterCongruent(orders, ShownUnder("active"), Not(IsPast));
    FilterCongruent(orders, ShownUnder("past"), IsPast);
    FilterPartition(orders, IsPast);
  }

  /** An order reaches the customer's history exactly when the dashboard shows it with a final badge;
      a known status that is still active always leaves the administrator a button to press. */
  lemma HistoryIsFinalBadge(o: Order)
    ensures IsPast(o) <==> AdminDashboard.ShowsFinalBadge(Status(o))
    ensures !IsPast(o) && !Status(o).Unrecognized? ==> AdminDashboard.OfferedActions(Status(o)) != []
  {
    AdminDashboard.ActionsOrBadge(Status(o));
  }

  /** The chip colour for a status text. */
  function StatusColor(status: string): (color: string)
    ensures color == "default" <==> status !in KnownStatusNames
    ensures color == "error" <==> status == "rejected" || status == "cancelled"
  {
    match status
    case "pending" => "warning"
    case "approved" => "info"
    case "in_process" => "secondary"
    case "ready_for_pickup" => "primary"
    case "completed" => "success"
    case "cancelled" => "error"
    case "rejected" => "error"
    case _ => "default"
  }

  /** Colours tell the known statuses apart, except that rejected and cancelled share one. */
  lemma StatusColorsDistinguish(a: string, b: string)
    requires a in KnownStatusNames && b in KnownStatusNames && a != b
    requires {a, b} != {"rejected", "cancelled"}
    ensures StatusColor(a) != StatusColor(b)
  {
  }

  /** The chip label: every underscore shown as a space, then upper-cased. */
  function FormatStatus(status: string): (chip: string)
    ensures |chip| == |status|
    ensures '_' !in chip
    ensures forall i :: 0 <= i < |chip| ==> !IsAsciiLower(chip[i])
    ensures forall i :: 0 <= i < |status| ==> chip[i] == UpperChar(if status[i] == '_' then ' ' else status[i])
  {
    Upper(ReplaceAll(status, '_', ' '))
  }

  /** A label is already in chip form: formatting it again changes nothing. */
  lemma FormatStatusIdempotent(status: string)
    ensures FormatStatus(FormatStatus(status)) == FormatStatus(status)
  {
    var once := FormatStatus(status);
    var twice := FormatStatus(once);
    forall i | 0 <= i < |once|
      ensures twice[i] == once[i]
    {
      assert once[i] != '_';
    }
  }

  /** The tiers line is shown when `tiers` is present, non-empty and not "N/A". */
  predicate ShowsTiers(c: Customization) {
    c.tiers.Some? && c.tiers.value != "" && c.tiers.value != "N/A"
  }

  predicate IsTiersLine(line: string) { |line| >= 7 && line[..7] == "Tiers: " }

  /** A line whose text starts with something other than "T" is not a tiers line. */
  lemma NotTiersLine(prefix: string, value: string)
    requires |prefix| >= 1 && prefix[0] != 'T'
    ensures !IsTiersLine(prefix + value)
  {
    assert (prefix + value)[0] == prefix[0];
  }

  /** `value && <li>…</li>`: an optional text shows its line when it is present and non-empty. */
  predicate Shown(v: Option<string>) { v.Some? && v.value != "" }

  /** The number of lines an optional text contributes. */
  function LineCount(v: Option<string>): nat { if Shown(v) then 1 else 0 }

  /** The detail lines under a customized order line, in display order; each appears only when its value
      is non-empty, and the tiers line, when shown, comes last. */
  function CustomizationDetails(c: Customization): (lines: seq<string>)
    ensures |lines| <= 4
    ensures |lines| == LineCount(c.flavor) + LineCount(c.shape) + LineCount(c.message) + (if ShowsTiers(c) then 1 else 0)
    ensures Shown(c.flavor) ==> lines[0] == "Flavor: " + c.flavor.value
    ensures Shown(c.shape) ==> lines[LineCount(c.flavor)] == "Shape: " + c.shape.value
    ensures Shown(c.message) ==> lines[LineCount(c.flavor) + LineCount(c.shape)] == "Message: \"" + c.message.value + "\""
    ensures ShowsTiers(c) ==> |lines| > 0 && lines[|lines| - 1] == "Tiers: " + c.tiers.value
    ensures (exists l :: l in lines && IsTiersLine(l)) <==> ShowsTiers(c)
  {
    var flavor := if Shown(c.flavor) then ["Flavor: " + c.flavor.value] else [];
    var shape := if Shown(c.shape) then ["Shape: " + c.shape.value] else [];
    var message := if Shown(c.message) then ["Message: \"" + c.message.value + "\""] else [];
    var tiers := if ShowsTiers(c) then ["Tiers: " + c.tiers.value] else [];
    var lines := flavor + shape + message + tiers;
    assert Shown(c.flavor) ==> lines[0] == flavor[0];
    assert Shown(c.shape) ==> lines[|flavor|] == shape[0];
    assert Shown(c.message) ==> lines[|flavor| + |shape|] == message[0];
    assert ShowsTiers(c) ==> lines[|lines| - 1] == tiers[0];
    assert (exists l :: l in lines && IsTiersLine(l)) <==> ShowsTiers(c) by {
      NotTiersLine("Flavor: ", if c.flavor.Some? then c.flavor.value else "");
      NotTiersLine("Shape: ", if c.shape.Some? then c.shape.value else "");
      NotTiersLine("Message: \"", if c.message.Some? then c.message.value + "\"" else "");
      assert c.message.Some? ==> "Message: \"" + c.message.value + "\"" == "Message: \"" + (c.message.value + "\"");
      assert ShowsTiers(c) ==> ("Tiers: " + c.tiers.value)[..7] == "Tiers: ";
      assert forall l :: l in lines ==> l in flavor || l in shape || l in message || l in tiers;
      assert forall l :: l in flavor || l in shape || l in message ==> !IsTiersLine(l);
      assert ShowsTiers(c) ==> lines[|lines| - 1] in lines && IsTiersLine(lines[|lines| - 1]);
    }
    lines
  }
}
