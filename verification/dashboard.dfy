/** The administrator's dashboard: the status tabs with their counts, the order list
    filtered by tab and order type, the actions that move an order along its lifecycle,
    and the statistics view (orders in a time window, revenue, top-10 rankings). */
module AdminDashboard {
  import opened Common
  import opened Text
  import opened Domain

  // ---------------------------------------------------------------------------
  // Status tabs and counts
  // ---------------------------------------------------------------------------

  /** The ids of the six status tabs, in display order. */
  const StatusTabIds := ["pending", "approved", "in_process", "ready_for_pickup", "completed", "rejected"]

  /** `o.orderStatus === text`, as a value for `Filter`. */
  function HasStatusText(text: string): Order -> bool { (o: Order) => o.orderStatus == text }

  /** The badge count for a tab argument: "all" counts every order, "rejected_cancelled"
      counts the rejected and cancelled ones, any other text the orders with exactly that status. */
  function GetCount(orders: seq<Order>, arg: string): (n: nat)
    ensures n <= |orders|
    ensures arg == "all" ==> n == |orders|
  {
    if arg == "all" then |orders|
    else if arg == "rejected_cancelled" then |Filter(orders, IsRejectedOrCancelled)|
    else |Filter(orders, HasStatusText(arg))|
  }

  /** The argument a tab passes to `GetCount`: the "rejected" tab asks for rejected and cancelled. */
  function TabCountArg(tab: string): string {
    if tab == "rejected" then "rejected_cancelled" else tab
  }

  /** The status-tab test of the order list. */
  predicate PassesStatusTab(o: Order, statusTab: string) {
    if statusTab == "rejected" then IsRejectedOrCancelled(o)
    else statusTab == "all" || o.orderStatus == statusTab
  }

  /** The order-type test: "cake" keeps cake orders, "regular" the others, anything else all. */
  predicate PassesTypeFilter(o: Order, typeFilter: string) {
    if typeFilter == "cake" then IsCakeOrder(o)
    else if typeFilter == "regular" then !IsCakeOrder(o)
    else true
  }

  function ManageKeeps(statusTab: string, typeFilter: string): Order -> bool {
    (o: Order) => PassesStatusTab(o, statusTab) && PassesTypeFilter(o, typeFilter)
  }

  /** The orders listed under the selected tab and type filter, in the order the API returned them. */
  function GetManageOrders(orders: seq<Order>, statusTab: string, typeFilter: string): (r: seq<Order>)
    ensures IsSubsequence(r, orders)
    ensures forall o :: o in r <==> o in orders && PassesStatusTab(o, statusTab) && PassesTypeFilter(o, typeFilter)
  {
    Filter(orders, ManageKeeps(statusTab, typeFilter))
  }

  /** The "rejected" tab lists exactly the rejected and the cancelled orders. */
  lemma RejectedTabListsRejectedAndCancelled(orders: seq<Order>)
    ensures GetManageOrders(orders, "rejected", "all") == Filter(orders, IsRejectedOrCancelled)
  {
    FilterCongruent(orders, ManageKeeps("rejected", "all"), IsRejectedOrCancelled);
  }

  /** The number on every tab's badge is the length of the list that tab shows with no type filter. */
  lemma TabCountMatchesList(orders: seq<Order>, tab: string)
    requires tab in StatusTabIds
    ensures GetCount(orders, TabCountArg(tab)) == |GetManageOrders(orders, tab, "all")|
  {
    if tab == "rejected" {
      RejectedTabListsRejectedAndCancelled(orders);
    } else {
      FilterCongruent(orders, ManageKeeps(tab, "all"), HasStatusText(tab));
    }
  }

  /** The cake and the regular lists of a tab split its full list: together they hold each order once. */
  lemma TypeFiltersPartition(orders: seq<Order>, tab: string)
    ensures |GetManageOrders(orders, tab, "cake")| + |GetManageOrders(orders, tab, "regular")|
         == |GetManageOrders(orders, tab, "all")|
    ensures multiset(GetManageOrders(orders, tab, "cake")) + multiset(GetManageOrders(orders, tab, "regular"))
         == multiset(GetManageOrders(orders, tab, "all"))
  {
    var all := GetManageOrders(orders, tab, "all");
    FilterOfFilter(orders, ManageKeeps(tab, "all"), IsCakeOrder);
    FilterCongruent(orders, Both(ManageKeeps(tab, "all"), IsCakeOrder), ManageKeeps(tab, "cake"));
    FilterOfFilter(orders, ManageKeeps(tab, "all"), Not(IsCakeOrder));
    FilterCongruent(orders, Both(ManageKeeps(tab, "all"), Not(IsCakeOrder)), ManageKeeps(tab, "regular"));
    FilterPartition(all, IsCakeOrder);
  }

  /** The list heading as written: a string pattern replaces only the first underscore. */
  function TabHeadingAsWritten(statusTab: string): (r: string)
    ensures |r| == |statusTab| + 7 && r[|statusTab|..] == " Orders"
    ensures forall i :: 0 <= i < |statusTab| ==> r[i] == (if i == IndexOf(statusTab, '_') then ' ' else statusTab[i])
  {
    ReplaceFirst(statusTab, '_', ' ') + " Orders"
  }

  /** The heading of the "ready_for_pickup" tab keeps its second underscore. */
  lemma TabHeadingKeepsUnderscore()
    ensures '_' in TabHeadingAsWritten("ready_for_pickup")
    ensures TabHeadingAsWritten("ready_for_pickup") != TabHeading("ready_for_pickup")
  {
    var s := "ready_for_pickup";
    assert s[5] == '_' && s[9] == '_';
    assert TabHeadingAsWritten(s)[9] == '_';
  }

  /** The heading with every underscore shown as a space, as the customer's order page does. */
  function TabHeading(statusTab: string): (r: string)
    ensures |r| == |statusTab| + 7 && r[|statusTab|..] == " Orders"
    ensures '_' !in r
    ensures forall i :: 0 <= i < |statusTab| ==> r[i] == (if statusTab[i] == '_' then ' ' else statusTab[i])
  {
    ReplaceAllRemoves(statusTab, '_', ' ');
    ReplaceAll(statusTab, '_', ' ') + " Orders"
  }

  /** The tab has an underscore after its first one. */
  predicate HasSecondUnderscore(statusTab: string) {
    var k := IndexOf(statusTab, '_');
    k >= 0 && '_' in statusTab[k + 1..]
  }

  /** The heading as written is the intended one exactly when the tab has no underscore after its
      first: a tab with a second underscore shows it in the heading. */
  lemma HeadingsAgreeIffOneUnderscore(statusTab: string)
    ensures TabHeadingAsWritten(statusTab) == TabHeading(statusTab) <==> !HasSecondUnderscore(statusTab)
    ensures HasSecondUnderscore(statusTab) ==> '_' in TabHeadingAsWritten(statusTab)
  {
    if HasSecondUnderscore(statusTab) {
      SecondUnderscoreShows(statusTab);
    } else {
      OneUnderscoreHeadings(statusTab);
    }
  }

  /** An underscore after the first stays in the heading as written, where the intended one has a space. */
  lemma SecondUnderscoreShows(statusTab: string)
    requires HasSecondUnderscore(statusTab)
    ensures '_' in TabHeadingAsWritten(statusTab) && TabHeadingAsWritten(statusTab) != TabHeading(statusTab)
  {
    var k := IndexOf(statusTab, '_');
    var m :| 0 <= m < |statusTab[k + 1..]| && statusTab[k + 1..][m] == '_';
    var j := k + 1 + m;
    assert statusTab[j] == '_';
    assert TabHeadingAsWritten(statusTab)[j] == '_' && TabHeading(statusTab)[j] == ' ';
  }

  /** With no underscore besides the first, the two headings are the same text. */
  lemma OneUnderscoreHeadings(statusTab: string)
    requires !HasSecondUnderscore(statusTab)
    ensures TabHeadingAsWritten(statusTab) == TabHeading(statusTab)
  {
    var k := IndexOf(statusTab, '_');
    if k >= 0 {
      assert forall i :: k < i < |statusTab| ==> statusTab[i] == statusTab[k + 1..][i - k - 1];
    }
    OneUnderscoreAgrees(statusTab);
  }

  /** With no underscore besides the first, replacing the first underscore replaces them all. */
  lemma OneUnderscoreAgrees(statusTab: string)
    requires forall i :: 0 <= i < |statusTab| && i != IndexOf(statusTab, '_') ==> statusTab[i] != '_'
    ensures ReplaceFirst(statusTab, '_', ' ') == ReplaceAll(statusTab, '_', ' ')
  {
    var first := ReplaceFirst(statusTab, '_', ' ');
    var all := ReplaceAll(statusTab, '_', ' ');
    forall i | 0 <= i < |statusTab|
      ensures first[i] == all[i]
    {
    }
  }

  // ---------------------------------------------------------------------------
  // The order lifecycle offered to the administrator
  // ---------------------------------------------------------------------------

  /** The status-change buttons shown under an order in the given status. */
  function OfferedActions(s: OrderStatus): seq<OrderStatus> {
    match s
    case Pending => [Approved, Rejected]
    case Approved => [InProcess]
    case InProcess => [ReadyForPickup]
    case ReadyForPickup => [Completed]
    case _ => []
  }

  /** Position along pending, approved, in process, ready for pickup, completed; -1 off that path. */
  function Stage(s: OrderStatus): int {
    match s
    case Pending => 0
    case Approved => 1
    case InProcess => 2
    case ReadyForPickup => 3
    case Completed => 4
    case _ => -1
  }

  /** The lifecycle: one step forward along the path, or rejection of a pending order. */
  predicate IsForwardStep(from: OrderStatus, to: OrderStatus) {
    (Stage(from) >= 0 && Stage(to) == Stage(from) + 1) || (from == Pending && to == Rejected)
  }

  /** Completed, rejected and cancelled orders show their status as a badge instead of buttons. */
  predicate ShowsFinalBadge(s: OrderStatus) {
    s == Completed || s == Rejected || s == Cancelled
  }

  /** The buttons offer exactly the forward steps of the lifecycle. */
  lemma OfferedActionsAreForwardSteps(s: OrderStatus, t: OrderStatus)
    ensures t in OfferedActions(s) <==> IsForwardStep(s, t)
  {
  }

  /** An order shows buttons or a final badge, never both; an unrecognized status shows neither. */
  lemma ActionsOrBadge(s: OrderStatus)
    ensures ShowsFinalBadge(s) ==> OfferedActions(s) == []
    ensures OfferedActions(s) != [] <==> !ShowsFinalBadge(s) && !s.Unrecognized?
  {
  }

  const AskPrefix := "Are you sure you want to "
  const AskSuffix := " this order?"

  /** The question asked before a change: "reject" for a rejection, "mark as <status>" otherwise. */
  function ConfirmQuestion(status: string): (q: string)
    ensures |q| >= |AskPrefix| + |AskSuffix| && q[..|AskPrefix|] == AskPrefix && q[|q| - |AskSuffix|..] == AskSuffix
    ensures status == "rejected" <==> q[|AskPrefix|..|q| - |AskSuffix|] == "reject"
    ensures status != "rejected" ==> q[|AskPrefix|..|q| - |AskSuffix|] == "mark as " + status
  {
    var action := if status == "rejected" then "reject" else "mark as " + status;
    var q := AskPrefix + action + AskSuffix;
    assert q[..|AskPrefix|] == AskPrefix && q[|q| - |AskSuffix|..] == AskSuffix;
    assert q[|AskPrefix|..|q| - |AskSuffix|] == action;
    q
  }

  /** The status a question asks about, read back from its wording. */
  function AskedStatus(q: string): string {
    if |q| < |AskPrefix| + |AskSuffix| then ""
    else
      var action := q[|AskPrefix|..|q| - |AskSuffix|];
      if action == "reject" then "rejected" else if |action| >= 8 then action[8..] else ""
  }

  /** The question names its status unambiguously: the status can be read back from it, so different
      statuses are asked about in different words. */
  lemma ConfirmQuestionNamesStatus(status: string)
    ensures AskedStatus(ConfirmQuestion(status)) == status
  {
    var q := ConfirmQuestion(status);
    if status != "rejected" {
      assert ("mark as " + status)[8..] == status;
    }
  }

  /** The body of `PUT /orders/:id/status`. */
  datatype StatusUpdate = StatusUpdate(orderId: string, status: string)

  /** What pressing a status button does: the question put to the administrator, and the request sent
      when they confirm. */
  datatype StatusChange = StatusChange(question: string, request: Option<StatusUpdate>)

  /** Pressing the button for `target` on order `o`: the question names the target, and once the
      administrator confirms, that order is moved to exactly that status, one allowed step forward. */
  function UpdateStatus(o: Order, target: OrderStatus, confirmed: bool): (r: StatusChange)
    requires target in OfferedActions(Status(o))
    ensures r.question == ConfirmQuestion(StatusName(target))
    ensures r.request.Some? <==> confirmed
    ensures r.request.Some? ==> r.request.value.orderId == o.id && r.request.value.status == StatusName(target)
    ensures r.request.Some? ==> IsForwardStep(Status(o), ParseStatus(r.request.value.status))
  {
    var status := StatusName(target);
    StatusChange(ConfirmQuestion(status), if !confirmed then None else Some(StatusUpdate(o.id, status)))
  }

  // ---------------------------------------------------------------------------
  // Statistics
  // ---------------------------------------------------------------------------

  /** The time filter: same calendar day, same month of the same year, same year, or no filter. */
  predicate InWindow(d: Date, now: Date, period: string) {
    if period == "day" then d == now
    else if period == "month" then d.month == now.month && d.year == now.year
    else if period == "year" then d.year == now.year
    else true
  }

  function InWindowOf(now: Date, period: string): Order -> bool { (o: Order) => InWindow(o.createdAt, now, period) }

  function Window(orders: seq<Order>, now: Date, period: string): seq<Order> {
    Filter(orders, InWindowOf(now, period))
  }

  /** The windows nest: today's orders are among this month's, which are among this year's;
      a period the buttons do not offer applies no filter. */
  lemma WindowsNest(orders: seq<Order>, now: Date, period: string)
    ensures IsSubsequence(Window(orders, now, "day"), Window(orders, now, "month"))
    ensures IsSubsequence(Window(orders, now, "month"), Window(orders, now, "year"))
    ensures period !in {"day", "month", "year"} ==> Window(orders, now, period) == orders
  {
    FilterMonotone(orders, InWindowOf(now, "day"), InWindowOf(now, "month"));
    FilterMonotone(orders, InWindowOf(now, "month"), InWindowOf(now, "year"));
    if period !in {"day", "month", "year"} {
      FilterKeepsAll(orders, InWindowOf(now, period));
    }
  }

  /** The completed orders of the window. */
  function CompletedIn(orders: seq<Order>, now: Date, period: string): seq<Order> {
    Filter(Window(orders, now, period), IsCompleted)
  }

  /** `reduce((acc, o) => acc + o.totalPrice, 0)`. */
  function Revenue(orders: seq<Order>): int {
    if orders == [] then 0 else Revenue(orders[..|orders| - 1]) + orders[|orders| - 1].totalPrice
  }

  lemma {:induction false} RevenueConcat(s: seq<Order>, t: seq<Order>)
    ensures Revenue(s + t) == Revenue(s) + Revenue(t)
  {
    if t == [] {
      assert s + t == s;
    } else {
      var t' := t[..|t| - 1];
      assert (s + t)[..|s + t| - 1] == s + t';
      RevenueConcat(s, t');
    }
  }

  /** An order added to the window raises the revenue by its total when it is completed, and not at all otherwise. */
  lemma RevenueCountsOnlyCompleted(window: seq<Order>, o: Order)
    ensures Revenue(Filter(window + [o], IsCompleted))
         == Revenue(Filter(window, IsCompleted)) + (if IsCompleted(o) then o.totalPrice else 0)
  {
    FilterConcat(window, [o], IsCompleted);
    RevenueConcat(Filter(window, IsCompleted), Filter([o], IsCompleted));
    assert [o][1..] == [];
    if IsCompleted(o) {
      assert Filter([o], IsCompleted) == [o];
    } else {
      assert Filter([o], IsCompleted) == [];
    }
  }

  // Rankings: units sold per key, per ranking ------------------------------------

  /** One entry of a ranking map: a name and the units counted for it. */
  datatype Tally = Tally(name: string, count: int)

  /** A line enters the cake ranking (`cake`) or the other ranking (`!cake`) only when its product is populated. */
  predicate InRanking(item: LineItem, cake: bool) {
    item.product.Some? && IsCakeProduct(item.product.value) == cake
  }

  /** The key a line is counted under: a cake's sub-category, or "Custom Cake" when it has none;
      any other product's line name. */
  function RankKey(item: LineItem): string
    requires item.product.Some?
  {
    var p := item.product.value;
    if IsCakeProduct(p) then
      if p.subCategory.Some? && p.subCategory.value != "" then p.subCategory.value else "Custom Cake"
    else item.name
  }

  predicate Mentions(item: LineItem, cake: bool, key: string) {
    InRanking(item, cake) && RankKey(item) == key
  }

  function LineUnits(item: LineItem, cake: bool, key: string): int {
    if Mentions(item, cake, key) then item.quantity else 0
  }

  /** Units of `key` in a list of lines. */
  function LinesUnits(items: seq<LineItem>, cake: bool, key: string): int {
    if items == [] then 0 else LinesUnits(items[..|items| - 1], cake, key) + LineUnits(items[|items| - 1], cake, key)
  }

  predicate LinesMention(items: seq<LineItem>, cake: bool, key: string) {
    items != [] && (LinesMention(items[..|items| - 1], cake, key) || Mentions(items[|items| - 1], cake, key))
  }

  /** Total units of `key` over the lines of the given orders: the reference for the ranking maps. */
  function UnitsSold(orders: seq<Order>, cake: bool, key: string): int {
    if orders == [] then 0 else UnitsSold(orders[..|orders| - 1], cake, key) + LinesUnits(orders[|orders| - 1].items, cake, key)
  }

  /** Some line of the given orders is counted under `key`. */
  predicate Sold(orders: seq<Order>, cake: bool, key: string) {
    orders != [] && (Sold(orders[..|orders| - 1], cake, key) || LinesMention(orders[|orders| - 1].items, cake, key))
  }

  // Ranking maps: association lists in first-seen key order ----------------------

  predicate HasKey(m: seq<Tally>, key: string) {
    m != [] && (m[0].name == key || HasKey(m[1..], key))
  }

  /** `m[key] || 0` */
  function Lookup(m: seq<Tally>, key: string): int {
    if m == [] then 0 else if m[0].name == key then m[0].count else Lookup(m[1..], key)
  }

  predicate DistinctNames(m: seq<Tally>) {
    m == [] || (!HasKey(m[1..], m[0].name) && DistinctNames(m[1..]))
  }

  /** `m[key] = (m[key] || 0) + q`: the key's count grows by `q`, a new key goes last, nothing else changes. */
  function Bump(m: seq<Tally>, key: string, q: int): (r: seq<Tally>)
    ensures forall k :: Lookup(r, k) == Lookup(m, k) + (if k == key then q else 0)
    ensures forall k :: HasKey(r, k) <==> HasKey(m, k) || k == key
    ensures DistinctNames(m) ==> DistinctNames(r)
    ensures |r| == if HasKey(m, key) then |m| else |m| + 1
    ensures forall i :: 0 <= i < |m| ==> r[i].name == m[i].name
  {
    if m == [] then [Tally(key, q)]
    else if m[0].name == key then [Tally(key, m[0].count + q)] + m[1..]
    else [m[0]] + Bump(m[1..], key, q)
  }

  lemma {:induction false} MemberHasKey(m: seq<Tally>, t: Tally)
    ensures t in m ==> HasKey(m, t.name)
  {
    if t in m && m[0] != t {
      MemberHasKey(m[1..], t);
    }
  }

  /** In a map with distinct names, every entry holds the count looked up for its name. */
  lemma {:induction false} LookupOfMember(m: seq<Tally>, t: Tally)
    requires DistinctNames(m) && t in m
    ensures Lookup(m, t.name) == t.count
  {
    if m[0] != t {
      LookupOfMember(m[1..], t);
      if m[0].name == t.name {
        MemberHasKey(m[1..], t);
      }
    }
  }

  /** A key the map has belongs to an entry holding its looked-up count. */
  lemma {:induction false} EntryOfKey(m: seq<Tally>, key: string) returns (t: Tally)
    requires HasKey(m, key)
    ensures t in m && t.name == key && t.count == Lookup(m, key)
  {
    if m[0].name == key {
      t := m[0];
    } else {
      t := EntryOfKey(m[1..], key);
    }
  }

  /** Taking one more line adds that line's units and mentions. */
  lemma NextLine(items: seq<LineItem>, j: int, cake: bool)
    requires 0 <= j < |items|
    ensures forall k :: LinesUnits(items[..j + 1], cake, k) == LinesUnits(items[..j], cake, k) + LineUnits(items[j], cake, k)
    ensures forall k :: LinesMention(items[..j + 1], cake, k) <==> LinesMention(items[..j], cake, k) || Mentions(items[j], cake, k)
  {
    assert items[..j + 1][..j] == items[..j];
  }

  /** Taking one more order adds the units and mentions of its lines. */
  lemma NextOrder(completed: seq<Order>, i: int, cake: bool)
    requires 0 <= i < |completed|
    ensures forall k :: UnitsSold(completed[..i + 1], cake, k) == UnitsSold(completed[..i], cake, k) + LinesUnits(completed[i].items, cake, k)
    ensures forall k :: Sold(completed[..i + 1], cake, k) <==> Sold(completed[..i], cake, k) || LinesMention(completed[i].items, cake, k)
  {
    assert completed[..i + 1][..i] == completed[..i];
  }

  /** One line of the inner loop: the map of one kind after the line keeps tallying the lines so far. */
  lemma TallyStep(m: seq<Tally>, m': seq<Tally>, m0: seq<Tally>, items: seq<LineItem>, j: int, cake: bool)
    requires 0 <= j < |items|
    requires DistinctNames(m)
    requires forall k :: Lookup(m, k) == Lookup(m0, k) + LinesUnits(items[..j], cake, k)
    requires forall k :: HasKey(m, k) <==> HasKey(m0, k) || LinesMention(items[..j], cake, k)
    requires m' == if InRanking(items[j], cake) then Bump(m, RankKey(items[j]), items[j].quantity) else m
    ensures DistinctNames(m')
    ensures forall k :: Lookup(m', k) == Lookup(m0, k) + LinesUnits(items[..j + 1], cake, k)
    ensures forall k :: HasKey(m', k) <==> HasKey(m0, k) || LinesMention(items[..j + 1], cake, k)
  {
    NextLine(items, j, cake);
  }

  /** The inner `forEach` over the lines of one order: a line with a product adds its quantity under
      its key, in the cake map for a cake and in the other map for anything else. */
  method TallyLines(items: seq<LineItem>, bread0: seq<Tally>, cake0: seq<Tally>) returns (breadMap: seq<Tally>, cakeMap: seq<Tally>)
    requires DistinctNames(bread0) && DistinctNames(cake0)
    ensures DistinctNames(breadMap) && DistinctNames(cakeMap)
    ensures forall k :: Lookup(breadMap, k) == Lookup(bread0, k) + LinesUnits(items, false, k)
    ensures forall k :: Lookup(cakeMap, k) == Lookup(cake0, k) + LinesUnits(items, true, k)
    ensures forall k :: HasKey(breadMap, k) <==> HasKey(bread0, k) || LinesMention(items, false, k)
    ensures forall k :: HasKey(cakeMap, k) <==> HasKey(cake0, k) || LinesMention(items, true, k)
  {
    breadMap, cakeMap := bread0, cake0;
    var j := 0;
    while j < |items|
      invariant 0 <= j <= |items|
      invariant DistinctNames(breadMap) && DistinctNames(cakeMap)
      invariant forall k :: Lookup(breadMap, k) == Lookup(bread0, k) + LinesUnits(items[..j], false, k)
      invariant forall k :: Lookup(cakeMap, k) == Lookup(cake0, k) + LinesUnits(items[..j], true, k)
      invariant forall k :: HasKey(breadMap, k) <==> HasKey(bread0, k) || LinesMention(items[..j], false, k)
      invariant forall k :: HasKey(cakeMap, k) <==> HasKey(cake0, k) || LinesMention(items[..j], true, k)
    {
      var item := items[j];
      ghost var bread, cake := breadMap, cakeMap;
      if item.product.Some? {
        if item.product.value.category == "cake" {
          cakeMap := Bump(cakeMap, RankKey(item), item.quantity);
        } else {
          breadMap := Bump(breadMap, RankKey(item), item.quantity);
        }
      }
      TallyStep(bread, breadMap, bread0, items, j, false);
      TallyStep(cake, cakeMap, cake0, items, j, true);
      j := j + 1;
    }
    assert items[..j] == items;
  }

  /** The two nested `forEach` loops that fill `breadMap` and `cakeMap` from the completed orders. */
  method TallyUnits(completed: seq<Order>) returns (breadMap: seq<Tally>, cakeMap: seq<Tally>)
    ensures DistinctNames(breadMap) && DistinctNames(cakeMap)
    ensures forall k :: Lookup(breadMap, k) == UnitsSold(completed, false, k)
    ensures forall k :: Lookup(cakeMap, k) == UnitsSold(completed, true, k)
    ensures forall k :: HasKey(breadMap, k) <==> Sold(completed, false, k)
    ensures forall k :: HasKey(cakeMap, k) <==> Sold(completed, true, k)
  {
    breadMap, cakeMap := [], [];
    var i := 0;
    while i < |completed|
      invariant 0 <= i <= |completed|
      invariant DistinctNames(breadMap) && DistinctNames(cakeMap)
      invariant forall k :: Lookup(breadMap, k) == UnitsSold(completed[..i], false, k)
      invariant forall k :: Lookup(cakeMap, k) == UnitsSold(completed[..i], true, k)
      invariant forall k :: HasKey(breadMap, k) <==> Sold(completed[..i], false, k)
      invariant forall k :: HasKey(cakeMap, k) <==> Sold(completed[..i], true, k)
    {
      breadMap, cakeMap := TallyLines(completed[i].items, breadMap, cakeMap);
      NextOrder(completed, i, false);
      NextOrder(completed, i, true);
      i := i + 1;
    }
    assert completed[..i] == completed;
  }

  // Sorting and the top ten -------------------------------------------------------

  /** `a` may precede `b`: more units first when ranking the best sellers, fewer first otherwise. */
  predicate Before(a: Tally, b: Tally, highest: bool) {
    if highest then a.count >= b.count else a.count <= b.count
  }

  ghost predicate SortedBy(s: seq<Tally>, highest: bool) {
    forall i, j :: 0 <= i < j < |s| ==> Before(s[i], s[j], highest)
  }

  lemma PrependSorted(a: Tally, s: seq<Tally>, highest: bool)
    requires SortedBy(s, highest)
    requires forall x :: x in s ==> Before(a, x, highest)
    ensures SortedBy([a] + s, highest)
  {
    var r := [a] + s;
    forall i, j | 0 <= i < j < |r|
      ensures Before(r[i], r[j], highest)
    {
      if i == 0 {
        assert r[j] == s[j - 1];
      } else {
        assert r[i] == s[i - 1] && r[j] == s[j - 1];
      }
    }
  }

  /** Inserts `t` before the first entry it may precede. */
  function InsertTally(t: Tally, s: seq<Tally>, highest: bool): (r: seq<Tally>)
    ensures multiset(r) == multiset(s) + multiset{t}
  {
    if s == [] || Before(t, s[0], highest) then [t] + s
    else
      assert s == [s[0]] + s[1..];
      [s[0]] + InsertTally(t, s[1..], highest)
  }

  /** Inserting into a sorted list keeps it sorted. */
  lemma {:induction false} InsertTallySorted(t: Tally, s: seq<Tally>, highest: bool)
    requires SortedBy(s, highest)
    ensures SortedBy(InsertTally(t, s, highest), highest)
  {
    if s == [] || Before(t, s[0], highest) {
      forall x | x in s
        ensures Before(t, x, highest)
      {
        var j :| 0 <= j < |s| && s[j] == x;
        assert j == 0 || Before(s[0], s[j], highest);
      }
      PrependSorted(t, s, highest);
    } else {
      var rest := InsertTally(t, s[1..], highest);
      InsertTallySorted(t, s[1..], highest);
      forall x | x in rest
        ensures Before(s[0], x, highest)
      {
        assert x in multiset(rest);
        if x != t {
          assert x in multiset(s[1..]);
          var j :| 0 <= j < |s[1..]| && s[1..][j] == x;
          assert s[j + 1] == x;
        }
      }
      PrependSorted(s[0], rest, highest);
    }
  }

  /** The `sort` of the ranking entries by count. */
  function SortTallies(s: seq<Tally>, highest: bool): (r: seq<Tally>)
    ensures SortedBy(r, highest)
    ensures multiset(r) == multiset(s)
  {
    if s == [] then []
    else
      assert s == [s[0]] + s[1..];
      InsertTallySorted(s[0], SortTallies(s[1..], highest), highest);
      InsertTally(s[0], SortTallies(s[1..], highest), highest)
  }

  /** In a sorted list, every entry of a prefix ranks no worse than every entry after it. */
  lemma PrefixRanksFirst(s: seq<Tally>, k: nat, highest: bool)
    requires SortedBy(s, highest) && k <= |s|
    ensures forall t :: t in s && t !in s[..k] ==> forall u :: u in s[..k] ==> Before(u, t, highest)
  {
    forall t, u | t in s && t !in s[..k] && u in s[..k]
      ensures Before(u, t, highest)
    {
      var j :| 0 <= j < |s| && s[j] == t;
      var i :| 0 <= i < k && s[..k][i] == u;
      assert s[i] == u;
    }
  }

  /** A prefix's entries are among the list's. */
  lemma PrefixMultiset(s: seq<Tally>, k: nat)
    requires k <= |s|
    ensures multiset(s[..k]) <= multiset(s)
    ensures k == |s| ==> s[..k] == s
  {
    assert s == s[..k] + s[k..];
    assert multiset(s) == multiset(s[..k]) + multiset(s[k..]);
  }

  /** `sortRank`: the entries sorted by count, of which the first ten are kept. Every entry left out
      ranks no better than every entry kept. */
  function SortRank(m: seq<Tally>, highest: bool): (r: seq<Tally>)
    ensures |r| == Min(10, |m|)
    ensures SortedBy(r, highest)
    ensures multiset(r) <= multiset(m)
    ensures |m| <= 10 ==> multiset(r) == multiset(m)
    ensures forall t :: t in m && t !in r ==> |r| == 10 && forall u :: u in r ==> Before(u, t, highest)
  {
    var s := SortTallies(m, highest);
    var k := Min(10, |s|);
    assert |s| == |multiset(s)| == |multiset(m)| == |m|;
    assert forall t :: t in m ==> t in multiset(s);
    PrefixRanksFirst(s, k, highest);
    PrefixMultiset(s, k);
    s[..k]
  }

  /** What a ranking must be: at most ten entries, sorted, each holding the units actually sold under
      its name, and any sold name it lacks was crowded out by ten entries that rank no worse. */
  ghost predicate IsRanking(rank: seq<Tally>, completed: seq<Order>, cake: bool, highest: bool) {
    && |rank| <= 10
    && DistinctNames(rank)
    && SortedBy(rank, highest)
    && (forall t :: t in rank ==> Sold(completed, cake, t.name) && t.count == UnitsSold(completed, cake, t.name))
    && (forall k :: Sold(completed, cake, k) && !HasKey(rank, k) ==>
          |rank| == 10 && forall u :: u in rank ==> Before(u, Tally(k, UnitsSold(completed, cake, k)), highest))
  }

  /** A list of distinct names holds each entry at most once. */
  lemma {:induction false} DistinctCountsOnce(m: seq<Tally>, t: Tally)
    requires DistinctNames(m)
    ensures multiset(m)[t] <= 1
  {
    if m != [] {
      assert m == [m[0]] + m[1..];
      DistinctCountsOnce(m[1..], t);
      if m[0] == t {
        MemberHasKey(m[1..], t);
        assert t !in m[1..];
      }
    }
  }

  /** In a list of distinct names, an entry is determined by its name. */
  lemma NamesDetermine(m: seq<Tally>, a: Tally, b: Tally)
    requires DistinctNames(m) && a in m && b in m && a.name == b.name
    ensures a == b
  {
    LookupOfMember(m, a);
    LookupOfMember(m, b);
  }

  /** When a later entry of `r` shares the first entry's name, a list `r` is drawn from holds that
      entry twice. */
  lemma NameRepeated(r: seq<Tally>, m: seq<Tally>)
    requires DistinctNames(m) && multiset(r) <= multiset(m) && r != []
    ensures HasKey(r[1..], r[0].name) ==> multiset(m)[r[0]] >= 2
  {
    if HasKey(r[1..], r[0].name) {
      var t := EntryOfKey(r[1..], r[0].name);
      assert r == [r[0]] + r[1..];
      assert t in multiset(r) && r[0] in multiset(r);
      NamesDetermine(m, t, r[0]);
      assert multiset(r)[r[0]] >= 2;
    }
  }

  /** Entries drawn from a list of distinct names have distinct names. */
  lemma {:induction false} SubMultisetDistinct(r: seq<Tally>, m: seq<Tally>)
    requires DistinctNames(m) && multiset(r) <= multiset(m)
    ensures DistinctNames(r)
    decreases |r|
  {
    if r != [] {
      assert r == [r[0]] + r[1..];
      assert multiset(r[1..]) <= multiset(r);
      SubMultisetDistinct(r[1..], m);
      NameRepeated(r, m);
      DistinctCountsOnce(m, r[0]);
    }
  }

  /** Ranking a map that tallies the units sold gives a ranking of those sales. */
  lemma SortRankIsRanking(m: seq<Tally>, completed: seq<Order>, cake: bool, highest: bool)
    requires DistinctNames(m)
    requires forall k :: Lookup(m, k) == UnitsSold(completed, cake, k)
    requires forall k :: HasKey(m, k) <==> Sold(completed, cake, k)
    ensures IsRanking(SortRank(m, highest), completed, cake, highest)
  {
    var r := SortRank(m, highest);
    SubMultisetDistinct(r, m);
    forall t | t in r
      ensures Sold(completed, cake, t.name) && t.count == UnitsSold(completed, cake, t.name)
    {
      assert t in multiset(r);
      MemberHasKey(m, t);
      LookupOfMember(m, t);
    }
    forall k | Sold(completed, cake, k) && !HasKey(r, k)
      ensures |r| == 10 && forall u :: u in r ==> Before(u, Tally(k, UnitsSold(completed, cake, k)), highest)
    {
      var t := EntryOfKey(m, k);
      MemberHasKey(r, t);
    }
  }

  /** The figures of the statistics view. */
  datatype Stats = Stats(total: nat, completed: nat, rejected: nat, revenue: int,
                         breadRank: seq<Tally>, cakeRank: seq<Tally>)

  /** `getStats` for the clock reading `now`: counts and revenue of the window, and the two rankings
      of units sold in its completed orders ("highest" ranks best sellers first, anything else least). */
  method GetStats(orders: seq<Order>, now: Date, period: string, rankSort: string) returns (stats: Stats)
    ensures stats.total == |Window(orders, now, period)|
    ensures stats.completed == |CompletedIn(orders, now, period)|
    ensures stats.rejected == |Filter(Window(orders, now, period), IsRejectedOrCancelled)|
    ensures stats.completed + stats.rejected <= stats.total
    ensures stats.revenue == Revenue(CompletedIn(orders, now, period))
    ensures IsRanking(stats.breadRank, CompletedIn(orders, now, period), false, rankSort == "highest")
    ensures IsRanking(stats.cakeRank, CompletedIn(orders, now, period), true, rankSort == "highest")
  {
    var filteredByTime := Window(orders, now, period);
    var completed := Filter(filteredByTime, IsCompleted);
    var breadMap, cakeMap := TallyUnits(completed);
    var highest := rankSort == "highest";
    SortRankIsRanking(breadMap, completed, false, highest);
    SortRankIsRanking(cakeMap, completed, true, highest);
    DisjointFiltersFit(filteredByTime, IsCompleted, IsRejectedOrCancelled);
    stats := Stats(|filteredByTime|, |completed|, |Filter(filteredByTime, IsRejectedOrCancelled)|,
                   Revenue(completed), SortRank(breadMap, highest), SortRank(cakeMap, highest));
  }
}
