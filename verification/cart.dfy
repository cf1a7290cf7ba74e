/** The cart page: the items the API returns, their total, and the order summary. */
module Cart {
  import opened Common
  import opened Domain

  /** `data.items || []`: a response without items is an empty cart. */
  function CartFromResponse(items: Option<seq<LineItem>>): (cart: seq<LineItem>)
    ensures items.None? ==> cart == []
    ensures items.Some? ==> cart == items.value
  {
    if items.Some? then items.value else []
  }

  /** `calculateTotal`: the left fold `acc + price * quantity` starting from 0. */
  function CalculateTotal(items: seq<LineItem>): int {
    if items == [] then 0 else CalculateTotal(items[..|items| - 1]) + LineAmount(items[|items| - 1])
  }

  /** The total of two lists placed one after the other is the sum of their totals. */
  lemma {:induction false} TotalConcat(s: seq<LineItem>, t: seq<LineItem>)
    ensures CalculateTotal(s + t) == CalculateTotal(s) + CalculateTotal(t)
  {
    if t == [] {
      assert s + t == s;
    } else {
      var t' := t[..|t| - 1];
      assert (s + t)[..|s + t| - 1] == s + t';
      TotalConcat(s, t');
    }
  }

  /** An empty cart totals 0, and appending a line raises the total by exactly that line's amount. */
  lemma TotalAppend(items: seq<LineItem>, item: LineItem)
    ensures CalculateTotal([]) == 0
    ensures CalculateTotal(items + [item]) == CalculateTotal(items) + item.price * item.quantity
  {
    assert (items + [item])[..|items|] == items;
  }

  /** The total is the sum of the amounts taken from the front, the other way round from the fold. */
  lemma {:induction false} TotalFromFront(items: seq<LineItem>)
    requires items != []
    ensures CalculateTotal(items) == LineAmount(items[0]) + CalculateTotal(items[1..])
  {
    TotalConcat([items[0]], items[1..]);
    assert [items[0]] + items[1..] == items;
    assert [items[0]][..0] == [];
  }

  /** Taking one line out of a list lowers its total by that line's amount. */
  lemma TotalRemove(t: seq<LineItem>, k: int)
    requires 0 <= k < |t|
    ensures CalculateTotal(t) == LineAmount(t[k]) + CalculateTotal(t[..k] + t[k + 1..])
  {
    var a, x, c := t[..k], t[k], t[k + 1..];
    calc {
      CalculateTotal(t);
      { assert t == (a + [x]) + c; }
      CalculateTotal((a + [x]) + c);
      { TotalConcat(a + [x], c); }
      CalculateTotal(a + [x]) + CalculateTotal(c);
      { TotalAppend(a, x); }
      CalculateTotal(a) + LineAmount(x) + CalculateTotal(c);
      { TotalConcat(a, c); }
      LineAmount(x) + CalculateTotal(a + c);
    }
  }

  /** Removing the same line from two lists with the same lines leaves two lists with the same lines. */
  lemma MultisetRemove(s: seq<LineItem>, t: seq<LineItem>, k: int)
    requires multiset(s) == multiset(t) && s != [] && 0 <= k < |t| && t[k] == s[0]
    ensures multiset(s[1..]) == multiset(t[..k] + t[k + 1..])
  {
    var x := s[0];
    assert t == t[..k] + [x] + t[k + 1..];
    assert s == [x] + s[1..];
    assert multiset(t) == multiset(t[..k]) + multiset{x} + multiset(t[k + 1..]);
    assert multiset(s) == multiset{x} + multiset(s[1..]);
    calc {
      multiset(s[1..]);
      multiset(s) - multiset{x};
      multiset(t) - multiset{x};
      multiset(t[..k]) + multiset(t[k + 1..]);
    }
  }

  /** The total does not depend on the order of the lines. */
  lemma {:induction false} TotalPermutation(s: seq<LineItem>, t: seq<LineItem>)
    requires multiset(s) == multiset(t)
    ensures CalculateTotal(s) == CalculateTotal(t)
    decreases |s|
  {
    if s == [] {
      assert |t| == |multiset(t)| == 0;
    } else {
      assert s[0] in multiset(t);
      var k :| 0 <= k < |t| && t[k] == s[0];
      MultisetRemove(s, t, k);
      TotalPermutation(s[1..], t[..k] + t[k + 1..]);
      TotalFromFront(s);
      TotalRemove(t, k);
    }
  }

  /** Lines with non-negative prices and quantities never give a negative total. */
  lemma {:induction false} TotalNonNegative(items: seq<LineItem>)
    requires forall i :: 0 <= i < |items| ==> items[i].price >= 0 && items[i].quantity >= 0
    ensures CalculateTotal(items) >= 0
  {
    if items != [] {
      TotalNonNegative(items[..|items| - 1]);
    }
  }

  /** Splitting a line into two lines of the same item whose quantities add up to the original one
      leaves the total unchanged: the total counts units, not lines. */
  lemma SplitLineKeepsTotal(before: seq<LineItem>, item: LineItem, after: seq<LineItem>, q: int)
    ensures CalculateTotal(before + [item] + after)
         == CalculateTotal(before + [item.(quantity := q), item.(quantity := item.quantity - q)] + after)
  {
    var x, y := item.(quantity := q), item.(quantity := item.quantity - q);
    assert LineAmount(item) == LineAmount(x) + LineAmount(y) by {
      assert item.price * item.quantity == item.price * q + item.price * (item.quantity - q);
    }
    TotalConcat(before + [item], after);
    TotalAppend(before, item);
    assert before + [x, y] == (before + [x]) + [y];
    TotalConcat(before + [x, y], after);
    TotalAppend(before + [x], y);
    TotalAppend(before, x);
  }

  /** What the page shows once the cart is loaded. */
  datatype CartSummary = CartSummary(items: seq<LineItem>, subtotal: int, total: int)

  /** Opening the cart: without a token the visitor is sent to sign in and the server's answer is never
      used; otherwise the summary shows the returned lines with subtotal and total both their sum. */
  function OpenCart(session: Session, response: Option<seq<LineItem>>): (r: PageLoad<CartSummary>)
    ensures r == RedirectToAuth <==> !HasToken(session)
    ensures r.Proceed? ==> r.value.items == CartFromResponse(response)
    ensures r.Proceed? ==> r.value.subtotal == r.value.total == CalculateTotal(r.value.items)
  {
    var items := CartFromResponse(response);
    GuardPage(session, CartSummary(items, CalculateTotal(items), CalculateTotal(items)))
  }

  /** Without a token, what the server would have answered makes no difference. */
  lemma NoTokenNoFetch(session: Session, r1: Option<seq<LineItem>>, r2: Option<seq<LineItem>>)
    requires !HasToken(session)
    ensures OpenCart(session, r1) == OpenCart(session, r2) == RedirectToAuth
  {
  }
}
