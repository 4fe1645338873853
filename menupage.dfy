/**
 * The customer's menu page (frontend/src/pages/Menu.tsx): the category and search filter, the
 * quantity shown for each item, and the minus and plus buttons that delegate to the cart.
 */
module MenuPage {
  import opened Strings
  import opened Collections
  import opened Money
  import opened Cart

  /** A menu item as the client receives it. */
  datatype ClientMenuItem = ClientMenuItem(
    id: string, name: string, description: string, category: string, price: Paise, imageUrl: string, tags: seq<string>)

  /** The filter test: the selected category (or 'All'), and the search text in the lower-cased name. */
  predicate Matches(i: ClientMenuItem, category: string, search: string) {
    (category == "All" || i.category == category) && (search == "" || Contains(ToLower(i.name), ToLower(search)))
  }

  function MatchesFn(category: string, search: string): ClientMenuItem -> bool {
    (i: ClientMenuItem) => Matches(i, category, search)
  }

  /** `filteredItems`: exactly the matching items, in menu order. */
  function FilteredItems(items: seq<ClientMenuItem>, category: string, search: string): (r: seq<ClientMenuItem>)
    ensures forall i :: i in r <==> i in items && Matches(i, category, search)
    ensures IsSubsequence(r, items)
  {
    FilterIsSubsequence(items, MatchesFn(category, search));
    Filter(items, MatchesFn(category, search))
  }

  /** With 'All' and no search text the whole menu is shown. */
  lemma ShowAll(items: seq<ClientMenuItem>)
    ensures FilteredItems(items, "All", "") == items
  {
    FilterKeepsAll(items, MatchesFn("All", ""));
  }

  /** Only the name is searched: the description and tags have no say. */
  lemma SearchesNameOnly(i: ClientMenuItem, description: string, tags: seq<string>, category: string, search: string)
    ensures Matches(i.(description := description, tags := tags), category, search) == Matches(i, category, search)
  {
  }

  /** The search ignores case on both sides. */
  lemma SearchIgnoresCase(i: ClientMenuItem, category: string, search: string)
    ensures Matches(i, category, search) ==> Matches(i, category, ToLower(search))
  {
    if search != "" && Matches(i, category, search) {
      ToLowerIdempotent(search);
      assert ToLower(search) != "";
    }
  }

  /** The category bar: 'All' and then the server's categories. */
  function CategoryBar(categories: seq<string>): (r: seq<string>)
    ensures |r| == |categories| + 1 && r[0] == "All"
    ensures forall c :: c in r <==> c == "All" || c in categories
  {
    ["All"] + categories
  }

  // ----- Quantities -----

  /** The position of the first cart line for `id`, or -1. */
  function FirstLine(cart: seq<CartItem>, id: string): (k: int)
    ensures -1 <= k < |cart|
    ensures k >= 0 ==> cart[k].menuItemId == id && forall j :: 0 <= j < k ==> cart[j].menuItemId != id
    ensures k == -1 <==> !HasLine(cart, id)
  {
    if cart == [] then -1
    else if cart[0].menuItemId == id then 0
    else
      var k := FirstLine(cart[1..], id);
      if k == -1 then
        assert forall j :: 1 <= j < |cart| ==> cart[j] == cart[1..][j - 1];
        -1
      else k + 1
  }

  /** `getQty`: the quantity of the item's cart line, or 0. */
  function GetQty(cart: seq<CartItem>, id: string): int {
    var k := FirstLine(cart, id);
    if k < 0 then 0 else cart[k].quantity
  }

  /** In a valid cart the "Add" button (quantity 0) shows exactly when the item has no line. */
  lemma AddShownIffAbsent(cart: seq<CartItem>, id: string)
    requires CartValid(cart)
    ensures GetQty(cart, id) == 0 <==> !HasLine(cart, id)
    ensures HasLine(cart, id) ==> GetQty(cart, id) >= 1
  {
  }

  /** Two carts with the same ids position by position find the same first line. */
  lemma {:induction false} FirstLineSameIds(a: seq<CartItem>, b: seq<CartItem>, id: string)
    requires |a| == |b| && forall i :: 0 <= i < |a| ==> a[i].menuItemId == b[i].menuItemId
    ensures FirstLine(a, id) == FirstLine(b, id)
  {
    if a != [] && a[0].menuItemId != id {
      FirstLineSameIds(a[1..], b[1..], id);
    }
  }

  /** The minus button. */
  function Minus(cart: seq<CartItem>, id: string): seq<CartItem> {
    UpdateQuantity(cart, id, GetQty(cart, id) - 1)
  }

  /** The plus button. */
  function Plus(cart: seq<CartItem>, id: string): seq<CartItem> {
    UpdateQuantity(cart, id, GetQty(cart, id) + 1)
  }

  /** Minus at quantity 1 removes the line, and the item shows "Add" again. */
  lemma MinusAtOneRemoves(cart: seq<CartItem>, id: string)
    requires CartValid(cart) && GetQty(cart, id) == 1
    ensures !HasLine(Minus(cart, id), id)
    ensures GetQty(Minus(cart, id), id) == 0
  {
  }

  /** Above 1, minus and plus move the shown quantity by one and keep the line. */
  lemma StepsByOne(cart: seq<CartItem>, id: string)
    requires CartValid(cart) && HasLine(cart, id)
    ensures GetQty(Plus(cart, id), id) == GetQty(cart, id) + 1
    ensures GetQty(cart, id) > 1 ==> GetQty(Minus(cart, id), id) == GetQty(cart, id) - 1
  {
    var q := GetQty(cart, id);
    FirstLineSameIds(cart, Plus(cart, id), id);
    if q > 1 {
      FirstLineSameIds(cart, Minus(cart, id), id);
    }
  }
}
