/**
 * The customer's cart (frontend/src/store/cartStore.ts): the lines, the table, the time of the
 * last change, the mutators that replace them, the totals with SGST and CGST at 2.5% each, and
 * the 15-minute idle expiry. The clock reading is a parameter of each mutator.
 */
module Cart {
  import opened Wrappers
  import opened Collections
  import opened Money
  import opened Models
  import Pricing

  const IDLE_TIMEOUT: int := 15 * MINUTE

  /** A cart line; ids on the client are the server's ids as strings. */
  datatype CartItem = CartItem(
    menuItemId: string,
    name: string,
    price: Paise,
    quantity: int,
    specialInstructions: string,
    imageUrl: Option<string>)

  /** What `addItem` is given: a menu item without quantity and instructions. */
  datatype CartProduct = CartProduct(menuItemId: string, name: string, price: Paise, imageUrl: Option<string>)

  predicate UniqueIds(items: seq<CartItem>) {
    forall i, j :: 0 <= i < j < |items| ==> items[i].menuItemId != items[j].menuItemId
  }

  /** What the store keeps true: one line per item, and every quantity positive. */
  ghost predicate CartValid(items: seq<CartItem>) {
    UniqueIds(items) && forall i :: 0 <= i < |items| ==> items[i].quantity >= 1
  }

  predicate HasLine(items: seq<CartItem>, id: string) {
    exists i :: 0 <= i < |items| && items[i].menuItemId == id
  }

  // ----- Totals -----

  /** `getSubtotal`: the sum of price times quantity. */
  function CartSubtotal(items: seq<CartItem>): Paise {
    if items == [] then 0 else items[0].price * items[0].quantity + CartSubtotal(items[1..])
  }

  /** `getItemCount`: the sum of the quantities. */
  function ItemCount(items: seq<CartItem>): int {
    if items == [] then 0 else items[0].quantity + ItemCount(items[1..])
  }

  lemma {:induction false} SumsAppend(items: seq<CartItem>, x: CartItem)
    ensures CartSubtotal(items + [x]) == CartSubtotal(items) + x.price * x.quantity
    ensures ItemCount(items + [x]) == ItemCount(items) + x.quantity
  {
    if items == [] {
      assert items + [x] == [x];
    } else {
      assert (items + [x])[0] == items[0];
      assert (items + [x])[1..] == items[1..] + [x];
      SumsAppend(items[1..], x);
    }
  }

  /** `getSGST` and `getCGST`: 2.5% of the subtotal each, to the nearest paisa, halves up. */
  function Gst(subtotal: Paise): (g: Paise)
    ensures 2 * 1000 * g - 1000 <= 2 * 25 * subtotal < 2 * 1000 * g + 1000
  {
    Share(subtotal, 25, 1000)
  }

  /** `getTotal`: the subtotal and both halves of GST, a whole number of paise that rounding keeps. */
  function CartTotal(subtotal: Paise): (t: Paise)
    ensures t == subtotal + 2 * Gst(subtotal)
  {
    RoundHalfUpWhole(subtotal + Gst(subtotal) + Gst(subtotal), 1);
    RoundHalfUp((subtotal + Gst(subtotal) + Gst(subtotal)) * 1, 1)
  }

  /** The cart's 5% GST and the server's 5% tax plus 5% service charge are different rules: on Rs 100 the cart shows Rs 105, the server charges Rs 110. */
  lemma TaxRulesDiffer()
    ensures CartTotal(10000) == 10500
    ensures Pricing.Total(10000) == 11000
  {
    RoundHalfUpUnique(10000 * 25, 1000, 250);
    RoundHalfUpUnique(10000 * Pricing.TAX_PERCENT, 100, 500);
  }

  // ----- Line updates -----

  /** Applies `f` to the lines with id `id`, leaving the others and the order as they are. */
  function UpdateLines(items: seq<CartItem>, id: string, f: CartItem -> CartItem): (r: seq<CartItem>)
    ensures |r| == |items|
    ensures forall i :: 0 <= i < |items| ==> r[i] == if items[i].menuItemId == id then f(items[i]) else items[i]
  {
    if items == [] then []
    else [if items[0].menuItemId == id then f(items[0]) else items[0]] + UpdateLines(items[1..], id, f)
  }

  lemma {:induction false} UpdateNoMatch(items: seq<CartItem>, id: string, f: CartItem -> CartItem)
    requires !HasLine(items, id)
    ensures UpdateLines(items, id, f) == items
  {
  }

  /** Changing the one line with id `id` changes the sums by that line's difference. */
  lemma {:induction false} UpdateSums(items: seq<CartItem>, id: string, f: CartItem -> CartItem, k: int)
    requires UniqueIds(items) && 0 <= k < |items| && items[k].menuItemId == id
    ensures ItemCount(UpdateLines(items, id, f)) == ItemCount(items) - items[k].quantity + f(items[k]).quantity
    ensures CartSubtotal(UpdateLines(items, id, f)) ==
      CartSubtotal(items) - items[k].price * items[k].quantity + f(items[k]).price * f(items[k]).quantity
  {
    var r := UpdateLines(items, id, f);
    assert r[1..] == UpdateLines(items[1..], id, f);
    if k == 0 {
      assert !HasLine(items[1..], id) by {
        forall i | 0 <= i < |items[1..]| ensures items[1..][i].menuItemId != id {
          assert items[1..][i] == items[i + 1];
        }
      }
      UpdateNoMatch(items[1..], id, f);
    } else {
      UpdateSums(items[1..], id, f, k - 1);
    }
  }

  function NewLine(p: CartProduct): CartItem {
    CartItem(p.menuItemId, p.name, p.price, 1, "", p.imageUrl)
  }

  function Bump(l: CartItem): CartItem {
    l.(quantity := l.quantity + 1)
  }

  /**
   * `addItem`: a product already in the cart gets one more of its line (which keeps its own
   * name and price); a new one is appended with quantity 1 and no instructions.
   */
  function AddLine(items: seq<CartItem>, p: CartProduct): (r: seq<CartItem>)
    ensures HasLine(items, p.menuItemId) ==> r == UpdateLines(items, p.menuItemId, Bump)
    ensures !HasLine(items, p.menuItemId) ==> r == items + [NewLine(p)]
  {
    if HasLine(items, p.menuItemId) then UpdateLines(items, p.menuItemId, Bump) else items + [NewLine(p)]
  }

  /** Adding keeps the ids unique and the quantities positive, and adds exactly one to the item count. */
  lemma AddLineProperties(items: seq<CartItem>, p: CartProduct)
    requires CartValid(items)
    ensures var r := AddLine(items, p);
      && CartValid(r)
      && ItemCount(r) == ItemCount(items) + 1
      && HasLine(r, p.menuItemId)
  {
    var r := AddLine(items, p);
    if HasLine(items, p.menuItemId) {
      var k :| 0 <= k < |items| && items[k].menuItemId == p.menuItemId;
      UpdateSums(items, p.menuItemId, Bump, k);
      BumpKeepsValid(items, p.menuItemId);
      assert r[k].menuItemId == p.menuItemId;
    } else {
      SumsAppend(items, NewLine(p));
      AppendKeepsValid(items, p);
      assert r[|items|].menuItemId == p.menuItemId;
    }
  }

  lemma BumpKeepsValid(items: seq<CartItem>, id: string)
    requires CartValid(items)
    ensures CartValid(UpdateLines(items, id, Bump))
  {
    var r := UpdateLines(items, id, Bump);
    assert forall i :: 0 <= i < |r| ==> r[i].menuItemId == items[i].menuItemId && r[i].quantity >= items[i].quantity;
  }

  lemma AppendKeepsValid(items: seq<CartItem>, p: CartProduct)
    requires CartValid(items) && !HasLine(items, p.menuItemId)
    ensures CartValid(items + [NewLine(p)])
  {
    var r := items + [NewLine(p)];
    forall i, j | 0 <= i < j < |r| ensures r[i].menuItemId != r[j].menuItemId {
      assert r[i] == items[i];
    }
  }

  /** The test `removeItem` filters by: a line of another item. */
  function KeepOther(id: string): CartItem -> bool {
    (l: CartItem) => l.menuItemId != id
  }

  /** `removeItem` and `updateQuantity` with a non-positive quantity: the lines of that id go, the rest keep their order. */
  function RemoveLines(items: seq<CartItem>, id: string): (r: seq<CartItem>)
    ensures !HasLine(r, id)
    ensures forall l :: l in r <==> l in items && l.menuItemId != id
    ensures IsSubsequence(r, items)
  {
    FilterIsSubsequence(items, KeepOther(id));
    Filter(items, KeepOther(id))
  }

  /** Removing from a cart with unique ids keeps them unique and leaves one line fewer when the id was there. */
  lemma RemoveLinesProperties(items: seq<CartItem>, id: string)
    requires UniqueIds(items)
    ensures UniqueIds(RemoveLines(items, id))
    ensures |RemoveLines(items, id)| == if HasLine(items, id) then |items| - 1 else |items|
  {
    FilterKeepsIds(items, KeepOther(id));
    RemovedCount(items, id);
  }

  /** With unique ids at most one line carries `id`, so the filter drops one line or none. */
  lemma {:induction false} RemovedCount(items: seq<CartItem>, id: string)
    requires UniqueIds(items)
    ensures |Filter(items, KeepOther(id))| == if HasLine(items, id) then |items| - 1 else |items|
  {
    if items != [] {
      var rest := items[1..];
      UniqueTail(items);
      assert [items[0]] + rest == items;
      FilterCons(items[0], rest, KeepOther(id));
      if items[0].menuItemId == id {
        assert forall i :: 0 <= i < |rest| ==> KeepOther(id)(rest[i]) by {
          forall i | 0 <= i < |rest| ensures rest[i].menuItemId != id {
            assert rest[i] == items[i + 1];
          }
        }
        FilterKeepsAll(rest, KeepOther(id));
      } else {
        RemovedCount(rest, id);
        assert HasLine(items, id) ==> HasLine(rest, id) by {
          if HasLine(items, id) {
            var k :| 0 <= k < |items| && items[k].menuItemId == id;
            assert rest[k - 1] == items[k];
          }
        }
        assert HasLine(rest, id) ==> HasLine(items, id) by {
          if HasLine(rest, id) {
            var k :| 0 <= k < |rest| && rest[k].menuItemId == id;
            assert items[k + 1] == rest[k];
          }
        }
      }
    }
  }

  /** Filtering a cart keeps its ids unique. */
  lemma {:induction false} FilterKeepsIds(items: seq<CartItem>, p: CartItem -> bool)
    requires UniqueIds(items)
    ensures UniqueIds(Filter(items, p))
  {
    if items != [] {
      var rest := Filter(items[1..], p);
      UniqueTail(items);
      FilterKeepsIds(items[1..], p);
      assert forall l :: l in rest ==> l.menuItemId != items[0].menuItemId by {
        forall l | l in rest ensures l.menuItemId != items[0].menuItemId {
          var i :| 0 <= i < |items[1..]| && items[1..][i] == l;
          assert items[i + 1] == l;
        }
      }
      if p(items[0]) {
        assert Filter(items, p) == [items[0]] + rest;
        ConsUnique(items[0], rest);
      } else {
        assert Filter(items, p) == rest;
      }
    }
  }

  lemma UniqueTail(items: seq<CartItem>)
    requires UniqueIds(items) && items != []
    ensures UniqueIds(items[1..])
  {
    forall i, j | 0 <= i < j < |items[1..]| ensures items[1..][i].menuItemId != items[1..][j].menuItemId {
      assert items[1..][i] == items[i + 1] && items[1..][j] == items[j + 1];
    }
  }

  lemma ConsUnique(x: CartItem, rest: seq<CartItem>)
    requires UniqueIds(rest) && forall l :: l in rest ==> l.menuItemId != x.menuItemId
    ensures UniqueIds([x] + rest)
  {
    var s := [x] + rest;
    forall i, j | 0 <= i < j < |s| ensures s[i].menuItemId != s[j].menuItemId {
      assert s[j] == rest[j - 1] && rest[j - 1] in rest;
      if i > 0 {
        assert s[i] == rest[i - 1];
      }
    }
  }

  /** `updateQuantity`: a non-positive quantity removes the line; a positive one sets it on the matching line only and never adds a line. */
  function UpdateQuantity(items: seq<CartItem>, id: string, q: int): (r: seq<CartItem>)
    ensures q <= 0 ==> r == RemoveLines(items, id)
    ensures q > 0 ==> |r| == |items| && forall i :: 0 <= i < |items| ==>
      r[i] == if items[i].menuItemId == id then items[i].(quantity := q) else items[i]
    ensures forall l :: l in r ==> HasLine(items, l.menuItemId)
  {
    if q <= 0 then RemoveLines(items, id)
    else
      var r := UpdateLines(items, id, (l: CartItem) => l.(quantity := q));
      assert forall i :: 0 <= i < |r| ==> r[i].menuItemId == items[i].menuItemId;
      r
  }

  /** Setting a quantity keeps the cart valid. */
  lemma UpdateQuantityValid(items: seq<CartItem>, id: string, q: int)
    requires CartValid(items)
    ensures CartValid(UpdateQuantity(items, id, q))
  {
    var r := UpdateQuantity(items, id, q);
    if q <= 0 {
      RemoveLinesProperties(items, id);
      forall i | 0 <= i < |r| ensures r[i].quantity >= 1 {
        assert r[i] in items;
      }
    } else {
      assert forall i :: 0 <= i < |r| ==> r[i].menuItemId == items[i].menuItemId;
    }
  }

  /** Setting instructions keeps the cart valid. */
  lemma UpdateInstructionsValid(items: seq<CartItem>, id: string, text: string)
    requires CartValid(items)
    ensures CartValid(UpdateInstructions(items, id, text))
  {
    var r := UpdateInstructions(items, id, text);
    assert forall i :: 0 <= i < |r| ==> r[i].menuItemId == items[i].menuItemId;
  }

  /** `updateInstructions`: the matching line gets the text, nothing else changes. */
  function UpdateInstructions(items: seq<CartItem>, id: string, text: string): (r: seq<CartItem>)
    ensures |r| == |items|
    ensures forall i :: 0 <= i < |items| ==>
      r[i] == if items[i].menuItemId == id then items[i].(specialInstructions := text) else items[i]
  {
    UpdateLines(items, id, (l: CartItem) => l.(specialInstructions := text))
  }

  /** `isExpired`: false with no recorded activity (null or 0) or an empty cart; otherwise idle for strictly more than 15 minutes. */
  function IsExpired(items: seq<CartItem>, lastActivityAt: Option<Time>, now: Time): bool {
    if lastActivityAt.None? || lastActivityAt.value == 0 || items == [] then false
    else now - lastActivityAt.value > IDLE_TIMEOUT
  }

  /** A cart touched at `t` is not expired up to and including 15 minutes later, and is expired after. */
  lemma ExpiryWindow(items: seq<CartItem>, t: Time, now: Time)
    requires items != [] && t != 0
    ensures IsExpired(items, Some(t), now) <==> now > t + IDLE_TIMEOUT
  {
  }

  /** The persisted cart store. */
  class CartStore {
    var tableId: Option<string>
    var items: seq<CartItem>
    var lastActivityAt: Option<Time>

    /** Ids are unique and every quantity is positive. */
    ghost predicate Valid()
      reads this
    {
      CartValid(items)
    }

    constructor()
      ensures Valid() && tableId == None && items == [] && lastActivityAt == None
    {
      tableId, items, lastActivityAt := None, [], None;
    }

    function Subtotal(): Paise
      reads this
    {
      CartSubtotal(items)
    }

    /** `isExpired` at time `now`. */
    function Expired(now: Time): bool
      reads this
    {
      IsExpired(items, lastActivityAt, now)
    }

    method SetTableId(t: string, now: Time)
      modifies this
      ensures tableId == Some(t) && lastActivityAt == Some(now) && items == old(items)
    {
      tableId, lastActivityAt := Some(t), Some(now);
    }

    method AddItem(p: CartProduct, now: Time)
      requires Valid()
      modifies this
      ensures Valid()
      ensures items == AddLine(old(items), p) && lastActivityAt == Some(now) && tableId == old(tableId)
      ensures ItemCount(items) == ItemCount(old(items)) + 1
    {
      AddLineProperties(items, p);
      items, lastActivityAt := AddLine(items, p), Some(now);
    }

    method RemoveItem(id: string, now: Time)
      requires Valid()
      modifies this
      ensures Valid()
      ensures items == RemoveLines(old(items), id) && lastActivityAt == Some(now) && tableId == old(tableId)
    {
      RemoveLinesProperties(items, id);
      forall i | 0 <= i < |RemoveLines(items, id)| ensures RemoveLines(items, id)[i].quantity >= 1 {
        assert RemoveLines(items, id)[i] in items;
      }
      items, lastActivityAt := RemoveLines(items, id), Some(now);
    }

    method SetQuantity(id: string, q: int, now: Time)
      requires Valid()
      modifies this
      ensures Valid()
      ensures items == UpdateQuantity(old(items), id, q) && lastActivityAt == Some(now) && tableId == old(tableId)
    {
      UpdateQuantityValid(items, id, q);
      items, lastActivityAt := UpdateQuantity(items, id, q), Some(now);
    }

    method SetInstructions(id: string, text: string, now: Time)
      requires Valid()
      modifies this
      ensures Valid()
      ensures items == UpdateInstructions(old(items), id, text) && lastActivityAt == Some(now) && tableId == old(tableId)
    {
      UpdateInstructionsValid(items, id, text);
      items, lastActivityAt := UpdateInstructions(items, id, text), Some(now);
    }

    /** `clearCart`: no lines and no recorded activity; the table stays. */
    method ClearCart()
      modifies this
      ensures items == [] && lastActivityAt == None && tableId == old(tableId)
      ensures Valid()
    {
      items, lastActivityAt := [], None;
    }

    /** `checkExpiry`: true exactly when the cart was expired, and then it has been cleared; otherwise nothing changes. */
    method CheckExpiry(now: Time) returns (expired: bool)
      modifies this
      ensures expired == old(Expired(now))
      ensures expired ==> items == [] && lastActivityAt == None && tableId == old(tableId)
      ensures !expired ==> unchanged(this)
      ensures !Expired(now)
    {
      if Expired(now) {
        ClearCart();
        return true;
      }
      return false;
    }
  }
}
