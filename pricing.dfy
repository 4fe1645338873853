/**
 * Server-side pricing of an order (backend/src/routes/orders.ts): the subtotal is recomputed
 * from the catalogue prices of the lines, and tax and service charge are 5% each, rounded
 * half up to the paisa.
 */
module Pricing {
  import opened Money
  import opened Models

  /** 5% tax and 5% service charge, as parts per hundred. */
  const TAX_PERCENT: nat := 5
  const SERVICE_CHARGE_PERCENT: nat := 5

  /** The sum of price times quantity over the lines. */
  function Subtotal(items: seq<OrderItem>): Paise {
    if items == [] then 0 else items[0].price * items[0].quantity + Subtotal(items[1..])
  }

  /** The subtotal of a concatenation is the sum of the subtotals. */
  lemma {:induction false} SubtotalAppend(a: seq<OrderItem>, b: seq<OrderItem>)
    ensures Subtotal(a + b) == Subtotal(a) + Subtotal(b)
  {
    if a == [] {
      assert a + b == b;
    } else {
      assert (a + b)[0] == a[0];
      assert (a + b)[1..] == a[1..] + b;
      SubtotalAppend(a[1..], b);
    }
  }

  /** With non-negative prices and positive quantities the subtotal is non-negative. */
  lemma {:induction false} SubtotalNonNegative(items: seq<OrderItem>)
    requires forall i :: 0 <= i < |items| ==> items[i].price >= 0 && items[i].quantity >= 1
    ensures Subtotal(items) >= 0
  {
    if items != [] {
      SubtotalNonNegative(items[1..]);
    }
  }

  /** `Math.round(subtotal * 0.05 * 100) / 100`: 5% of the subtotal to the nearest paisa, halves up. */
  function Tax(subtotal: Paise): (t: Paise)
    ensures 2 * 100 * t - 100 <= 2 * TAX_PERCENT * subtotal < 2 * 100 * t + 100
  {
    Share(subtotal, TAX_PERCENT, 100)
  }

  function ServiceCharge(subtotal: Paise): (c: Paise)
    ensures 2 * 100 * c - 100 <= 2 * SERVICE_CHARGE_PERCENT * subtotal < 2 * 100 * c + 100
  {
    Share(subtotal, SERVICE_CHARGE_PERCENT, 100)
  }

  /** `Math.round((subtotal + tax + serviceCharge) * 100) / 100`: the sum is already whole paise, so rounding keeps it. */
  function Total(subtotal: Paise): (t: Paise)
    ensures t == subtotal + Tax(subtotal) + ServiceCharge(subtotal)
  {
    RoundHalfUpWhole(subtotal + Tax(subtotal) + ServiceCharge(subtotal), 1);
    RoundHalfUp((subtotal + Tax(subtotal) + ServiceCharge(subtotal)) * 1, 1)
  }

  /** The stored amounts of an order agree with its lines. */
  predicate PricedFromLines(o: Order) {
    && o.subtotal == Subtotal(o.items)
    && o.tax == Tax(o.subtotal)
    && o.serviceCharge == ServiceCharge(o.subtotal)
    && o.totalAmount == Total(o.subtotal)
  }

  /** Tax and service charge are equal, each between zero and the subtotal, so the total is between the subtotal and three times it. */
  lemma TotalBounds(subtotal: Paise)
    requires subtotal >= 0
    ensures Tax(subtotal) == ServiceCharge(subtotal)
    ensures 0 <= Tax(subtotal) <= subtotal
    ensures subtotal <= Total(subtotal) <= 3 * subtotal
  {
    ShareBounds(subtotal, TAX_PERCENT, 100);
  }
}
