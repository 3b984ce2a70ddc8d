/**
  The cart page's order summary over its mock item list: a left fold for
  the subtotal, flat shipping of 15 and 8% tax, and the empty-cart screen
  shown instead of the summary when there are no items.
 */
module Cart {
  import Checkout

  datatype Item = Item(id: int, name: string, price: real, quantity: int, image: string, size: string)

  /** The two hard-coded items the page shows. */
  const MockItems: seq<Item> := [
    Item(1, "Alpine Summit Jacket", 299.0, 1, "https://images.unsplash.com/photo-1551698618-1dfe5d97d256?w=200", "L"),
    Item(2, "Peak Performance Hoodie", 149.0, 2, "https://images.unsplash.com/photo-1556821840-3a63f95609a7?w=200", "M")
  ]

  function Amount(item: Item): real
  {
    item.price * item.quantity as real
  }

  /** The reference meaning of the subtotal: the sum of price times quantity over the items. */
  function Sum(items: seq<Item>): real
  {
    if items == [] then 0.0 else Amount(items[0]) + Sum(items[1..])
  }

  /** `items.reduce((sum, item) => sum + item.price * item.quantity, acc)`, a left fold. */
  function FoldFrom(acc: real, items: seq<Item>): real
    decreases items
  {
    if items == [] then acc else FoldFrom(acc + Amount(items[0]), items[1..])
  }

  /** The left fold from any start adds the start to the sum. */
  lemma {:induction false} FoldFromIsSum(acc: real, items: seq<Item>)
    ensures FoldFrom(acc, items) == acc + Sum(items)
    decreases items
  {
    if items != [] {
      FoldFromIsSum(acc + Amount(items[0]), items[1..]);
    }
  }

  /** The page's subtotal: the fold from 0, which is the sum of price times quantity, and 0 for no items. */
  function Subtotal(items: seq<Item>): (s: real)
    ensures s == Sum(items)
    ensures items == [] ==> s == 0.0
  {
    FoldFromIsSum(0.0, items);
    FoldFrom(0.0, items)
  }

  /** The subtotal splits over concatenation. */
  lemma {:induction false} SumAppend(a: seq<Item>, b: seq<Item>)
    ensures Sum(a + b) == Sum(a) + Sum(b)
  {
    if a == [] {
      assert a + b == b;
    } else {
      assert (a + b)[1..] == a[1..] + b;
      SumAppend(a[1..], b);
    }
  }

  /** With no negative prices or quantities the subtotal is not negative. */
  lemma {:induction false} SumNonNegative(items: seq<Item>)
    requires forall i :: 0 <= i < |items| ==> items[i].price >= 0.0 && items[i].quantity >= 0
    ensures Sum(items) >= 0.0
  {
    if items != [] {
      SumNonNegative(items[1..]);
    }
  }

  const CartShipping: real := 15.0
  const CartTaxRate: real := 0.08

  datatype Summary = Summary(subtotal: real, shipping: real, tax: real, total: real)

  /** The order summary: shipping is 15 whatever the items, tax 8% of the subtotal. */
  function Summarize(items: seq<Item>): (s: Summary)
    ensures s.subtotal == Sum(items)
    ensures s.shipping == 15.0
    ensures 25.0 * s.tax == 2.0 * Sum(items)
    ensures s.total == 27.0 * Sum(items) / 25.0 + 15.0
  {
    var subtotal := Subtotal(items);
    var tax := subtotal * CartTaxRate;
    Summary(subtotal, CartShipping, tax, subtotal + CartShipping + tax)
  }

  /** What the page renders. */
  datatype View = EmptyCart | OrderSummary(summary: Summary)

  function Render(items: seq<Item>): (v: View)
    ensures v.EmptyCart? <==> items == []
    ensures v.OrderSummary? ==> v.summary == Summarize(items)
  {
    if |items| == 0 then EmptyCart else OrderSummary(Summarize(items))
  }

  /** The mock items give 299·1 + 149·2 = 597, tax 47.76 and a total of 659.76. */
  lemma MockSummary()
    ensures Render(MockItems) == OrderSummary(Summary(597.0, 15.0, 47.76, 659.76))
  {
    assert MockItems[1..][1..] == [];
    assert Sum(MockItems) == 597.0;
  }

  /**
    The cart page and the checkout page price a non-empty cart by different
    rules (15 shipping and 8% tax against 12 shipping and 20% VAT): their
    totals agree only at a subtotal of exactly 25.
   */
  lemma TotalsAgreeOnlyAt25(items: seq<Item>, cart: seq<Checkout.CartItem>)
    requires cart != []
    ensures Summarize(items).total == Checkout.ComputeTotals(cart, Sum(items)).total <==> Sum(items) == 25.0
  {
  }

  /** For the mock items the checkout rules would give 728.40 where the cart page shows 659.76. */
  lemma MockTotalsDiffer(cart: seq<Checkout.CartItem>)
    requires cart != []
    ensures Checkout.ComputeTotals(cart, Subtotal(MockItems)).total == 728.4
    ensures Summarize(MockItems).total == 659.76
  {
    MockSummary();
  }
}
