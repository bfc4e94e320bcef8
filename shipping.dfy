/** The shipping price of an order from its total weight. */
module Shipping {

  /** Three tiers: below 500 costs 5, below 2000 costs 10, anything heavier 25. */
  function ShippingPrice(weight: int): (price: int)
    ensures price == 5 || price == 10 || price == 25
    ensures price == 5 <==> weight < 500
    ensures price == 25 <==> weight >= 2000
  {
    if weight < 500 then 5
    else if weight < 2000 then 10
    else 25
  }

  /** A heavier order never ships for less. */
  lemma ShippingPriceMonotonic(w1: int, w2: int)
    requires w1 <= w2
    ensures ShippingPrice(w1) <= ShippingPrice(w2)
  {
  }

  /** The values on both sides of each tier boundary. */
  lemma ShippingPriceBoundaries()
    ensures ShippingPrice(499) == 5 && ShippingPrice(500) == 10
    ensures ShippingPrice(1999) == 10 && ShippingPrice(2000) == 25
  {
  }
}
