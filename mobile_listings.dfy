/**
 The price block of a phone card on the listings page: the lowest of the
 phone's recorded prices, whether a price is shown at all, and the
 "from N retailers" figure.
 */
module MobileListings {

  import opened Wrappers
  import opened PriceMath

  /** One entry of `mobile.mobile_prices`: a price recorded at one retailer in one city. */
  datatype PriceEntry = PriceEntry(price: int, retailer: string, city: string)

  /** What the card's price block shows. */
  datatype PriceLine =
    | Priced(lowest: int, retailers: nat)  // the formatted lowest price, "from N retailers"
    | PriceNotAvailable                    // "Price not available"

  /** `prices.map(p => p.price)` */
  function PriceValues(entries: seq<PriceEntry>): (ps: seq<int>)
    ensures |ps| == |entries|
    ensures forall i :: 0 <= i < |entries| ==> ps[i] == entries[i].price
  {
    seq(|entries|, i requires 0 <= i < |entries| => entries[i].price)
  }

  /**
   `getLowestPrice`: null when the list is missing or empty, otherwise
   `Math.min` over the prices.
   */
  function LowestPrice(prices: Option<seq<PriceEntry>>): (lowest: Option<int>)
    ensures lowest == None <==> prices == None || prices.value == []
    ensures lowest.Some? ==> forall e :: e in prices.value ==> lowest.value <= e.price
    ensures lowest.Some? ==> exists e :: e in prices.value && e.price == lowest.value
  {
    match prices
    case None => None
    case Some(entries) =>
      if |entries| == 0 then None
      else
        var m := Min(PriceValues(entries));
        assert forall e :: e in entries ==> m <= e.price by {
          forall e | e in entries ensures m <= e.price {
            var i :| 0 <= i < |entries| && entries[i] == e;
            assert PriceValues(entries)[i] == e.price;
          }
        }
        var i :| 0 <= i < |entries| && PriceValues(entries)[i] == m;
        assert entries[i] in entries;
        Some(m)
  }

  /** The lowest price does not depend on the order of the price rows. */
  lemma LowestPriceIgnoresOrder(a: seq<PriceEntry>, b: seq<PriceEntry>)
    requires multiset(a) == multiset(b)
    ensures LowestPrice(Some(a)) == LowestPrice(Some(b))
  {
    assert |a| == |multiset(a)| == |multiset(b)| == |b|;
    if a != [] {
      LowestNoGreater(a, b);
      LowestNoGreater(b, a);
    }
  }

  /** The row carrying the lowest price of `a` is also a row of `b`. */
  lemma LowestNoGreater(a: seq<PriceEntry>, b: seq<PriceEntry>)
    requires multiset(a) == multiset(b) && a != [] && b != []
    ensures LowestPrice(Some(b)).value <= LowestPrice(Some(a)).value
  {
    var lowest := LowestPrice(Some(a));
    assert lowest.Some?;
    var e :| e in a && e.price == lowest.value;
    assert e in multiset(b);
  }

  /** JavaScript truthiness of `getLowestPrice`'s result: `null` and `0` are falsy. */
  predicate Truthy(n: Option<int>): (truthy: bool)
    ensures !truthy <==> n == None || n == Some(0)
  {
    n.Some? && n.value != 0
  }

  /**
   The card's price block: the lowest price and `mobile_prices.length` when
   the lowest price is truthy, "Price not available" otherwise.
   */
  function CardPriceLine(prices: Option<seq<PriceEntry>>): (line: PriceLine)
    ensures line.Priced? ==> prices.Some? && prices.value != []
    ensures line.Priced? ==>
              line.retailers == |prices.value| &&
              (forall e :: e in prices.value ==> line.lowest <= e.price) &&
              (exists e :: e in prices.value && e.price == line.lowest)
    ensures line.Priced? ==> line.lowest != 0
    ensures line == PriceNotAvailable <==>
              prices == None || prices.value == [] || LowestPrice(prices) == Some(0)
    ensures line == PriceNotAvailable ==>
              prices == None || prices.value == [] || exists e :: e in prices.value && e.price == 0
    ensures prices == None || prices.value == [] ==> line == PriceNotAvailable
  {
    var lowest := LowestPrice(prices);
    if Truthy(lowest) then Priced(lowest.value, |prices.value|) else PriceNotAvailable
  }

  /**
   With non-negative prices, a card shows a price exactly when it has price
   rows and none of them is 0: a recorded price of 0 is shown as
   "Price not available", the same as no price at all.
   */
  lemma ShownExactlyWithoutZeroPrice(prices: Option<seq<PriceEntry>>)
    requires prices.Some? ==> forall e :: e in prices.value ==> e.price >= 0
    ensures CardPriceLine(prices).Priced? <==>
              prices.Some? && prices.value != [] && forall e :: e in prices.value ==> e.price != 0
  {
    if prices.Some? && prices.value != [] {
      var lowest := LowestPrice(prices).value;
      var e :| e in prices.value && e.price == lowest;
    }
  }

  /** A zero minimum is recorded, yet the card cannot tell it from a phone with no prices. */
  lemma ZeroPriceLooksUnpriced(entries: seq<PriceEntry>)
    requires forall e :: e in entries ==> e.price >= 0
    requires exists e :: e in entries && e.price == 0
    ensures LowestPrice(Some(entries)) == Some(0)
    ensures CardPriceLine(Some(entries)) == CardPriceLine(None) == PriceNotAvailable
  {
    var z :| z in entries && z.price == 0;
  }

  /** "from N retailers" counts price rows: the same retailer listed twice is counted twice. */
  lemma RetailerCountCountsRows(p: PriceEntry, q: PriceEntry)
    requires p.retailer == q.retailer && p.price > 0 && q.price > 0
    ensures CardPriceLine(Some([p, q])).Priced?
    ensures CardPriceLine(Some([p, q])).retailers == 2
  {
    assert LowestPrice(Some([p, q])).value in {p.price, q.price} by {
      var e :| e in [p, q] && e.price == LowestPrice(Some([p, q])).value;
    }
  }
}
