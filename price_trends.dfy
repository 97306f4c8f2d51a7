/**
 The "average price by brand" figure of the price-trends page.

 The page fetches one row per recorded price, each joined with the phone it
 belongs to and that phone's brand. It groups the prices by brand name in a
 dictionary, turns every group into `{brand, avgPrice, count}`, sorts the
 groups by average price, highest first, and charts the first six.
 */
module PriceTrends {

  import opened Wrappers
  import opened PriceMath

  /** `mobile_brands(name)` as embedded in a price row. */
  datatype BrandRef = BrandRef(name: string)

  /** `mobiles(mobile_brands(name))`: the phone a price belongs to; its brand may be missing. */
  datatype MobileRef = MobileRef(brand: Option<BrandRef>)

  /** One fetched `mobile_prices` row: the price and the (possibly missing) phone it is for. */
  datatype PriceRow = PriceRow(price: int, mobile: Option<MobileRef>)

  /** One bar of the chart: a brand, the exact mean of its prices and how many rows it has. */
  datatype BrandAverage = BrandAverage(brand: string, avgPrice: real, count: nat)

  /**
   The brand name a row is grouped under, `item.mobiles?.mobile_brands?.name`,
   or None when that name is missing or falsy (the empty string).
   */
  function BrandOf(row: PriceRow): Option<string>
  {
    match row.mobile
    case None => None
    case Some(m) =>
      match m.brand
      case None => None
      case Some(b) => if b.name == "" then None else Some(b.name)
  }

  /** A row is grouped exactly when the optional chain reaches a non-empty brand name, and then under that name. */
  lemma BrandOfNonEmptyName(row: PriceRow)
    ensures BrandOf(row).Some? <==>
              row.mobile.Some? && row.mobile.value.brand.Some? && row.mobile.value.brand.value.name != ""
    ensures BrandOf(row).Some? ==> BrandOf(row).value == row.mobile.value.brand.value.name
  {
  }

  // ---------------------------------------------------------------------
  // Specification of the grouping, stated over the rows themselves
  // ---------------------------------------------------------------------

  /** The prices of the rows carrying `brand`, in row order, one entry per row. */
  function PricesOf(rows: seq<PriceRow>, brand: string): seq<int>
  {
    if rows == [] then []
    else
      var last := rows[|rows| - 1];
      PricesOf(rows[..|rows| - 1], brand) + (if BrandOf(last) == Some(brand) then [last.price] else [])
  }

  /** The distinct brand names of the rows, in order of first appearance. */
  function BrandOrder(rows: seq<PriceRow>): seq<string>
  {
    if rows == [] then []
    else
      var earlier := BrandOrder(rows[..|rows| - 1]);
      match BrandOf(rows[|rows| - 1])
      case None => earlier
      case Some(b) => if b in earlier then earlier else earlier + [b]
  }

  /** Some row carries the brand name `brand`. */
  predicate Mentions(rows: seq<PriceRow>, brand: string)
  {
    exists i :: 0 <= i < |rows| && BrandOf(rows[i]) == Some(brand)
  }

  /** The number of rows that carry a brand name at all. */
  function BrandedRowCount(rows: seq<PriceRow>): nat
  {
    if rows == [] then 0
    else BrandedRowCount(rows[..|rows| - 1]) + (if BrandOf(rows[|rows| - 1]).Some? then 1 else 0)
  }

  /** The indices of the rows carrying `brand`. */
  function RowsOf(rows: seq<PriceRow>, brand: string): set<nat>
  {
    set i: nat | i < |rows| && BrandOf(rows[i]) == Some(brand)
  }

  predicate NoDuplicates(s: seq<string>)
  {
    forall i, j :: 0 <= i < j < |s| ==> s[i] != s[j]
  }

  /** The brand dictionary the grouping loop should end with: every brand of the rows mapped to its prices. */
  function PriceMap(rows: seq<PriceRow>): map<string, seq<int>>
  {
    map b | b in BrandOrder(rows) :: PricesOf(rows, b)
  }

  // ---------------------------------------------------------------------
  // Lemmas about the grouping specification
  // ---------------------------------------------------------------------

  lemma MentionsLast(rows: seq<PriceRow>, brand: string)
    requires rows != []
    ensures Mentions(rows, brand) <==>
              Mentions(rows[..|rows| - 1], brand) || BrandOf(rows[|rows| - 1]) == Some(brand)
  {
    var init := rows[..|rows| - 1];
    if Mentions(rows, brand) && BrandOf(rows[|rows| - 1]) != Some(brand) {
      var i :| 0 <= i < |rows| && BrandOf(rows[i]) == Some(brand);
      assert init[i] == rows[i];
    }
    if Mentions(init, brand) {
      var i :| 0 <= i < |init| && BrandOf(init[i]) == Some(brand);
      assert rows[i] == init[i];
    }
  }

  /** A brand is listed exactly when some row carries it, and then it has at least one price. */
  lemma {:induction false} BrandOrderListsMentionedBrands(rows: seq<PriceRow>, brand: string)
    ensures brand in BrandOrder(rows) <==> Mentions(rows, brand)
    ensures brand in BrandOrder(rows) <==> PricesOf(rows, brand) != []
  {
    if rows != [] {
      BrandOrderListsMentionedBrands(rows[..|rows| - 1], brand);
      MentionsLast(rows, brand);
    }
  }

  /** Each brand is listed once. */
  lemma {:induction false} BrandOrderHasNoDuplicates(rows: seq<PriceRow>)
    ensures NoDuplicates(BrandOrder(rows))
  {
    if rows != [] {
      BrandOrderHasNoDuplicates(rows[..|rows| - 1]);
    }
  }

  /** Rows whose brand name is missing or empty may be dropped anywhere without changing any brand's prices or the brand list. */
  lemma {:induction false} UnbrandedRowIgnored(before: seq<PriceRow>, row: PriceRow, after: seq<PriceRow>, brand: string)
    requires BrandOf(row) == None
    ensures PricesOf(before + [row] + after, brand) == PricesOf(before + after, brand)
    ensures BrandOrder(before + [row] + after) == BrandOrder(before + after)
    ensures BrandedRowCount(before + [row] + after) == BrandedRowCount(before + after)
  {
    var with, without := before + [row] + after, before + after;
    if after == [] {
      assert with[..|with| - 1] == before && with[|with| - 1] == row;
      assert without == before;
    } else {
      var init := after[..|after| - 1];
      UnbrandedRowIgnored(before, row, init, brand);
      assert with[..|with| - 1] == before + [row] + init;
      assert without[..|without| - 1] == before + init;
      assert with[|with| - 1] == without[|without| - 1];
    }
  }

  /** Appending a row adds its index to the rows of its brand and to no other brand's rows. */
  lemma RowsOfLast(rows: seq<PriceRow>, brand: string)
    requires rows != []
    ensures RowsOf(rows, brand) ==
              RowsOf(rows[..|rows| - 1], brand) +
              (if BrandOf(rows[|rows| - 1]) == Some(brand) then {|rows| - 1} else {})
  {
    var init, n := rows[..|rows| - 1], |rows| - 1;
    forall i: nat | i < n
      ensures i in RowsOf(rows, brand) <==> i in RowsOf(init, brand)
    {
      assert rows[i] == init[i];
    }
  }

  /** A brand's price list has one entry per row carrying it: repeated prices are each kept. */
  lemma {:induction false} PricesOfCountsRows(rows: seq<PriceRow>, brand: string)
    ensures |PricesOf(rows, brand)| == |RowsOf(rows, brand)|
  {
    if rows == [] {
      assert RowsOf(rows, brand) == {};
    } else {
      var init := rows[..|rows| - 1];
      PricesOfCountsRows(init, brand);
      RowsOfLast(rows, brand);
      assert |rows| - 1 !in RowsOf(init, brand);
    }
  }

  /** The sum of `|PricesOf(rows, b)|` over the brands `bs`. */
  function CountsOver(rows: seq<PriceRow>, bs: seq<string>): nat
  {
    if bs == [] then 0 else |PricesOf(rows, bs[0])| + CountsOver(rows, bs[1..])
  }

  lemma {:induction false} CountsOverSame(rows: seq<PriceRow>, rows': seq<PriceRow>, bs: seq<string>)
    requires forall b :: b in bs ==> |PricesOf(rows', b)| == |PricesOf(rows, b)|
    ensures CountsOver(rows', bs) == CountsOver(rows, bs)
  {
    if bs != [] {
      CountsOverSame(rows, rows', bs[1..]);
    }
  }

  lemma {:induction false} CountsOverBump(rows: seq<PriceRow>, rows': seq<PriceRow>, bs: seq<string>, c: string)
    requires NoDuplicates(bs) && c in bs
    requires |PricesOf(rows', c)| == |PricesOf(rows, c)| + 1
    requires forall b :: b in bs && b != c ==> |PricesOf(rows', b)| == |PricesOf(rows, b)|
    ensures CountsOver(rows', bs) == CountsOver(rows, bs) + 1
  {
    if bs[0] == c {
      assert c !in bs[1..];
      CountsOverSame(rows, rows', bs[1..]);
    } else {
      CountsOverBump(rows, rows', bs[1..], c);
    }
  }

  lemma CountsOverAppend(rows: seq<PriceRow>, bs: seq<string>, c: string)
    ensures CountsOver(rows, bs + [c]) == CountsOver(rows, bs) + |PricesOf(rows, c)|
  {
    if bs != [] {
      assert (bs + [c])[1..] == bs[1..] + [c];
      CountsOverAppend(rows, bs[1..], c);
    } else {
      assert ([] + [c])[1..] == [];
    }
  }

  /** Over all brands, the counts add up to the number of rows that carry a brand name. */
  lemma {:induction false} CountsCoverBrandedRows(rows: seq<PriceRow>)
    ensures CountsOver(rows, BrandOrder(rows)) == BrandedRowCount(rows)
  {
    if rows != [] {
      var init := rows[..|rows| - 1];
      var last := rows[|rows| - 1];
      CountsCoverBrandedRows(init);
      var order := BrandOrder(init);
      match BrandOf(last)
      case None =>
        CountsOverSame(init, rows, order);
      case Some(c) =>
        forall b | b != c
          ensures PricesOf(rows, b) == PricesOf(init, b)
        {
        }
        if c in order {
          BrandOrderHasNoDuplicates(init);
          CountsOverBump(init, rows, order, c);
        } else {
          BrandOrderListsMentionedBrands(init, c);
          CountsOverSame(init, rows, order);
          CountsOverAppend(rows, order, c);
        }
    }
  }

  // ---------------------------------------------------------------------
  // The grouping loop (`data.forEach(item => { ... brandPrices[brandName].push(item.price) })`)
  // ---------------------------------------------------------------------

  /**
   Groups the prices by brand name. `brandPrices` is the dictionary and
   `order` the order in which its keys were first inserted, which is the
   order `Object.entries` later reports them in.
   */
  method GroupPricesByBrand(rows: seq<PriceRow>) returns (brandPrices: map<string, seq<int>>, order: seq<string>)
    ensures order == BrandOrder(rows)
    ensures forall b :: b in brandPrices <==> b in order
    ensures forall b :: b in brandPrices ==> brandPrices[b] == PricesOf(rows, b)
  {
    brandPrices, order := map[], [];
    var i := 0;
    while i < |rows|
      invariant 0 <= i <= |rows|
      invariant order == BrandOrder(rows[..i])
      invariant forall b :: b in brandPrices <==> b in order
      invariant forall b :: b in brandPrices ==> brandPrices[b] == PricesOf(rows[..i], b)
    {
      var item := rows[i];
      assert rows[..i + 1][..i] == rows[..i];
      match BrandOf(item) {
        case None =>
        case Some(brandName) =>
          if brandName !in brandPrices {
            BrandOrderListsMentionedBrands(rows[..i], brandName);
            brandPrices := brandPrices[brandName := []];
            order := order + [brandName];
          }
          brandPrices := brandPrices[brandName := brandPrices[brandName] + [item.price]];
      }
      i := i + 1;
    }
    assert rows[..i] == rows;
  }

  // ---------------------------------------------------------------------
  // Averaging (`Object.entries(brandPrices).map(...)`)
  // ---------------------------------------------------------------------

  /** `{ brand, avgPrice: sum / prices.length, count: prices.length }` for one dictionary entry. */
  function ToBrandAverage(brand: string, prices: seq<int>): (e: BrandAverage)
    requires prices != []
    ensures e.brand == brand && e.count == |prices| >= 1
    ensures e.avgPrice == Mean(prices)
    ensures Min(prices) as real <= e.avgPrice <= Max(prices) as real
  {
    MeanBetweenExtremes(prices);
    BrandAverage(brand, Mean(prices), |prices|)
  }

  /** One `BrandAverage` per dictionary key, in key order. */
  function Summarize(brandPrices: map<string, seq<int>>, order: seq<string>): (entries: seq<BrandAverage>)
    requires forall b :: b in order ==> b in brandPrices && brandPrices[b] != []
  {
    seq(|order|, i requires 0 <= i < |order| => ToBrandAverage(order[i], brandPrices[order[i]]))
  }

  /** One entry per key, in key order, each holding that key's row count and mean price. */
  lemma SummarizeAveragesEachKey(brandPrices: map<string, seq<int>>, order: seq<string>)
    requires forall b :: b in order ==> b in brandPrices && brandPrices[b] != []
    ensures |Summarize(brandPrices, order)| == |order|
    ensures forall i :: 0 <= i < |order| ==>
              Summarize(brandPrices, order)[i].brand == order[i] &&
              Summarize(brandPrices, order)[i].count == |brandPrices[order[i]]| >= 1 &&
              Summarize(brandPrices, order)[i].avgPrice == Mean(brandPrices[order[i]])
  {
  }

  /** The unsorted averages the grouping of `rows` leads to. */
  function BrandEntries(rows: seq<PriceRow>): (entries: seq<BrandAverage>)
    ensures |entries| == |BrandOrder(rows)|
    ensures forall i :: 0 <= i < |entries| ==> entries[i].brand == BrandOrder(rows)[i]
    ensures forall i :: 0 <= i < |entries| ==>
              entries[i].count == |PricesOf(rows, entries[i].brand)| >= 1 &&
              entries[i].avgPrice == Mean(PricesOf(rows, entries[i].brand))
  {
    var order := BrandOrder(rows);
    assert forall b :: b in order ==> PricesOf(rows, b) != [] by {
      forall b | b in order ensures PricesOf(rows, b) != [] {
        BrandOrderListsMentionedBrands(rows, b);
      }
    }
    Summarize(PriceMap(rows), order)
  }

  /** The sum of the `count` fields. */
  function TotalCount(entries: seq<BrandAverage>): nat
  {
    if entries == [] then 0 else entries[0].count + TotalCount(entries[1..])
  }

  /** Before sorting, the counts add up to the number of rows that carry a brand name. */
  lemma {:induction false} BrandEntriesCountBrandedRows(rows: seq<PriceRow>)
    ensures TotalCount(BrandEntries(rows)) == BrandedRowCount(rows)
  {
    CountsCoverBrandedRows(rows);
    TotalCountMatches(rows, BrandEntries(rows), BrandOrder(rows));
  }

  lemma {:induction false} TotalCountMatches(rows: seq<PriceRow>, entries: seq<BrandAverage>, bs: seq<string>)
    requires |entries| == |bs|
    requires forall i :: 0 <= i < |entries| ==> entries[i].count == |PricesOf(rows, bs[i])|
    ensures TotalCount(entries) == CountsOver(rows, bs)
  {
    if entries != [] {
      TotalCountMatches(rows, entries[1..], bs[1..]);
    }
  }

  // ---------------------------------------------------------------------
  // Sorting (`.sort((a, b) => b.avgPrice - a.avgPrice)`)
  // ---------------------------------------------------------------------

  /** Non-increasing by average price. */
  predicate SortedByAvgPriceDesc(s: seq<BrandAverage>)
  {
    forall i, j :: 0 <= i < j < |s| ==> s[i].avgPrice >= s[j].avgPrice
  }

  /**
   Sorts the freshly built array in place, highest average first. The
   comparator has no tie-breaker, so the order of equal averages is left open.
   */
  method SortByAvgPrice(a: array<BrandAverage>)
    modifies a
    ensures SortedByAvgPriceDesc(a[..])
    ensures multiset(a[..]) == old(multiset(a[..]))
  {
    var i := 0;
    while i < a.Length
      invariant 0 <= i <= a.Length
      invariant forall k, l :: 0 <= k < l < i ==> a[k].avgPrice >= a[l].avgPrice
      invariant multiset(a[..]) == old(multiset(a[..]))
    {
      var j := i;
      while j > 0 && a[j - 1].avgPrice < a[j].avgPrice
        invariant 0 <= j <= i
        invariant forall k, l :: 0 <= k < l <= i && k != j && l != j ==> a[k].avgPrice >= a[l].avgPrice
        invariant forall l :: j < l <= i ==> a[j].avgPrice > a[l].avgPrice
        invariant 0 < j < i ==> a[j - 1].avgPrice >= a[j + 1].avgPrice
        invariant multiset(a[..]) == old(multiset(a[..]))
      {
        SwapAdjacent(a, j);
        j := j - 1;
      }
      i := i + 1;
    }
  }

  /** Exchanges `a[j - 1]` and `a[j]`. */
  method SwapAdjacent(a: array<BrandAverage>, j: int)
    requires 0 < j < a.Length
    modifies a
    ensures a[j - 1] == old(a[j]) && a[j] == old(a[j - 1])
    ensures forall k :: 0 <= k < a.Length && k != j - 1 && k != j ==> a[k] == old(a[k])
    ensures multiset(a[..]) == old(multiset(a[..]))
  {
    a[j - 1], a[j] := a[j], a[j - 1];
  }

  // ---------------------------------------------------------------------
  // Facts carried across the sort
  // ---------------------------------------------------------------------

  /** The brand names of the entries, in order. */
  function BrandNames(s: seq<BrandAverage>): (names: seq<string>)
    ensures |names| == |s| && forall i :: 0 <= i < |s| ==> names[i] == s[i].brand
  {
    seq(|s|, i requires 0 <= i < |s| => s[i].brand)
  }

  /** A brand appears at most once. */
  predicate DistinctBrands(s: seq<BrandAverage>)
  {
    NoDuplicates(BrandNames(s))
  }

  /** Some entry is for `brand`. */
  predicate Lists(s: seq<BrandAverage>, brand: string)
  {
    exists i :: 0 <= i < |s| && s[i].brand == brand
  }

  lemma {:induction false} DistinctOccursOnce(s: seq<BrandAverage>, x: BrandAverage)
    requires DistinctBrands(s)
    ensures multiset(s)[x] <= 1
  {
    if s != [] {
      assert s == [s[0]] + s[1..];
      DistinctOccursOnce(s[1..], x);
      if s[0] == x {
        assert x !in s[1..];
      }
    }
  }

  lemma RepeatedOccursTwice(s: seq<BrandAverage>, i: nat, j: nat)
    requires i < j < |s| && s[i] == s[j]
    ensures multiset(s)[s[i]] >= 2
  {
    assert s == s[..j] + [s[j]] + s[j + 1..];
    assert s[i] in s[..j];
  }

  lemma DistinctBrandsPermutation(s: seq<BrandAverage>, t: seq<BrandAverage>)
    requires DistinctBrands(s) && multiset(s) == multiset(t)
    ensures DistinctBrands(t)
  {
    forall i, j | 0 <= i < j < |t|
      ensures t[i].brand != t[j].brand
    {
      if t[i] == t[j] {
        RepeatedOccursTwice(t, i, j);
        DistinctOccursOnce(s, t[i]);
      } else {
        assert t[i] in multiset(s) && t[j] in multiset(s);
        var p :| 0 <= p < |s| && s[p] == t[i];
        var q :| 0 <= q < |s| && s[q] == t[j];
        assert p != q;
      }
    }
  }

  lemma {:induction false} TotalCountSplit(s: seq<BrandAverage>, t: seq<BrandAverage>)
    ensures TotalCount(s + t) == TotalCount(s) + TotalCount(t)
  {
    if s != [] {
      assert (s + t)[1..] == s[1..] + t;
      TotalCountSplit(s[1..], t);
    } else {
      assert s + t == t;
    }
  }

  lemma RemoveAtCount(t: seq<BrandAverage>, k: nat)
    requires k < |t|
    ensures TotalCount(t) == t[k].count + TotalCount(t[..k] + t[k + 1..])
  {
    var before, after := t[..k], t[k + 1..];
    var tail := t[k..];
    assert t == before + tail;
    assert tail[1..] == after;
    TotalCountSplit(before, tail);
    TotalCountSplit(before, after);
  }

  lemma IndexOf(t: seq<BrandAverage>, x: BrandAverage) returns (k: nat)
    requires x in multiset(t)
    ensures k < |t| && t[k] == x
  {
    k :| k < |t| && t[k] == x;
  }

  lemma {:induction false} TotalCountPermutation(s: seq<BrandAverage>, t: seq<BrandAverage>)
    requires multiset(s) == multiset(t)
    ensures TotalCount(s) == TotalCount(t)
  {
    if s == [] {
      assert |t| == |multiset(t)| == 0;
    } else {
      var x := s[0];
      var k := IndexOf(t, x);
      var rest := t[..k] + t[k + 1..];
      RemoveAtMultiset(t, k);
      RemoveAtCount(t, k);
      assert multiset(s[1..]) == multiset(s) - multiset{x} by {
        assert s == [x] + s[1..];
      }
      TotalCountPermutation(s[1..], rest);
    }
  }

  // ---------------------------------------------------------------------
  // The whole query
  // ---------------------------------------------------------------------

  /**
   The `avg-prices-by-brand` query after the fetch: group, average, sort.
   */
  method AvgPricesByBrand(rows: seq<PriceRow>) returns (result: seq<BrandAverage>)
    ensures multiset(result) == multiset(BrandEntries(rows))
    ensures SortedByAvgPriceDesc(result)
    ensures DistinctBrands(result)
    ensures forall b :: Lists(result, b) <==> Mentions(rows, b)
    ensures forall e :: e in result ==>
              e.count >= 1 && e.count == |PricesOf(rows, e.brand)| &&
              e.avgPrice == Mean(PricesOf(rows, e.brand))
    ensures TotalCount(result) == BrandedRowCount(rows)
    ensures result == [] <==> BrandedRowCount(rows) == 0
  {
    var brandPrices, order := GroupPricesByBrand(rows);
    assert brandPrices == PriceMap(rows);
    forall b | b in order
      ensures brandPrices[b] != []
    {
      BrandOrderListsMentionedBrands(rows, b);
    }
    var entries := Summarize(brandPrices, order);
    assert entries == BrandEntries(rows);
    var a := new BrandAverage[|entries|](i requires 0 <= i < |entries| => entries[i]);
    assert a[..] == entries;
    SortByAvgPrice(a);
    result := a[..];

    BrandOrderHasNoDuplicates(rows);
    DistinctBrandsPermutation(entries, result);
    SortedKeepsBrands(rows, result);
    SortedKeepsEntries(rows, result);
    BrandEntriesCountBrandedRows(rows);
    TotalCountPermutation(entries, result);
    assert |result| == |multiset(result)| == |entries|;
    if result != [] {
      assert result[0] in result;
    }
  }

  /** Reordering the averages keeps exactly the brands some row carries. */
  lemma SortedKeepsBrands(rows: seq<PriceRow>, result: seq<BrandAverage>)
    requires multiset(result) == multiset(BrandEntries(rows))
    ensures forall b :: Lists(result, b) <==> Mentions(rows, b)
  {
    var entries := BrandEntries(rows);
    var order := BrandOrder(rows);
    forall b
      ensures Lists(result, b) <==> Mentions(rows, b)
    {
      BrandOrderListsMentionedBrands(rows, b);
      if Lists(result, b) {
        var i :| 0 <= i < |result| && result[i].brand == b;
        assert result[i] in multiset(entries);
      }
      if Mentions(rows, b) {
        var k :| 0 <= k < |order| && order[k] == b;
        assert entries[k] in multiset(result);
      }
    }
  }

  /** Reordering the averages keeps each one's count and mean. */
  lemma SortedKeepsEntries(rows: seq<PriceRow>, result: seq<BrandAverage>)
    requires multiset(result) == multiset(BrandEntries(rows))
    ensures forall e :: e in result ==>
              e.count >= 1 && e.count == |PricesOf(rows, e.brand)| &&
              e.avgPrice == Mean(PricesOf(rows, e.brand))
  {
    var entries := BrandEntries(rows);
    forall e | e in result
      ensures e.count >= 1 && e.count == |PricesOf(rows, e.brand)| && e.avgPrice == Mean(PricesOf(rows, e.brand))
    {
      assert e in multiset(entries);
    }
  }

  /** Two rows of brand `x` priced `p` and `q`, then one row of brand `y` priced `r`. */
  function TwoBrandRows(x: string, y: string, p: int, q: int, r: int): seq<PriceRow>
  {
    var mx := Some(MobileRef(Some(BrandRef(x))));
    var my := Some(MobileRef(Some(BrandRef(y))));
    [PriceRow(p, mx), PriceRow(q, mx), PriceRow(r, my)]
  }

  lemma TwoBrandGrouping(x: string, y: string, p: int, q: int, r: int)
    requires x != "" && y != "" && x != y
    ensures BrandOrder(TwoBrandRows(x, y, p, q, r)) == [x, y]
    ensures PricesOf(TwoBrandRows(x, y, p, q, r), x) == [p, q]
    ensures PricesOf(TwoBrandRows(x, y, p, q, r), y) == [r]
  {
    var rows := TwoBrandRows(x, y, p, q, r);
    var one, two := rows[..1], rows[..2];
    assert BrandOf(rows[0]) == BrandOf(rows[1]) == Some(x);
    assert BrandOf(rows[2]) == Some(y);
    assert one[..|one| - 1] == [] && one[|one| - 1] == rows[0];
    assert two[..|two| - 1] == one && two[|two| - 1] == rows[1];
    assert rows[..|rows| - 1] == two && rows[|rows| - 1] == rows[2];
    assert BrandOrder(one) == [x] && PricesOf(one, x) == [p] && PricesOf(one, y) == [];
    assert BrandOrder(two) == [x] && PricesOf(two, x) == [p, q] && PricesOf(two, y) == [];
  }

  lemma TwoBrandEntries(x: string, y: string, p: int, q: int, r: int)
    requires x != "" && y != "" && x != y
    ensures BrandEntries(TwoBrandRows(x, y, p, q, r)) ==
              [BrandAverage(x, (p + q) as real / 2.0, 2), BrandAverage(y, r as real, 1)]
  {
    var rows := TwoBrandRows(x, y, p, q, r);
    var entries := BrandEntries(rows);
    TwoBrandGrouping(x, y, p, q, r);
    MeanOfTwo(p, q);
    MeanOfOne(r);
    assert |entries| == 2;
    assert entries[0].brand == x && entries[0].count == 2;
    assert entries[0].avgPrice == (p + q) as real / 2.0;
    assert entries[1].brand == y && entries[1].count == 1;
    assert entries[1].avgPrice == r as real;
    var e0, e1 := BrandAverage(x, (p + q) as real / 2.0, 2), BrandAverage(y, r as real, 1);
    assert entries[0] == e0 && entries[1] == e1;
    PairIsItsElements(entries);
  }

  lemma PairIsItsElements(s: seq<BrandAverage>)
    requires |s| == 2
    ensures s == [s[0], s[1]]
  {
  }

  lemma MeanOfTwo(p: int, q: int)
    ensures Mean([p, q]) == (p + q) as real / 2.0
  {
    var ps: seq<int> := [p, q];
    var ps0: seq<int> := [p];
    assert ps[..|ps| - 1] == ps0 && ps0[..|ps0| - 1] == [];
    assert Sum(ps0) == p;
    assert Sum(ps) == p + q;
  }

  lemma MeanOfOne(r: int)
    ensures Mean([r]) == r as real
  {
    var rs: seq<int> := [r];
    assert rs[..|rs| - 1] == [];
    assert Sum(rs) == r;
  }

  /**
   Two rows of one brand at 50000 and 45000 and one row of another at
   180000: whatever order the sort leaves among ties, the single 180000 row's brand comes first, then the other
   brand with mean 47500 and count 2.
   */
  lemma ExampleTwoBrands(x: string, y: string, result: seq<BrandAverage>)
    requires x != "" && y != "" && x != y
    requires multiset(result) == multiset(BrandEntries(TwoBrandRows(x, y, 50000, 45000, 180000)))
    requires SortedByAvgPriceDesc(result)
    ensures result == [BrandAverage(y, 180000.0, 1), BrandAverage(x, 47500.0, 2)]
  {
    var first := BrandAverage(x, 47500.0, 2);
    var second := BrandAverage(y, 180000.0, 1);
    var expected: seq<BrandAverage> := [first, second];
    TwoBrandEntries(x, y, 50000, 45000, 180000);
    assert multiset(result) == multiset(expected);
    assert |result| == 2 by {
      assert |result| == |multiset(result)| == |multiset(expected)|;
    }
    var u, v := result[0], result[1];
    assert u in multiset(expected) && v in multiset(expected);
    if u == v {
      RepeatedOccursTwice(result, 0, 1);
      assert false;
    }
    assert u.avgPrice >= v.avgPrice;
    PairIsItsElements(result);
  }

  // ---------------------------------------------------------------------
  // The chart (`avgPrices?.slice(0, 6)`)
  // ---------------------------------------------------------------------

  const ChartBrandLimit: nat := 6

  /** The brands the bar chart shows: the first six of the sorted list, or all of them if fewer. */
  function ChartBrands(avgPrices: seq<BrandAverage>): (shown: seq<BrandAverage>)
    ensures |shown| == if |avgPrices| < ChartBrandLimit then |avgPrices| else ChartBrandLimit
    ensures shown <= avgPrices
    ensures SortedByAvgPriceDesc(avgPrices) ==>
              forall i, j :: 0 <= i < |shown| <= j < |avgPrices| ==> avgPrices[j].avgPrice <= shown[i].avgPrice
  {
    if |avgPrices| < ChartBrandLimit then avgPrices else avgPrices[..ChartBrandLimit]
  }
}
