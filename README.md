# Pakistan mobile price storefront: price aggregation, modelled in Dafny

The storefront lists mobile phones with the prices recorded for them at
retailers across Pakistan, and charts price figures per brand. Almost all of
its code is presentation. This project models the two places where it
transforms data:

- **Average price by brand** (price-trends page). The page fetches every
  recorded price together with the phone's brand name. It groups the prices by
  brand name in a dictionary and skips rows whose brand name is missing or
  empty. For each brand it produces `{brand, avgPrice, count}`, sorts these by
  average price with the highest first, and charts the first six.
  Module `PriceTrends` (`price_trends.dfy`):
  - the grouping loop is the method `GroupPricesByBrand`, with a map
    accumulator;
  - the averaging is the pure function `ToBrandAverage`, applied by
    `Summarize`;
  - the sort is the in-place insertion sort `SortByAvgPrice` on an array;
  - `AvgPricesByBrand` is the whole query after the fetch;
  - `ChartBrands` is the cut to six bars.

  Each step is proved against reference definitions stated over the rows
  themselves: `PricesOf`, `BrandOrder`, `Mentions` and `BrandedRowCount`.
- **Lowest price on a listing card** (listings page). `getLowestPrice` gives
  no value for a missing or empty price list, and otherwise the minimum price.
  The card shows that price and "from N retailers" only when the value is
  truthy. Otherwise it shows "Price not available".
  Module `MobileListings` (`mobile_listings.dfy`): `LowestPrice`,
  `CardPriceLine`.

Shared arithmetic is in module `PriceMath` (`price_math.dfy`): the left-fold
`Sum`, `Min`, `Max`, and the exact `Mean`. `Option` is in module `Wrappers`
(`wrappers.dfy`). Prices are unbounded integers, and `avgPrice` is an exact
`real` (`sum / count`).

Three behaviours of the code are worth knowing, and the model keeps them:

- The sort comparator `b.avgPrice - a.avgPrice` has no tie-breaker. The model
  therefore leaves the order of equal averages open.
- The card's truthiness test shows a recorded price of 0 as "Price not
  available", exactly like a phone with no prices.
  `ZeroPriceLooksUnpriced` and `ShownExactlyWithoutZeroPrice` prove this.
- Prices are not filtered by sign. The model counts every price, negative
  ones included, in the averages and in the minimum.

## Model

| member | source | states |
|---|---|---|
| PriceTrends.BrandOfNonEmptyName | src/components/PriceTrends.tsx:44-45 | A row is grouped exactly when it has a phone, the phone has a brand, and the brand name is non-empty. It is then grouped under that name. |
| PriceTrends.GroupPricesByBrand | src/components/PriceTrends.tsx:42-51 | The dictionary has exactly the brands of the rows. Each brand maps to the prices of the rows carrying it, in row order and with one entry per row. The key order is the order in which each brand first appears. |
| PriceTrends.BrandOrderListsMentionedBrands | src/components/PriceTrends.tsx:44-49 | A brand is a key exactly when some row carries that non-empty name. A brand is a key exactly when its price list is non-empty, so no empty group is ever created. |
| PriceTrends.BrandOrderHasNoDuplicates | src/components/PriceTrends.tsx:46-48 | Each brand is inserted into the dictionary once. |
| PriceTrends.UnbrandedRowIgnored | src/components/PriceTrends.tsx:44-45 | A row whose brand name is missing or empty can be removed from any position. Removing it changes no brand's prices, the brand list, or the number of branded rows. |
| PriceTrends.PricesOfCountsRows | src/components/PriceTrends.tsx:49 | A brand's price list has one entry per row carrying that brand. Repeated identical prices are each kept. |
| PriceTrends.CountsCoverBrandedRows | src/components/PriceTrends.tsx:43-51 | Summed over all brands, the lengths of the price lists equal the number of rows with a brand name. |
| PriceTrends.ToBrandAverage | src/components/PriceTrends.tsx:53-56 | `count` is the list length, which is at least 1. `avgPrice` is the exact mean of the list, so `avgPrice * count` is the sum of the prices. The average lies between the list's minimum and maximum. |
| PriceTrends.SummarizeAveragesEachKey | src/components/PriceTrends.tsx:53-56 | There is one entry per dictionary key, in key order. Each entry carries its key, that key's price count (at least 1) and the mean of that key's prices. |
| PriceTrends.BrandEntries | src/components/PriceTrends.tsx:53-56 | There is one entry per brand, in dictionary key order. Each entry's count is the number of that brand's rows (at least 1), and its average is the mean of that brand's prices. |
| PriceTrends.BrandEntriesCountBrandedRows | src/components/PriceTrends.tsx:53-56 | The `count` fields add up to the number of rows with a brand name. |
| PriceTrends.SortByAvgPrice | src/components/PriceTrends.tsx:57 | After the in-place sort, the array is non-increasing by `avgPrice` and is a permutation of its old contents. |
| PriceTrends.DistinctBrandsPermutation | src/components/PriceTrends.tsx:57 | Reordering keeps each brand appearing only once. |
| PriceTrends.TotalCountPermutation | src/components/PriceTrends.tsx:56-57 | Reordering keeps the sum of the `count` fields. |
| PriceTrends.SortedKeepsBrands | src/components/PriceTrends.tsx:53-57 | After sorting, a brand is listed exactly when some row carries it. |
| PriceTrends.SortedKeepsEntries | src/components/PriceTrends.tsx:53-57 | After sorting, every entry still has count at least 1 equal to its number of rows. Its average is still the exact mean of its prices. |
| PriceTrends.AvgPricesByBrand | src/components/PriceTrends.tsx:41-57 | The result is a permutation of the per-brand averages, sorted highest first. Each brand appears once, and the listed brands are exactly the non-empty brand names of the rows. Every count is at least 1 and equals the brand's row count, and every average is the exact mean. The counts sum to the number of branded rows. The result is empty exactly when no row has a brand name. |
| PriceTrends.TwoBrandEntries | src/components/PriceTrends.tsx:41-56 | For two rows of one brand and one row of another, the entries are the first brand with the mean of its two prices and count 2, then the second brand with its one price and count 1. |
| PriceTrends.ExampleTwoBrands | src/components/PriceTrends.tsx:41-57 | Take rows priced 50000 and 45000 for one brand and 180000 for another. Any sorted result is then exactly [(other brand, 180000, 1), (first brand, 47500, 2)]. |
| PriceTrends.ChartBrands | src/components/PriceTrends.tsx:190 | The chart gets the first min(6, n) entries. When the list is sorted, no shown brand has a lower average than any brand left out. |
| PriceMath.Mean | src/components/PriceTrends.tsx:55 | The mean times the length equals the sum of the prices. |
| PriceMath.SumFromFront | src/components/PriceTrends.tsx:55 | Peeling off the first price gives the same sum as the left fold. |
| PriceMath.SumAppend | src/components/PriceTrends.tsx:55 | The sum of two lists joined together is the sum of their sums. |
| PriceMath.SumPermutation | src/components/PriceTrends.tsx:49-55 | Any reordering of a price list has the same sum, so the order in which rows arrive does not change a brand's sum. |
| PriceMath.MeanPermutation | src/components/PriceTrends.tsx:49-55 | Any reordering of a non-empty price list has the same length and the same mean, so a brand's `avgPrice` does not depend on row order. |
| PriceMath.SumAtLeast | src/components/PriceTrends.tsx:55 | If every price is at least `lo`, the sum is at least `length * lo`. |
| PriceMath.SumAtMost | src/components/PriceTrends.tsx:55 | If every price is at most `hi`, the sum is at most `length * hi`. |
| PriceMath.MeanWithin | src/components/PriceTrends.tsx:55 | Any lower and upper bound of all prices also bounds the mean. |
| PriceMath.MeanBetweenExtremes | src/components/PriceTrends.tsx:55 | The mean lies between the minimum and the maximum price. |
| PriceMath.Min | src/pages/MobileListings.tsx:75 | `Math.min` over a non-empty list returns one of its elements, and that element is no greater than any other. |
| MobileListings.PriceValues | src/pages/MobileListings.tsx:75 | The mapped list has one price per row, each the price of the row at the same position. |
| MobileListings.LowestPrice | src/pages/MobileListings.tsx:73-76 | There is no value exactly when the price list is missing or empty. Otherwise the value is at most every row's price and equals some row's price. |
| MobileListings.LowestPriceIgnoresOrder | src/pages/MobileListings.tsx:75 | Any reordering of the price rows gives the same lowest price. |
| MobileListings.Truthy | src/pages/MobileListings.tsx:215 | A lowest-price value is falsy exactly when it is missing or 0. |
| MobileListings.CardPriceLine | src/pages/MobileListings.tsx:215-226 | A price is shown only for a non-empty list. The shown price is the list's minimum and is non-zero. "From N retailers" shows the number of price rows. "Price not available" appears exactly when the list is missing or empty, or its lowest price is 0. Negative prices are shown like any other non-zero minimum. |
| MobileListings.ShownExactlyWithoutZeroPrice | src/pages/MobileListings.tsx:215-225 | With non-negative prices, a price is shown exactly when the list is non-empty and no row is priced 0. |
| MobileListings.ZeroPriceLooksUnpriced | src/pages/MobileListings.tsx:215-225 | A list whose minimum is 0 has lowest price 0, yet its card is identical to that of a phone with no prices. |
| MobileListings.RetailerCountCountsRows | src/pages/MobileListings.tsx:221 | Two price rows from the same retailer give "from 2 retailers": the count is of rows, not of distinct retailers. |

## Left out

- PriceTrends.AvgPricesByBrand: leaves the order among equal averages open. The source's stable sort keeps them in `Object.entries` order, but the comparator itself promises no order among ties.
- PriceTrends.SortByAvgPrice: same as above. It proves "sorted and a permutation", not the stability of the JavaScript sort.
- Object property semantics of the brand dictionary are not modelled; it is a plain map. Some brand names are also names of properties every JavaScript object inherits, such as `constructor`, `toString` or `__proto__`. For these, `brandPrices[brandName]` finds the inherited value, so no array is created and the following `push` throws. The model groups such names like any other.
- `Object.entries` puts integer-like keys first, in numeric order. The model uses plain insertion order. This could only change the order among equal averages, which the model leaves open anyway.
- Floating point: averages are exact rationals. JavaScript's rounding of `sum / length` is not modelled, nor is the loss of precision of very large sums.
- `Math.min(...list)` fails on argument lists beyond the engine's limit. The model has no such limit.
- All fetching and query building (Supabase selects, ordering, error propagation): these are network I/O in a library not shown. The rows are the model's input.
- The search and brand filters of the listings page are applied server-side by that library. Their semantics are not visible here.
- The price-range selector is only stored and placed in the query key. It is never applied, so there is nothing to model.
- Trend series, key-metric figures, "recent price changes", star ratings and the "Trending" badge are hard-coded placeholders.
- Currency formatting (`Intl.NumberFormat`) and axis-tick division are display formatting done by a foreign library.
- Loading skeletons, React state hooks and layout.
- `src/components/Header.tsx` contains presentation only.
