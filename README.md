# Dashboard controllers: a verified model

This project models the two dashboard controllers of an organization's billing and
inventory back end. Both answer read-only HTTP requests over an organization's invoices,
customers, items, stock ledger and expenses. Records are counted when their creation
instant falls inside a period of the organization's time zone.

- `controller/dashboardCont.js` takes a `YYYY-MM-DD` (or `YYYY/MM/DD`) date and a filter
  type of `day`, `month` or `year`. Its handlers are:
  - `getOverviewData`: revenue, inventory value, expenses, new customers and sales.
  - `getSalesOverTime`.
  - `getExpenseByCategory`: the expenses of the period, bucketed by category.
  - `getTopProductCustomer`: the five products that appear on most lines of the five
    largest invoices, and the seven customers who spent most.
- `controller/dashboardController.js` takes a `YYYY-MM` (or `YYYY/MM`) month. Its handlers
  are:
  - `getOverviewData`: inventory value, stock, out-of-stock count and new items.
  - `getTopSellingProducts`: the five products sold in the largest quantities, with the
    category, image and stock label of the item.
- Both files share `xsItemDataExists`. It enriches every item with its current stock: the
  ledger debits minus the ledger credits, or 0 for an item without ledger entries.

The model is organised as follows:

| module | contents |
|---|---|
| `Wrappers` | `Option` and `Result`. |
| `Text` | Digits, separators and JavaScript whitespace. |
| `Calendar` | The proleptic Gregorian calendar: day numbers and their dates, and back. |
| `Periods` | Instants are integer milliseconds since the epoch; a zone is a fixed offset. Also the `startOf`/`endOf`/`isBetween` operations of moment-timezone and the `filter` over records. |
| `Folds` | `filter`, `reduce`-style sums and counts, and their algebra. |
| `Ranking` | The stable descending sort of the JavaScript engine, and `slice(0, n)`. |
| `Grouping` | A plain object used as a dictionary (`acc[key] = ...`), including the order in which `Object.values` and `Object.entries` list its keys. |
| `Records` | The documents the handlers read. |
| `Stock` | `xsItemDataExists`. |
| `DashboardCont` | The four handlers of `dashboardCont.js`. |
| `DashboardController` | The two handlers of `dashboardController.js`. |

Each handler is modelled as a function or method from the request parameters and the
fetched records to `Result<response, Failure>`. `Failure` carries the HTTP status and the
message.

Loops that update an accumulator are methods with loop invariants. These are the
`reduce` over categories, the nested `forEach` tallies and the in-place sort of the
invoice array. Each is proved equal to a specification function, and the properties of
the handlers are lemmas about those functions.

Where the code and its description disagree, the model follows the code:

- **Day form anchored at UTC midnight.** In `dashboardCont.js` the date is read by
  `new Date("YYYY-MM-DD")`, which gives UTC midnight. Only then is it viewed in the
  organization's zone. West of UTC the "day" period is therefore the local day *before*
  the requested one (`DashboardCont.DayPeriodAnchoredAtUtcMidnight`).
- **Unreadable dates are not rejected.** A month outside 1..12 or a day outside 1..31
  passes the format check. It makes `new Date` invalid, so the handler answers 200 with
  every total at zero (`DashboardCont.UnreadableDateGivesZeros`). A day past the end of
  its month (`2023-02-30`) rolls over into the next month, as the JavaScript engine does.
- **Revenue and sales count different invoices.** Revenue counts only the paid amounts
  of `Completed` invoices. Sales add the totals of every invoice of the period, whatever
  its status.
- **Current stock is not clamped at 0.** It is debits minus credits and may be negative.
  "Out of stock" means a current stock below 1.
- **Sale amounts can be counted more than once.** In `getTopSellingProducts` a product's
  `totalAmount` adds its invoice's `saleAmount` once for every line of that invoice that
  carries the product. It is not the line amount.

## Model

| member | source | states |
|---|---|---|
| `DashboardCont.ReplaceSlashes` | controller/dashboardCont.js:95 | Every `/` becomes `-` and every other character is kept, so an accepted day-form date becomes an ISO `YYYY-MM-DD` string. |
| `DashboardCont.ParseIsoDate` | controller/dashboardCont.js:96 | `new Date` yields an instant exactly when the month is in 1..12 and the day is in 1..31. |
| `DashboardCont.GetDateRange` | controller/dashboardCont.js:90-118 | Fails with 400 and the filter-type message exactly when the filter type is not `day`, `month` or `year`. Otherwise the period is well formed (start not after end). |
| `DashboardCont.DateRangeIsLocalUnit` | controller/dashboardCont.js:99-114 | For a readable date, an instant is in the period iff it lies in the same local day, month or year as UTC midnight of that date. For an unreadable date, no instant is in it. |
| `DashboardCont.SeparatorsDoNotMatter` | controller/dashboardCont.js:95-96 | Dates that differ only in their `-`/`/` separators resolve to the same period. |
| `DashboardCont.DayPeriodAnchoredAtUtcMidnight` | controller/dashboardCont.js:96-97 | For a valid calendar date, the anchor instant is on the requested local date at or east of UTC, and on the previous date west of UTC. |
| `DashboardCont.ResolveDayRequest` | controller/dashboardCont.js:130-148 | Failure order: a bad date format gives 400 with the date message, then a missing organization gives 404, then a bad filter type gives 400 with the filter-type message. A period results iff all three checks pass, and it is the range of the date in the organization's zone. |
| `DashboardCont.GetOverviewData` | controller/dashboardCont.js:124-217 | Fails exactly as the request resolution does. On success, the new-customer count never exceeds the number of customers. |
| `DashboardCont.OverviewSinglePass` | controller/dashboardCont.js:155-200 | Revenue is the paid amounts of the Completed invoices of the period; sales are the totals of all invoices of the period; expenses are the grand totals of the period's expenses; inventory value is stock times cost price of the items created in the period; new customers are the customers created in it. Each is one masked sum over all records. |
| `DashboardCont.OverviewOrderIndependent` | controller/dashboardCont.js:155-200 | Rearranging any of the fetched record lists leaves every overview total unchanged. |
| `DashboardCont.UnreadableDateGivesZeros` | controller/dashboardCont.js:155-200 | With the invalid period of an unreadable date, every overview total is zero. |
| `DashboardCont.GetSalesOverTime` | controller/dashboardCont.js:223-275 | Fails as the request resolution does. Otherwise it returns the sum of the totals of the invoices created in the period. |
| `DashboardCont.SalesOverTimeIsOverviewSales` | controller/dashboardCont.js:251-262 | For the same request, sales over time succeed exactly when the overview does, and report its `totalSales`. |
| `DashboardCont.AddCategoryTotal` | controller/dashboardCont.js:328-337 | One reducer call adds the expense's grand total to its category's entry, creating the entry at 0 first. |
| `DashboardCont.ReduceByCategory` | controller/dashboardCont.js:328-337 | The loop builds exactly the accumulator that the reduce specification gives for the expenses. |
| `DashboardCont.GetExpenseByCategory` | controller/dashboardCont.js:281-354 | Fails as the request resolution does. Otherwise it returns the category array of the expenses created in the period. |
| `DashboardCont.CategoryRows` | controller/dashboardCont.js:340-343 | One row per listed key, in that order, with that key's accumulated total. |
| `DashboardCont.CategoryTotalsPerCategory` | controller/dashboardCont.js:328-337 | A category has an entry iff some expense carries it. Its total is the sum of the grand totals of exactly the expenses in that category. |
| `DashboardCont.CategoryTotalsAddUp` | controller/dashboardCont.js:328-337 | The category totals together add up to the sum of all grand totals. |
| `DashboardCont.RowsTotals` | controller/dashboardCont.js:340-343 | The rows are empty iff there are no expenses. Each row has a non-blank category and that category's sum. |
| `DashboardCont.RowsCoverCategories` | controller/dashboardCont.js:340-343 | No category is listed twice, and every category of an expense is listed. |
| `DashboardCont.ExpenseCategoriesBuckets` | controller/dashboardCont.js:311-343 | The response array is empty iff no expense of the period has a non-blank category. Otherwise it has one entry per distinct category, none blank, each with its category's sum, and all entries add up to the grand totals of the kept expenses. |
| `DashboardCont.SortByTotalAmount` | controller/dashboardCont.js:396 | Sorts the invoice array in place into the stable descending order of total amount, keeping a sorted suffix that grows by one insertion per step. |
| `DashboardCont.SortedSuffixStep` | controller/dashboardCont.js:396 | Inserting the next invoice into the sorted suffix gives the sorted suffix that is one element longer. |
| `DashboardCont.InsertInvoice` | controller/dashboardCont.js:396 | One insertion step places an invoice after every invoice of the sorted suffix with a larger total and before the rest. It leaves the prefix untouched. |
| `DashboardCont.ShiftLarger` | controller/dashboardCont.js:396 | The inner loop shifts left, one place each, exactly the leading run of invoices with a larger total, and leaves the rest of the array as it was. |
| `DashboardCont.PlaceAfterShift` | controller/dashboardCont.js:396 | Writing the invoice into the vacated slot yields the stable insertion into the suffix. |
| `DashboardCont.SortedInvoices` | controller/dashboardCont.js:396 | The array holds the period's invoices in stable descending order of total amount. |
| `DashboardCont.CountInvoiceLines` | controller/dashboardCont.js:404-419 | The inner `forEach` over one invoice's lines builds the counts that the specification gives for those lines. |
| `DashboardCont.CountProducts` | controller/dashboardCont.js:403-420 | The nested `forEach` builds the product counts of all lines of the top invoices. |
| `DashboardCont.AddInvoiceSpend` | controller/dashboardCont.js:431-445 | An invoice with a customer adds its total to that customer's entry, created at 0 under the invoice's customer name. An invoice without a customer changes nothing. |
| `DashboardCont.SumCustomerSpend` | controller/dashboardCont.js:430-446 | The customer `forEach` over the sorted array builds exactly the specified customer spends. |
| `DashboardCont.RankProductsAndCustomers` | controller/dashboardCont.js:396-451 | The sort, slice, count and rank steps compute the specified top products and customers of the filtered invoices. |
| `DashboardCont.GetTopProductCustomer` | controller/dashboardCont.js:360-465 | Fails as the request resolution does. Otherwise it returns the top products and customers of the invoices created in the period. |
| `DashboardCont.CountPositive` | controller/dashboardCont.js:403-420 | Some line carries an item exactly when the count of such lines is positive. |
| `DashboardCont.ProductCountsPerItem` | controller/dashboardCont.js:403-420 | An item has an entry iff some line carries it. The entry holds the name on the first such line and the number of lines carrying it. |
| `DashboardCont.CustomerSpendsPerCustomer` | controller/dashboardCont.js:430-446 | A customer has an entry iff some invoice names it. The entry holds the name on its first invoice and the sum of the totals of all its invoices. |
| `DashboardCont.TopProductsCounted` | controller/dashboardCont.js:403-425 | At most five products are ranked, each counted over the given lines and carried by at least one of them. |
| `DashboardCont.TopCustomersSpent` | controller/dashboardCont.js:430-451 | At most seven customers are ranked, each with the total of all its invoices of the period. |
| `DashboardCont.TopProductsAndCustomersRanked` | controller/dashboardCont.js:396-451 | The response: at most five products in descending count order, each counted over the lines of the five largest invoices; at most seven customers in descending spend order, each with its true total. |
| `DashboardCont.TopProductsAndCustomersTies` | controller/dashboardCont.js:423-451 | Products and customers that tie keep the order in which they were first met. |
| `DashboardController.SplitOnSeparators` | controller/dashboardController.js:133 | The split always yields at least one piece. |
| `DashboardController.SplitCount` | controller/dashboardController.js:133 | A split has one more piece than the string has separators. |
| `DashboardController.SplitPiecesHaveNoSeparator` | controller/dashboardController.js:133 | No piece of a split contains a separator. |
| `DashboardController.SplitExtend` | controller/dashboardController.js:133 | Appending text without separators only extends the last piece. |
| `DashboardController.SplitMonthForm` | controller/dashboardController.js:133 | A month-form date splits into exactly its four year digits and its two month digits. |
| `DashboardController.MonthFields` | controller/dashboardController.js:133 | The year is the number the four year digits spell and the month the number the two month digits spell. So the year is below 10000 and the month below 100. |
| `DashboardController.ResolveMonthRequest` | controller/dashboardController.js:121-143 | Failure order: a bad format gives 400, then a missing organization gives 404. Otherwise the result is a period iff the year is non-zero and the month is in 1..12, and 400 with the year/month message if not. |
| `DashboardController.MonthPeriodIsLocalMonth` | controller/dashboardController.js:142-143 | The window starts at local midnight on the 1st. It holds exactly the instants whose local date is in that year and month. |
| `DashboardController.MonthWindowIsLocalMonth` | controller/dashboardController.js:130-143 | The resolved window of an accepted request is the month that the request's year digits and month digits name, in the organization's zone. |
| `DashboardController.MonthSeparatorDoesNotMatter` | controller/dashboardController.js:121-143 | `YYYY-MM` and `YYYY/MM` resolve the same way. |
| `DashboardController.GetOverviewData` | controller/dashboardController.js:115-194 | Fails as the month resolution does. On success, out-of-stock ≤ new items ≤ number of items. |
| `DashboardController.InventoryFromLedger` | controller/dashboardController.js:149-172 | Over the items created in the month: inventory value is the sum of ledger balance times cost price; item count is the sum of balances; out-of-stock counts those with balance below 1; new items counts them all. |
| `DashboardController.FilterAlike` | controller/dashboardController.js:150-167 | Filters and sums that agree element by element on two lists of equal length give equal lengths and equal sums. |
| `DashboardController.StockedItemsBalance` | controller/dashboardController.js:62-74 | Each enriched item is its item, with the ledger balance as its current stock. |
| `DashboardController.ItemMap` | controller/dashboardController.js:236 | Each id maps to an item with that id. |
| `DashboardController.ItemMapLookup` | controller/dashboardController.js:236 | The map holds an id iff some enriched item has it, and then holds the last item with that id. |
| `DashboardController.StockLabelOfItem` | controller/dashboardController.js:258-265 | A known item gets "Out of Stock" when its ledger balance is below 1 and "In Stock" otherwise, plus its own non-empty category and image. |
| `DashboardController.StockLabelOfUnknownItem` | controller/dashboardController.js:258-265 | An item missing from the map gets no category, no image and the label "undefined". |
| `DashboardController.TallyInvoiceLines` | controller/dashboardController.js:250-282 | The inner `forEach` over one invoice's lines builds the tally that the specification gives for those lines. |
| `DashboardController.TallySales` | controller/dashboardController.js:249-284 | The nested `forEach` builds the tally of all lines of the month's invoices. |
| `DashboardController.GetTopSellingProducts` | controller/dashboardController.js:200-298 | Fails as the month resolution does. Otherwise it returns the top five of the tally over the invoices created in the month. |
| `DashboardController.TallyLineEntry` | controller/dashboardController.js:267-281 | A line changes only the entry of the item it carries. It creates the entry from that line when new, and adds the line's quantity and its invoice's sale amount. |
| `DashboardController.ProductSalesPerItem` | controller/dashboardController.js:249-284 | An item has an entry iff some line carries it. The entry holds: the name on the first such line; the summed quantities; the invoices' sale amounts, once per carrying line; and the map's category, image and label. |
| `DashboardController.TopSalesSold` | controller/dashboardController.js:287-289 | At most five products are ranked, each with the sums over the lines that carry it. |
| `DashboardController.TopSellingRanked` | controller/dashboardController.js:249-289 | The response has at most five products, in descending order of quantity sold, each with its true sums. |
| `DashboardController.TopSellingTies` | controller/dashboardController.js:287-289 | Products that tie on quantity sold keep the order in which a line first carried them. |
| `Stock.DistinctIds` | controller/dashboardCont.js:43-55 | The group ids are distinct, and they are exactly the ids of the matched entries. |
| `Stock.TrackGroups` | controller/dashboardCont.js:43-55 | `$group` yields one group per item id. |
| `Stock.BuildStockMap` | controller/dashboardCont.js:57-67 | The reduce builds exactly the map that the specification gives from the groups. |
| `Stock.StockMapKeys` | controller/dashboardCont.js:57-67 | The map holds exactly the ids of the groups. |
| `Stock.StockMapValue` | controller/dashboardCont.js:57-67 | With distinct ids, each group's id maps to its debit total minus its credit total. |
| `Stock.Enrich` | controller/dashboardCont.js:70-82 | The enrichment keeps every item, in order. |
| `Stock.ItemsWithStock` | controller/dashboardCont.js:33-85 | Matching, grouping, reducing and enriching compute the specified enriched items. |
| `Stock.MatchedWhenEntries` | controller/dashboardCont.js:43-44 | An item of the `$match` set has matched entries iff it has ledger entries. |
| `Stock.TrackGroupIds` | controller/dashboardCont.js:43-55 | An item has a group iff some matched entry belongs to it. |
| `Stock.StockMapOfLedger` | controller/dashboardCont.js:43-67 | The stock map holds an item iff the item has ledger entries, and then holds its balance. |
| `Stock.CurrentStockIsBalance` | controller/dashboardCont.js:70-82 | Every item's current stock is debits minus credits over its ledger entries, and 0 when it has none. |
| `Stock.StockOrderIndependent` | controller/dashboardCont.js:33-85 | Rearranging the ledger changes no item's current stock. |
| `Periods.UnitWindow` | controller/dashboardCont.js:99-114 | `[startOf, endOf]` around an instant contains it, and holds exactly the instants in the same local unit. |
| `Periods.UnitSpan` | controller/dashboardCont.js:99-114 | The window lasts one day, the month's days or the year's days. |
| `Periods.UtcMidnightLocalDay` | controller/dashboardCont.js:96-97 | UTC midnight falls on the same local day east of UTC and on the previous day west of it. |
| `Periods.MidnightLocalDay` | controller/dashboardController.js:142 | Local midnight of a day falls on that day. |
| `Periods.Within` | controller/dashboardCont.js:155-158 | The filter keeps exactly the records inside the period, never invents one, and keeps none for an invalid period. |
| `Calendar.DateOfEpochDay` | controller/dashboardCont.js:96 | A valid date's day number converts back to the same date. |
| `Calendar.EpochDayInjective` | controller/dashboardCont.js:96 | Distinct valid dates have distinct day numbers. |
| `Calendar.YearDays` | controller/dashboardCont.js:106-109 | A day number falls in a year iff it lies between that year's first day and the next year's. |
| `Calendar.MonthDays` | controller/dashboardCont.js:101-104 | A day number falls in a month iff it lies between that month's first day and the next month's. |
| `Ranking.SortDesc` | controller/dashboardCont.js:396 | The sort is a permutation of its input, in descending key order. |
| `Ranking.SortDescStable` | controller/dashboardCont.js:396 | Among equal keys, the sort keeps the original order. |
| `Ranking.TopN` | controller/dashboardCont.js:396-398 | `slice(0, n)` after the sort keeps `min(n, length)` entries, sorted and drawn from the input. |
| `Ranking.TopNKeepsLargest` | controller/dashboardCont.js:396-398 | No entry left out has a larger key than an entry kept. |
| `Ranking.InsertDescAt` | controller/dashboardCont.js:396 | An element is inserted right after the leading run of elements with a larger key. |
| `Ranking.TopNStable` | controller/dashboardCont.js:396-398 | The kept ties are a prefix of the input's ties, in order. |
| `Grouping.Put` | controller/dashboardCont.js:333-335 | An assignment sets the entry. A new key joins the end of the key order; an existing key keeps its place. |
| `Grouping.OwnKeyOrder` | controller/dashboardCont.js:340-343 | `Object.entries` lists a rearrangement of the keys. |
| `Grouping.OwnKeyOrderWithoutIndices` | controller/dashboardCont.js:340-343 | Without array-index keys, `Object.entries` keeps insertion order. |
| `Grouping.LongKeyIsNotArrayIndex` | controller/dashboardCont.js:423 | A key of 11 or more characters, such as an ObjectId string, is never an array index. |
| `Grouping.ObjectValuesInInsertionOrder` | controller/dashboardCont.js:423 | With ObjectId keys, `Object.values` lists values in key-insertion order. |
| `Grouping.PutGrandSum` | controller/dashboardCont.js:333-335 | Setting a key's total changes the sum of all totals by the difference. |
| `Grouping.TopValuesHold` | controller/dashboardCont.js:423-425 | What every dictionary value satisfies, every ranked value satisfies. |
| `Grouping.TopValuesKeepInsertionOrder` | controller/dashboardCont.js:423-425 | With ObjectId keys, the ranked values that tie are in key-insertion order. |
| `Folds.SumPermutation` | controller/dashboardCont.js:163-165 | A sum does not depend on the order of the summed records. |
| `Folds.SumFilter` | controller/dashboardCont.js:163-165 | Summing after a filter equals one masked sum over all records. |
| `Folds.FilterPartition` | controller/dashboardCont.js:155-158 | A filter is a sub-multiset of its input, and two complementary filters together rebuild it. |

## Left out

- Database queries (`dataExist`, `Item.find`, `ItemTrack.aggregate`, `Invoice.find`, and so on)
  are parameters: each handler receives the records these queries return.
  - The model lists the `$group` results in order of first appearance. The database leaves
    their order open, and every property proved does not depend on it.
- `DashboardController.GetOverviewData` receives a single `items` sequence. The source reads
  the organization's items twice:
  - once through `dataExist` (`allItem`), for the new-item count;
  - once through `xsItemDataExists` (`enrichedItems`), for the stock metrics.

  The model assumes both reads see the same collection, with no write between them. The
  bound `totalOutOfStock <= newItems` depends on that assumption.
- The Express layer, `req.user`, logging, and the 500 answers of the `catch` blocks are left
  out.
- Time zones are fixed offsets (`ZoneOffset`). IANA zone rules and daylight-saving changes
  inside a period are not modelled.
- Amounts are `real`:
  - floating-point rounding is not modelled;
  - `parseFloat(x) || 0` is an optional number that defaults to 0;
  - the `toFixed(2)` formatting of the response is left out.
- `invoice.totalAmount` is always a number in the model. A missing or non-numeric total
  would make the `+=` and the sort comparator produce `NaN`.
- `lastEntry`, the `$sort` stage and the per-group `data` array of `xsItemDataExists` are not
  modelled. The handlers never read them.
- Prototype keys (`__proto__`, `constructor`) as category names are not modelled. Every key
  is treated as an own data property.
- `DashboardController.MonthPeriod`: years below 1000 are treated as a normal month. In
  the source, `${year}` loses its four-digit form for such years, so moment parses a
  non-ISO string.
- `getDateRange` in `controller/dashboardController.js:82-110` is never called, so it is
  not modelled separately. It is the same as the one in `dashboardCont.js`, which is
  modelled.
- The commented-out variant of `getTopSellingProducts` at
  `controller/dashboardController.js:304-438` is dead code and is not modelled.
- Retention, churn and average order value are not computed in the two controller files, so
  they are not part of this model.
- `DashboardCont.GetDateRange`: its contract does not say which period results. That
  period is stated separately by `DashboardCont.DateRangeIsLocalUnit` and
  `Periods.UnitWindow`.
