/**
 * controller/dashboardController.js: the handlers that take a `YYYY-MM` (or `YYYY/MM`) month,
 * resolve it to that month of the organization's zone and compute the inventory overview of
 * the items created in it, and the five best-selling products of its invoices.
 */
module DashboardController {
  import opened Wrappers
  import opened Text
  import opened Calendar
  import opened Periods
  import opened Folds
  import opened Ranking
  import opened Grouping
  import opened Records
  import opened Stock

  const MONTH_FORMAT_MESSAGE := "Invalid date format. Use YYYY/MM or YYYY-MM."
  const YEAR_MONTH_MESSAGE := "Invalid year or month in date."

  // ---------------------------------------------------------------------------------------
  // The month request

  /** `/^\d{4}[-/]\d{2}$/.test(s)`. */
  predicate IsMonthForm(s: string) {
    && |s| == 7
    && AllDigits(s[..4])
    && IsSeparator(s[4])
    && AllDigits(s[5..])
  }

  /** The guard `!date || !regex.test(date)` lets a request through. */
  predicate AcceptsMonth(date: Option<string>) {
    date.Some? && IsMonthForm(date.value)
  }

  /** Number of separators in `s`. */
  function Separators(s: string): nat {
    if s == [] then 0 else Separators(s[..|s| - 1]) + if IsSeparator(s[|s| - 1]) then 1 else 0
  }

  /**
   * `s.split(/[-/]/)`: the pieces between the separators, in order, one more than there are
   * separators (an empty piece where two separators meet or one ends the string).
   */
  function SplitOnSeparators(s: string): (r: seq<string>)
    ensures |r| > 0
    decreases |s|
  {
    if s == [] then [""]
    else
      var rest := SplitOnSeparators(s[..|s| - 1]);
      if IsSeparator(s[|s| - 1]) then rest + [""]
      else ExtendLast(rest, [s[|s| - 1]])
  }

  /** A split has one more piece than the string has separators. */
  lemma {:induction false} SplitCount(s: string)
    ensures |SplitOnSeparators(s)| == Separators(s) + 1
    decreases |s|
  {
    if s != [] {
      SplitCount(s[..|s| - 1]);
    }
  }

  /** Appends `b` to the last piece. */
  function ExtendLast(r: seq<string>, b: string): (r': seq<string>)
    requires |r| > 0
    ensures |r'| == |r|
  {
    r[..|r| - 1] + [r[|r| - 1] + b]
  }

  lemma ExtendLastEmpty(r: seq<string>)
    requires |r| > 0
    ensures ExtendLast(r, "") == r
  {
    assert r[|r| - 1] + "" == r[|r| - 1];
  }

  lemma ExtendLastTwice(r: seq<string>, a: string, b: string)
    requires |r| > 0
    ensures ExtendLast(ExtendLast(r, a), b) == ExtendLast(r, a + b)
  {
    var r' := ExtendLast(r, a);
    assert r'[..|r'| - 1] == r[..|r| - 1];
    assert r'[|r'| - 1] + b == r[|r| - 1] + (a + b);
  }

  /** No character of `p` is a separator. */
  predicate NoSeparator(p: string) {
    forall j :: 0 <= j < |p| ==> !IsSeparator(p[j])
  }

  /** No piece of a split holds a separator. */
  lemma {:induction false} SplitPiecesHaveNoSeparator(s: string)
    ensures forall i :: 0 <= i < |SplitOnSeparators(s)| ==> NoSeparator(SplitOnSeparators(s)[i])
    decreases |s|
  {
    if s != [] {
      var init, c := s[..|s| - 1], s[|s| - 1];
      assert init + [c] == s;
      SplitPiecesHaveNoSeparator(init);
      var rest := SplitOnSeparators(init);
      var r := SplitOnSeparators(s);
      if IsSeparator(c) {
        SplitSnocSeparator(init, c);
        assert r == rest + [""];
        forall i | 0 <= i < |r|
          ensures NoSeparator(r[i])
        {
          if i < |rest| {
            assert r[i] == rest[i];
          }
        }
      } else {
        var last := rest[|rest| - 1] + [c];
        SplitSnocOther(init, c);
        assert r == rest[..|rest| - 1] + [last];
        assert NoSeparator(last) by {
          forall j | 0 <= j < |last|
            ensures !IsSeparator(last[j])
          {
            if j < |last| - 1 {
              assert last[j] == rest[|rest| - 1][j];
            }
          }
        }
        forall i | 0 <= i < |r|
          ensures NoSeparator(r[i])
        {
          if i < |r| - 1 {
            assert r[i] == rest[i];
          }
        }
      }
    }
  }

  lemma NoSeparatorInit(b: string)
    requires b != [] && NoSeparator(b)
    ensures NoSeparator(b[..|b| - 1]) && !IsSeparator(b[|b| - 1])
  {
    var init := b[..|b| - 1];
    forall i | 0 <= i < |init|
      ensures !IsSeparator(init[i])
    {
      assert init[i] == b[i];
    }
  }

  /** Characters without a separator among them all go to the last piece. */
  lemma {:induction false} SplitExtend(p: string, b: string)
    requires NoSeparator(b)
    ensures SplitOnSeparators(p + b) == ExtendLast(SplitOnSeparators(p), b)
    decreases |b|
  {
    var r := SplitOnSeparators(p);
    if b == [] {
      assert p + b == p;
      ExtendLastEmpty(r);
    } else {
      var init, c := b[..|b| - 1], b[|b| - 1];
      NoSeparatorInit(b);
      SplitExtend(p, init);
      SplitSnocOther(p + init, c);
      assert (p + init) + [c] == p + b;
      ExtendLastTwice(r, init, [c]);
      assert init + [c] == b;
    }
  }

  /** A separator starts a new, empty piece. */
  lemma SplitSnocSeparator(s: string, c: char)
    requires IsSeparator(c)
    ensures SplitOnSeparators(s + [c]) == SplitOnSeparators(s) + [""]
  {
    assert (s + [c])[..|s|] == s;
  }

  /** Any other character extends the last piece. */
  lemma SplitSnocOther(s: string, c: char)
    requires !IsSeparator(c)
    ensures SplitOnSeparators(s + [c]) == ExtendLast(SplitOnSeparators(s), [c])
  {
    assert (s + [c])[..|s|] == s;
  }

  /** A month-form date splits into its four year digits and its two month digits. */
  lemma SplitMonthForm(s: string)
    requires IsMonthForm(s)
    ensures SplitOnSeparators(s) == [s[..4], s[5..]]
  {
    DigitsHaveNoSeparator(s[..4]);
    DigitsHaveNoSeparator(s[5..]);
    assert s == s[..4] + [s[4]] + s[5..];
    SplitTwoPieces(s[..4], s[4], s[5..]);
  }

  lemma DigitsHaveNoSeparator(s: string)
    requires AllDigits(s)
    ensures NoSeparator(s)
  {
    forall i | 0 <= i < |s|
      ensures !IsSeparator(s[i])
    {
      assert IsDigit(s[i]);
    }
  }

  /** Two runs without separators joined by one separator split into the two runs. */
  lemma SplitTwoPieces(a: string, c: char, b: string)
    requires NoSeparator(a) && IsSeparator(c) && NoSeparator(b)
    ensures SplitOnSeparators(a + [c] + b) == [a, b]
  {
    SplitExtend("", a);
    assert "" + a == a;
    assert SplitOnSeparators(a) == [a];
    SplitSnocSeparator(a, c);
    assert SplitOnSeparators(a + [c]) == [a, ""];
    SplitExtend(a + [c], b);
    assert "" + b == b;
  }

  /** `let [year, month] = date.split(/[-/]/).map(Number)` on a month-form date. */
  function MonthFields(s: string): (r: (nat, nat))
    requires IsMonthForm(s)
    ensures r == (DigitsValue(s[..4]), DigitsValue(s[5..]))
    ensures r.0 < 10000 && r.1 < 100
  {
    SplitMonthForm(s);
    var pieces := SplitOnSeparators(s);
    DigitsBound(pieces[0]);
    DigitsBound(pieces[1]);
    (DigitsValue(pieces[0]), DigitsValue(pieces[1]))
  }

  /** A string of `k` digits is worth less than `10^k`. */
  lemma {:induction false} DigitsBound(s: string)
    requires AllDigits(s)
    ensures DigitsValue(s) < Pow10(|s|)
    decreases |s|
  {
    if s != [] {
      DigitsBound(s[..|s| - 1]);
    }
  }

  /**
   * `!year || !month || month < 1 || month > 12` lets the month through: `!month` never
   * holds once the month has been padded to a non-empty string, and the comparisons read it
   * back as a number.
   */
  predicate ValidYearMonth(year: nat, month: nat) {
    year != 0 && 1 <= month <= 12
  }

  /**
   * `moment.tz(`${year}-${month}-01`, zone).startOf("month")` and `moment(startDate).endOf("month")`:
   * from local midnight on the first of the month to the last millisecond of the month.
   */
  function MonthPeriod(year: int, month: int, offset: int): Period
    requires 1 <= month <= 12
  {
    var firstOfMonth := Midnight(EpochDay(Date(year, month, 1)), offset);
    var start := StartOf(firstOfMonth, offset, Month);
    Between(start, EndOf(start, offset, Month))
  }

  /**
   * The checks `getOverviewData` and `getTopSellingProducts` make before computing anything,
   * in their order: the format guard (400), the organization lookup (404), then the year and
   * month check (400).
   */
  function ResolveMonthRequest(date: Option<string>, org: Option<Organization>): (r: Result<Period, Failure>)
    ensures !AcceptsMonth(date) ==> r == Err(Failure(400, MONTH_FORMAT_MESSAGE))
    ensures AcceptsMonth(date) && org.None? ==> r == Err(ORGANIZATION_NOT_FOUND)
    ensures AcceptsMonth(date) && org.Some? ==>
              var (year, month) := MonthFields(date.value);
              (r.Ok? <==> ValidYearMonth(year, month))
              && (r.Err? ==> r.error == Failure(400, YEAR_MONTH_MESSAGE))
  {
    if !AcceptsMonth(date) then Err(Failure(400, MONTH_FORMAT_MESSAGE))
    else if org.None? then Err(ORGANIZATION_NOT_FOUND)
    else
      var (year, month) := MonthFields(date.value);
      if !ValidYearMonth(year, month) then Err(Failure(400, YEAR_MONTH_MESSAGE))
      else Ok(MonthPeriod(year, month, ZoneOffset(org.value)))
  }

  /**
   * The month's window holds exactly the instants whose local date in the zone lies in that
   * year and month, and it starts at local midnight on the first.
   */
  lemma MonthPeriodIsLocalMonth(year: int, month: int, offset: int, s: int)
    requires 1 <= month <= 12
    ensures var p := MonthPeriod(year, month, offset);
            && p.Between?
            && LocalDate(p.start, offset) == Date(year, month, 1)
            && (InPeriod(s, p) <==> LocalDate(s, offset).year == year && LocalDate(s, offset).month == month)
  {
    var first := Date(year, month, 1);
    var t := Midnight(EpochDay(first), offset);
    MidnightLocalDay(EpochDay(first), offset);
    DateOfEpochDay(first);
    assert FirstDayOf(EpochDay(first), Month) == EpochDay(first);
    assert StartOf(t, offset, Month) == t;
    UnitWindow(t, offset, Month, s);
  }

  /**
   * The resolved window is the month that the request's digits name, in the organization's
   * zone: the first four digits are the year and the last two the month.
   */
  lemma MonthWindowIsLocalMonth(date: string, org: Organization, s: int)
    requires IsMonthForm(date)
    requires ResolveMonthRequest(Some(date), Some(org)).Ok?
    ensures var year, month := DigitsValue(date[..4]), DigitsValue(date[5..]);
            var offset := ZoneOffset(org);
            var p := ResolveMonthRequest(Some(date), Some(org)).value;
            && p.Between?
            && LocalDate(p.start, offset) == Date(year, month, 1)
            && (InPeriod(s, p) <==> LocalDate(s, offset).year == year && LocalDate(s, offset).month == month)
  {
    var (year, month) := MonthFields(date);
    MonthPeriodIsLocalMonth(year, month, ZoneOffset(org), s);
  }

  /** Month-form dates that differ only in their separator resolve the same way. */
  lemma MonthSeparatorDoesNotMatter(a: string, b: string, org: Option<Organization>)
    requires IsMonthForm(a) && IsMonthForm(b)
    requires a[..4] == b[..4] && a[5..] == b[5..]
    ensures ResolveMonthRequest(Some(a), org) == ResolveMonthRequest(Some(b), org)
  {
    SplitMonthForm(a);
    SplitMonthForm(b);
  }

  // ---------------------------------------------------------------------------------------
  // getOverviewData

  /** The response body of `getOverviewData`. */
  datatype InventoryOverview = InventoryOverview(
    totalInventoryValue: real,
    totalItemCount: real,
    totalOutOfStock: nat,
    newItems: nat)

  /** `item.createdDateTime` of an item of `allItem`. */
  function ItemTime(it: Item): int {
    it.createdAt
  }

  /** `parseFloat(item.currentStock) || 0`. */
  function CurrentStock(x: StockedItem): real {
    x.currentStock
  }

  /** `item.currentStock < 1`. */
  predicate IsOutOfStock(x: StockedItem) {
    x.currentStock < 1.0
  }

  /**
   * The four metrics over the period: value, stock and out-of-stock count of the enriched
   * items created in it, and the number of the organization's items created in it.
   */
  function InventoryOverviewIn(p: Period, items: seq<Item>, enriched: seq<StockedItem>): InventoryOverview {
    var filtered := Within(enriched, StockedTime, p);
    InventoryOverview(
      Sum(filtered, StockValue),
      Sum(filtered, CurrentStock),
      Count(filtered, IsOutOfStock),
      |Within(items, ItemTime, p)|)
  }

  /** `getOverviewData` once the organization, its items and its stock ledger have been fetched. */
  function GetOverviewData(
    date: Option<string>, org: Option<Organization>, items: seq<Item>, ledger: seq<StockMovement>)
    : (r: Result<InventoryOverview, Failure>)
    ensures var range := ResolveMonthRequest(date, org);
            (r.Err? <==> range.Err?) && (r.Err? ==> r.error == range.error)
    ensures r.Ok? ==> r.value.totalOutOfStock <= r.value.newItems <= |items|
  {
    match ResolveMonthRequest(date, org)
    case Err(e) => Err(e)
    case Ok(p) =>
      InventoryFromLedger(p, items, ledger);
      Ok(InventoryOverviewIn(p, items, StockedItems(items, ledger)))
  }

  /** An item's current stock, as the ledger gives it. */
  function LedgerStock(ledger: seq<StockMovement>): Item -> real {
    (it: Item) => Balance(ledger, it.id)
  }

  /** An item's stock value, as the ledger and its cost price give it. */
  function LedgerValue(ledger: seq<StockMovement>): Item -> real {
    (it: Item) => ValueAt(Balance(ledger, it.id), it.costPrice)
  }

  function LedgerOutOfStock(ledger: seq<StockMovement>): Item -> bool {
    (it: Item) => Balance(ledger, it.id) < 1.0
  }

  /**
   * Filtering two sequences that agree element by element on the filter, and summing where
   * they agree on the summand, gives the same sum and the same length.
   */
  lemma {:induction false} FilterAlike<A, B>(a: seq<A>, b: seq<B>, p: A -> bool, q: B -> bool, f: A -> real, g: B -> real)
    requires |a| == |b|
    requires forall i :: 0 <= i < |a| ==> p(a[i]) == q(b[i])
    requires forall i :: 0 <= i < |a| && p(a[i]) ==> f(a[i]) == g(b[i])
    ensures |Filter(a, p)| == |Filter(b, q)|
    ensures Sum(Filter(a, p), f) == Sum(Filter(b, q), g)
  {
    if a != [] {
      var a', b' := a[1..], b[1..];
      forall i | 0 <= i < |a'|
        ensures p(a'[i]) == q(b'[i]) && (p(a'[i]) ==> f(a'[i]) == g(b'[i]))
      {
        assert a'[i] == a[i + 1] && b'[i] == b[i + 1];
      }
      FilterAlike(a', b', p, q, f, g);
      var fa, fb := Filter(a', p), Filter(b', q);
      assert p(a[0]) == q(b[0]);
      if p(a[0]) {
        assert Filter(a, p) == [a[0]] + fa;
        assert Filter(b, q) == [b[0]] + fb;
        assert ([a[0]] + fa)[1..] == fa;
        assert ([b[0]] + fb)[1..] == fb;
      } else {
        assert Filter(a, p) == fa;
        assert Filter(b, q) == fb;
      }
    }
  }

  /** Each enriched item is its item, with the ledger's balance for it as current stock. */
  lemma StockedItemsBalance(items: seq<Item>, ledger: seq<StockMovement>)
    ensures var enriched := StockedItems(items, ledger);
            && |enriched| == |items|
            && forall i :: 0 <= i < |items| ==>
                 enriched[i].item == items[i] && enriched[i].currentStock == Balance(ledger, items[i].id)
  {
    forall i | 0 <= i < |items|
      ensures StockedItems(items, ledger)[i].currentStock == Balance(ledger, items[i].id)
    {
      CurrentStockIsBalance(items, ledger, i);
    }
  }

  /** What the overview's filter and sums see of an enriched item, they see of its item and the ledger. */
  lemma StockedItemsAlike(enriched: seq<StockedItem>, items: seq<Item>, ledger: seq<StockMovement>, p: Period)
    requires |enriched| == |items|
    requires forall i :: 0 <= i < |items| ==>
               enriched[i].item == items[i] && enriched[i].currentStock == Balance(ledger, items[i].id)
    ensures forall i :: 0 <= i < |items| ==>
              InWindow(StockedTime, p)(enriched[i]) == InWindow(ItemTime, p)(items[i])
    ensures forall i :: 0 <= i < |items| ==> CurrentStock(enriched[i]) == LedgerStock(ledger)(items[i])
    ensures forall i :: 0 <= i < |items| ==> StockValue(enriched[i]) == LedgerValue(ledger)(items[i])
    ensures forall i :: 0 <= i < |items| ==>
              Masked(IsOutOfStock, One)(enriched[i]) == Masked(LedgerOutOfStock(ledger), One)(items[i])
  {
    forall i | 0 <= i < |items|
      ensures InWindow(StockedTime, p)(enriched[i]) == InWindow(ItemTime, p)(items[i])
      ensures CurrentStock(enriched[i]) == LedgerStock(ledger)(items[i])
      ensures StockValue(enriched[i]) == LedgerValue(ledger)(items[i])
      ensures Masked(IsOutOfStock, One)(enriched[i]) == Masked(LedgerOutOfStock(ledger), One)(items[i])
    {
      StockedItemAlike(enriched[i], items[i], ledger, p);
    }
  }

  lemma StockedItemAlike(x: StockedItem, it: Item, ledger: seq<StockMovement>, p: Period)
    requires x.item == it && x.currentStock == Balance(ledger, it.id)
    ensures InWindow(StockedTime, p)(x) == InWindow(ItemTime, p)(it)
    ensures CurrentStock(x) == LedgerStock(ledger)(it)
    ensures StockValue(x) == LedgerValue(ledger)(it)
    ensures Masked(IsOutOfStock, One)(x) == Masked(LedgerOutOfStock(ledger), One)(it)
  {
    var balance := Balance(ledger, it.id);
    assert StockedTime(x) == ItemTime(it);
    OutOfStockAlike(x, it, ledger, balance);
  }

  lemma OutOfStockAlike(x: StockedItem, it: Item, ledger: seq<StockMovement>, balance: real)
    requires balance == Balance(ledger, it.id) == x.currentStock
    ensures Masked(IsOutOfStock, One)(x) == Masked(LedgerOutOfStock(ledger), One)(it)
  {
    assert IsOutOfStock(x) == (balance < 1.0) == LedgerOutOfStock(ledger)(it);
    assert One(x) == 1.0 && One(it) == 1.0;
    assert Masked(IsOutOfStock, One)(x) == if IsOutOfStock(x) then 1.0 else 0.0;
    assert Masked(LedgerOutOfStock(ledger), One)(it) == if LedgerOutOfStock(ledger)(it) then 1.0 else 0.0;
  }

  /**
   * The overview, from the items and the ledger alone: inventory value is the sum of
   * balance times cost price, and item count the sum of balances, over the items created in
   * the period; out-of-stock counts those of them whose balance is below 1, and new items
   * counts them all, so it is never below the out-of-stock count.
   */
  lemma {:induction false} InventoryFromLedger(p: Period, items: seq<Item>, ledger: seq<StockMovement>)
    ensures var o := InventoryOverviewIn(p, items, StockedItems(items, ledger));
            var created := Within(items, ItemTime, p);
            && o.totalInventoryValue == Sum(created, LedgerValue(ledger))
            && o.totalItemCount == Sum(created, LedgerStock(ledger))
            && o.totalOutOfStock == Count(created, LedgerOutOfStock(ledger))
            && o.newItems == |created|
            && o.totalOutOfStock <= o.newItems <= |items|
  {
    var enriched := StockedItems(items, ledger);
    var inWindow, created := InWindow(StockedTime, p), InWindow(ItemTime, p);
    StockedItemsBalance(items, ledger);
    StockedItemsAlike(enriched, items, ledger, p);
    FilterAlike(enriched, items, inWindow, created, StockValue, LedgerValue(ledger));
    FilterAlike(enriched, items, inWindow, created, CurrentStock, LedgerStock(ledger));
    FilterAlike(enriched, items, inWindow, created,
                Masked(IsOutOfStock, One), Masked(LedgerOutOfStock(ledger), One));
    CountAsSum(Filter(enriched, inWindow), IsOutOfStock);
    CountAsSum(Filter(items, created), LedgerOutOfStock(ledger));
  }

  // ---------------------------------------------------------------------------------------
  // getTopSellingProducts

  /** One entry of `topProducts`. */
  datatype ProductSales = ProductSales(
    itemId: ObjectId,
    itemName: string,
    totalSold: real,
    totalAmount: real,
    category: Option<string>,
    itemImage: Option<string>,
    currentStock: string)

  /** `b.totalSold - a.totalSold`: the sort key. */
  function Sold(p: ProductSales): real {
    p.totalSold
  }

  /** `item.quantity || 0`. */
  function Quantity(l: InvoiceLine): real {
    l.line.quantity.GetOr(0.0)
  }

  /** `inv.saleAmount || 0`, added once for every line of the invoice that carries an item. */
  function LineSaleAmount(l: InvoiceLine): real {
    l.invoice.saleAmount.GetOr(0.0)
  }

  /** `new Map(enrichedItems.map(item => [item._id.toString(), item]))`: a later item with the same id replaces an earlier one. */
  function ItemMap(enriched: seq<StockedItem>): (m: map<ObjectId, StockedItem>)
    ensures forall k :: k in m ==> m[k].item.id == k
    decreases |enriched|
  {
    if enriched == [] then map[]
    else
      var x := enriched[|enriched| - 1];
      ItemMap(enriched[..|enriched| - 1])[x.item.id := x]
  }

  /** `enrichedItem?.categories || null`. */
  function CategoryOf(itemMap: map<ObjectId, StockedItem>, id: ObjectId): Option<string> {
    if id in itemMap then NonEmpty(itemMap[id].item.categories) else None
  }

  /** `enrichedItem?.itemImage || null`. */
  function ImageOf(itemMap: map<ObjectId, StockedItem>, id: ObjectId): Option<string> {
    if id in itemMap then NonEmpty(itemMap[id].item.itemImage) else None
  }

  /** `enrichedItem ? (enrichedItem.currentStock < 1 ? "Out of Stock" : "In Stock") : "undefined"`. */
  function StockLabel(itemMap: map<ObjectId, StockedItem>, id: ObjectId): string {
    if id !in itemMap then "undefined"
    else if itemMap[id].currentStock < 1.0 then "Out of Stock"
    else "In Stock"
  }

  /** The entry a product gets when a line first carries it: name from that line, sums at 0. */
  function FirstSight(l: InvoiceLine, id: ObjectId, itemMap: map<ObjectId, StockedItem>): ProductSales {
    ProductSales(id, ProductName(l), 0.0, 0.0, CategoryOf(itemMap, id), ImageOf(itemMap, id), StockLabel(itemMap, id))
  }

  /** The body of the inner `forEach` for one line: a line with an item adds its quantity and its invoice's sale amount. */
  function TallyLine(acc: Groups<ProductSales>, l: InvoiceLine, itemMap: map<ObjectId, StockedItem>): Groups<ProductSales> {
    match l.line.item
    case None => acc
    case Some(ref) =>
      var seen := if ref.id in acc.entries then acc.entries[ref.id] else FirstSight(l, ref.id, itemMap);
      Put(acc, ref.id, seen.(totalSold := seen.totalSold + Quantity(l), totalAmount := seen.totalAmount + LineSaleAmount(l)))
  }

  /** The `topProducts` object `acc` once the inner `forEach` has gone on through `lines`. */
  function TallyLines(acc: Groups<ProductSales>, lines: seq<InvoiceLine>, itemMap: map<ObjectId, StockedItem>)
    : (r: Groups<ProductSales>)
    ensures Valid(acc) ==> Valid(r)
    ensures (forall i :: 0 <= i < |acc.order| ==> |acc.order[i]| == 24) ==>
            (forall i :: 0 <= i < |r.order| ==> |r.order[i]| == 24)
    decreases |lines|
  {
    if lines == [] then acc
    else TallyLine(TallyLines(acc, lines[..|lines| - 1], itemMap), lines[|lines| - 1], itemMap)
  }

  /** The `topProducts` object once the nested `forEach` has gone through `lines`. */
  function ProductSalesOf(lines: seq<InvoiceLine>, itemMap: map<ObjectId, StockedItem>): (acc: Groups<ProductSales>)
    ensures Valid(acc)
    ensures forall i :: 0 <= i < |acc.order| ==> |acc.order[i]| == 24
  {
    TallyLines(Empty(), lines, itemMap)
  }

  lemma ProductSalesSnoc(lines: seq<InvoiceLine>, l: InvoiceLine, itemMap: map<ObjectId, StockedItem>)
    ensures ProductSalesOf(lines + [l], itemMap) == TallyLine(ProductSalesOf(lines, itemMap), l, itemMap)
  {
    assert (lines + [l])[..|lines|] == lines;
  }

  lemma {:induction false} TallyLinesAppend(
    acc: Groups<ProductSales>, a: seq<InvoiceLine>, b: seq<InvoiceLine>, itemMap: map<ObjectId, StockedItem>)
    ensures TallyLines(acc, a + b, itemMap) == TallyLines(TallyLines(acc, a, itemMap), b, itemMap)
    decreases |b|
  {
    if b == [] {
      assert a + b == a;
    } else {
      var b' := b[..|b| - 1];
      assert (a + b)[..|a + b| - 1] == a + b';
      TallyLinesAppend(acc, a, b', itemMap);
    }
  }

  /** The response for the invoices of the month: the five products sold in the largest quantities. */
  function TopSellingOf(filtered: seq<Invoice>, enriched: seq<StockedItem>): seq<ProductSales> {
    TopN(ObjectValues(ProductSalesOf(LinesOf(filtered), ItemMap(enriched))), Sold, 5)
  }

  /** The inner `forEach` over one more line is one more step of its body. */
  lemma TallyLinesPrefix(acc: Groups<ProductSales>, lines: seq<InvoiceLine>, j: int, itemMap: map<ObjectId, StockedItem>)
    requires 0 <= j < |lines|
    ensures TallyLines(acc, lines[..j + 1], itemMap) == TallyLine(TallyLines(acc, lines[..j], itemMap), lines[j], itemMap)
  {
    assert lines[..j + 1][..j] == lines[..j];
  }

  /** The inner `forEach` over the lines of one invoice. */
  method TallyInvoiceLines(tallied: Groups<ProductSales>, inv: Invoice, itemMap: map<ObjectId, StockedItem>)
    returns (topProducts: Groups<ProductSales>)
    ensures topProducts == TallyLines(tallied, LinesOfInvoice(inv), itemMap)
  {
    topProducts := tallied;
    ghost var lines := LinesOfInvoice(inv);
    var j := 0;
    while j < |inv.lines|
      invariant 0 <= j <= |inv.lines|
      invariant topProducts == TallyLines(tallied, lines[..j], itemMap)
    {
      ghost var before := topProducts;
      var item := inv.lines[j].item;
      if item.Some? {
        var itemId := item.value.id;
        var itemName := OrDefault(item.value.itemName, "Undefined");
        var itemQuantity := inv.lines[j].quantity.GetOr(0.0);
        var totalAmount := inv.saleAmount.GetOr(0.0);
        var category := CategoryOf(itemMap, itemId);
        var itemImage := ImageOf(itemMap, itemId);
        var currentStock := StockLabel(itemMap, itemId);
        var initial := ProductSales(itemId, itemName, 0.0, 0.0, category, itemImage, currentStock);
        if itemId !in topProducts.entries {
          topProducts := Put(topProducts, itemId, initial);
        }
        var entry := topProducts.entries[itemId];
        var updated := entry.(totalSold := entry.totalSold + itemQuantity, totalAmount := entry.totalAmount + totalAmount);
        topProducts := Put(topProducts, itemId, updated);
        PutTwice(before, itemId, initial, updated);
      }
      assert topProducts == TallyLine(before, lines[j], itemMap);
      TallyLinesPrefix(tallied, lines, j, itemMap);
      j := j + 1;
    }
    assert lines[..j] == lines;
  }

  /** The nested `forEach` over the invoices of the month that fills `topProducts`. */
  method TallySales(filteredInvoices: seq<Invoice>, itemMap: map<ObjectId, StockedItem>)
    returns (topProducts: Groups<ProductSales>)
    ensures topProducts == ProductSalesOf(LinesOf(filteredInvoices), itemMap)
  {
    topProducts := Empty();
    var i := 0;
    while i < |filteredInvoices|
      invariant 0 <= i <= |filteredInvoices|
      invariant topProducts == ProductSalesOf(LinesOf(filteredInvoices[..i]), itemMap)
    {
      topProducts := TallyInvoiceLines(topProducts, filteredInvoices[i], itemMap);
      TallyLinesAppend(Empty(), LinesOf(filteredInvoices[..i]), LinesOfInvoice(filteredInvoices[i]), itemMap);
      assert filteredInvoices[..i + 1][..i] == filteredInvoices[..i];
      i := i + 1;
    }
    assert filteredInvoices[..|filteredInvoices|] == filteredInvoices;
  }

  /** `getTopSellingProducts` once the organization, its invoices, items and stock ledger have been fetched. */
  method GetTopSellingProducts(
    date: Option<string>, org: Option<Organization>,
    invoices: seq<Invoice>, items: seq<Item>, ledger: seq<StockMovement>)
    returns (r: Result<seq<ProductSales>, Failure>)
    ensures var range := ResolveMonthRequest(date, org);
            && (r.Err? <==> range.Err?) && (r.Err? ==> r.error == range.error)
            && (r.Ok? ==> r.value == TopSellingOf(Within(invoices, InvoiceTime, range.value), StockedItems(items, ledger)))
  {
    var range := ResolveMonthRequest(date, org);
    if range.Err? {
      return Err(range.error);
    }
    var enrichedItems := ItemsWithStock(items, ledger);
    var itemMap := ItemMap(enrichedItems);
    var filteredInvoices := Within(invoices, InvoiceTime, range.value);
    var topProducts := TallySales(filteredInvoices, itemMap);
    r := Ok(TopN(ObjectValues(topProducts), Sold, 5));
  }

  /** Items with id `id`. */
  function HasItemId(id: ObjectId): StockedItem -> bool {
    (x: StockedItem) => x.item.id == id
  }

  /**
   * The item map holds an id exactly when some enriched item has it, and then holds the last
   * item with that id.
   */
  lemma {:induction false} ItemMapLookup(enriched: seq<StockedItem>, id: ObjectId)
    ensures (id in ItemMap(enriched)) == First(enriched, HasItemId(id)).Some?
    ensures forall i :: 0 <= i < |enriched| && enriched[i].item.id == id
                        && (forall j :: i < j < |enriched| ==> enriched[j].item.id != id)
                        ==> ItemMap(enriched)[id] == enriched[i]
    decreases |enriched|
  {
    if enriched != [] {
      var prefix, last := enriched[..|enriched| - 1], enriched[|enriched| - 1];
      assert enriched == prefix + [last];
      ItemMapLookup(prefix, id);
      FirstAppend(prefix, [last], HasItemId(id));
      assert [last][1..] == [];
      forall i | 0 <= i < |enriched| && enriched[i].item.id == id
                 && (forall j :: i < j < |enriched| ==> enriched[j].item.id != id)
        ensures ItemMap(enriched)[id] == enriched[i]
      {
        if i < |prefix| {
          assert prefix[i] == enriched[i];
          assert forall j :: i < j < |prefix| ==> prefix[j] == enriched[j];
        }
      }
    }
  }

  /**
   * An item of the organization that no later item shadows gets the label its ledger
   * balance calls for, and its own non-empty category and image.
   */
  lemma StockLabelOfItem(items: seq<Item>, ledger: seq<StockMovement>, i: int)
    requires 0 <= i < |items|
    requires forall j :: i < j < |items| ==> items[j].id != items[i].id
    ensures var itemMap := ItemMap(StockedItems(items, ledger));
            var id := items[i].id;
            && StockLabel(itemMap, id) == (if Balance(ledger, id) < 1.0 then "Out of Stock" else "In Stock")
            && CategoryOf(itemMap, id) == NonEmpty(items[i].categories)
            && ImageOf(itemMap, id) == NonEmpty(items[i].itemImage)
  {
    var enriched := StockedItems(items, ledger);
    StockedItemsBalance(items, ledger);
    ItemMapLookup(enriched, items[i].id);
  }

  /** A line whose item is not among the organization's items gets no category, no image and the label "undefined". */
  lemma StockLabelOfUnknownItem(items: seq<Item>, ledger: seq<StockMovement>, id: ObjectId)
    requires forall j :: 0 <= j < |items| ==> items[j].id != id
    ensures var itemMap := ItemMap(StockedItems(items, ledger));
            StockLabel(itemMap, id) == "undefined" && CategoryOf(itemMap, id).None? && ImageOf(itemMap, id).None?
  {
    var enriched := StockedItems(items, ledger);
    StockedItemsBalance(items, ledger);
    ItemMapLookup(enriched, id);
  }

  /** The entry a product sold on some line of `lines` ends up with. */
  ghost function SalesEntry(lines: seq<InvoiceLine>, itemMap: map<ObjectId, StockedItem>, id: ObjectId): ProductSales
    requires First(lines, CarriesItem(id)).Some?
  {
    ProductSales(
      id,
      ProductName(First(lines, CarriesItem(id)).value),
      Sum(lines, Masked(CarriesItem(id), Quantity)),
      Sum(lines, Masked(CarriesItem(id), LineSaleAmount)),
      CategoryOf(itemMap, id),
      ImageOf(itemMap, id),
      StockLabel(itemMap, id))
  }

  /** What one line does to the entry of item `id`. */
  lemma TallyLineEntry(acc: Groups<ProductSales>, l: InvoiceLine, itemMap: map<ObjectId, StockedItem>, id: ObjectId)
    ensures var r := TallyLine(acc, l, itemMap);
            && (id in r.entries <==> id in acc.entries || CarriesItem(id)(l))
            && (!CarriesItem(id)(l) && id in acc.entries ==> r.entries[id] == acc.entries[id])
            && (CarriesItem(id)(l) ==>
                  var seen := if id in acc.entries then acc.entries[id] else FirstSight(l, id, itemMap);
                  r.entries[id] == seen.(totalSold := seen.totalSold + Quantity(l),
                                         totalAmount := seen.totalAmount + LineSaleAmount(l)))
  {
  }

  /**
   * After the nested `forEach`, an item has an entry exactly when some line carries it. The
   * entry holds the name on the first line carrying it, the sum of the quantities of the
   * lines carrying it, the sum of their invoices' sale amounts (once per line), and the
   * category, image and stock label of the item map.
   */
  lemma {:induction false} ProductSalesPerItem(lines: seq<InvoiceLine>, itemMap: map<ObjectId, StockedItem>, id: ObjectId)
    ensures var acc := ProductSalesOf(lines, itemMap);
            && (id in acc.entries <==> First(lines, CarriesItem(id)).Some?)
            && (id in acc.entries ==> acc.entries[id] == SalesEntry(lines, itemMap, id))
    decreases |lines|
  {
    if lines != [] {
      var prefix, last := lines[..|lines| - 1], lines[|lines| - 1];
      assert lines == prefix + [last];
      ProductSalesPerItem(prefix, itemMap, id);
      ProductSalesSnoc(prefix, last, itemMap);
      SalesEntryStep(prefix, last, itemMap, id, ProductSalesOf(prefix, itemMap));
    }
  }

  /** One more line keeps the entry of item `id` equal to what `SalesEntry` says of the lines so far. */
  lemma SalesEntryStep(
    prefix: seq<InvoiceLine>, last: InvoiceLine, itemMap: map<ObjectId, StockedItem>, id: ObjectId,
    before: Groups<ProductSales>)
    requires id in before.entries <==> First(prefix, CarriesItem(id)).Some?
    requires id in before.entries ==> before.entries[id] == SalesEntry(prefix, itemMap, id)
    ensures var after := TallyLine(before, last, itemMap);
            && (id in after.entries <==> First(prefix + [last], CarriesItem(id)).Some?)
            && (id in after.entries ==> after.entries[id] == SalesEntry(prefix + [last], itemMap, id))
  {
    var carries := CarriesItem(id);
    var lines := prefix + [last];
    var after := TallyLine(before, last, itemMap);
    TallyLineEntry(before, last, itemMap, id);
    FirstAppend(prefix, [last], carries);
    assert [last][1..] == [];
    MaskedSumSnoc(prefix, last, carries, Quantity);
    MaskedSumSnoc(prefix, last, carries, LineSaleAmount);
    if First(prefix, carries).None? {
      MaskedSumNone(prefix, carries, Quantity);
      MaskedSumNone(prefix, carries, LineSaleAmount);
    }
  }

  /** What the ranked products satisfy: each is the entry some line of `lines` gave it. */
  ghost predicate SoldIn(lines: seq<InvoiceLine>, itemMap: map<ObjectId, StockedItem>, p: ProductSales) {
    First(lines, CarriesItem(p.itemId)).Some? && p == SalesEntry(lines, itemMap, p.itemId)
  }

  lemma {:induction false} ProductSalesEntriesSold(lines: seq<InvoiceLine>, itemMap: map<ObjectId, StockedItem>)
    ensures forall k :: k in ProductSalesOf(lines, itemMap).entries ==>
              SoldIn(lines, itemMap, ProductSalesOf(lines, itemMap).entries[k])
  {
    var acc := ProductSalesOf(lines, itemMap);
    forall k | k in acc.entries
      ensures SoldIn(lines, itemMap, acc.entries[k])
    {
      var i :| 0 <= i < |acc.order| && acc.order[i] == k;
      var id: ObjectId := k;
      ProductSalesPerItem(lines, itemMap, id);
    }
  }

  /** The five products ranked from the tally over `lines`. */
  lemma {:induction false} TopSalesSold(lines: seq<InvoiceLine>, itemMap: map<ObjectId, StockedItem>)
    ensures var top := TopN(ObjectValues(ProductSalesOf(lines, itemMap)), Sold, 5);
            |top| <= 5 && forall i :: 0 <= i < |top| ==> SoldIn(lines, itemMap, top[i])
  {
    ProductSalesEntriesSold(lines, itemMap);
    TopValuesHold(ProductSalesOf(lines, itemMap), Sold, 5, (p: ProductSales) => SoldIn(lines, itemMap, p));
  }

  /**
   * The response: at most five products, in descending order of quantity sold, each with
   * the sums of the lines of the month's invoices that carry it.
   */
  lemma {:induction false} TopSellingRanked(filtered: seq<Invoice>, enriched: seq<StockedItem>)
    ensures var top := TopSellingOf(filtered, enriched);
            && |top| <= 5 && SortedDesc(top, Sold)
            && forall i :: 0 <= i < |top| ==> SoldIn(LinesOf(filtered), ItemMap(enriched), top[i])
  {
    TopSalesSold(LinesOf(filtered), ItemMap(enriched));
  }

  /** Products that tie on quantity sold keep the order in which a line first carried them. */
  lemma TopSellingTies(filtered: seq<Invoice>, enriched: seq<StockedItem>, k: real)
    ensures var products := ProductSalesOf(LinesOf(filtered), ItemMap(enriched));
            exists tail :: WithKey(TopSellingOf(filtered, enriched), Sold, k) + tail == WithKey(Values(products), Sold, k)
  {
    TopValuesKeepInsertionOrder(ProductSalesOf(LinesOf(filtered), ItemMap(enriched)), Sold, 5, k);
  }
}
