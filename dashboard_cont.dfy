/**
 * controller/dashboardCont.js: the handlers that take a `YYYY-MM-DD` (or `YYYY/MM/DD`) date
 * and a filter type of day, month or year, resolve them to a period in the organization's
 * zone and compute overview totals, sales, expenses by category and top products and
 * customers over the records created in that period.
 */
module DashboardCont {
  import opened Wrappers
  import opened Text
  import opened Calendar
  import opened Periods
  import opened Folds
  import opened Ranking
  import opened Grouping
  import opened Records
  import opened Stock

  const DATE_FORMAT_MESSAGE := "Invalid date format. Use YYYY-MM-DD or YYYY/MM/DD."
  const FILTER_TYPE_MESSAGE := "Invalid filter type. Use 'month', 'year', or 'day'."

  // ---------------------------------------------------------------------------------------
  // Date input and period resolution

  /** `/^\d{4}[-/]\d{2}[-/]\d{2}$/.test(s)`: the separators may differ from each other. */
  predicate IsDayForm(s: string) {
    && |s| == 10
    && IsDigit(s[0]) && IsDigit(s[1]) && IsDigit(s[2]) && IsDigit(s[3])
    && IsSeparator(s[4])
    && IsDigit(s[5]) && IsDigit(s[6])
    && IsSeparator(s[7])
    && IsDigit(s[8]) && IsDigit(s[9])
  }

  /** The guard `!date || !regex.test(date)` lets a request through. */
  predicate AcceptsDate(date: Option<string>) {
    date.Some? && IsDayForm(date.value)
  }

  /** `date.replace(/\//g, "-")`. */
  function ReplaceSlashes(s: string): (r: string)
    ensures |r| == |s|
    ensures forall i :: 0 <= i < |s| ==> r[i] == if s[i] == '/' then '-' else s[i]
    ensures IsDayForm(s) ==> IsIsoDate(r)
  {
    seq(|s|, i requires 0 <= i < |s| => if s[i] == '/' then '-' else s[i])
  }

  /** The `YYYY-MM-DD` shape that `new Date` reads as a UTC date. */
  predicate IsIsoDate(s: string) {
    IsDayForm(s) && s[4] == '-' && s[7] == '-'
  }

  /**
   * `new Date("YYYY-MM-DD")` as the JavaScript engine (V8) reads it: UTC midnight of that date.
   * A month outside 1..12 or a day outside 1..31 gives an invalid date (`None`); a day past
   * the end of its month rolls over into the next month ("2023-02-30" is March 2).
   */
  function ParseIsoDate(s: string): (t: Option<int>)
    requires IsIsoDate(s)
    ensures t.Some? <==> 1 <= DigitsValue(s[5..7]) <= 12 && 1 <= DigitsValue(s[8..]) <= 31
  {
    var y, m, d := DigitsValue(s[..4]), DigitsValue(s[5..7]), DigitsValue(s[8..]);
    if 1 <= m <= 12 && 1 <= d <= 31 then Some((EpochDay(Date(y, m, 1)) + d - 1) * MS_PER_DAY)
    else None
  }

  /** `{ startDate: m.clone().startOf(unit), endDate: m.clone().endOf(unit) }` for `m = moment.tz(t, zone)`. */
  function UnitPeriod(t: Option<int>, offset: int, unit: Unit): Period {
    match t
    case None => InvalidPeriod
    case Some(u) => Between(StartOf(u, offset, unit), EndOf(u, offset, unit))
  }

  function FilterUnit(filterType: Option<string>): Option<Unit> {
    if filterType == Some("month") then Some(Month)
    else if filterType == Some("year") then Some(Year)
    else if filterType == Some("day") then Some(Day)
    else None
  }

  /**
   * `getDateRange(filterType, date, timeZone)`: the date is read as UTC midnight and only then
   * viewed in the zone, and the period is the day, month or year around that instant.
   */
  function GetDateRange(filterType: Option<string>, date: string, offset: int): (r: Result<Period, Failure>)
    requires IsDayForm(date)
    ensures r.Err? <==> filterType !in {Some("day"), Some("month"), Some("year")}
    ensures r.Err? ==> r.error == Failure(400, FILTER_TYPE_MESSAGE)
    ensures r.Ok? && r.value.Between? ==> r.value.start <= r.value.end
  {
    var t := ParseIsoDate(ReplaceSlashes(date));
    match FilterUnit(filterType)
    case None => Err(Failure(400, FILTER_TYPE_MESSAGE))
    case Some(unit) =>
      if t.None? then Ok(InvalidPeriod)
      else UnitWindow(t.value, offset, unit, t.value); Ok(UnitPeriod(t, offset, unit))
  }

  /**
   * For an accepted filter type and a date the engine can read, the period holds exactly the
   * instants in the same local day, month or year as UTC midnight of that date. For any
   * other date every record falls outside the period.
   */
  lemma DateRangeIsLocalUnit(filterType: Option<string>, date: string, offset: int, s: int)
    requires IsDayForm(date) && FilterUnit(filterType).Some?
    ensures var t := ParseIsoDate(ReplaceSlashes(date));
            var p := GetDateRange(filterType, date, offset).value;
            (t.None? ==> !InPeriod(s, p))
            && (t.Some? ==> (InPeriod(s, p) <==> SameUnit(s, t.value, offset, FilterUnit(filterType).value)))
  {
    var t := ParseIsoDate(ReplaceSlashes(date));
    if t.Some? {
      UnitWindow(t.value, offset, FilterUnit(filterType).value, s);
    }
  }

  /** Dates that differ only in their separators resolve to the same period. */
  lemma SeparatorsDoNotMatter(filterType: Option<string>, a: string, b: string, offset: int)
    requires IsDayForm(a) && IsDayForm(b)
    requires a[..4] == b[..4] && a[5..7] == b[5..7] && a[8..] == b[8..]
    ensures GetDateRange(filterType, a, offset) == GetDateRange(filterType, b, offset)
  {
    var ra, rb := ReplaceSlashes(a), ReplaceSlashes(b);
    forall i | 0 <= i < 10
      ensures ra[i] == rb[i]
    {
      if i < 4 {
        assert a[..4][i] == b[..4][i];
      } else if 5 <= i < 7 {
        assert a[5..7][i - 5] == b[5..7][i - 5];
      } else if 8 <= i {
        assert a[8..][i - 8] == b[8..][i - 8];
      }
    }
    assert ra == rb;
  }

  /**
   * The day form is anchored at UTC midnight, not at local midnight: east of UTC (and at UTC)
   * the day period is the requested local day, but west of UTC it is the day before.
   */
  lemma DayPeriodAnchoredAtUtcMidnight(date: string, offset: int)
    requires IsIsoDate(date)
    requires -MS_PER_DAY <= offset < MS_PER_DAY
    requires var d := Date(DigitsValue(date[..4]), DigitsValue(date[5..7]), DigitsValue(date[8..]));
             ValidDate(d)
    ensures var d := Date(DigitsValue(date[..4]), DigitsValue(date[5..7]), DigitsValue(date[8..]));
            var t := ParseIsoDate(date).value;
            (offset >= 0 ==> LocalDate(t, offset) == d)
            && (offset < 0 ==> LocalDate(t, offset) == DateOf(EpochDay(d) - 1))
  {
    var d := Date(DigitsValue(date[..4]), DigitsValue(date[5..7]), DigitsValue(date[8..]));
    var t := ParseIsoDate(date).value;
    assert t == EpochDay(d) * MS_PER_DAY;
    UtcMidnightLocalDay(EpochDay(d), offset);
    if offset >= 0 {
      DateOfEpochDay(d);
    }
  }

  /**
   * The checks a request passes before any total is computed, in the handlers' order: the
   * date guard (400), the organization lookup (404), then `getDateRange` (400).
   */
  function ResolveDayRequest(date: Option<string>, filterType: Option<string>, org: Option<Organization>)
    : (r: Result<Period, Failure>)
    ensures !AcceptsDate(date) ==> r == Err(Failure(400, DATE_FORMAT_MESSAGE))
    ensures AcceptsDate(date) && org.None? ==> r == Err(ORGANIZATION_NOT_FOUND)
    ensures AcceptsDate(date) && org.Some? && FilterUnit(filterType).None? ==>
              r == Err(Failure(400, FILTER_TYPE_MESSAGE))
    ensures r.Ok? <==> AcceptsDate(date) && org.Some? && FilterUnit(filterType).Some?
    ensures r.Ok? ==> r == GetDateRange(filterType, date.value, ZoneOffset(org.value))
  {
    if !AcceptsDate(date) then Err(Failure(400, DATE_FORMAT_MESSAGE))
    else if org.None? then Err(ORGANIZATION_NOT_FOUND)
    else GetDateRange(filterType, date.value, ZoneOffset(org.value))
  }

  // ---------------------------------------------------------------------------------------
  // getOverviewData and getSalesOverTime

  function CustomerTime(c: Customer): int {
    c.createdAt
  }

  function ExpenseTime(e: Expense): int {
    e.createdAt
  }

  predicate IsCompleted(inv: Invoice) {
    inv.paidStatus == "Completed"
  }

  /** `parseFloat(inv.paidAmount) || 0`. */
  function PaidAmount(inv: Invoice): real {
    inv.paidAmount.GetOr(0.0)
  }

  function TotalAmount(inv: Invoice): real {
    inv.totalAmount
  }

  /** `parseFloat(exp.grandTotal) || 0`. */
  function GrandTotal(e: Expense): real {
    e.grandTotal.GetOr(0.0)
  }

  /** The JSON body of `getOverviewData`. */
  datatype Overview = Overview(
    totalRevenue: real,
    totalInventoryValue: real,
    totalExpenses: real,
    newCustomer: nat,
    totalSales: real)

  /** The overview totals over the records of period `p`. */
  function OverviewIn(
    p: Period, invoices: seq<Invoice>, customers: seq<Customer>, stocked: seq<StockedItem>,
    expenses: seq<Expense>): Overview
  {
    var filteredInvoices := Within(invoices, InvoiceTime, p);
    Overview(
      Sum(Filter(filteredInvoices, IsCompleted), PaidAmount),
      Sum(Within(stocked, StockedTime, p), StockValue),
      Sum(Within(expenses, ExpenseTime, p), GrandTotal),
      Count(customers, InWindow(CustomerTime, p)),
      Sum(filteredInvoices, TotalAmount))
  }

  /** `getOverviewData` once the organization's records have been fetched. */
  function GetOverviewData(
    date: Option<string>, filterType: Option<string>, org: Option<Organization>,
    invoices: seq<Invoice>, customers: seq<Customer>, items: seq<Item>,
    ledger: seq<StockMovement>, expenses: seq<Expense>): (r: Result<Overview, Failure>)
    ensures var range := ResolveDayRequest(date, filterType, org);
            (r.Err? <==> range.Err?) && (r.Err? ==> r.error == range.error)
    ensures r.Ok? ==> r.value.newCustomer <= |customers|
  {
    match ResolveDayRequest(date, filterType, org)
    case Err(e) => Err(e)
    case Ok(p) => Ok(OverviewIn(p, invoices, customers, StockedItems(items, ledger), expenses))
  }

  /** A Completed invoice of period `p`. */
  function CompletedIn(p: Period): Invoice -> bool {
    (inv: Invoice) => InPeriod(inv.createdAt, p) && IsCompleted(inv)
  }

  /**
   * Each overview total, read as one pass over all the records: revenue adds the paid amount
   * of the Completed invoices of the period only, sales the total of every invoice of the
   * period whatever its status, and so on.
   */
  lemma OverviewSinglePass(
    p: Period, invoices: seq<Invoice>, customers: seq<Customer>, stocked: seq<StockedItem>,
    expenses: seq<Expense>)
    ensures var o := OverviewIn(p, invoices, customers, stocked, expenses);
            && o.totalRevenue == Sum(invoices, Masked(CompletedIn(p), PaidAmount))
            && o.totalSales == Sum(invoices, Masked(InWindow(InvoiceTime, p), TotalAmount))
            && o.totalExpenses == Sum(expenses, Masked(InWindow(ExpenseTime, p), GrandTotal))
            && o.totalInventoryValue == Sum(stocked, Masked(InWindow(StockedTime, p), StockValue))
            && o.newCustomer as real == Sum(customers, Masked(InWindow(CustomerTime, p), One))
  {
    var filtered := Within(invoices, InvoiceTime, p);
    SumFilter(filtered, IsCompleted, PaidAmount);
    SumFilter(invoices, InWindow(InvoiceTime, p), Masked(IsCompleted, PaidAmount));
    SumCongruent(invoices, Masked(InWindow(InvoiceTime, p), Masked(IsCompleted, PaidAmount)),
                 Masked(CompletedIn(p), PaidAmount));
    SumFilter(invoices, InWindow(InvoiceTime, p), TotalAmount);
    SumFilter(expenses, InWindow(ExpenseTime, p), GrandTotal);
    SumFilter(stocked, InWindow(StockedTime, p), StockValue);
    CountAsSum(customers, InWindow(CustomerTime, p));
  }

  /** The overview does not depend on the order in which the records come back. */
  lemma OverviewOrderIndependent(
    p: Period, i1: seq<Invoice>, i2: seq<Invoice>, c1: seq<Customer>, c2: seq<Customer>,
    s1: seq<StockedItem>, s2: seq<StockedItem>, e1: seq<Expense>, e2: seq<Expense>)
    requires multiset(i1) == multiset(i2) && multiset(c1) == multiset(c2)
    requires multiset(s1) == multiset(s2) && multiset(e1) == multiset(e2)
    ensures OverviewIn(p, i1, c1, s1, e1) == OverviewIn(p, i2, c2, s2, e2)
  {
    OverviewSinglePass(p, i1, c1, s1, e1);
    OverviewSinglePass(p, i2, c2, s2, e2);
    SumPermutation(i1, i2, Masked(CompletedIn(p), PaidAmount));
    SumPermutation(i1, i2, Masked(InWindow(InvoiceTime, p), TotalAmount));
    SumPermutation(e1, e2, Masked(InWindow(ExpenseTime, p), GrandTotal));
    SumPermutation(s1, s2, Masked(InWindow(StockedTime, p), StockValue));
    CountPermutation(c1, c2, InWindow(CustomerTime, p));
  }

  /** A date the engine cannot read (month 13, day 32) gives a period that no record is in: all totals are 0. */
  lemma UnreadableDateGivesZeros(
    invoices: seq<Invoice>, customers: seq<Customer>, stocked: seq<StockedItem>, expenses: seq<Expense>)
    ensures OverviewIn(InvalidPeriod, invoices, customers, stocked, expenses) == Overview(0.0, 0.0, 0.0, 0, 0.0)
  {
    FilterAllOrNone(customers, InWindow(CustomerTime, InvalidPeriod));
  }

  /** `getSalesOverTime` once the organization's invoices have been fetched. */
  function GetSalesOverTime(
    date: Option<string>, filterType: Option<string>, org: Option<Organization>, invoices: seq<Invoice>)
    : (r: Result<real, Failure>)
    ensures var range := ResolveDayRequest(date, filterType, org);
            && (r.Err? <==> range.Err?) && (r.Err? ==> r.error == range.error)
            && (r.Ok? ==> r.value == Sum(invoices, Masked(InWindow(InvoiceTime, range.value), TotalAmount)))
  {
    match ResolveDayRequest(date, filterType, org)
    case Err(e) => Err(e)
    case Ok(p) =>
      SumFilter(invoices, InWindow(InvoiceTime, p), TotalAmount);
      Ok(Sum(Within(invoices, InvoiceTime, p), TotalAmount))
  }

  /** Sales over time report the same figure as the overview's `totalSales` for the same request. */
  lemma SalesOverTimeIsOverviewSales(
    date: Option<string>, filterType: Option<string>, org: Option<Organization>,
    invoices: seq<Invoice>, customers: seq<Customer>, items: seq<Item>,
    ledger: seq<StockMovement>, expenses: seq<Expense>)
    ensures var sales := GetSalesOverTime(date, filterType, org, invoices);
            var overview := GetOverviewData(date, filterType, org, invoices, customers, items, ledger, expenses);
            sales.Ok? == overview.Ok? && (sales.Ok? ==> sales.value == overview.value.totalSales)
  {
  }

  // ---------------------------------------------------------------------------------------
  // getExpenseByCategory

  /** An entry of the `category` array of the response. */
  datatype CategoryTotal = CategoryTotal(category: string, total: real)

  /** `exp.expenseCategory && exp.expenseCategory.trim() !== ""`. */
  predicate HasCategory(e: Expense) {
    e.category.Some? && !IsBlank(e.category.value)
  }

  function CategoryOf(e: Expense): string {
    e.category.GetOr("")
  }

  function InCategory(c: string): Expense -> bool {
    e => CategoryOf(e) == c
  }

  /** One step of the reduce: `if (!acc[category]) acc[category] = 0; acc[category] += total;`. */
  function AddExpense(acc: Groups<real>, e: Expense): Groups<real> {
    Put(acc, CategoryOf(e), Amount(acc.entries, CategoryOf(e)) + GrandTotal(e))
  }

  /** The accumulator once the reduce has gone through `valid`. */
  function CategoryTotals(valid: seq<Expense>): (acc: Groups<real>)
    ensures Valid(acc)
    decreases |valid|
  {
    if valid == [] then Empty()
    else AddExpense(CategoryTotals(valid[..|valid| - 1]), valid[|valid| - 1])
  }

  lemma CategoryTotalsSnoc(prefix: seq<Expense>, last: Expense)
    ensures CategoryTotals(prefix + [last]) == AddExpense(CategoryTotals(prefix), last)
  {
    assert (prefix + [last])[..|prefix|] == prefix;
  }

  /** The reduce over one more element of `valid` is one more step of the reducer. */
  lemma CategoryTotalsPrefix(valid: seq<Expense>, i: int)
    requires 0 <= i < |valid|
    ensures CategoryTotals(valid[..i + 1]) == AddExpense(CategoryTotals(valid[..i]), valid[i])
  {
    assert valid[..i + 1] == valid[..i] + [valid[i]];
    CategoryTotalsSnoc(valid[..i], valid[i]);
  }

  /** One call of the reducer, on the keys and values of `acc`. */
  method AddCategoryTotal(order: seq<string>, totals: map<string, real>, e: Expense)
    returns (order': seq<string>, totals': map<string, real>)
    ensures Groups(order', totals') == AddExpense(Groups(order, totals), e)
  {
    var category := CategoryOf(e);
    var total := GrandTotal(e);
    order', totals' := order, totals;
    if category !in totals' {
      order' := order' + [category];
      totals' := totals'[category := 0.0];
    }
    totals' := totals'[category := totals'[category] + total];
    assert totals' == totals[category := Amount(totals, category) + total];
  }

  /** `validExpenses.reduce(...)` over the `acc` object: its keys in insertion order and their totals. */
  method ReduceByCategory(valid: seq<Expense>) returns (order: seq<string>, totals: map<string, real>)
    ensures Groups(order, totals) == CategoryTotals(valid)
  {
    order, totals := [], map[];
    var i := 0;
    while i < |valid|
      invariant 0 <= i <= |valid|
      invariant Groups(order, totals) == CategoryTotals(valid[..i])
    {
      order, totals := AddCategoryTotal(order, totals, valid[i]);
      CategoryTotalsPrefix(valid, i);
      i := i + 1;
    }
    assert valid[..|valid|] == valid;
  }

  /** `Object.entries(acc).map(([category, total]) => ({ category, total }))` over the given keys. */
  function CategoryRows(keys: seq<string>, totals: map<string, real>): (rows: seq<CategoryTotal>)
    ensures |rows| == |keys|
    ensures forall i :: 0 <= i < |keys| ==> rows[i] == CategoryTotal(keys[i], Amount(totals, keys[i]))
  {
    if keys == [] then []
    else [CategoryTotal(keys[0], Amount(totals, keys[0]))] + CategoryRows(keys[1..], totals)
  }

  /** The `category` array for the expenses of the period. */
  function ExpenseCategories(filtered: seq<Expense>): seq<CategoryTotal> {
    CategoryArray(Filter(filtered, HasCategory))
  }

  /** The `category` array for the expenses that have a category. */
  function CategoryArray(valid: seq<Expense>): seq<CategoryTotal> {
    if |valid| == 0 then []
    else
      var acc := CategoryTotals(valid);
      CategoryRows(OwnKeyOrder(acc.order), acc.entries)
  }

  /** `getExpenseByCategory` once the organization's expenses have been fetched. */
  method GetExpenseByCategory(
    date: Option<string>, filterType: Option<string>, org: Option<Organization>, expenses: seq<Expense>)
    returns (r: Result<seq<CategoryTotal>, Failure>)
    ensures var range := ResolveDayRequest(date, filterType, org);
            && (r.Err? <==> range.Err?) && (r.Err? ==> r.error == range.error)
            && (r.Ok? ==> r.value == ExpenseCategories(Within(expenses, ExpenseTime, range.value)))
  {
    var range := ResolveDayRequest(date, filterType, org);
    if range.Err? {
      return Err(range.error);
    }
    var filteredExpenses := Within(expenses, ExpenseTime, range.value);
    var validExpenses := Filter(filteredExpenses, HasCategory);
    if |validExpenses| == 0 {
      return Ok([]);
    }
    var order, totals := ReduceByCategory(validExpenses);
    return Ok(CategoryRows(OwnKeyOrder(order), totals));
  }

  /**
   * After the reduce, a category has a key exactly when some expense carries it, and its
   * total is the sum of the grand totals of the expenses that carry it.
   */
  lemma {:induction false} CategoryTotalsPerCategory(valid: seq<Expense>)
    ensures var acc := CategoryTotals(valid);
            && (forall c :: c in acc.entries <==> exists i :: 0 <= i < |valid| && CategoryOf(valid[i]) == c)
            && (forall c :: Amount(acc.entries, c) == Sum(valid, Masked(InCategory(c), GrandTotal)))
    decreases |valid|
  {
    if valid != [] {
      var prefix, last := valid[..|valid| - 1], valid[|valid| - 1];
      assert valid == prefix + [last];
      CategoryTotalsPerCategory(prefix);
      CategoryTotalsSnoc(prefix, last);
      var acc := CategoryTotals(valid);
      forall c
        ensures c in acc.entries <==> exists i :: 0 <= i < |valid| && CategoryOf(valid[i]) == c
      {
        if c in acc.entries && c != CategoryOf(last) {
          var i :| 0 <= i < |prefix| && CategoryOf(prefix[i]) == c;
          assert valid[i] == prefix[i];
        }
        if exists i :: 0 <= i < |valid| && CategoryOf(valid[i]) == c {
          var i :| 0 <= i < |valid| && CategoryOf(valid[i]) == c;
          if i < |prefix| {
            assert prefix[i] == valid[i];
          }
        }
      }
      forall c
        ensures Amount(acc.entries, c) == Sum(valid, Masked(InCategory(c), GrandTotal))
      {
        SumSnoc(prefix, last, Masked(InCategory(c), GrandTotal));
      }
    }
  }

  /** The totals of all categories add up to the sum of the grand totals. */
  lemma {:induction false} CategoryTotalsAddUp(valid: seq<Expense>)
    ensures GrandSum(CategoryTotals(valid)) == Sum(valid, GrandTotal)
    decreases |valid|
  {
    if valid != [] {
      var prefix, last := valid[..|valid| - 1], valid[|valid| - 1];
      assert valid == prefix + [last];
      CategoryTotalsAddUp(prefix);
      CategoryTotalsAddUpStep(prefix, last);
    }
  }

  lemma CategoryTotalsAddUpStep(prefix: seq<Expense>, last: Expense)
    requires GrandSum(CategoryTotals(prefix)) == Sum(prefix, GrandTotal)
    ensures GrandSum(CategoryTotals(prefix + [last])) == Sum(prefix + [last], GrandTotal)
  {
    var acc := CategoryTotals(prefix);
    assert GrandSum(CategoryTotals(prefix + [last])) == GrandSum(acc) + GrandTotal(last) by {
      CategoryTotalsSnoc(prefix, last);
      AddExpenseGrandSum(acc, last);
    }
    SumSnoc(prefix, last, GrandTotal);
  }

  /** One step of the reduce adds the expense's grand total to the sum of all category totals. */
  lemma AddExpenseGrandSum(acc: Groups<real>, e: Expense)
    requires Valid(acc)
    ensures GrandSum(AddExpense(acc, e)) == GrandSum(acc) + GrandTotal(e)
  {
    PutGrandSum(acc, CategoryOf(e), Amount(acc.entries, CategoryOf(e)) + GrandTotal(e));
  }

  lemma {:induction false} CategoryRowsSum(keys: seq<string>, totals: map<string, real>)
    ensures Sum(CategoryRows(keys, totals), RowTotal) == Sum(keys, AmountOf(totals))
  {
    if keys != [] {
      CategoryRowsSum(keys[1..], totals);
    }
  }

  function RowTotal(row: CategoryTotal): real {
    row.total
  }

  /** Rows over distinct keys list each key once, with its total. */
  lemma RowsListKeysOnce(keys: seq<string>, totals: map<string, real>)
    requires forall i, j :: 0 <= i < j < |keys| ==> keys[i] != keys[j]
    ensures var rows := CategoryRows(keys, totals);
            forall i, j :: 0 <= i < j < |rows| ==> rows[i].category != rows[j].category
  {
  }

  /** Rows over a rearrangement of the keys add up to all the totals. */
  lemma RowsAddUp(keys: seq<string>, acc: Groups<real>)
    requires multiset(keys) == multiset(acc.order)
    ensures Sum(CategoryRows(keys, acc.entries), RowTotal) == GrandSum(acc)
  {
    CategoryRowsSum(keys, acc.entries);
    SumPermutation(keys, acc.order, AmountOf(acc.entries));
  }

  /** The category of every expense the reduce went through is a key of the accumulator. */
  lemma CategoryListed(valid: seq<Expense>, i: int)
    requires 0 <= i < |valid|
    ensures CategoryOf(valid[i]) in CategoryTotals(valid).order
  {
    CategoryTotalsPerCategory(valid);
    assert CategoryOf(valid[i]) in CategoryTotals(valid).entries;
  }

  /** Rows over a rearrangement of the accumulator's keys, with their totals. */
  lemma {:induction false} RowsTotals(valid: seq<Expense>, keys: seq<string>)
    requires forall i :: 0 <= i < |valid| ==> HasCategory(valid[i])
    requires multiset(keys) == multiset(CategoryTotals(valid).order)
    ensures var rows := CategoryRows(keys, CategoryTotals(valid).entries);
            && (|rows| == 0 <==> |valid| == 0)
            && (forall i :: 0 <= i < |rows| ==>
                  && !IsBlank(rows[i].category)
                  && rows[i].total == Sum(valid, Masked(InCategory(rows[i].category), GrandTotal)))
  {
    var acc := CategoryTotals(valid);
    var rows := CategoryRows(keys, acc.entries);
    CategoryTotalsPerCategory(valid);
    assert |keys| == |acc.order| by {
      assert |multiset(keys)| == |multiset(acc.order)|;
    }
    if |valid| > 0 {
      CategoryListed(valid, 0);
    }
    forall i | 0 <= i < |rows|
      ensures !IsBlank(rows[i].category)
    {
      assert keys[i] in multiset(acc.order);
      var k :| 0 <= k < |valid| && CategoryOf(valid[k]) == rows[i].category;
      assert HasCategory(valid[k]);
    }
  }

  /** Rows over a rearrangement of the accumulator's keys list every category once. */
  lemma {:induction false} RowsCoverCategories(valid: seq<Expense>, keys: seq<string>)
    requires multiset(keys) == multiset(CategoryTotals(valid).order)
    ensures var rows := CategoryRows(keys, CategoryTotals(valid).entries);
            && (forall i, j :: 0 <= i < j < |rows| ==> rows[i].category != rows[j].category)
            && (forall i :: 0 <= i < |valid| ==> exists j :: 0 <= j < |rows| && rows[j].category == CategoryOf(valid[i]))
  {
    var acc := CategoryTotals(valid);
    var rows := CategoryRows(keys, acc.entries);
    RearrangedDistinct(acc.order, keys);
    RowsListKeysOnce(keys, acc.entries);
    forall i | 0 <= i < |valid|
      ensures exists j :: 0 <= j < |rows| && rows[j].category == CategoryOf(valid[i])
    {
      var c := CategoryOf(valid[i]);
      CategoryListed(valid, i);
      assert c in multiset(keys);
      var j :| 0 <= j < |keys| && keys[j] == c;
      assert rows[j].category == c;
    }
  }

  /** The `category` array over expenses that all have a category. */
  lemma {:induction false} CategoryArrayBuckets(valid: seq<Expense>)
    requires forall i :: 0 <= i < |valid| ==> HasCategory(valid[i])
    ensures var rows := CategoryArray(valid);
            && (rows == [] <==> valid == [])
            && (forall i, j :: 0 <= i < j < |rows| ==> rows[i].category != rows[j].category)
            && (forall i :: 0 <= i < |rows| ==>
                  && !IsBlank(rows[i].category)
                  && rows[i].total == Sum(valid, Masked(InCategory(rows[i].category), GrandTotal)))
            && (forall i :: 0 <= i < |valid| ==> exists j :: 0 <= j < |rows| && rows[j].category == CategoryOf(valid[i]))
            && Sum(rows, RowTotal) == Sum(valid, GrandTotal)
  {
    if valid != [] {
      var acc := CategoryTotals(valid);
      var keys := OwnKeyOrder(acc.order);
      RowsTotals(valid, keys);
      RowsCoverCategories(valid, keys);
      CategoryTotalsAddUp(valid);
      RowsAddUp(keys, acc);
    }
  }

  /**
   * The `category` array: empty exactly when no expense of the period has a non-blank
   * category; otherwise one entry per distinct category, none of them blank, every
   * category of a kept expense listed, each with the sum of that category's grand totals,
   * and all entries together adding up to the grand totals of the kept expenses.
   */
  lemma {:induction false} ExpenseCategoriesBuckets(filtered: seq<Expense>)
    ensures var valid := Filter(filtered, HasCategory);
            var rows := ExpenseCategories(filtered);
            && (rows == [] <==> valid == [])
            && (forall i, j :: 0 <= i < j < |rows| ==> rows[i].category != rows[j].category)
            && (forall i :: 0 <= i < |rows| ==>
                  && !IsBlank(rows[i].category)
                  && rows[i].total == Sum(valid, Masked(InCategory(rows[i].category), GrandTotal)))
            && (forall i :: 0 <= i < |valid| ==> exists j :: 0 <= j < |rows| && rows[j].category == CategoryOf(valid[i]))
            && Sum(rows, RowTotal) == Sum(valid, GrandTotal)
  {
    var valid := Filter(filtered, HasCategory);
    assert ExpenseCategories(filtered) == CategoryArray(valid);
    CategoryArrayBuckets(valid);
  }

  // ---------------------------------------------------------------------------------------
  // getTopProductCustomer

  datatype ProductCount = ProductCount(itemId: ObjectId, itemName: string, totalSold: nat)

  datatype CustomerSpend = CustomerSpend(customerId: ObjectId, customerName: string, totalSpent: real)

  /** The JSON body of `getTopProductCustomer`. */
  datatype TopProductsAndCustomers = TopProductsAndCustomers(
    topProducts: seq<ProductCount>,
    topCustomers: seq<CustomerSpend>)

  function Sold(p: ProductCount): real {
    p.totalSold as real
  }

  function Spent(c: CustomerSpend): real {
    c.totalSpent
  }


  /** The body of the inner `forEach` for one line: a line with an item counts once for it. */
  function CountLine(acc: Groups<ProductCount>, l: InvoiceLine): Groups<ProductCount> {
    match l.line.item
    case None => acc
    case Some(ref) =>
      var seen := if ref.id in acc.entries then acc.entries[ref.id] else ProductCount(ref.id, ProductName(l), 0);
      Put(acc, ref.id, seen.(totalSold := seen.totalSold + 1))
  }

  /** The `topProducts` object `acc` once the inner `forEach` has gone on through `lines`. */
  function CountLines(acc: Groups<ProductCount>, lines: seq<InvoiceLine>): (r: Groups<ProductCount>)
    ensures Valid(acc) ==> Valid(r)
    ensures (forall i :: 0 <= i < |acc.order| ==> |acc.order[i]| == 24) ==>
            (forall i :: 0 <= i < |r.order| ==> |r.order[i]| == 24)
    decreases |lines|
  {
    if lines == [] then acc
    else CountLine(CountLines(acc, lines[..|lines| - 1]), lines[|lines| - 1])
  }

  /** The `topProducts` object once the nested `forEach` has gone through `lines`. */
  function ProductCounts(lines: seq<InvoiceLine>): (acc: Groups<ProductCount>)
    ensures Valid(acc)
    ensures forall i :: 0 <= i < |acc.order| ==> |acc.order[i]| == 24
  {
    CountLines(Empty(), lines)
  }

  lemma ProductCountsSnoc(lines: seq<InvoiceLine>, l: InvoiceLine)
    ensures ProductCounts(lines + [l]) == CountLine(ProductCounts(lines), l)
  {
    assert (lines + [l])[..|lines|] == lines;
  }

  lemma {:induction false} CountLinesAppend(acc: Groups<ProductCount>, a: seq<InvoiceLine>, b: seq<InvoiceLine>)
    ensures CountLines(acc, a + b) == CountLines(CountLines(acc, a), b)
    decreases |b|
  {
    if b == [] {
      assert a + b == a;
    } else {
      var b' := b[..|b| - 1];
      assert (a + b)[..|a + b| - 1] == a + b';
      CountLinesAppend(acc, a, b');
    }
  }

  function CustomerIdOf(inv: Invoice): Option<ObjectId> {
    match inv.customer
    case Some(c) => Some(c.id)
    case None => None
  }

  function ByCustomer(id: ObjectId): Invoice -> bool {
    inv => CustomerIdOf(inv) == Some(id)
  }

  /** `inv.customerId.customerDisplayName || "Unknown Customer"`. */
  function CustomerName(inv: Invoice): string {
    match inv.customer
    case Some(c) => OrDefault(c.displayName, "Unknown Customer")
    case None => "Unknown Customer"
  }

  /** The body of the customer `forEach` for one invoice: an invoice with a customer adds its total to that customer. */
  function AddSpend(acc: Groups<CustomerSpend>, inv: Invoice): Groups<CustomerSpend> {
    match inv.customer
    case None => acc
    case Some(c) =>
      var seen := if c.id in acc.entries then acc.entries[c.id] else CustomerSpend(c.id, CustomerName(inv), 0.0);
      Put(acc, c.id, seen.(totalSpent := seen.totalSpent + inv.totalAmount))
  }

  /** The `customerSales` object once the `forEach` has gone through `invoices`. */
  function CustomerSpends(invoices: seq<Invoice>): (acc: Groups<CustomerSpend>)
    ensures Valid(acc)
    ensures forall i :: 0 <= i < |acc.order| ==> |acc.order[i]| == 24
    decreases |invoices|
  {
    if invoices == [] then Empty()
    else AddSpend(CustomerSpends(invoices[..|invoices| - 1]), invoices[|invoices| - 1])
  }

  lemma CustomerSpendsSnoc(invoices: seq<Invoice>, inv: Invoice)
    ensures CustomerSpends(invoices + [inv]) == AddSpend(CustomerSpends(invoices), inv)
  {
    assert (invoices + [inv])[..|invoices|] == invoices;
  }

  /**
   * The response for the invoices of the period: the products of the five largest invoices
   * ranked by how many lines carry them, and the customers of all the invoices of the period
   * (visited in the sorted order the in-place sort leaves behind) ranked by what they spent.
   */
  function TopProductsAndCustomersOf(filtered: seq<Invoice>): TopProductsAndCustomers {
    var sorted := SortDesc(filtered, TotalAmount);
    var topInvoices := sorted[..Min(5, |sorted|)];
    TopProductsAndCustomers(
      TopN(ObjectValues(ProductCounts(LinesOf(topInvoices))), Sold, 5),
      TopN(ObjectValues(CustomerSpends(sorted)), Spent, 7))
  }

  /**
   * `filteredInvoices.sort((a, b) => b.totalAmount - a.totalAmount)`: a stable sort of the
   * array itself. Every stable sort leaves the same array; this one is an insertion sort
   * that grows a sorted suffix from the right.
   */
  method SortByTotalAmount(a: array<Invoice>)
    modifies a
    ensures a[..] == SortDesc(old(a[..]), TotalAmount)
  {
    ghost var s := a[..];
    var i := a.Length;
    while i > 0
      invariant 0 <= i <= a.Length
      invariant a[..] == s[..i] + SortDesc(s[i..], TotalAmount)
    {
      i := i - 1;
      ghost var before := a[..];
      InsertInvoice(a, i);
      SortedSuffixStep(s, before, a[..], i);
    }
    assert s[0..] == s;
  }

  /** Inserting `s[i]` into the sorted rest of the array sorts one more element of `s`. */
  lemma SortedSuffixStep(s: seq<Invoice>, t: seq<Invoice>, u: seq<Invoice>, i: int)
    requires 0 <= i < |s| == |t| == |u|
    requires t == s[..i + 1] + SortDesc(s[i + 1..], TotalAmount)
    requires u[..i] == t[..i]
    requires u[i..] == InsertDesc(t[i], t[i + 1..], TotalAmount)
    ensures u == s[..i] + SortDesc(s[i..], TotalAmount)
  {
    assert s[..i + 1] == s[..i] + [s[i]];
    assert t[..i] == s[..i] && t[i] == s[i];
    assert t[i + 1..] == SortDesc(s[i + 1..], TotalAmount);
    assert s[i..][1..] == s[i + 1..];
    SortDescCons(s[i..], TotalAmount);
    assert u == u[..i] + u[i..];
  }

  /**
   * One step of the insertion sort: moves `a[i]` right past every invoice of the sorted
   * suffix with a larger total, shifting each of them one place left.
   */
  method InsertInvoice(a: array<Invoice>, i: int)
    requires 0 <= i < a.Length
    modifies a
    ensures a[..i] == old(a[..i])
    ensures a[i..] == InsertDesc(old(a[i]), old(a[i + 1..]), TotalAmount)
  {
    ghost var s := a[..];
    var x := a[i];
    var j := ShiftLarger(a, i, x);
    ghost var shifted := a[..];
    a[j] := x;
    assert a[..] == shifted[j := x];
    PlaceAfterShift(s, shifted, i, j, x);
  }

  /** Writing `x` into the vacated place `j` of the shifted array yields the insertion. */
  lemma PlaceAfterShift(s: seq<Invoice>, t: seq<Invoice>, i: int, j: int, x: Invoice)
    requires 0 <= i <= j < |s| == |t|
    requires t[..i] == s[..i]
    requires t[i..j] == s[i + 1..j + 1]
    requires t[j + 1..] == s[j + 1..]
    requires forall k :: i + 1 <= k <= j ==> TotalAmount(s[k]) > TotalAmount(x)
    requires j + 1 < |s| ==> TotalAmount(s[j + 1]) <= TotalAmount(x)
    ensures t[j := x][..i] == s[..i]
    ensures t[j := x][i..] == InsertDesc(x, s[i + 1..], TotalAmount)
  {
    InsertAfterOutranked(s, s[i + 1..], i, j, x);
    SpliceAfterShift(s, t, i, j, x);
  }

  /** `x` goes into the suffix after `i` right behind the invoices that outrank it. */
  lemma InsertAfterOutranked(s: seq<Invoice>, suffix: seq<Invoice>, i: int, j: int, x: Invoice)
    requires 0 <= i <= j < |s|
    requires suffix == s[i + 1..]
    requires forall k :: i + 1 <= k <= j ==> TotalAmount(s[k]) > TotalAmount(x)
    requires j + 1 < |s| ==> TotalAmount(s[j + 1]) <= TotalAmount(x)
    ensures InsertDesc(x, suffix, TotalAmount) == suffix[..j - i] + [x] + suffix[j - i..]
  {
    OutrankedInSuffix(s, suffix, i, j, x);
    InsertDescAt(x, suffix, TotalAmount, j - i);
  }

  /** The shifted invoices are the leading run of the suffix after `i` that outranks `x`. */
  lemma OutrankedInSuffix(s: seq<Invoice>, suffix: seq<Invoice>, i: int, j: int, x: Invoice)
    requires 0 <= i <= j < |s|
    requires suffix == s[i + 1..]
    requires forall k :: i + 1 <= k <= j ==> TotalAmount(s[k]) > TotalAmount(x)
    requires j + 1 < |s| ==> TotalAmount(s[j + 1]) <= TotalAmount(x)
    ensures forall k :: 0 <= k < j - i ==> TotalAmount(suffix[k]) > TotalAmount(x)
    ensures j - i < |suffix| ==> TotalAmount(suffix[j - i]) <= TotalAmount(x)
  {
    forall k | 0 <= k < j - i
      ensures TotalAmount(suffix[k]) > TotalAmount(x)
    {
      assert suffix[k] == s[i + 1 + k];
    }
  }

  /**
   * Shifting `s[i + 1..j + 1]` one place left and writing `x` at `j` splices `x` into the
   * suffix after `i` at offset `j - i`.
   */
  lemma SpliceAfterShift<T>(s: seq<T>, t: seq<T>, i: int, j: int, x: T)
    requires 0 <= i <= j < |s| == |t|
    requires t[..i] == s[..i]
    requires t[i..j] == s[i + 1..j + 1]
    requires t[j + 1..] == s[j + 1..]
    ensures t[j := x][..i] == s[..i]
    ensures t[j := x][i..] == s[i + 1..][..j - i] + [x] + s[i + 1..][j - i..]
  {
    WriteBetween(t, i, j, x);
    assert s[i + 1..][..j - i] == s[i + 1..j + 1];
    assert s[i + 1..][j - i..] == s[j + 1..];
  }

  /** Writing `x` at `j` leaves the rest of `t` alone: from `i` on it reads as the part before `j`, `x`, and the part after. */
  lemma WriteBetween<T>(t: seq<T>, i: int, j: int, x: T)
    requires 0 <= i <= j < |t|
    ensures t[j := x][..i] == t[..i]
    ensures t[j := x][i..] == t[i..j] + [x] + t[j + 1..]
  {
    var u := t[j := x];
    assert u[i..] == u[i..j] + u[j..];
    assert u[j..] == [x] + u[j + 1..];
    assert u[i..j] == t[i..j];
    assert u[j + 1..] == t[j + 1..];
  }

  /**
   * The inner loop of the insertion sort: shifts left, one place each, the invoices after
   * position `i` whose total is larger than `x`'s, and returns the position they vacate.
   */
  method ShiftLarger(a: array<Invoice>, i: int, x: Invoice) returns (j: int)
    requires 0 <= i < a.Length
    modifies a
    ensures i <= j < a.Length
    ensures a[..i] == old(a[..i])
    ensures a[i..j] == old(a[i + 1..j + 1])
    ensures a[j + 1..] == old(a[j + 1..])
    ensures forall k :: i + 1 <= k <= j ==> TotalAmount(old(a[k])) > TotalAmount(x)
    ensures j + 1 < a.Length ==> TotalAmount(old(a[j + 1])) <= TotalAmount(x)
  {
    ghost var s := a[..];
    j := i;
    while j + 1 < a.Length && a[j + 1].totalAmount > x.totalAmount
      invariant i <= j < a.Length
      invariant a[..i] == s[..i]
      invariant a[i..j] == s[i + 1..j + 1]
      invariant a[j + 1..] == s[j + 1..]
      invariant forall k :: i + 1 <= k <= j ==> TotalAmount(s[k]) > TotalAmount(x)
    {
      a[j] := a[j + 1];
      j := j + 1;
    }
  }

  /** The inner `forEach` over the lines of one invoice. */
  method CountInvoiceLines(counted: Groups<ProductCount>, inv: Invoice) returns (topProducts: Groups<ProductCount>)
    ensures topProducts == CountLines(counted, LinesOfInvoice(inv))
  {
    topProducts := counted;
    ghost var lines := LinesOfInvoice(inv);
    var j := 0;
    while j < |inv.lines|
      invariant 0 <= j <= |inv.lines|
      invariant topProducts == CountLines(counted, lines[..j])
    {
      ghost var before := topProducts;
      var item := inv.lines[j].item;
      if item.Some? {
        var itemId := item.value.id;
        var itemName := OrDefault(item.value.itemName, "Undefined");
        if itemId !in topProducts.entries {
          topProducts := Put(topProducts, itemId, ProductCount(itemId, itemName, 0));
        }
        var entry := topProducts.entries[itemId];
        topProducts := Put(topProducts, itemId, entry.(totalSold := entry.totalSold + 1));
        PutTwice(before, itemId, ProductCount(itemId, itemName, 0), entry.(totalSold := entry.totalSold + 1));
      }
      assert topProducts == CountLine(before, lines[j]);
      assert lines[..j + 1][..j] == lines[..j];
      j := j + 1;
    }
    assert lines[..j] == lines;
  }

  /** The nested `forEach` over the lines of the top invoices that fills `topProducts`. */
  method CountProducts(topInvoices: seq<Invoice>) returns (topProducts: Groups<ProductCount>)
    ensures topProducts == ProductCounts(LinesOf(topInvoices))
  {
    topProducts := Empty();
    var i := 0;
    while i < |topInvoices|
      invariant 0 <= i <= |topInvoices|
      invariant topProducts == ProductCounts(LinesOf(topInvoices[..i]))
    {
      topProducts := CountInvoiceLines(topProducts, topInvoices[i]);
      CountLinesAppend(Empty(), LinesOf(topInvoices[..i]), LinesOfInvoice(topInvoices[i]));
      assert topInvoices[..i + 1][..i] == topInvoices[..i];
      i := i + 1;
    }
    assert topInvoices[..|topInvoices|] == topInvoices;
  }

  /** The body of the customer `forEach`, for one invoice. */
  method AddInvoiceSpend(customerSales: Groups<CustomerSpend>, inv: Invoice) returns (r: Groups<CustomerSpend>)
    ensures r == AddSpend(customerSales, inv)
  {
    r := customerSales;
    if inv.customer.Some? {
      var customerId := inv.customer.value.id;
      var customerName := OrDefault(inv.customer.value.displayName, "Unknown Customer");
      if customerId !in r.entries {
        r := Put(r, customerId, CustomerSpend(customerId, customerName, 0.0));
      }
      var entry := r.entries[customerId];
      r := Put(r, customerId, entry.(totalSpent := entry.totalSpent + inv.totalAmount));
      PutTwice(customerSales, customerId, CustomerSpend(customerId, customerName, 0.0),
               entry.(totalSpent := entry.totalSpent + inv.totalAmount));
    }
  }

  /** The `forEach` over the (sorted) invoices of the period that fills `customerSales`. */
  method SumCustomerSpend(invoices: array<Invoice>) returns (customerSales: Groups<CustomerSpend>)
    ensures customerSales == CustomerSpends(invoices[..])
  {
    customerSales := Empty();
    var i := 0;
    while i < invoices.Length
      invariant 0 <= i <= invoices.Length
      invariant customerSales == CustomerSpends(invoices[..i])
    {
      ghost var before := customerSales;
      var inv := invoices[i];
      customerSales := AddInvoiceSpend(customerSales, inv);
      assert customerSales == AddSpend(before, inv);
      assert invoices[..i + 1] == invoices[..i] + [inv];
      CustomerSpendsSnoc(invoices[..i], inv);
      i := i + 1;
    }
    assert invoices[..invoices.Length] == invoices[..];
  }

  /** `getTopProductCustomer` once the organization's invoices have been fetched. */
  method GetTopProductCustomer(
    date: Option<string>, filterType: Option<string>, org: Option<Organization>, invoices: seq<Invoice>)
    returns (r: Result<TopProductsAndCustomers, Failure>)
    ensures var range := ResolveDayRequest(date, filterType, org);
            && (r.Err? <==> range.Err?) && (r.Err? ==> r.error == range.error)
            && (r.Ok? ==> r.value == TopProductsAndCustomersOf(Within(invoices, InvoiceTime, range.value)))
  {
    var range := ResolveDayRequest(date, filterType, org);
    if range.Err? {
      return Err(range.error);
    }
    var filtered := Within(invoices, InvoiceTime, range.value);
    var top := RankProductsAndCustomers(filtered);
    return Ok(top);
  }

  /** The body of `getTopProductCustomer` after the invoices of the period have been filtered. */
  method RankProductsAndCustomers(filtered: seq<Invoice>) returns (top: TopProductsAndCustomers)
    ensures top == TopProductsAndCustomersOf(filtered)
  {
    var filteredInvoices := SortedInvoices(filtered);
    ghost var sorted := SortDesc(filtered, TotalAmount);
    var topInvoices := filteredInvoices[..Min(5, filteredInvoices.Length)];
    var topProducts := CountProducts(topInvoices);
    var sortedTopProducts := TopN(ObjectValues(topProducts), Sold, 5);
    var customerSales := SumCustomerSpend(filteredInvoices);
    var topCustomers := TopN(ObjectValues(customerSales), Spent, 7);
    top := TopProductsAndCustomers(sortedTopProducts, topCustomers);
    assert topInvoices == sorted[..Min(5, |sorted|)];
    assert customerSales == CustomerSpends(sorted);
  }

  /** `filteredInvoices` once sorted in place. */
  method SortedInvoices(filtered: seq<Invoice>) returns (a: array<Invoice>)
    ensures a[..] == SortDesc(filtered, TotalAmount)
  {
    a := new Invoice[|filtered|](i requires 0 <= i < |filtered| => filtered[i]);
    assert a[..] == filtered;
    SortByTotalAmount(a);
  }

  /** Some element satisfies `p` exactly when the count is positive. */
  lemma CountPositive<T>(s: seq<T>, p: T -> bool)
    ensures First(s, p).Some? <==> Count(s, p) >= 1
  {
    if First(s, p).None? {
      FilterAllOrNone(s, p);
    } else {
      var i :| 0 <= i < |s| && p(s[i]);
      assert s[i] in Filter(s, p);
    }
  }

  /**
   * After the nested `forEach`, an item has an entry exactly when some line carries it; the
   * entry holds the item's id, the name on the first line carrying it (later lines do not
   * rename it) and the number of lines carrying it.
   */
  lemma {:induction false} ProductCountsPerItem(lines: seq<InvoiceLine>, id: ObjectId)
    ensures var acc := ProductCounts(lines);
            var first := First(lines, CarriesItem(id));
            && (id in acc.entries <==> first.Some?)
            && (id in acc.entries ==>
                  acc.entries[id] == ProductCount(id, ProductName(first.value), Count(lines, CarriesItem(id))))
    decreases |lines|
  {
    if lines != [] {
      var prefix, last := lines[..|lines| - 1], lines[|lines| - 1];
      assert lines == prefix + [last];
      ProductCountsPerItem(prefix, id);
      ProductCountsSnoc(prefix, last);
      FirstAppend(prefix, [last], CarriesItem(id));
      assert [last][1..] == [];
      CountSnoc(prefix, last, CarriesItem(id));
      CountPositive(prefix, CarriesItem(id));
    }
  }

  /**
   * After the customer `forEach`, a customer has an entry exactly when some invoice names
   * it; the entry holds the customer's id, the name on its first invoice and the sum of the
   * totals of all its invoices.
   */
  lemma {:induction false} CustomerSpendsPerCustomer(invoices: seq<Invoice>, id: ObjectId)
    ensures var acc := CustomerSpends(invoices);
            var first := First(invoices, ByCustomer(id));
            && (id in acc.entries <==> first.Some?)
            && (id in acc.entries ==>
                  acc.entries[id] == CustomerSpend(id, CustomerName(first.value),
                                                   Sum(invoices, Masked(ByCustomer(id), TotalAmount))))
    decreases |invoices|
  {
    if invoices != [] {
      var prefix, last := invoices[..|invoices| - 1], invoices[|invoices| - 1];
      assert invoices == prefix + [last];
      CustomerSpendsPerCustomer(prefix, id);
      CustomerSpendsSnoc(prefix, last);
      FirstAppend(prefix, [last], ByCustomer(id));
      assert [last][1..] == [];
      SumSnoc(prefix, last, Masked(ByCustomer(id), TotalAmount));
      if First(prefix, ByCustomer(id)).None? {
        SumZero(prefix, Masked(ByCustomer(id), TotalAmount));
      }
    }
  }

  /** What the ranked products satisfy: each is counted over the lines of the top invoices, at least once. */
  ghost predicate CountedIn(lines: seq<InvoiceLine>, p: ProductCount) {
    1 <= p.totalSold == Count(lines, CarriesItem(p.itemId))
  }

  /** What the ranked customers satisfy: each has spent the total of its invoices. */
  ghost predicate SpentIn(invoices: seq<Invoice>, c: CustomerSpend) {
    c.totalSpent == Sum(invoices, Masked(ByCustomer(c.customerId), TotalAmount))
  }

  lemma {:induction false} ProductEntriesCounted(lines: seq<InvoiceLine>)
    ensures var acc := ProductCounts(lines);
            forall k :: k in acc.entries ==> CountedIn(lines, acc.entries[k])
  {
    var acc := ProductCounts(lines);
    forall k | k in acc.entries
      ensures CountedIn(lines, acc.entries[k])
    {
      var i :| 0 <= i < |acc.order| && acc.order[i] == k;
      var id: ObjectId := k;
      ProductCountsPerItem(lines, id);
      CountPositive(lines, CarriesItem(id));
    }
  }

  lemma {:induction false} CustomerEntriesSpent(invoices: seq<Invoice>, filtered: seq<Invoice>)
    requires multiset(invoices) == multiset(filtered)
    ensures forall k :: k in CustomerSpends(invoices).entries ==>
              SpentIn(filtered, CustomerSpends(invoices).entries[k])
  {
    var acc := CustomerSpends(invoices);
    forall k | k in acc.entries
      ensures SpentIn(filtered, acc.entries[k])
    {
      var i :| 0 <= i < |acc.order| && acc.order[i] == k;
      var id: ObjectId := k;
      CustomerSpendsPerCustomer(invoices, id);
      SumPermutation(invoices, filtered, Masked(ByCustomer(id), TotalAmount));
    }
  }

  /** The five products ranked from the counts over `lines`. */
  lemma {:induction false} TopProductsCounted(lines: seq<InvoiceLine>)
    ensures var top := TopN(ObjectValues(ProductCounts(lines)), Sold, 5);
            |top| <= 5 && forall i :: 0 <= i < |top| ==> CountedIn(lines, top[i])
  {
    ProductEntriesCounted(lines);
    TopValuesHold(ProductCounts(lines), Sold, 5, p => CountedIn(lines, p));
  }

  /** The seven customers ranked from the spends over a rearrangement of `filtered`. */
  lemma {:induction false} TopCustomersSpent(invoices: seq<Invoice>, filtered: seq<Invoice>)
    requires multiset(invoices) == multiset(filtered)
    ensures var top := TopN(ObjectValues(CustomerSpends(invoices)), Spent, 7);
            |top| <= 7 && forall i :: 0 <= i < |top| ==> SpentIn(filtered, top[i])
  {
    CustomerEntriesSpent(invoices, filtered);
    TopValuesHold(CustomerSpends(invoices), Spent, 7, (c: CustomerSpend) => SpentIn(filtered, c));
  }

  /**
   * The response: at most five products, in descending order of line count, each counted
   * over the lines of the five invoices with the largest totals and carried by at least one
   * of those lines; at most seven customers, in descending order of spend, each with the
   * sum of the totals of all its invoices of the period, whatever order the sort left them in.
   */
  lemma {:induction false} TopProductsAndCustomersRanked(filtered: seq<Invoice>)
    ensures var t := TopProductsAndCustomersOf(filtered);
            var topInvoices := TopN(filtered, TotalAmount, 5);
            && |t.topProducts| <= 5 && SortedDesc(t.topProducts, Sold)
            && (forall i :: 0 <= i < |t.topProducts| ==> CountedIn(LinesOf(topInvoices), t.topProducts[i]))
            && |t.topCustomers| <= 7 && SortedDesc(t.topCustomers, Spent)
            && (forall i :: 0 <= i < |t.topCustomers| ==> SpentIn(filtered, t.topCustomers[i]))
  {
    var sorted := SortDesc(filtered, TotalAmount);
    var topInvoices := TopN(filtered, TotalAmount, 5);
    assert topInvoices == sorted[..Min(5, |sorted|)];
    TopProductsCounted(LinesOf(topInvoices));
    TopCustomersSpent(sorted, filtered);
  }

  /**
   * Products and customers that tie keep the order in which they were first met: products in
   * the order of the top invoices' lines, customers in the order of the sorted invoices.
   */
  lemma TopProductsAndCustomersTies(filtered: seq<Invoice>, k: real)
    ensures var t := TopProductsAndCustomersOf(filtered);
            var sorted := SortDesc(filtered, TotalAmount);
            var products := ProductCounts(LinesOf(sorted[..Min(5, |sorted|)]));
            var customers := CustomerSpends(sorted);
            && (exists tail :: WithKey(t.topProducts, Sold, k) + tail == WithKey(Values(products), Sold, k))
            && (exists tail :: WithKey(t.topCustomers, Spent, k) + tail == WithKey(Values(customers), Spent, k))
  {
    var sorted := SortDesc(filtered, TotalAmount);
    TopValuesKeepInsertionOrder(ProductCounts(LinesOf(sorted[..Min(5, |sorted|)])), Sold, 5, k);
    TopValuesKeepInsertionOrder(CustomerSpends(sorted), Spent, 7, k);
  }
}
