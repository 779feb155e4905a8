/** The admin reports (admin_reports.py): the reporting period chosen from
    the two date fields, the cash-flow totals over completed orders and
    cash-desk transactions, the staff table with its average check, and the
    dish analytics with each dish's share of the period's revenue. */
module Reports {
  import opened Wrappers
  import opened Text
  import Records

  // ---------------------------------------------------------------------
  // The reporting period
  // ---------------------------------------------------------------------

  /** A calendar date (Python's datetime.date). */
  datatype Date = Date(year: int, month: int, day: int)

  predicate IsLeap(year: int) {
    year % 4 == 0 && (year % 100 != 0 || year % 400 == 0)
  }

  function DaysInMonth(year: int, month: int): int {
    if month == 2 then (if IsLeap(year) then 29 else 28)
    else if month == 4 || month == 6 || month == 9 || month == 11 then 30
    else 31
  }

  /** The dates `datetime.date` accepts. */
  predicate ValidDate(d: Date) {
    && 1 <= d.year <= 9999
    && 1 <= d.month <= 12
    && 1 <= d.day <= DaysInMonth(d.year, d.month)
  }

  /** `datetime.strptime(s, "%Y-%m-%d").date()`: a four-digit year, a month
      and a day of one or two digits, separated by '-', that name a real
      calendar date; anything else raises ValueError (None here). */
  function ParseDate(s: string): (r: Option<Date>)
    ensures r.Some? ==> ValidDate(r.value)
  {
    var parts := Split(s, "-");
    if |parts| != 3 then None
    else if !(&& |parts[0]| == 4 && AllDigits(parts[0])
              && 1 <= |parts[1]| <= 2 && AllDigits(parts[1])
              && 1 <= |parts[2]| <= 2 && AllDigits(parts[2])) then None
    else
      var d := Date(DigitsValue(parts[0]), DigitsValue(parts[1]), DigitsValue(parts[2]));
      if ValidDate(d) then Some(d) else None
  }

  function Zeros(n: nat): (z: string)
    ensures |z| == n && AllDigits(z)
  {
    if n == 0 then "" else "0" + Zeros(n - 1)
  }

  /** `%0wd` of a non-negative number. */
  function Padded(n: nat, width: nat): (s: string)
    ensures AllDigits(s) && |s| >= width
  {
    var digits := NatToString(n);
    if |digits| >= width then digits else Zeros(width - |digits|) + digits
  }

  /** `str(date)`, the form the report writes back into its date fields. */
  function FormatDate(d: Date): string
    requires ValidDate(d)
  {
    Padded(d.year, 4) + "-" + Padded(d.month, 2) + "-" + Padded(d.day, 2)
  }

  lemma {:induction false} LeadingZeros(n: nat, s: string)
    requires AllDigits(s)
    ensures AllDigits(Zeros(n) + s)
    ensures DigitsValue(Zeros(n) + s) == DigitsValue(s)
    decreases |s|
  {
    var z := Zeros(n) + s;
    if s == [] {
      assert z == Zeros(n);
      ZerosValue(n);
    } else {
      assert z[..|z| - 1] == Zeros(n) + s[..|s| - 1];
      LeadingZeros(n, s[..|s| - 1]);
    }
  }

  lemma {:induction false} ZerosValue(n: nat)
    ensures DigitsValue(Zeros(n)) == 0
    decreases n
  {
    if n > 0 {
      assert Zeros(n)[..n - 1] == Zeros(n - 1) by {
        ZerosShift(n);
      }
      ZerosValue(n - 1);
    }
  }

  lemma {:induction false} ZerosShift(n: nat)
    requires n > 0
    ensures Zeros(n) == Zeros(n - 1) + "0"
    decreases n
  {
    if n > 1 {
      ZerosShift(n - 1);
    }
  }

  lemma PaddedValue(n: nat, width: nat)
    ensures DigitsValue(Padded(n, width)) == n
  {
    var digits := NatToString(n);
    NatToStringRoundTrip(n);
    if |digits| >= width {
      assert Padded(n, width) == digits;
    } else {
      assert Padded(n, width) == Zeros(width - |digits|) + digits;
      LeadingZeros(width - |digits|, digits);
    }
  }

  lemma {:induction false} DigitCount(n: nat, bound: nat, width: nat)
    requires width >= 1 && n < bound && Pow10(width) == bound
    ensures |NatToString(n)| <= width
    decreases width
  {
    if n >= 10 {
      assert Pow10(width) == 10 * Pow10(width - 1);
      assert n / 10 < Pow10(width - 1);
      assert width - 1 != 0;
      DigitCount(n / 10, Pow10(width - 1), width - 1);
    }
  }

  function Pow10(k: nat): (p: nat)
    ensures p >= 1
  {
    if k == 0 then 1 else 10 * Pow10(k - 1)
  }

  /** The date the report writes back parses to the same date. */
  lemma ParseFormatRoundTrip(d: Date)
    requires ValidDate(d)
    ensures ParseDate(FormatDate(d)) == Some(d)
  {
    var y, m, dd := Padded(d.year, 4), Padded(d.month, 2), Padded(d.day, 2);
    DigitCount(d.year, 10000, 4);
    DigitCount(d.month, 100, 2);
    DigitCount(d.day, 100, 2);
    assert |y| == 4 && |m| == 2 && |dd| == 2;
    NoDash(y);
    NoDash(m);
    NoDash(dd);
    assert Join([dd], "-") == dd;
    assert [y, m, dd][1..] == [m, dd] && [m, dd][1..] == [dd];
    assert Join([m, dd], "-") == m + "-" + dd;
    assert FormatDate(d) == Join([y, m, dd], "-");
    SplitJoin([y, m, dd], "-");
    PaddedValue(d.year, 4);
    PaddedValue(d.month, 2);
    PaddedValue(d.day, 2);
  }

  lemma NoDash(s: string)
    requires AllDigits(s)
    ensures SepFree(s, "-")
  {
    SepFreeSingle(s, '-');
  }

  /** A moment of a day: the date and the microseconds since midnight. */
  datatype Moment = Moment(date: Date, micros: int)

  /** `time.max`, 23:59:59.999999. */
  const EndOfDay: int := 86_399_999_999

  predicate ValidMoment(m: Moment) {
    ValidDate(m.date) && 0 <= m.micros <= EndOfDay
  }

  /** Python's date comparison: year, then month, then day. */
  predicate DateLe(a: Date, b: Date) {
    a.year < b.year || (a.year == b.year && (a.month < b.month || (a.month == b.month && a.day <= b.day)))
  }

  /** Python's datetime comparison: the date, then the time of day. */
  predicate MomentLe(a: Moment, b: Moment) {
    (DateLe(a.date, b.date) && a.date != b.date) || (a.date == b.date && a.micros <= b.micros)
  }

  /** The period a report covers: its two dates and the first and last
      moments it includes. */
  datatype Period = Period(from: Date, to: Date, start: Moment, end: Moment)

  predicate Within(m: Moment, p: Period) {
    MomentLe(p.start, m) && MomentLe(m, p.end)
  }

  datatype DateError = BadDate   // strptime raised ValueError

  /** A date field as the report reads it: empty or absent means today. */
  function DateField(field: Option<string>, today: Date): Option<Date>
  {
    if field.None? || field.value == "" then Some(today) else ParseDate(field.value)
  }

  /** get_date_range: each missing date is today; the period runs from the
      very start of the first day to the very end of the last. */
  function DateRange(dateFrom: Option<string>, dateTo: Option<string>, today: Date): Result<Period, DateError>
  {
    match (DateField(dateFrom, today), DateField(dateTo, today))
    case (Some(f), Some(t)) => Ok(Period(f, t, Moment(f, 0), Moment(t, EndOfDay)))
    case _ => Err(BadDate)
  }

  /** The period is refused exactly when a given date does not parse; an
      absent or empty date is today; and a moment of the day belongs to the
      period exactly when its date lies between the two dates, so a
      one-day report covers the whole of that day. */
  lemma DateRangeMeaning(dateFrom: Option<string>, dateTo: Option<string>, today: Date)
    ensures var r := DateRange(dateFrom, dateTo, today);
      && (r.Err? <==> DateField(dateFrom, today).None? || DateField(dateTo, today).None?)
      && (r.Ok? ==>
            && ((dateFrom.None? || dateFrom.value == "") ==> r.value.from == today)
            && ((dateTo.None? || dateTo.value == "") ==> r.value.to == today)
            && (dateFrom.Some? && dateFrom.value != "" ==> Some(r.value.from) == ParseDate(dateFrom.value))
            && (dateTo.Some? && dateTo.value != "" ==> Some(r.value.to) == ParseDate(dateTo.value))
            && forall m | ValidMoment(m) ::
                 Within(m, r.value) <==> DateLe(r.value.from, m.date) && DateLe(m.date, r.value.to))
  {
  }

  // ---------------------------------------------------------------------
  // Cash flow
  // ---------------------------------------------------------------------

  /** An order row with its creation time. */
  datatype Placed = Placed(order: Records.Order, createdAt: Moment)

  /** The cash-flow query: orders created within the period whose status is
      a completed one, in their given order. */
  function Completed(rows: seq<Placed>, completedIds: set<nat>, p: Period): (r: seq<Records.Order>)
    ensures forall o :: o in r <==> exists x | x in rows :: x.order == o && o.statusId in completedIds && Within(x.createdAt, p)
    ensures |r| <= |rows|
  {
    if rows == [] then []
    else
      var rest := Completed(rows[1..], completedIds, p);
      assert forall x | x in rows :: x == rows[0] || x in rows[1..];
      if rows[0].order.statusId in completedIds && Within(rows[0].createdAt, p) then [rows[0].order] + rest
      else rest
  }

  /** The total of the orders paid `how`. */
  function Paid(orders: seq<Records.Order>, how: string): real
  {
    if orders == [] then 0.0
    else (if orders[0].paymentMethod == how then orders[0].totalPrice else 0.0) + Paid(orders[1..], how)
  }

  /** The total of the orders paid neither in cash nor by card. */
  function PaidOtherwise(orders: seq<Records.Order>): real
  {
    if orders == [] then 0.0
    else
      var o := orders[0];
      (if o.paymentMethod != "cash" && o.paymentMethod != "card" then o.totalPrice else 0.0) + PaidOtherwise(orders[1..])
  }

  function TotalPrice(orders: seq<Records.Order>): real
  {
    if orders == [] then 0.0 else orders[0].totalPrice + TotalPrice(orders[1..])
  }

  /** Every completed order lands in exactly one of cash, card and other,
      so the report's revenue (cash + card) is the period's takings less
      the orders paid some other way. */
  lemma {:induction false} RevenueSplits(orders: seq<Records.Order>)
    ensures Paid(orders, "cash") + Paid(orders, "card") + PaidOtherwise(orders) == TotalPrice(orders)
  {
    if orders != [] {
      RevenueSplits(orders[1..]);
    }
  }

  /** report_cash_flow's loop over the completed orders: what it adds to
      the cash and the card revenue, and the revenue total it shows. */
  method CashFlowRevenue(orders: seq<Records.Order>) returns (cash: real, card: real, total: real)
    ensures cash == Paid(orders, "cash") && card == Paid(orders, "card")
    ensures total == cash + card
    ensures total == TotalPrice(orders) - PaidOtherwise(orders)
  {
    cash, card := 0.0, 0.0;
    var k := 0;
    while k < |orders|
      invariant 0 <= k <= |orders|
      invariant cash + Paid(orders[k..], "cash") == Paid(orders, "cash")
      invariant card + Paid(orders[k..], "card") == Paid(orders, "card")
    {
      assert orders[k..][1..] == orders[k + 1..];
      var o := orders[k];
      if o.paymentMethod == "cash" {
        cash := cash + o.totalPrice;
      } else if o.paymentMethod == "card" {
        card := card + o.totalPrice;
      }
      k := k + 1;
    }
    assert orders[k..] == [];
    total := cash + card;
    RevenueSplits(orders);
  }

  /** A cash-desk transaction: "in", "out" or "handover". */
  datatype Transaction = Transaction(kind: string, amount: real, createdAt: Moment)

  /** The report's expenses: the amounts of the "out" transactions. */
  function Expenses(txs: seq<Transaction>): real
  {
    if txs == [] then 0.0 else (if txs[0].kind == "out" then txs[0].amount else 0.0) + Expenses(txs[1..])
  }

  lemma {:induction false} ExpensesAppend(a: seq<Transaction>, b: seq<Transaction>)
    ensures Expenses(a + b) == Expenses(a) + Expenses(b)
  {
    if a != [] {
      assert (a + b)[0] == a[0];
      assert (a + b)[1..] == a[1..] + b;
      assert Expenses(a + b) == (if a[0].kind == "out" then a[0].amount else 0.0) + Expenses(a[1..] + b);
      ExpensesAppend(a[1..], b);
    } else {
      assert a + b == b;
    }
  }

  /** One more transaction adds its amount to the expenses if it is an
      "out" and nothing otherwise: deposits and handovers are no expense. */
  lemma ExpensesOnlyOut(txs: seq<Transaction>, tx: Transaction)
    ensures Expenses(txs + [tx]) == Expenses(txs) + (if tx.kind == "out" then tx.amount else 0.0)
  {
    ExpensesAppend(txs, [tx]);
  }

  /** report_cash_flow's loop over the period's transactions. */
  method TotalExpenses(txs: seq<Transaction>) returns (total: real)
    ensures total == Expenses(txs)
  {
    total := 0.0;
    var k := 0;
    while k < |txs|
      invariant 0 <= k <= |txs|
      invariant total + Expenses(txs[k..]) == Expenses(txs)
    {
      assert txs[k..][1..] == txs[k + 1..];
      if txs[k].kind == "out" {
        total := total + txs[k].amount;
      }
      k := k + 1;
    }
    assert txs[k..] == [];
  }

  // ---------------------------------------------------------------------
  // Staff
  // ---------------------------------------------------------------------

  /** One grouped row of the staff query: the employee, their role, how
      many completed orders and their summed total (NULL when every total
      is NULL). */
  datatype WorkerRow = WorkerRow(fullName: string, roleName: string, count: nat, total: Option<real>)

  /** `x.total or 0`, the sort key. */
  function TotalOrZero(r: WorkerRow): real {
    if r.total.Some? then r.total.value else 0.0
  }

  /** Sorted by total, largest first. */
  predicate ByTotalDescending(rows: seq<WorkerRow>) {
    forall i, j | 0 <= i < j < |rows| :: TotalOrZero(rows[i]) >= TotalOrZero(rows[j])
  }

  function InsertByTotal(x: WorkerRow, rows: seq<WorkerRow>): (r: seq<WorkerRow>)
    requires ByTotalDescending(rows)
    ensures ByTotalDescending(r)
    ensures multiset(r) == multiset(rows) + multiset{x}
    ensures forall y | y in r :: y == x || y in rows
  {
    if rows == [] || TotalOrZero(rows[0]) <= TotalOrZero(x) then
      [x] + rows
    else
      var rest := InsertByTotal(x, rows[1..]);
      assert rows == [rows[0]] + rows[1..];
      assert ByTotalDescending([rows[0]] + rest) by { ConsByTotal(rows[0], rest); }
      [rows[0]] + rest
  }

  lemma ConsByTotal(h: WorkerRow, rest: seq<WorkerRow>)
    requires ByTotalDescending(rest)
    requires forall y | y in rest :: TotalOrZero(h) >= TotalOrZero(y)
    ensures ByTotalDescending([h] + rest)
  {
    var s := [h] + rest;
    forall i, j | 0 <= i < j < |s| ensures TotalOrZero(s[i]) >= TotalOrZero(s[j]) {
      assert s[j] == rest[j - 1];
      if i > 0 { assert s[i] == rest[i - 1]; }
    }
  }

  /** `all_stats.sort(key=lambda x: x.total or 0, reverse=True)` applied to
      the couriers' rows followed by the waiters' rows. */
  function SortByTotal(rows: seq<WorkerRow>): (r: seq<WorkerRow>)
    ensures ByTotalDescending(r)
    ensures multiset(r) == multiset(rows)
  {
    if rows == [] then []
    else
      assert rows == [rows[0]] + rows[1..];
      InsertByTotal(rows[0], SortByTotal(rows[1..]))
  }

  /** The rows whose sort key is t, in their order. */
  function WithTotal(rows: seq<WorkerRow>, t: real): (r: seq<WorkerRow>)
    ensures forall y | y in r :: y in rows && TotalOrZero(y) == t
  {
    if rows == [] then []
    else (if TotalOrZero(rows[0]) == t then [rows[0]] else []) + WithTotal(rows[1..], t)
  }

  /** Inserting puts the new row before the rows of the same total. */
  lemma {:induction false} InsertByTotalStable(x: WorkerRow, rows: seq<WorkerRow>, t: real)
    requires ByTotalDescending(rows)
    ensures WithTotal(InsertByTotal(x, rows), t) == (if TotalOrZero(x) == t then [x] else []) + WithTotal(rows, t)
    decreases rows
  {
    if rows == [] || TotalOrZero(rows[0]) <= TotalOrZero(x) {
      WithTotalCons(x, rows, t);
    } else {
      DescendingTail(rows);
      var rest := InsertByTotal(x, rows[1..]);
      InsertByTotalStable(x, rows[1..], t);
      WithTotalCons(rows[0], rest, t);
      WithTotalCons(rows[0], rows[1..], t);
      SwapEmpty(if TotalOrZero(rows[0]) == t then [rows[0]] else [], if TotalOrZero(x) == t then [x] else [],
                WithTotal(rows[1..], t));
    }
  }

  lemma WithTotalCons(h: WorkerRow, rows: seq<WorkerRow>, t: real)
    ensures WithTotal([h] + rows, t) == (if TotalOrZero(h) == t then [h] else []) + WithTotal(rows, t)
  {
    assert ([h] + rows)[1..] == rows;
  }

  lemma DescendingTail(rows: seq<WorkerRow>)
    requires rows != [] && ByTotalDescending(rows)
    ensures ByTotalDescending(rows[1..])
  {
    forall i, j | 0 <= i < j < |rows[1..]| ensures TotalOrZero(rows[1..][i]) >= TotalOrZero(rows[1..][j]) {
      assert rows[1..][i] == rows[i + 1] && rows[1..][j] == rows[j + 1];
    }
  }

  lemma SwapEmpty<T>(a: seq<T>, b: seq<T>, c: seq<T>)
    requires a == [] || b == []
    ensures a + (b + c) == b + (a + c)
  {
    if a == [] {
      assert b + c == b + ([] + c);
    } else {
      assert a + c == a + ([] + c);
    }
  }

  /** The sort is stable: rows with the same total keep their input order,
      as Python's sort does. */
  lemma {:induction false} SortByTotalStable(rows: seq<WorkerRow>, t: real)
    ensures WithTotal(SortByTotal(rows), t) == WithTotal(rows, t)
    decreases rows
  {
    if rows != [] {
      SortByTotalStable(rows[1..], t);
      InsertByTotalStable(rows[0], SortByTotal(rows[1..]), t);
    }
  }

  /** The average check: total / count, 0 for an employee without orders. */
  function AverageCheck(total: real, count: nat): real
  {
    if count > 0 then total / count as real else 0.0
  }

  /** The average check times the number of orders gives the total back,
      and it is 0 exactly when there are no orders or no takings. */
  lemma AverageCheckMeaning(total: real, count: nat)
    ensures count > 0 ==> AverageCheck(total, count) * count as real == total
    ensures AverageCheck(total, count) == 0.0 <==> count == 0 || total == 0.0
  {
  }

  /** A row of the staff table as shown. */
  datatype WorkerLine = WorkerLine(fullName: string, roleName: string, count: nat, total: real, average: real)

  /** How one row is shown: `row.total or 0` and its average check. */
  function Shown(r: WorkerRow): WorkerLine {
    WorkerLine(r.fullName, r.roleName, r.count, TotalOrZero(r), AverageCheck(TotalOrZero(r), r.count))
  }

  /** report_workers: couriers then waiters, sorted by total, each shown
      with its average check. */
  function WorkersReport(couriers: seq<WorkerRow>, waiters: seq<WorkerRow>): (lines: seq<WorkerLine>)
    ensures var sorted := SortByTotal(couriers + waiters);
      |lines| == |sorted| && forall i | 0 <= i < |lines| :: lines[i] == Shown(sorted[i])
  {
    var sorted := SortByTotal(couriers + waiters);
    seq(|sorted|, i requires 0 <= i < |sorted| => Shown(sorted[i]))
  }

  /** The staff table lists every courier and waiter row, and nothing
      else, largest total first. */
  lemma WorkersReportListsAll(couriers: seq<WorkerRow>, waiters: seq<WorkerRow>)
    ensures var lines := WorkersReport(couriers, waiters);
      && |lines| == |couriers| + |waiters|
      && (forall i, j | 0 <= i < j < |lines| :: lines[i].total >= lines[j].total)
      && (forall w | w in couriers + waiters :: Shown(w) in lines)
      && (forall l | l in lines :: exists w | w in couriers + waiters :: l == Shown(w))
  {
    var all := couriers + waiters;
    var sorted := SortByTotal(all);
    assert |sorted| == |all| by {
      assert |multiset(sorted)| == |multiset(all)|;
    }
    var lines := WorkersReport(couriers, waiters);
    forall w | w in all
      ensures Shown(w) in lines
    {
      assert w in multiset(sorted);
      var i :| 0 <= i < |sorted| && sorted[i] == w;
      assert lines[i] == Shown(w);
    }
    forall l | l in lines
      ensures exists w | w in all :: l == Shown(w)
    {
      var i :| 0 <= i < |lines| && lines[i] == l;
      assert sorted[i] in multiset(all);
    }
  }

  /** Every shown average check times the order count gives the shown
      total back, and an employee without orders shows an average of 0. */
  lemma WorkersReportAverages(couriers: seq<WorkerRow>, waiters: seq<WorkerRow>)
    ensures var lines := WorkersReport(couriers, waiters);
      && (forall i | 0 <= i < |lines| && lines[i].count > 0 :: lines[i].average * lines[i].count as real == lines[i].total)
      && (forall i | 0 <= i < |lines| && lines[i].count == 0 :: lines[i].average == 0.0)
  {
    var lines := WorkersReport(couriers, waiters);
    forall i | 0 <= i < |lines|
      ensures lines[i].count > 0 ==> lines[i].average * lines[i].count as real == lines[i].total
    {
      AverageCheckMeaning(lines[i].total, lines[i].count);
    }
  }

  // ---------------------------------------------------------------------
  // Dish analytics
  // ---------------------------------------------------------------------

  /** One dish of the analytics query: its name, the quantity sold and the
      revenue (Σ quantity · price at the moment). */
  datatype DishRow = DishRow(productName: string, totalQty: int, revenue: real)

  function Revenue(data: seq<DishRow>): real
  {
    if data == [] then 0.0 else data[0].revenue + Revenue(data[1..])
  }

  /** The divisor of the shares: the period's revenue, or 1 when there are
      no dishes or they sum to zero, so it is never zero. */
  function PeriodRevenue(data: seq<DishRow>): (p: real)
    ensures p != 0.0
    ensures Revenue(data) != 0.0 ==> p == Revenue(data)
  {
    if data == [] then 1.0
    else if Revenue(data) == 0.0 then 1.0
    else Revenue(data)
  }

  /** Each dish's share of the period, in percent. */
  function Shares(data: seq<DishRow>): seq<real>
  {
    var p := PeriodRevenue(data);
    seq(|data|, i requires 0 <= i < |data| => data[i].revenue / p * 100.0)
  }

  function Sum(xs: seq<real>): real
  {
    if xs == [] then 0.0 else xs[0] + Sum(xs[1..])
  }

  lemma {:induction false} ScaledSum(data: seq<DishRow>, p: real)
    requires p != 0.0
    ensures Sum(seq(|data|, i requires 0 <= i < |data| => data[i].revenue / p * 100.0)) == Revenue(data) / p * 100.0
  {
    var xs := seq(|data|, i requires 0 <= i < |data| => data[i].revenue / p * 100.0);
    if data != [] {
      var ys := seq(|data[1..]|, i requires 0 <= i < |data[1..]| => data[1..][i].revenue / p * 100.0);
      assert xs[1..] == ys;
      ScaledSum(data[1..], p);
      assert Revenue(data) == data[0].revenue + Revenue(data[1..]);
    }
  }

  /** When the period earned anything the shares add up to 100%; when it
      earned nothing each share is the dish's revenue times 100. */
  lemma SharesMeaning(data: seq<DishRow>)
    ensures |Shares(data)| == |data|
    ensures Revenue(data) != 0.0 ==> Sum(Shares(data)) == 100.0
    ensures Revenue(data) == 0.0 ==> forall i | 0 <= i < |data| :: Shares(data)[i] == data[i].revenue * 100.0
  {
    var p := PeriodRevenue(data);
    ScaledSum(data, p);
    if Revenue(data) != 0.0 {
      assert Revenue(data) / p == 1.0;
    }
  }
}
