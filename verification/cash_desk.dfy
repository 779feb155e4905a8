/** The cash desk ledger: shifts, employees' cash balances (the cash they
    hold on behalf of the till), hand-overs and shift statistics. One till is
    shared by everybody, so at most one shift is open at a time. */
module Cash {
  import opened Wrappers
  import opened Records

  datatype Shift = Shift(
    employeeId: nat,
    startCash: Option<real>,
    isClosed: bool,
    endCashActual: Option<real>,
    totalSalesCash: real,
    totalSalesCard: real,
    serviceIn: real,
    serviceOut: real)

  /** A till movement: kind "in", "out" or "handover". */
  datatype Transaction = Transaction(shiftId: nat, amount: real, kind: string)

  /** One BalanceHistory audit row. */
  datatype BalanceEntry = BalanceEntry(employeeId: nat, amount: real, newBalance: real)

  datatype ShiftStats = ShiftStats(
    startCash: real,
    totalSalesCash: real,
    totalSalesCard: real,
    totalSales: real,
    serviceIn: real,
    serviceOut: real,
    handoverIn: real,
    theoreticalCash: real)

  datatype CashError =
    | EmployeeHasOpenShift
    | ShiftOpenBy(employeeId: nat)
    | ShiftMissingOrClosed
    | EmployeeMissing
    | NothingToHandOver
    | NoOrdersSelected

  /** The tables the ledger touches. Shift ids are autoincrement keys: the
      shift with id k is shifts[k - 1]. balances maps an employee id to
      Employee.cash_balance. */
  datatype Books = Books(
    shifts: seq<Shift>,
    orders: seq<Order>,
    balances: map<nat, real>,
    transactions: seq<Transaction>,
    history: seq<BalanceEntry>)

  predicate IsShift(shifts: seq<Shift>, id: nat) { 1 <= id <= |shifts| }

  predicate IsOpen(shifts: seq<Shift>, id: nat) { IsShift(shifts, id) && !shifts[id - 1].isClosed }

  ghost predicate AtMostOneOpen(shifts: seq<Shift>) {
    forall i, j | 0 <= i < j < |shifts| :: shifts[i].isClosed || shifts[j].isClosed
  }

  ghost predicate Inv(b: Books) {
    && AtMostOneOpen(b.shifts)
    && (forall e | e in b.balances :: b.balances[e] >= 0.0)
    && (forall i | 0 <= i < |b.orders| :: b.orders[i].totalPrice >= 0.0)
  }

  // ---------------------------------------------------------------- queries

  /** The first unclosed shift from index `from` on, restricted to one
      employee when one is given. */
  function FirstOpen(shifts: seq<Shift>, employee: Option<nat>, from: nat): (r: Option<nat>)
    requires from <= |shifts|
    ensures r.Some? ==> from < r.value <= |shifts| && IsOpen(shifts, r.value)
    ensures r.Some? && employee.Some? ==> shifts[r.value - 1].employeeId == employee.value
    ensures r.None? ==> forall k | from <= k < |shifts| ::
      shifts[k].isClosed || (employee.Some? && shifts[k].employeeId != employee.value)
    decreases |shifts| - from
  {
    if from == |shifts| then None
    else if !shifts[from].isClosed && (employee.None? || shifts[from].employeeId == employee.value) then
      Some(from + 1)
    else
      FirstOpen(shifts, employee, from + 1)
  }

  /** get_open_shift: the employee's unclosed shift. */
  function OpenShiftOf(shifts: seq<Shift>, employeeId: nat): Option<nat>
  {
    FirstOpen(shifts, Some(employeeId), 0)
  }

  /** get_any_open_shift: any unclosed shift. */
  function AnyOpenShift(shifts: seq<Shift>): Option<nat>
  {
    FirstOpen(shifts, None, 0)
  }

  /** Σ total_price of the orders on a shift paid by a given method. */
  function SalesOf(orders: seq<Order>, shiftId: nat, payment: string): real
  {
    if orders == [] then 0.0
    else (if orders[0].cashShiftId == Some(shiftId) && orders[0].paymentMethod == payment
          then orders[0].totalPrice else 0.0)
         + SalesOf(orders[1..], shiftId, payment)
  }

  /** Σ total_price of the shift's cash orders whose money is in the till. */
  function CollectedCash(orders: seq<Order>, shiftId: nat): real
  {
    if orders == [] then 0.0
    else (if orders[0].cashShiftId == Some(shiftId) && orders[0].paymentMethod == "cash"
             && orders[0].isCashTurnedIn
          then orders[0].totalPrice else 0.0)
         + CollectedCash(orders[1..], shiftId)
  }

  /** Σ total_price of the shift's cash orders still held by staff. */
  function OutstandingCash(orders: seq<Order>, shiftId: nat): real
  {
    if orders == [] then 0.0
    else (if orders[0].cashShiftId == Some(shiftId) && orders[0].paymentMethod == "cash"
             && !orders[0].isCashTurnedIn
          then orders[0].totalPrice else 0.0)
         + OutstandingCash(orders[1..], shiftId)
  }

  function TransactionSum(txs: seq<Transaction>, shiftId: nat, kind: string): real
  {
    if txs == [] then 0.0
    else (if txs[0].shiftId == shiftId && txs[0].kind == kind then txs[0].amount else 0.0)
         + TransactionSum(txs[1..], shiftId, kind)
  }

  /** get_shift_statistics (the X-report). None for an unknown shift. */
  function Statistics(b: Books, shiftId: nat): Option<ShiftStats>
  {
    if !IsShift(b.shifts, shiftId) then None
    else
      var start := b.shifts[shiftId - 1].startCash.GetOr(0.0);
      var cash := SalesOf(b.orders, shiftId, "cash");
      var card := SalesOf(b.orders, shiftId, "card");
      var sIn := TransactionSum(b.transactions, shiftId, "in");
      var sOut := TransactionSum(b.transactions, shiftId, "out");
      var hand := TransactionSum(b.transactions, shiftId, "handover");
      Some(ShiftStats(start, cash, card, cash + card, sIn, sOut, hand,
                      start + CollectedCash(b.orders, shiftId) + sIn - sOut))
  }

  // -------------------------------------------------------------- operations

  function AttachOne(o: Order, shiftId: nat, completedIds: set<nat>): Order
  {
    if o.cashShiftId.None? && o.statusId in completedIds then o.(cashShiftId := Some(shiftId)) else o
  }

  /** attach_orphaned_orders: completed orders without a shift join this one. */
  function AttachOrphans(orders: seq<Order>, shiftId: nat, completedIds: set<nat>): (r: seq<Order>)
    ensures |r| == |orders|
    ensures forall k | 0 <= k < |r| :: r[k] == AttachOne(orders[k], shiftId, completedIds)
  {
    if orders == [] then [] else [AttachOne(orders[0], shiftId, completedIds)] + AttachOrphans(orders[1..], shiftId, completedIds)
  }

  /** open_new_shift */
  function OpenNewShiftSpec(b: Books, employeeId: nat, startCash: real, completedIds: set<nat>)
    : (Books, Result<nat, CashError>)
  {
    if OpenShiftOf(b.shifts, employeeId).Some? then (b, Err(EmployeeHasOpenShift))
    else
      match AnyOpenShift(b.shifts)
      case Some(id) => (b, Err(ShiftOpenBy(b.shifts[id - 1].employeeId)))
      case None =>
        var shifts := b.shifts + [Shift(employeeId, Some(startCash), false, None, 0.0, 0.0, 0.0, 0.0)];
        (b.(shifts := shifts, orders := AttachOrphans(b.orders, |shifts|, completedIds)), Ok(|shifts|))
  }

  /** The shift link_order_to_shift gives an order. */
  function LinkTarget(shifts: seq<Shift>, o: Order, employeeId: Option<nat>): Option<nat>
  {
    if o.cashShiftId.Some? then o.cashShiftId
    else
      var own := if employeeId.Some? then OpenShiftOf(shifts, employeeId.value) else None;
      if own.Some? then own else AnyOpenShift(shifts)
  }

  /** link_order_to_shift */
  function LinkOrderToShiftSpec(b: Books, i: nat, employeeId: Option<nat>): Books
    requires i < |b.orders|
  {
    b.(orders := b.orders[i := b.orders[i].(cashShiftId := LinkTarget(b.shifts, b.orders[i], employeeId))])
  }

  /** register_employee_debt: the employee now holds the order's cash. */
  function RegisterEmployeeDebtSpec(b: Books, i: nat, employeeId: nat): Books
    requires i < |b.orders|
  {
    var o := b.orders[i];
    if o.paymentMethod != "cash" || employeeId !in b.balances then b
    else
      var balance := b.balances[employeeId] + o.totalPrice;
      b.(balances := b.balances[employeeId := balance],
         orders := b.orders[i := o.(isCashTurnedIn := false)],
         history := b.history + [BalanceEntry(employeeId, o.totalPrice, balance)])
  }

  /** Who holds an order's cash: courier, else accepting waiter, else the
      courier who completed it. */
  function DebtHolder(o: Order): Option<nat>
  {
    OrElse(OrElse(o.courierId, o.acceptedByWaiterId), o.completedByCourierId)
  }

  /** A balance lowered by an amount, never below zero. */
  function Debit(balance: real, amount: real): (r: real)
    ensures r >= 0.0
    ensures balance - amount >= 0.0 ==> r == balance - amount
  {
    if balance - amount < 0.0 then 0.0 else balance - amount
  }

  /** unregister_employee_debt */
  function UnregisterEmployeeDebtSpec(b: Books, i: nat): Books
    requires i < |b.orders|
  {
    var o := b.orders[i];
    var h := DebtHolder(o);
    if o.paymentMethod != "cash" || o.isCashTurnedIn || h.None? || h.value !in b.balances then b
    else
      var balance := Debit(b.balances[h.value], o.totalPrice);
      b.(balances := b.balances[h.value := balance],
         history := b.history + [BalanceEntry(h.value, -o.totalPrice, balance)])
  }

  predicate Pending(o: Order, orderIds: seq<nat>) { o.id in orderIds && !o.isCashTurnedIn }

  function AnyPending(orders: seq<Order>, orderIds: seq<nat>): (r: bool)
    ensures r <==> exists k | 0 <= k < |orders| :: Pending(orders[k], orderIds)
  {
    if orders == [] then false else Pending(orders[0], orderIds) || AnyPending(orders[1..], orderIds)
  }

  /** Σ total_price of the selected orders not yet turned in. */
  function PendingTotal(orders: seq<Order>, orderIds: seq<nat>): real
  {
    if orders == [] then 0.0
    else PendingTotal(orders[..|orders| - 1], orderIds)
         + (if Pending(orders[|orders| - 1], orderIds) then orders[|orders| - 1].totalPrice else 0.0)
  }

  function MarkHandedOver(o: Order, orderIds: seq<nat>, shiftId: nat): Order
  {
    if Pending(o, orderIds) then
      o.(isCashTurnedIn := true, cashShiftId := if o.cashShiftId.None? then Some(shiftId) else o.cashShiftId)
    else o
  }

  function HandOver(orders: seq<Order>, orderIds: seq<nat>, shiftId: nat): (r: seq<Order>)
    ensures |r| == |orders|
    ensures forall k | 0 <= k < |r| :: r[k] == MarkHandedOver(orders[k], orderIds, shiftId)
  {
    if orders == [] then [] else [MarkHandedOver(orders[0], orderIds, shiftId)] + HandOver(orders[1..], orderIds, shiftId)
  }

  /** The loop of process_handover: every selected order whose cash is
      still out is marked turned in (and put on the shift if it has none),
      and its total is added up. */
  method SettleOrders(orders: seq<Order>, orderIds: seq<nat>, shiftId: nat)
    returns (settled: seq<Order>, total: real)
    ensures settled == HandOver(orders, orderIds, shiftId)
    ensures total == PendingTotal(orders, orderIds)
  {
    settled := orders;
    total := 0.0;
    var i := 0;
    while i < |orders|
      invariant 0 <= i <= |orders| == |settled|
      invariant forall k | 0 <= k < i :: settled[k] == MarkHandedOver(orders[k], orderIds, shiftId)
      invariant forall k | i <= k < |orders| :: settled[k] == orders[k]
      invariant total == PendingTotal(orders[..i], orderIds)
    {
      assert orders[..i + 1][..i] == orders[..i];
      var o := settled[i];
      if Pending(o, orderIds) {
        total := total + o.totalPrice;
        var shift := if o.cashShiftId.None? then Some(shiftId) else o.cashShiftId;
        settled := settled[i := o.(isCashTurnedIn := true, cashShiftId := shift)];
      }
      i := i + 1;
    }
    assert orders[..i] == orders;
  }

  /** process_handover: the cashier takes the employee's cash for the
      selected orders. */
  function ProcessHandoverSpec(b: Books, shiftId: nat, employeeId: nat, orderIds: seq<nat>)
    : (Books, Result<real, CashError>)
  {
    if !IsOpen(b.shifts, shiftId) then (b, Err(ShiftMissingOrClosed))
    else if employeeId !in b.balances then (b, Err(EmployeeMissing))
    else if !AnyPending(b.orders, orderIds) then (b, Err(NothingToHandOver))
    else (HandedOver(b, shiftId, employeeId, orderIds), Ok(PendingTotal(b.orders, orderIds)))
  }

  /** The books after a handover passed its checks: the pending orders
      settled, the total debited from the employee with a history row, and
      a handover transaction on the shift. */
  function HandedOver(b: Books, shiftId: nat, employeeId: nat, orderIds: seq<nat>): Books
    requires employeeId in b.balances
  {
    var total := PendingTotal(b.orders, orderIds);
    var balance := Debit(b.balances[employeeId], total);
    b.(orders := HandOver(b.orders, orderIds, shiftId),
       balances := b.balances[employeeId := balance],
       history := b.history + [BalanceEntry(employeeId, -total, balance)],
       transactions := b.transactions + [Transaction(shiftId, total, "handover")])
  }

  lemma HandedOverInv(b: Books, shiftId: nat, employeeId: nat, orderIds: seq<nat>)
    requires Inv(b) && IsOpen(b.shifts, shiftId) && employeeId in b.balances && AnyPending(b.orders, orderIds)
    ensures Inv(HandedOver(b, shiftId, employeeId, orderIds))
  {
    HandoverClearsOrders(b, shiftId, employeeId, orderIds);
  }

  /** close_active_shift: the statistics are frozen into the shift. */
  function CloseActiveShiftSpec(b: Books, shiftId: nat, endCashActual: real): (Books, Result<(), CashError>)
  {
    if !IsOpen(b.shifts, shiftId) then (b, Err(ShiftMissingOrClosed))
    else
      var st := Statistics(b, shiftId).value;
      var s := b.shifts[shiftId - 1];
      var closed := s.(endCashActual := Some(endCashActual),
                       totalSalesCash := st.totalSalesCash, totalSalesCard := st.totalSalesCard,
                       serviceIn := st.serviceIn, serviceOut := st.serviceOut, isClosed := true);
      (b.(shifts := b.shifts[shiftId - 1 := closed]), Ok(()))
  }

  /** add_shift_transaction (the shift id is not checked). */
  function AddShiftTransactionSpec(b: Books, shiftId: nat, amount: real, kind: string): Books
  {
    b.(transactions := b.transactions + [Transaction(shiftId, amount, kind)])
  }

  // ------------------------------------------------------------------ lemmas

  /** Opening succeeds exactly when no shift at all is open; afterwards the
      new shift is the only open one. */
  lemma OpenNewShiftKeepsOneOpen(b: Books, employeeId: nat, startCash: real, completedIds: set<nat>)
    requires Inv(b)
    ensures var (b', r) := OpenNewShiftSpec(b, employeeId, startCash, completedIds);
      && Inv(b')
      && (r.Ok? <==> AnyOpenShift(b.shifts).None?)
      && (r.Err? ==> b' == b)
      && (r.Ok? ==> IsOpen(b'.shifts, r.value) && AnyOpenShift(b'.shifts) == Some(r.value)
                    && b'.shifts[r.value - 1].employeeId == employeeId)
  {
    var (b', r) := OpenNewShiftSpec(b, employeeId, startCash, completedIds);
    if OpenShiftOf(b.shifts, employeeId).Some? {
      assert AnyOpenShift(b.shifts).Some? by {
        var id := OpenShiftOf(b.shifts, employeeId).value;
        if AnyOpenShift(b.shifts).None? { assert !b.shifts[id - 1].isClosed; }
      }
    } else if AnyOpenShift(b.shifts).None? {
      forall k | 0 <= k < |b'.orders| ensures b'.orders[k].totalPrice >= 0.0 {
        assert b'.orders[k] == AttachOne(b.orders[k], |b'.shifts|, completedIds);
      }
    }
  }

  /** An order already on a shift keeps it, so linking twice is linking once;
      an unlinked order joins the open shift whenever one exists. */
  lemma LinkOrderToShiftIdempotent(b: Books, i: nat, employeeId: Option<nat>)
    requires i < |b.orders|
    ensures var b' := LinkOrderToShiftSpec(b, i, employeeId);
      && LinkOrderToShiftSpec(b', i, employeeId) == b'
      && (b.orders[i].cashShiftId.Some? ==> b' == b)
      && (AnyOpenShift(b.shifts).Some? ==> b'.orders[i].cashShiftId.Some?)
      && (AnyOpenShift(b.shifts).None? ==> b'.orders[i].cashShiftId == b.orders[i].cashShiftId)
  {
    var b' := LinkOrderToShiftSpec(b, i, employeeId);
    if b.orders[i].cashShiftId.Some? {
      assert b.orders[i := b.orders[i]] == b.orders;
    }
  }

  /** Registering a cash order's debt on the employee who then holds it, and
      unregistering it, restores every balance. */
  lemma RegisterThenUnregister(b: Books, i: nat, employeeId: nat)
    requires Inv(b) && i < |b.orders|
    requires b.orders[i].paymentMethod == "cash" && employeeId in b.balances
    requires DebtHolder(b.orders[i]) == Some(employeeId)
    ensures UnregisterEmployeeDebtSpec(RegisterEmployeeDebtSpec(b, i, employeeId), i).balances == b.balances
  {
    var b1 := RegisterEmployeeDebtSpec(b, i, employeeId);
    assert b1.orders[i].isCashTurnedIn == false;
    assert b1.balances[employeeId] - b.orders[i].totalPrice == b.balances[employeeId];
    assert b.balances[employeeId := b.balances[employeeId]] == b.balances;
  }

  lemma RegisterDebtAdds(b: Books, i: nat, employeeId: nat)
    requires Inv(b) && i < |b.orders|
    ensures var b' := RegisterEmployeeDebtSpec(b, i, employeeId);
      && Inv(b')
      && (b.orders[i].paymentMethod == "cash" && employeeId in b.balances ==>
            b'.balances[employeeId] == b.balances[employeeId] + b.orders[i].totalPrice
            && b'.history[|b'.history| - 1].newBalance == b'.balances[employeeId]
            && !b'.orders[i].isCashTurnedIn)
      && (b.orders[i].paymentMethod != "cash" ==> b' == b)
  {
  }

  lemma UnregisterDebtLowers(b: Books, i: nat)
    requires Inv(b) && i < |b.orders|
    ensures var b' := UnregisterEmployeeDebtSpec(b, i);
      && Inv(b')
      && (b.orders[i].paymentMethod != "cash" || b.orders[i].isCashTurnedIn ==> b' == b)
      && (forall e | e in b.balances :: e in b'.balances && b'.balances[e] <= b.balances[e])
  {
  }

  lemma {:induction false} PendingTotalNonNegative(orders: seq<Order>, orderIds: seq<nat>)
    requires forall k | 0 <= k < |orders| :: orders[k].totalPrice >= 0.0
    ensures PendingTotal(orders, orderIds) >= 0.0
  {
    if orders != [] { PendingTotalNonNegative(orders[..|orders| - 1], orderIds); }
  }

  /** The hand-over returns the pending sum, clears every selected order and
      lowers the balance by that sum, never below zero. */
  lemma HandoverClearsOrders(b: Books, shiftId: nat, employeeId: nat, orderIds: seq<nat>)
    requires Inv(b)
    ensures var (b', r) := ProcessHandoverSpec(b, shiftId, employeeId, orderIds);
      && Inv(b')
      && (r.Err? ==> b' == b)
      && (r.Ok? <==> IsOpen(b.shifts, shiftId) && employeeId in b.balances && AnyPending(b.orders, orderIds))
      && (r.Ok? ==> r.value == PendingTotal(b.orders, orderIds) && r.value >= 0.0)
      && (r.Ok? ==> !AnyPending(b'.orders, orderIds))
      && (r.Ok? ==> b'.balances[employeeId] == Debit(b.balances[employeeId], r.value))
      && (r.Ok? ==> b'.transactions == b.transactions + [Transaction(shiftId, r.value, "handover")])
      && (r.Ok? ==> b'.shifts == b.shifts)
  {
    var (b', r) := ProcessHandoverSpec(b, shiftId, employeeId, orderIds);
    if r.Ok? {
      PendingTotalNonNegative(b.orders, orderIds);
      forall k | 0 <= k < |b'.orders| ensures !Pending(b'.orders[k], orderIds) && b'.orders[k].totalPrice >= 0.0 {
        assert b'.orders[k] == MarkHandedOver(b.orders[k], orderIds, shiftId);
      }
    }
  }

  /** Money handed over on a shift raises that shift's expected till cash by
      exactly the cash orders it clears there (already on the shift, or
      unlinked and now attached to it). */
  lemma {:induction false} HandOverLandsInTill(orders: seq<Order>, orderIds: seq<nat>, shiftId: nat)
    ensures CollectedCash(HandOver(orders, orderIds, shiftId), shiftId)
         == CollectedCash(orders, shiftId) + ClearedHere(orders, orderIds, shiftId)
  {
    if orders != [] {
      assert HandOver(orders, orderIds, shiftId)[1..] == HandOver(orders[1..], orderIds, shiftId);
      HandOverLandsInTill(orders[1..], orderIds, shiftId);
    }
  }

  /** Σ total_price of the selected pending cash orders that are on the
      shift, or on no shift yet. */
  function ClearedHere(orders: seq<Order>, orderIds: seq<nat>, shiftId: nat): real
  {
    if orders == [] then 0.0
    else (if Pending(orders[0], orderIds) && orders[0].paymentMethod == "cash"
             && (orders[0].cashShiftId.None? || orders[0].cashShiftId == Some(shiftId))
          then orders[0].totalPrice else 0.0)
         + ClearedHere(orders[1..], orderIds, shiftId)
  }

  /** A hand-over transaction is recorded for history only: it leaves the
      theoretical cash unchanged, while "in" and "out" move it. */
  lemma {:induction false} TransactionSumAppend(txs: seq<Transaction>, t: Transaction, shiftId: nat, kind: string)
    ensures TransactionSum(txs + [t], shiftId, kind)
         == TransactionSum(txs, shiftId, kind) + (if t.shiftId == shiftId && t.kind == kind then t.amount else 0.0)
  {
    if txs != [] {
      assert (txs + [t])[1..] == txs[1..] + [t];
      TransactionSumAppend(txs[1..], t, shiftId, kind);
    }
  }

  lemma TheoreticalCashMoves(b: Books, shiftId: nat, amount: real, kind: string)
    requires IsShift(b.shifts, shiftId)
    ensures var before := Statistics(b, shiftId).value.theoreticalCash;
      var after := Statistics(AddShiftTransactionSpec(b, shiftId, amount, kind), shiftId).value.theoreticalCash;
      after == before + (if kind == "in" then amount else if kind == "out" then -amount else 0.0)
  {
    var t := Transaction(shiftId, amount, kind);
    TransactionSumAppend(b.transactions, t, shiftId, "in");
    TransactionSumAppend(b.transactions, t, shiftId, "out");
  }

  /** Closing freezes the statistics into the shift and leaves no shift
      open. */
  lemma CloseFreezesStatistics(b: Books, shiftId: nat, endCashActual: real)
    requires Inv(b)
    ensures var (b', r) := CloseActiveShiftSpec(b, shiftId, endCashActual);
      && Inv(b')
      && (r.Ok? <==> IsOpen(b.shifts, shiftId))
      && (r.Err? ==> b' == b)
      && (r.Ok? ==>
            && b'.shifts[shiftId - 1].isClosed
            && AnyOpenShift(b'.shifts).None?
            && b'.shifts[shiftId - 1].totalSalesCash == Statistics(b, shiftId).value.totalSalesCash
            && b'.shifts[shiftId - 1].totalSalesCard == Statistics(b, shiftId).value.totalSalesCard
            && b'.shifts[shiftId - 1].endCashActual == Some(endCashActual))
  {
    var (b', r) := CloseActiveShiftSpec(b, shiftId, endCashActual);
    if r.Ok? {
      forall k | 0 <= k < |b'.shifts| ensures b'.shifts[k].isClosed {
      }
    }
  }

  /** Every cash sale on a shift is either in the till or still held by
      staff. */
  lemma {:induction false} CashSalesSplit(orders: seq<Order>, shiftId: nat)
    ensures SalesOf(orders, shiftId, "cash") == CollectedCash(orders, shiftId) + OutstandingCash(orders, shiftId)
  {
    if orders != [] { CashSalesSplit(orders[1..], shiftId); }
  }

  // ------------------------------------------------------------------ class

  /** The session's view of the ledger tables, updated in place. */
  class CashDesk {
    var shifts: seq<Shift>
    var orders: seq<Order>
    var balances: map<nat, real>
    var transactions: seq<Transaction>
    var history: seq<BalanceEntry>

    function State(): Books
      reads this
    {
      Books(shifts, orders, balances, transactions, history)
    }

    ghost predicate Valid()
      reads this
    {
      Inv(State())
    }

    constructor (orders0: seq<Order>, balances0: map<nat, real>)
      requires forall i | 0 <= i < |orders0| :: orders0[i].totalPrice >= 0.0
      requires forall e | e in balances0 :: balances0[e] >= 0.0
      ensures Valid()
      ensures State() == Books([], orders0, balances0, [], [])
    {
      shifts, orders, balances, transactions, history := [], orders0, balances0, [], [];
    }

    method OpenNewShift(employeeId: nat, startCash: real, completedIds: set<nat>)
      returns (r: Result<nat, CashError>)
      requires Valid()
      modifies this
      ensures Valid()
      ensures (State(), r) == OpenNewShiftSpec(old(State()), employeeId, startCash, completedIds)
    {
      OpenNewShiftKeepsOneOpen(State(), employeeId, startCash, completedIds);
      if OpenShiftOf(shifts, employeeId).Some? {
        return Err(EmployeeHasOpenShift);
      }
      var any := AnyOpenShift(shifts);
      if any.Some? {
        return Err(ShiftOpenBy(shifts[any.value - 1].employeeId));
      }
      shifts := shifts + [Shift(employeeId, Some(startCash), false, None, 0.0, 0.0, 0.0, 0.0)];
      AttachOrphanedOrders(|shifts|, completedIds);
      r := Ok(|shifts|);
    }

    method AttachOrphanedOrders(shiftId: nat, completedIds: set<nat>)
      modifies this
      ensures orders == AttachOrphans(old(orders), shiftId, completedIds)
      ensures shifts == old(shifts) && balances == old(balances)
      ensures transactions == old(transactions) && history == old(history)
    {
      if completedIds != {} {
        orders := AttachOrphans(orders, shiftId, completedIds);
      } else {
        assert AttachOrphans(orders, shiftId, completedIds) == orders;
      }
    }

    method LinkOrderToShift(i: nat, employeeId: Option<nat>)
      requires Valid() && i < |orders|
      modifies this
      ensures Valid()
      ensures State() == LinkOrderToShiftSpec(old(State()), i, employeeId)
    {
      if orders[i].cashShiftId.Some? {
        assert orders[i := orders[i]] == orders;
        return;
      }
      var shift: Option<nat> := None;
      if employeeId.Some? {
        shift := OpenShiftOf(shifts, employeeId.value);
      }
      if shift.None? {
        shift := AnyOpenShift(shifts);
      }
      orders := orders[i := orders[i].(cashShiftId := shift)];
    }

    method RegisterEmployeeDebt(i: nat, employeeId: nat)
      requires Valid() && i < |orders|
      modifies this
      ensures Valid()
      ensures State() == RegisterEmployeeDebtSpec(old(State()), i, employeeId)
    {
      RegisterDebtAdds(State(), i, employeeId);
      if orders[i].paymentMethod != "cash" || employeeId !in balances {
        return;
      }
      var amount := orders[i].totalPrice;
      balances := balances[employeeId := balances[employeeId] + amount];
      orders := orders[i := orders[i].(isCashTurnedIn := false)];
      history := history + [BalanceEntry(employeeId, amount, balances[employeeId])];
    }

    method UnregisterEmployeeDebt(i: nat)
      requires Valid() && i < |orders|
      modifies this
      ensures Valid()
      ensures State() == UnregisterEmployeeDebtSpec(old(State()), i)
    {
      UnregisterDebtLowers(State(), i);
      var o := orders[i];
      if o.paymentMethod != "cash" || o.isCashTurnedIn {
        return;
      }
      var holder := DebtHolder(o);
      if holder.None? || holder.value !in balances {
        return;
      }
      var balance := Debit(balances[holder.value], o.totalPrice);
      balances := balances[holder.value := balance];
      history := history + [BalanceEntry(holder.value, -o.totalPrice, balance)];
    }

    method ProcessHandover(shiftId: nat, employeeId: nat, orderIds: seq<nat>)
      returns (r: Result<real, CashError>)
      requires Valid()
      modifies this
      ensures Valid()
      ensures (State(), r) == ProcessHandoverSpec(old(State()), shiftId, employeeId, orderIds)
    {
      if !IsOpen(shifts, shiftId) {
        return Err(ShiftMissingOrClosed);
      }
      if employeeId !in balances {
        return Err(EmployeeMissing);
      }
      if !AnyPending(orders, orderIds) {
        return Err(NothingToHandOver);
      }
      var total := PostHandover(shiftId, employeeId, orderIds);
      r := Ok(total);
    }

    /** The handover's writes, once the shift, the employee and a pending
        order are known. */
    method PostHandover(shiftId: nat, employeeId: nat, orderIds: seq<nat>) returns (total: real)
      requires Valid() && IsOpen(shifts, shiftId) && employeeId in balances && AnyPending(orders, orderIds)
      modifies this
      ensures Valid()
      ensures total == PendingTotal(old(orders), orderIds)
      ensures State() == HandedOver(old(State()), shiftId, employeeId, orderIds)
    {
      ghost var b0 := State();
      var settled;
      settled, total := SettleOrders(orders, orderIds, shiftId);
      var balance := Debit(balances[employeeId], total);
      orders, balances, history, transactions :=
        settled, balances[employeeId := balance],
        history + [BalanceEntry(employeeId, -total, balance)],
        transactions + [Transaction(shiftId, total, "handover")];
      HandedOverInv(b0, shiftId, employeeId, orderIds);
    }

    function ShiftStatistics(shiftId: nat): Option<ShiftStats>
      reads this
    {
      Statistics(State(), shiftId)
    }

    method CloseActiveShift(shiftId: nat, endCashActual: real) returns (r: Result<(), CashError>)
      requires Valid()
      modifies this
      ensures Valid()
      ensures (State(), r) == CloseActiveShiftSpec(old(State()), shiftId, endCashActual)
    {
      CloseFreezesStatistics(State(), shiftId, endCashActual);
      if !IsOpen(shifts, shiftId) {
        return Err(ShiftMissingOrClosed);
      }
      var st := ShiftStatistics(shiftId).value;
      var s := shifts[shiftId - 1];
      shifts := shifts[shiftId - 1 := s.(endCashActual := Some(endCashActual),
                                        totalSalesCash := st.totalSalesCash, totalSalesCard := st.totalSalesCard,
                                        serviceIn := st.serviceIn, serviceOut := st.serviceOut, isClosed := true)];
      r := Ok(());
    }

    method AddShiftTransaction(shiftId: nat, amount: real, kind: string)
      requires Valid()
      modifies this
      ensures Valid()
      ensures State() == AddShiftTransactionSpec(old(State()), shiftId, amount, kind)
    {
      transactions := transactions + [Transaction(shiftId, amount, kind)];
    }
  }
}
