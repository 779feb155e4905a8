/** The cash pages of the admin panel: the hand-over form and route, the
    closed-shift history and the Z-report. */
module CashReport {
  import opened Wrappers
  import opened Records
  import opened Cash

  /** The orders the hand-over form lists for an employee: cash orders whose
      money is still out and that the employee delivered, accepted or
      completed. */
  predicate Listed(o: Order, employeeId: nat)
  {
    && o.paymentMethod == "cash"
    && !o.isCashTurnedIn
    && (o.courierId == Some(employeeId) || o.acceptedByWaiterId == Some(employeeId)
        || o.completedByCourierId == Some(employeeId))
  }

  /** The ids of the listed orders, every one of them pre-selected. */
  function FormIds(orders: seq<Order>, employeeId: nat): (r: seq<nat>)
    ensures forall x :: x in r <==> exists k | 0 <= k < |orders| :: Listed(orders[k], employeeId) && orders[k].id == x
  {
    if orders == [] then []
    else
      var rest := FormIds(orders[1..], employeeId);
      assert forall k | 1 <= k < |orders| :: orders[1..][k - 1] == orders[k];
      if Listed(orders[0], employeeId) then [orders[0].id] + rest else rest
  }

  /** The pre-selected total: Σ total_price of the listed orders. */
  function FormTotal(orders: seq<Order>, employeeId: nat): real
  {
    if orders == [] then 0.0
    else FormTotal(orders[..|orders| - 1], employeeId)
         + (if Listed(orders[|orders| - 1], employeeId) then orders[|orders| - 1].totalPrice else 0.0)
  }

  /** process_handover_route: no ticked order is a 400, otherwise the ledger
      operation decides. */
  function HandoverRoute(b: Books, shiftId: nat, employeeId: nat, orderIds: seq<nat>)
    : (r: (Books, Result<real, CashError>))
    ensures orderIds == [] ==> r == (b, Err(NoOrdersSelected))
    ensures orderIds != [] ==> r == ProcessHandoverSpec(b, shiftId, employeeId, orderIds)
  {
    if orderIds == [] then (b, Err(NoOrdersSelected))
    else ProcessHandoverSpec(b, shiftId, employeeId, orderIds)
  }

  predicate UniqueIds(orders: seq<Order>)
  {
    forall i, j | 0 <= i < j < |orders| :: orders[i].id != orders[j].id
  }

  lemma {:induction false} SameWeights(orders: seq<Order>, orderIds: seq<nat>, employeeId: nat)
    requires forall k | 0 <= k < |orders| :: Pending(orders[k], orderIds) <==> Listed(orders[k], employeeId)
    ensures PendingTotal(orders, orderIds) == FormTotal(orders, employeeId)
  {
    if orders != [] {
      SameWeights(orders[..|orders| - 1], orderIds, employeeId);
    }
  }

  /** Submitting the form as shown hands over exactly the total it shows. */
  lemma FormTotalIsHandedOver(b: Books, shiftId: nat, employeeId: nat)
    requires UniqueIds(b.orders)
    requires IsOpen(b.shifts, shiftId) && employeeId in b.balances
    requires FormIds(b.orders, employeeId) != []
    ensures HandoverRoute(b, shiftId, employeeId, FormIds(b.orders, employeeId)).1
         == Ok(FormTotal(b.orders, employeeId))
  {
    var ids := FormIds(b.orders, employeeId);
    forall k | 0 <= k < |b.orders| ensures Pending(b.orders[k], ids) <==> Listed(b.orders[k], employeeId) {
      if Pending(b.orders[k], ids) {
        var j :| 0 <= j < |b.orders| && Listed(b.orders[j], employeeId) && b.orders[j].id == b.orders[k].id;
        assert j == k;
      }
    }
    SameWeights(b.orders, ids, employeeId);
    var x := ids[0];
    assert x in ids;
    var k :| 0 <= k < |b.orders| && Listed(b.orders[k], employeeId) && b.orders[k].id == x;
    assert Pending(b.orders[k], ids);
  }

  /** The closed-shift theoretical cash of the history page and the
      Z-report. */
  function ClosedTheoretical(s: Shift): Option<real>
  {
    if s.startCash.None? then None
    else Some(s.startCash.value + s.totalSalesCash + s.serviceIn - s.serviceOut)
  }

  /** diff = end_cash_actual − theoretical; the pages fail on a shift that
      lacks either number. */
  function Discrepancy(s: Shift): (r: Option<real>)
    ensures r.Some? <==> s.startCash.Some? && s.endCashActual.Some?
    ensures r.Some? ==> r.value + ClosedTheoretical(s).value == s.endCashActual.value
  {
    if s.endCashActual.None? || s.startCash.None? then None
    else Some(s.endCashActual.value - ClosedTheoretical(s).value)
  }

  datatype Verdict = Shortage | Surplus | Balanced

  /** More than one hryvnia either way is flagged. */
  function Classify(diff: real): Verdict
  {
    if diff < -1.0 then Shortage else if diff > 1.0 then Surplus else Balanced
  }

  lemma ClassifyBands(diff: real)
    ensures Classify(diff) == Balanced <==> -1.0 <= diff <= 1.0
    ensures Classify(diff) == Shortage <==> diff < -1.0
    ensures Classify(diff) == Surplus <==> diff > 1.0
  {
  }

  function Revenue(s: Shift): real
  {
    s.totalSalesCash + s.totalSalesCard
  }

  /** A closed shift's revenue on the history page is the total_sales its
      statistics reported at closing. */
  lemma RevenueIsTotalSales(b: Books, shiftId: nat, endCashActual: real)
    requires Inv(b) && IsOpen(b.shifts, shiftId)
    ensures var b' := CloseActiveShiftSpec(b, shiftId, endCashActual).0;
      Revenue(b'.shifts[shiftId - 1]) == Statistics(b, shiftId).value.totalSales
  {
    CloseFreezesStatistics(b, shiftId, endCashActual);
  }

  /** The history page and the Z-report count every cash sale of the shift
      as in the till, while the live statistics count only the cash turned
      in: the closed-shift theoretical exceeds the one shown at closing by
      exactly the cash staff still held. */
  lemma ZReportCountsOutstandingCash(b: Books, shiftId: nat, endCashActual: real)
    requires Inv(b) && IsOpen(b.shifts, shiftId) && b.shifts[shiftId - 1].startCash.Some?
    ensures var b' := CloseActiveShiftSpec(b, shiftId, endCashActual).0;
      ClosedTheoretical(b'.shifts[shiftId - 1]).value
        == Statistics(b, shiftId).value.theoreticalCash + OutstandingCash(b.orders, shiftId)
  {
    CloseFreezesStatistics(b, shiftId, endCashActual);
    CashSalesSplit(b.orders, shiftId);
  }
}
