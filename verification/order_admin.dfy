/** The web admin panel's order management (admin_order_management.py):
    changing an order's status, with the cash-desk side effects of leaving
    and reaching a completed status, and assigning a courier. Logs,
    history rows and messages are not modelled. */
module OrderAdmin {
  import opened Wrappers
  import opened Records
  import opened Cash

  datatype AdminOrderError =
    | OrderNotFound     // 404
    | StatusNotFound    // the order's or the requested status row is missing
    | OrderClosed       // 400: courier change on a completed or cancelled order
    | CourierNotFound   // 404

  /** Who holds the cash of an order the panel completes: its courier, else
      its accepting waiter; None means the cash is already in the till. */
  function CashHolder(o: Order): Option<nat>
  {
    OrElse(o.courierId, o.acceptedByWaiterId)
  }

  /** Where a completed cash order's money goes: onto its holder's
      balance, or, with no holder, straight into the till. */
  function Settle(b: Books, i: nat): (r: Books)
    requires i < |b.orders|
    ensures |r.orders| == |b.orders|
  {
    match CashHolder(b.orders[i])
    case Some(h) => RegisterEmployeeDebtSpec(b, i, h)
    case None => b.(orders := b.orders[i := b.orders[i].(isCashTurnedIn := true)])
  }

  /** The completion steps on an order already carrying its new status:
      the courier who completed it, the shift link and the cash. */
  function Complete(b: Books, i: nat, payment: string): (r: Books)
    requires i < |b.orders|
    ensures |r.orders| == |b.orders|
  {
    var b2 := Linked(b, i);
    if payment != "cash" then b2 else Settle(b2, i)
  }

  /** The delivery courier recorded as the one who completed the order,
      and the order linked to the open shift. */
  function Linked(b: Books, i: nat): (r: Books)
    requires i < |b.orders|
    ensures |r.orders| == |b.orders|
  {
    var o := b.orders[i];
    var o2 := if o.isDelivery && o.courierId.Some? then o.(completedByCourierId := o.courierId) else o;
    LinkOrderToShiftSpec(b.(orders := b.orders[i := o2]), i, None)
  }

  /** The mutations of web_set_order_status for a real change of status. */
  function WebMove(b: Books, i: nat, from: Status, to: Status, payment: string): (r: Books)
    requires i < |b.orders|
    ensures |r.orders| == |b.orders|
  {
    var b1 := if from.isCompletedStatus then UnregisterEmployeeDebtSpec(b, i) else b;
    var b2 := b1.(orders := b1.orders[i := b1.orders[i].(paymentMethod := payment, statusId := to.id)]);
    if !to.isCompletedStatus then b2 else Complete(b2, i, payment)
  }

  /** Settling charges the holder with the order total, or marks the cash
      as handed in when there is no holder. */
  lemma SettleCharges(b: Books, i: nat)
    requires Inv(b) && i < |b.orders| && b.orders[i].paymentMethod == "cash"
    ensures var r := Settle(b, i);
      var o := b.orders[i];
      && Inv(r) && r.shifts == b.shifts
      && r.orders[i] == o.(isCashTurnedIn := r.orders[i].isCashTurnedIn)
      && (forall k | 0 <= k < |b.orders| && k != i :: r.orders[k] == b.orders[k])
      && (CashHolder(o).Some? && CashHolder(o).value in b.balances ==>
            && r.balances == b.balances[CashHolder(o).value := b.balances[CashHolder(o).value] + o.totalPrice]
            && !r.orders[i].isCashTurnedIn)
      && (CashHolder(o).Some? && CashHolder(o).value !in b.balances ==> r == b)
      && (CashHolder(o).None? ==> r.balances == b.balances && r.orders[i].isCashTurnedIn)
  {
    if CashHolder(b.orders[i]).Some? {
      RegisterDebtAdds(b, i, CashHolder(b.orders[i]).value);
    }
  }

  /** The order as completion leaves it before the cash is settled. */
  lemma CompleteLinks(b: Books, i: nat)
    requires Inv(b) && i < |b.orders|
    ensures var o := b.orders[i];
      var o2 := if o.isDelivery && o.courierId.Some? then o.(completedByCourierId := o.courierId) else o;
      var b2 := Linked(b, i);
      && Inv(b2) && b2.shifts == b.shifts && b2.balances == b.balances && b2.history == b.history
      && b2.orders[i] == o2.(cashShiftId := b2.orders[i].cashShiftId)
  {
  }

  /** Completion keeps the order's people, total and payment, and records
      the delivery courier as the one who completed it. */
  lemma CompleteKeeps(b: Books, i: nat, payment: string)
    requires Inv(b) && i < |b.orders| && b.orders[i].paymentMethod == payment
    ensures var r := Complete(b, i, payment);
      var o := b.orders[i];
      && Inv(r) && r.shifts == b.shifts
      && r.orders[i].statusId == o.statusId && r.orders[i].paymentMethod == payment
      && r.orders[i].courierId == o.courierId && r.orders[i].acceptedByWaiterId == o.acceptedByWaiterId
      && r.orders[i].totalPrice == o.totalPrice
      && (o.isDelivery && o.courierId.Some? ==> r.orders[i].completedByCourierId == o.courierId)
      && (payment != "cash" ==> r.balances == b.balances && r.history == b.history)
  {
    CompleteLinks(b, i);
    if payment == "cash" {
      SettleCharges(Linked(b, i), i);
    }
  }

  /** Completing a cash order charges its courier, else its waiter, with
      the order total; with neither the cash counts as handed in. */
  lemma CompleteSettles(b: Books, i: nat)
    requires Inv(b) && i < |b.orders| && b.orders[i].paymentMethod == "cash"
    ensures var r := Complete(b, i, "cash");
      var o := b.orders[i];
      && (CashHolder(o).Some? && CashHolder(o).value in b.balances ==>
            && r.balances == b.balances[CashHolder(o).value := b.balances[CashHolder(o).value] + o.totalPrice]
            && !r.orders[i].isCashTurnedIn)
      && (CashHolder(o).Some? && CashHolder(o).value !in b.balances ==> r.balances == b.balances)
      && (CashHolder(o).None? ==> r.balances == b.balances && r.orders[i].isCashTurnedIn)
  {
    var o := b.orders[i];
    var b2 := Linked(b, i);
    assert CashHolder(b2.orders[i]) == CashHolder(o) && b2.orders[i].totalPrice == o.totalPrice
        && b2.balances == b.balances && Inv(b2) && b2.orders[i].paymentMethod == "cash" by {
      CompleteLinks(b, i);
    }
    SettleCharges(b2, i);
  }

  /** web_set_order_status on the i-th order. */
  function SetStatusSpec(b: Books, statuses: seq<Status>, i: nat, statusId: nat, payment: string)
    : Result<Books, AdminOrderError>
  {
    if i >= |b.orders| then Err(OrderNotFound)
    else
      var o := b.orders[i];
      match StatusById(statuses, o.statusId)
      case None => Err(StatusNotFound)
      case Some(from) =>
        if o.statusId == statusId then
          Ok(if from.IsClosed() then b else b.(orders := b.orders[i := o.(paymentMethod := payment)]))
        else
          match StatusById(statuses, statusId)
          case None => Err(StatusNotFound)
          case Some(to) => Ok(WebMove(b, i, from, to, payment))
  }

  /** Submitting the order's own status changes at most its payment method,
      and only while the order is open; nothing else moves. */
  lemma SameStatusOnlyPayment(b: Books, statuses: seq<Status>, i: nat, payment: string, from: Status)
    requires i < |b.orders| && StatusById(statuses, b.orders[i].statusId) == Some(from)
    ensures var r := SetStatusSpec(b, statuses, i, b.orders[i].statusId, payment);
      && r.Ok?
      && r.value.shifts == b.shifts && r.value.balances == b.balances
      && r.value.transactions == b.transactions && r.value.history == b.history
      && r.value.orders == b.orders[i := b.orders[i].(paymentMethod := r.value.orders[i].paymentMethod)]
      && r.value.orders[i].paymentMethod == (if from.IsClosed() then b.orders[i].paymentMethod else payment)
  {
    if from.IsClosed() {
      assert b.orders[i := b.orders[i]] == b.orders;
    }
  }

  /** Moving an order out of a completed status releases the cash debt
      first: the balances are those of unregister_employee_debt, and a
      move to an open status touches nothing else of the cash desk. */
  lemma LeavingCompletedUnregisters(b: Books, statuses: seq<Status>, i: nat, statusId: nat, payment: string,
                                    from: Status, to: Status)
    requires Inv(b) && i < |b.orders| && statusId != b.orders[i].statusId
    requires StatusById(statuses, b.orders[i].statusId) == Some(from) && StatusById(statuses, statusId) == Some(to)
    requires from.isCompletedStatus && !to.isCompletedStatus
    ensures var r := SetStatusSpec(b, statuses, i, statusId, payment);
      && r.Ok? && Inv(r.value)
      && r.value.balances == UnregisterEmployeeDebtSpec(b, i).balances
      && r.value.history == UnregisterEmployeeDebtSpec(b, i).history
      && r.value.orders[i].statusId == statusId && r.value.orders[i].paymentMethod == payment
  {
    UnregisterDebtLowers(b, i);
  }

  /** Completing an open cash order from the panel charges its courier,
      else its waiter, with the order total; with neither, the order is
      marked as handed in and no balance moves. A delivery order with a
      courier records that courier as the one who completed it. */
  lemma CashCompletionCharges(b: Books, statuses: seq<Status>, i: nat, statusId: nat, from: Status, to: Status)
    requires Inv(b) && i < |b.orders| && statusId != b.orders[i].statusId
    requires StatusById(statuses, b.orders[i].statusId) == Some(from) && StatusById(statuses, statusId) == Some(to)
    requires !from.isCompletedStatus && to.isCompletedStatus
    ensures var r := SetStatusSpec(b, statuses, i, statusId, "cash");
      var o := b.orders[i];
      && r.Ok? && Inv(r.value)
      && r.value.orders[i].statusId == statusId && r.value.orders[i].paymentMethod == "cash"
      && CashHolder(r.value.orders[i]) == CashHolder(o) && r.value.orders[i].totalPrice == o.totalPrice
      && (o.isDelivery && o.courierId.Some? ==> r.value.orders[i].completedByCourierId == o.courierId)
      && (CashHolder(o).Some? && CashHolder(o).value in b.balances ==>
            && r.value.balances == b.balances[CashHolder(o).value := b.balances[CashHolder(o).value] + o.totalPrice]
            && !r.value.orders[i].isCashTurnedIn)
      && (CashHolder(o).Some? && CashHolder(o).value !in b.balances ==> r.value.balances == b.balances)
      && (CashHolder(o).None? ==> r.value.balances == b.balances && r.value.orders[i].isCashTurnedIn)
  {
    var o1 := b.orders[i].(paymentMethod := "cash", statusId := to.id);
    CompleteKeeps(b.(orders := b.orders[i := o1]), i, "cash");
    CompleteSettles(b.(orders := b.orders[i := o1]), i);
  }

  /** A non-cash completion moves no balance. */
  lemma CardCompletionChargesNobody(b: Books, statuses: seq<Status>, i: nat, statusId: nat, payment: string,
                                    from: Status, to: Status)
    requires i < |b.orders| && statusId != b.orders[i].statusId && payment != "cash"
    requires StatusById(statuses, b.orders[i].statusId) == Some(from) && StatusById(statuses, statusId) == Some(to)
    requires !from.isCompletedStatus
    ensures var r := SetStatusSpec(b, statuses, i, statusId, payment);
      r.Ok? && r.value.balances == b.balances && r.value.history == b.history
  {
  }

  /** Completing a cash order from the panel and then moving it on to a
      status that is not a completed one leaves every employee balance as it was: the debt goes
      to the employee unregister_employee_debt later looks for. */
  lemma CompleteThenReopenRestores(b: Books, statuses: seq<Status>, i: nat, doneId: nat, nextId: nat, payment: string,
                                   from: Status, done: Status, next: Status)
    requires Inv(b) && i < |b.orders|
    requires doneId != b.orders[i].statusId && nextId != doneId
    requires StatusById(statuses, b.orders[i].statusId) == Some(from)
    requires StatusById(statuses, doneId) == Some(done) && StatusById(statuses, nextId) == Some(next)
    requires !from.isCompletedStatus && done.isCompletedStatus && !next.isCompletedStatus
    ensures SetStatusSpec(b, statuses, i, doneId, "cash").Ok?
    ensures var b1 := SetStatusSpec(b, statuses, i, doneId, "cash").value;
      var r := SetStatusSpec(b1, statuses, i, nextId, payment);
      r.Ok? && r.value.balances == b.balances
  {
    CashCompletionCharges(b, statuses, i, doneId, from, done);
    var b1 := SetStatusSpec(b, statuses, i, doneId, "cash").value;
    LeavingCompletedUnregisters(b1, statuses, i, nextId, payment, done, next);
    var o := b.orders[i];
    if CashHolder(o).Some? && CashHolder(o).value in b.balances {
      UnregisterUndoesCharge(b1, i, CashHolder(o).value, b.balances);
    }
  }

  /** unregister_employee_debt takes back exactly what completion charged. */
  lemma UnregisterUndoesCharge(b1: Books, i: nat, h: nat, before: map<nat, real>)
    requires i < |b1.orders| && h in before && before[h] >= 0.0
    requires b1.orders[i].paymentMethod == "cash" && !b1.orders[i].isCashTurnedIn
    requires CashHolder(b1.orders[i]) == Some(h)
    requires b1.balances == before[h := before[h] + b1.orders[i].totalPrice]
    ensures UnregisterEmployeeDebtSpec(b1, i).balances == before
  {
    var o1 := b1.orders[i];
    assert DebtHolder(o1) == Some(h);
    assert b1.balances[h := before[h]] == before;
  }

  // ---------------------------------------------------------------------
  // Courier assignment

  /** web_assign_courier on the i-th order: refused for a closed order;
      0 clears the courier; any other id must be an employee. */
  function AssignCourierSpec(orders: seq<Order>, statuses: seq<Status>, employees: set<nat>, i: nat, courierId: nat)
    : Result<seq<Order>, AdminOrderError>
  {
    if i >= |orders| then Err(OrderNotFound)
    else match StatusById(statuses, orders[i].statusId)
      case None => Err(StatusNotFound)
      case Some(s) =>
        if s.IsClosed() then Err(OrderClosed)
        else if courierId == 0 then Ok(orders[i := orders[i].(courierId := None)])
        else if courierId !in employees then Err(CourierNotFound)
        else Ok(orders[i := orders[i].(courierId := Some(courierId))])
  }

  /** Assignment succeeds exactly on an open order with 0 or a known
      employee, and then sets that order's courier (None for 0) and
      nothing else. */
  lemma AssignCourierEffect(orders: seq<Order>, statuses: seq<Status>, employees: set<nat>, i: nat, courierId: nat,
                            s: Status)
    requires i < |orders| && StatusById(statuses, orders[i].statusId) == Some(s)
    ensures var r := AssignCourierSpec(orders, statuses, employees, i, courierId);
      && (r.Ok? <==> !s.IsClosed() && (courierId == 0 || courierId in employees))
      && (s.IsClosed() ==> r == Err(OrderClosed))
      && (!s.IsClosed() && courierId != 0 && courierId !in employees ==> r == Err(CourierNotFound))
      && (r.Ok? ==>
            && |r.value| == |orders|
            && r.value[i] == orders[i].(courierId := r.value[i].courierId)
            && r.value[i].courierId == (if courierId == 0 then None else Some(courierId))
            && forall k | 0 <= k < |orders| && k != i :: r.value[k] == orders[k])
  {
  }

  /** web_set_order_status on the live cash desk. */
  method SetOrderStatus(desk: CashDesk, statuses: seq<Status>, i: nat, statusId: nat, payment: string)
    returns (err: Option<AdminOrderError>)
    requires desk.Valid()
    modifies desk
    ensures desk.Valid()
    ensures match SetStatusSpec(old(desk.State()), statuses, i, statusId, payment)
      case Ok(b) => err.None? && desk.State() == b
      case Err(e) => err == Some(e) && desk.State() == old(desk.State())
  {
    if i >= |desk.orders| {
      return Some(OrderNotFound);
    }
    var current := StatusById(statuses, desk.orders[i].statusId);
    if current.None? {
      return Some(StatusNotFound);
    }
    var from := current.value;
    if desk.orders[i].statusId == statusId {
      if !from.IsClosed() {
        desk.orders := desk.orders[i := desk.orders[i].(paymentMethod := payment)];
      }
      return None;
    }
    var next := StatusById(statuses, statusId);
    if next.None? {
      return Some(StatusNotFound);
    }
    var to := next.value;
    if from.isCompletedStatus {
      desk.UnregisterEmployeeDebt(i);
    }
    desk.orders := desk.orders[i := desk.orders[i].(paymentMethod := payment, statusId := to.id)];
    if to.isCompletedStatus {
      CompleteOrder(desk, i, payment);
    }
    err := None;
  }

  /** The completion steps of web_set_order_status on the live desk. */
  method CompleteOrder(desk: CashDesk, i: nat, payment: string)
    requires desk.Valid() && i < |desk.orders|
    modifies desk
    ensures desk.Valid()
    ensures desk.State() == Complete(old(desk.State()), i, payment)
  {
    ghost var b := desk.State();
    CompleteLinks(b, i);
    var o := desk.orders[i];
    if o.isDelivery && o.courierId.Some? {
      desk.orders := desk.orders[i := o.(completedByCourierId := o.courierId)];
    }
    desk.LinkOrderToShift(i, None);
    assert desk.State() == Linked(b, i);
    if payment == "cash" {
      SettleOrder(desk, i);
    }
  }

  /** Settle on the live desk. */
  method SettleOrder(desk: CashDesk, i: nat)
    requires desk.Valid() && i < |desk.orders|
    modifies desk
    ensures desk.Valid()
    ensures desk.State() == Settle(old(desk.State()), i)
  {
    var holder := CashHolder(desk.orders[i]);
    if holder.Some? {
      desk.RegisterEmployeeDebt(i, holder.value);
    } else {
      desk.orders := desk.orders[i := desk.orders[i].(isCashTurnedIn := true)];
    }
  }
}
