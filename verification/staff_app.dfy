/** The staff app's order handling: who may edit an order's lines and who
    may move its status, which moves a closed order still allows, the cash
    debt a completion creates, how item readiness rolls up to the order,
    re-pricing an edited order, and the notification feed. */
module StaffApp {
  import opened Wrappers
  import opened Records
  import opened Cash

  datatype StaffError =
    | OrderNotFound     // 404
    | NoRights          // 403
    | CannotCancel      // 403: the role lacks can_cancel_orders
    | OrderClosed       // 400
    | AtKitchen         // 403: the status has requires_kitchen_notify
    | StockDeducted     // 403: the order's stock is already written off
    | StatusMissing     // the order's or the requested status row is missing

  // ---------------------------------------------------------------------
  // Permissions

  /** check_edit_permissions: managers always; a table-serving role for the
      orders it accepted and for in-house orders nobody accepted. */
  predicate CanEditItems(a: Actor, o: Order)
  {
    || a.role.canManageOrders
    || (a.role.canServeTables &&
          (o.acceptedByWaiterId == Some(a.id) || (o.orderType == "in_house" && o.acceptedByWaiterId.None?)))
  }

  /** update_order_status_api: managers, the accepting waiter, the
      assigned courier. */
  predicate CanChangeStatus(a: Actor, o: Order)
  {
    || a.role.canManageOrders
    || (a.role.canServeTables && o.acceptedByWaiterId == Some(a.id))
    || (a.role.canBeAssigned && o.courierId == Some(a.id))
  }

  /** handle_action_api "accept_order": an order nobody accepted is taken by
      the acting waiter and moves to "В обробці" when that status exists. */
  function AcceptOrder(o: Order, a: Actor, statuses: seq<Status>): Order
  {
    if o.acceptedByWaiterId.Some? then o
    else
      var o1 := o.(acceptedByWaiterId := Some(a.id));
      match StatusNamed(statuses, ProcessingStatusName)
      case Some(s) => o1.(statusId := s.id)
      case None => o1
  }

  /** The waiter who accepts an order may then edit it and move its status;
      from then on another staff member without the manager flag may not
      edit it, and may move its status only as its assigned courier. An
      accepted order cannot be taken over. */
  lemma AcceptGivesOwnership(o: Order, a: Actor, other: Actor, statuses: seq<Status>)
    requires a.role.canServeTables && other.id != a.id && !other.role.canManageOrders
    ensures o.acceptedByWaiterId.Some? ==> AcceptOrder(o, other, statuses) == o
    ensures o.acceptedByWaiterId.None? ==>
      var o2 := AcceptOrder(o, a, statuses);
      && o2.acceptedByWaiterId == Some(a.id)
      && CanEditItems(a, o2) && CanChangeStatus(a, o2)
      && !CanEditItems(other, o2)
      && (CanChangeStatus(other, o2) <==> other.role.canBeAssigned && o.courierId == Some(other.id))
  {
  }

  // ---------------------------------------------------------------------
  // Status changes

  /** The refusals a move between two statuses meets, in the handler's
      order: cancelling needs can_cancel_orders, and a completed or
      cancelled order may only be cancelled or reopened. */
  function MoveRefusal(a: Actor, from: Status, to: Status): Option<StaffError>
  {
    if to.isCancelledStatus && !a.role.canCancelOrders then Some(CannotCancel)
    else if from.IsClosed() && !(to.isCancelledStatus || !to.IsClosed()) then Some(OrderClosed)
    else None
  }

  /** A move is refused exactly when it cancels without the right, or
      completes an order that is already closed. */
  lemma MoveRefusalTable(a: Actor, from: Status, to: Status)
    ensures MoveRefusal(a, from, to).None? <==>
      && (to.isCancelledStatus ==> a.role.canCancelOrders)
      && (from.IsClosed() && to.isCompletedStatus ==> to.isCancelledStatus)
  {
  }

  /** Whose balance a cash completion charges: the actor, or for a manager
      the courier, else the accepting waiter, else the manager. */
  function Debtor(a: Actor, o: Order): nat
  {
    if a.role.canManageOrders then
      if o.courierId.Some? then o.courierId.value
      else if o.acceptedByWaiterId.Some? then o.acceptedByWaiterId.value
      else a.id
    else a.id
  }

  /** A completed delivery records its courier, or the acting staff member
      when they can be assigned and there is no courier. */
  function CompletedBy(a: Actor, o: Order): Option<nat>
  {
    if !o.isDelivery then o.completedByCourierId
    else if o.courierId.Some? then o.courierId
    else if a.role.canBeAssigned then Some(a.id)
    else o.completedByCourierId
  }

  /** The mutations of update_order_status_api once the checks passed. */
  function ApplyMove(b: Books, i: nat, a: Actor, from: Status, to: Status, payment: Option<string>): (r: Books)
    requires i < |b.orders|
    ensures |r.orders| == |b.orders|
  {
    Advance(Release(b, i, from, to), i, a, to, payment)
  }

  /** A completed order being cancelled first gives back its unreturned
      cash. */
  function Release(b: Books, i: nat, from: Status, to: Status): (r: Books)
    requires i < |b.orders|
    ensures |r.orders| == |b.orders|
  {
    if from.isCompletedStatus && to.isCancelledStatus then UnregisterEmployeeDebtSpec(b, i) else b
  }

  /** The new status and payment method; a completion also records the
      courier, links the order to the actor's shift and charges cash. */
  function Advance(b1: Books, i: nat, a: Actor, to: Status, payment: Option<string>): (r: Books)
    requires i < |b1.orders|
    ensures |r.orders| == |b1.orders|
  {
    var o := b1.orders[i];
    var o1 := o.(statusId := to.id, paymentMethod := if payment.Some? && payment.value != "" then payment.value else o.paymentMethod);
    if !to.isCompletedStatus then b1.(orders := b1.orders[i := o1])
    else
      var o2 := o1.(completedByCourierId := CompletedBy(a, o1));
      var b2 := LinkOrderToShiftSpec(b1.(orders := b1.orders[i := o2]), i, Some(a.id));
      if o2.paymentMethod == "cash" then RegisterEmployeeDebtSpec(b2, i, Debtor(a, o2)) else b2
  }

  /** update_order_status_api on the i-th order. */
  function UpdateStatusSpec(b: Books, statuses: seq<Status>, a: Actor, i: nat, newStatusId: nat, payment: Option<string>)
    : Result<Books, StaffError>
  {
    if i >= |b.orders| then Err(OrderNotFound)
    else if !CanChangeStatus(a, b.orders[i]) then Err(NoRights)
    else
      match (StatusById(statuses, b.orders[i].statusId), StatusById(statuses, newStatusId))
      case (Some(from), Some(to)) =>
        (match MoveRefusal(a, from, to)
         case Some(e) => Err(e)
         case None => Ok(ApplyMove(b, i, a, from, to, payment)))
      case _ => Err(StatusMissing)
  }

  /** A status change goes through exactly when the actor may move the
      order and the move is not refused; it sets the new status on that
      order alone and keeps the cash desk's invariant. */
  lemma UpdateStatusGuards(b: Books, statuses: seq<Status>, a: Actor, i: nat, newStatusId: nat, payment: Option<string>,
                           from: Status, to: Status)
    requires Inv(b) && i < |b.orders|
    requires StatusById(statuses, b.orders[i].statusId) == Some(from) && StatusById(statuses, newStatusId) == Some(to)
    ensures UpdateStatusSpec(b, statuses, a, i, newStatusId, payment).Ok? <==>
      CanChangeStatus(a, b.orders[i]) && MoveRefusal(a, from, to).None?
    ensures UpdateStatusSpec(b, statuses, a, i, newStatusId, payment).Ok? ==>
      var b2 := UpdateStatusSpec(b, statuses, a, i, newStatusId, payment).value;
      && b2.orders[i].statusId == newStatusId
      && (forall j | 0 <= j < |b.orders| && j != i :: b2.orders[j] == b.orders[j])
      && Inv(b2)
  {
    if UpdateStatusSpec(b, statuses, a, i, newStatusId, payment).Ok? {
      MoveInv(b, i, a, from, to, payment);
    }
  }

  lemma MoveInv(b: Books, i: nat, a: Actor, from: Status, to: Status, payment: Option<string>)
    requires Inv(b) && i < |b.orders|
    ensures var b2 := ApplyMove(b, i, a, from, to, payment);
      && b2.orders[i].statusId == to.id
      && (forall j | 0 <= j < |b.orders| && j != i :: b2.orders[j] == b.orders[j])
      && Inv(b2)
  {
    if from.isCompletedStatus && to.isCancelledStatus {
      UnregisterDebtLowers(b, i);
    }
    AdvanceInv(Release(b, i, from, to), i, a, to, payment);
  }

  lemma AdvanceInv(b1: Books, i: nat, a: Actor, to: Status, payment: Option<string>)
    requires Inv(b1) && i < |b1.orders|
    ensures var b2 := Advance(b1, i, a, to, payment);
      && b2.orders[i].statusId == to.id
      && (forall j | 0 <= j < |b1.orders| && j != i :: b2.orders[j] == b1.orders[j])
      && Inv(b2)
  {
    if to.isCompletedStatus {
      var o := b1.orders[i];
      var o1 := o.(statusId := to.id, paymentMethod := if payment.Some? && payment.value != "" then payment.value else o.paymentMethod);
      var o2 := o1.(completedByCourierId := CompletedBy(a, o1));
      var b2 := LinkOrderToShiftSpec(b1.(orders := b1.orders[i := o2]), i, Some(a.id));
      assert Inv(b2);
      if o2.paymentMethod == "cash" {
        RegisterDebtAdds(b2, i, Debtor(a, o2));
      }
    }
  }

  /** Completing a cash order that was not completed before charges its
      total to the debtor's balance, with a history row showing the new
      balance, and leaves the cash not yet turned in. */
  lemma CompletionChargesDebtor(b: Books, i: nat, a: Actor, from: Status, to: Status, payment: Option<string>)
    requires Inv(b) && i < |b.orders|
    requires to.isCompletedStatus && !from.isCompletedStatus
    requires (if payment.Some? && payment.value != "" then payment.value else b.orders[i].paymentMethod) == "cash"
    requires Debtor(a, b.orders[i]) in b.balances
    ensures var b2 := ApplyMove(b, i, a, from, to, payment);
      var d := Debtor(a, b.orders[i]);
      && b2.balances[d] == b.balances[d] + b.orders[i].totalPrice
      && b2.history[|b2.history| - 1] == BalanceEntry(d, b.orders[i].totalPrice, b2.balances[d])
      && !b2.orders[i].isCashTurnedIn
  {
    assert Release(b, i, from, to) == b;
  }

  /** Cancelling a completed order takes its unreturned cash back off the
      balance of whoever holds it, never below zero. */
  lemma CancelReleasesDebt(b: Books, i: nat, a: Actor, from: Status, to: Status, payment: Option<string>)
    requires Inv(b) && i < |b.orders|
    requires from.isCompletedStatus && to.isCancelledStatus && !to.isCompletedStatus
    requires b.orders[i].paymentMethod == "cash" && !b.orders[i].isCashTurnedIn
    requires DebtHolder(b.orders[i]).Some? && DebtHolder(b.orders[i]).value in b.balances
    ensures var h := DebtHolder(b.orders[i]).value;
      ApplyMove(b, i, a, from, to, payment).balances == b.balances[h := Debit(b.balances[h], b.orders[i].totalPrice)]
  {
  }

  /** A cash completion followed by a cancellation leaves every balance as
      it was, when the completion charged the employee the cancellation
      looks for (the order's courier, else its waiter, else the courier
      who completed it). */
  lemma CompleteThenCancelRestores(b: Books, i: nat, a: Actor, m: Actor, open: Status, done: Status, cancelled: Status,
                                   payment: Option<string>)
    requires Inv(b) && i < |b.orders|
    requires !open.isCompletedStatus && done.isCompletedStatus && !done.isCancelledStatus
    requires cancelled.isCancelledStatus && !cancelled.isCompletedStatus
    requires (if payment.Some? && payment.value != "" then payment.value else b.orders[i].paymentMethod) == "cash"
    requires Debtor(a, b.orders[i]) in b.balances
    requires var b1 := ApplyMove(b, i, a, open, done, payment); DebtHolder(b1.orders[i]) == Some(Debtor(a, b.orders[i]))
    ensures var b1 := ApplyMove(b, i, a, open, done, payment);
      ApplyMove(b1, i, m, done, cancelled, None).balances == b.balances
  {
    var o := b.orders[i];
    var o1 := o.(statusId := done.id, paymentMethod := "cash");
    var o2 := o1.(completedByCourierId := CompletedBy(a, o1));
    var b2 := LinkOrderToShiftSpec(b.(orders := b.orders[i := o2]), i, Some(a.id));
    assert Debtor(a, o2) == Debtor(a, o);
    assert Inv(b2);
    RegisterThenUnregister(b2, i, Debtor(a, o));
  }

  /** A manager who completes a cash order with neither courier nor waiter
      takes its cash on their own balance, and cancelling the order later
      does not take it off: the cancellation looks for a courier or a
      waiter. */
  lemma ManagerDebtOutlivesCancel()
    ensures var role := Role(true, false, false, true);
      var m := Actor(5, role);
      var o := Order(1, 2, "cash", 100.0, false, "pickup", None, "", None, None, None, None, true, false, false, false, false);
      var b := Books([], [o], map[5 := 0.0], [], []);
      var open := Status(2, "Новий", false, false, false);
      var done := Status(3, "Виконано", true, false, false);
      var cancelled := Status(4, "Скасовано", false, true, false);
      var b1 := ApplyMove(b, 0, m, open, done, None);
      && b1.balances[5] == 100.0
      && ApplyMove(b1, 0, m, done, cancelled, None).balances[5] == 100.0
  {
  }

  // ---------------------------------------------------------------------
  // Item readiness

  predicate AllReady(items: seq<OrderItem>) { forall k | 0 <= k < |items| :: items[k].isReady }

  predicate IsBar(it: OrderItem) { it.preparationArea == "bar" }

  function Kitchen(items: seq<OrderItem>): (r: seq<OrderItem>)
    ensures forall it :: it in r <==> it in items && !IsBar(it)
  {
    if items == [] then [] else (if IsBar(items[0]) then [] else [items[0]]) + Kitchen(items[1..])
  }

  function Bar(items: seq<OrderItem>): (r: seq<OrderItem>)
    ensures forall it :: it in r <==> it in items && IsBar(it)
  {
    if items == [] then [] else (if IsBar(items[0]) then [items[0]] else []) + Bar(items[1..])
  }

  /** The kitchen_done and bar_done flags, each updated only when the
      order has items of that station. */
  function RollUp(o: Order, items: seq<OrderItem>): Order
  {
    var kitchen, bar := Kitchen(items), Bar(items);
    var o1 := if kitchen != [] then o.(kitchenDone := AllReady(kitchen)) else o;
    if bar != [] then o1.(barDone := AllReady(bar)) else o1
  }

  /** check_and_update_order_readiness as written: when every item is
      ready, an order whose status is not the ready one and not a completed
      one moves to "Готовий до видачі" (the flag: a history row is added). */
  function ReadinessAsWritten(o: Order, items: seq<OrderItem>, current: Status, statuses: seq<Status>): (Order, bool)
  {
    var o1 := RollUp(o, items);
    var ready := StatusNamed(statuses, ReadyStatusName);
    if AllReady(items) && ready.Some? && o1.statusId != ready.value.id && !current.isCompletedStatus
    then (o1.(statusId := ready.value.id), true)
    else (o1, false)
  }

  /** A cancelled order whose items are all ticked ready is moved to
      "Готовий до видачі", out of its cancelled status. */
  lemma ReadinessReopensCancelled()
    ensures var cancelled := Status(4, "Скасовано", false, true, false);
      var ready := Status(6, ReadyStatusName, false, false, false);
      var o := Order(1, 4, "cash", 100.0, false, "in_house", None, "", None, None, None, None, true, false, false, false, false);
      var items := [OrderItem(1, 7, "Борщ", 1, 80.0, true, "kitchen", None)];
      var r := ReadinessAsWritten(o, items, cancelled, [cancelled, ready]);
      r.1 && r.0.statusId == 6
  {
    var items := [OrderItem(1, 7, "Борщ", 1, 80.0, true, "kitchen", None)];
    assert Kitchen(items) == items;
    assert Bar(items) == [];
  }

  /** The roll-up with the final-status test the code's comment describes:
      a completed or cancelled order keeps its status. */
  function Readiness(o: Order, items: seq<OrderItem>, current: Status, statuses: seq<Status>): (Order, bool)
  {
    var o1 := RollUp(o, items);
    var ready := StatusNamed(statuses, ReadyStatusName);
    if AllReady(items) && ready.Some? && o1.statusId != ready.value.id && !current.IsClosed()
    then (o1.(statusId := ready.value.id), true)
    else (o1, false)
  }

  /** kitchen_done holds exactly when every non-bar item is ready, and
      bar_done when every bar item is; a station without items keeps its
      flag. */
  lemma ReadinessFlags(o: Order, items: seq<OrderItem>, current: Status, statuses: seq<Status>)
    ensures var r := Readiness(o, items, current, statuses).0;
      && ((exists k | 0 <= k < |items| :: !IsBar(items[k])) ==>
            (r.kitchenDone <==> forall k | 0 <= k < |items| && !IsBar(items[k]) :: items[k].isReady))
      && ((forall k | 0 <= k < |items| :: IsBar(items[k])) ==> r.kitchenDone == o.kitchenDone)
      && ((exists k | 0 <= k < |items| :: IsBar(items[k])) ==>
            (r.barDone <==> forall k | 0 <= k < |items| && IsBar(items[k]) :: items[k].isReady))
      && ((forall k | 0 <= k < |items| :: !IsBar(items[k])) ==> r.barDone == o.barDone)
  {
    KitchenFlag(o, items, current, statuses);
    BarFlag(o, items, current, statuses);
  }

  lemma KitchenFlag(o: Order, items: seq<OrderItem>, current: Status, statuses: seq<Status>)
    ensures var r := Readiness(o, items, current, statuses).0;
      && ((exists k | 0 <= k < |items| :: !IsBar(items[k])) ==>
            (r.kitchenDone <==> forall k | 0 <= k < |items| && !IsBar(items[k]) :: items[k].isReady))
      && ((forall k | 0 <= k < |items| :: IsBar(items[k])) ==> r.kitchenDone == o.kitchenDone)
  {
    RollUpFlags(o, items, current, statuses);
    KitchenReady(items);
  }

  lemma BarFlag(o: Order, items: seq<OrderItem>, current: Status, statuses: seq<Status>)
    ensures var r := Readiness(o, items, current, statuses).0;
      && ((exists k | 0 <= k < |items| :: IsBar(items[k])) ==>
            (r.barDone <==> forall k | 0 <= k < |items| && IsBar(items[k]) :: items[k].isReady))
      && ((forall k | 0 <= k < |items| :: !IsBar(items[k])) ==> r.barDone == o.barDone)
  {
    RollUpFlags(o, items, current, statuses);
    BarReady(items);
  }

  /** The flags of the result are those of the roll-up. */
  lemma RollUpFlags(o: Order, items: seq<OrderItem>, current: Status, statuses: seq<Status>)
    ensures var r := Readiness(o, items, current, statuses).0;
      && r.kitchenDone == (if Kitchen(items) != [] then AllReady(Kitchen(items)) else o.kitchenDone)
      && r.barDone == (if Bar(items) != [] then AllReady(Bar(items)) else o.barDone)
  {
    var u := RollUp(o, items);
    assert Readiness(o, items, current, statuses).0 == u.(statusId := Readiness(o, items, current, statuses).0.statusId);
  }

  /** The order moves to the ready status exactly when all its items are
      ready, it is neither completed nor cancelled, the ready status exists
      and the order is not already in it; only then is a history row
      added. */
  lemma ReadinessMoves(o: Order, items: seq<OrderItem>, current: Status, statuses: seq<Status>)
    ensures var r := Readiness(o, items, current, statuses);
      var ready := StatusNamed(statuses, ReadyStatusName);
      && (r.1 <==> AllReady(items) && !current.IsClosed() && ready.Some? && ready.value.id != o.statusId)
      && r.0.statusId == (if r.1 then ready.value.id else o.statusId)
  {
    assert RollUp(o, items).statusId == o.statusId;
  }

  /** handle_action_api "toggle_item": the line's ready mark flips. */
  function ToggleItem(items: seq<OrderItem>, itemId: nat): (r: seq<OrderItem>)
    ensures |r| == |items|
    ensures forall k | 0 <= k < |items| ::
      r[k] == if items[k].id == itemId then items[k].(isReady := !items[k].isReady) else items[k]
  {
    if items == [] then []
    else [if items[0].id == itemId then items[0].(isReady := !items[0].isReady) else items[0]] + ToggleItem(items[1..], itemId)
  }

  /** Ticking a line twice puts it back, and ticking the last unready line
      of an open order moves it to the ready status. */
  lemma ToggleItemEffect(o: Order, items: seq<OrderItem>, itemId: nat, current: Status, statuses: seq<Status>)
    ensures ToggleItem(ToggleItem(items, itemId), itemId) == items
    ensures ((forall k | 0 <= k < |items| :: items[k].isReady <==> items[k].id != itemId)
        && !current.IsClosed() && StatusNamed(statuses, ReadyStatusName).Some?
        && StatusNamed(statuses, ReadyStatusName).value.id != o.statusId) ==>
      Readiness(o, ToggleItem(items, itemId), current, statuses).1
  {
    ReadinessMoves(o, ToggleItem(items, itemId), current, statuses);
  }

  lemma KitchenReady(items: seq<OrderItem>)
    ensures Kitchen(items) != [] <==> exists k | 0 <= k < |items| :: !IsBar(items[k])
    ensures AllReady(Kitchen(items)) <==> forall k | 0 <= k < |items| && !IsBar(items[k]) :: items[k].isReady
  {
    var kitchen := Kitchen(items);
    if exists k | 0 <= k < |items| :: !IsBar(items[k]) {
      var k :| 0 <= k < |items| && !IsBar(items[k]);
      assert items[k] in kitchen;
    }
    if kitchen != [] {
      assert kitchen[0] in items;
    }
    if AllReady(kitchen) {
      forall k | 0 <= k < |items| && !IsBar(items[k]) ensures items[k].isReady {
        assert items[k] in kitchen;
      }
    } else {
      var j :| 0 <= j < |kitchen| && !kitchen[j].isReady;
      assert kitchen[j] in kitchen;
      var t :| 0 <= t < |items| && items[t] == kitchen[j];
    }
  }

  lemma BarReady(items: seq<OrderItem>)
    ensures Bar(items) != [] <==> exists k | 0 <= k < |items| :: IsBar(items[k])
    ensures AllReady(Bar(items)) <==> forall k | 0 <= k < |items| && IsBar(items[k]) :: items[k].isReady
  {
    var bar := Bar(items);
    if exists k | 0 <= k < |items| :: IsBar(items[k]) {
      var k :| 0 <= k < |items| && IsBar(items[k]);
      assert items[k] in bar;
    }
    if bar != [] {
      assert bar[0] in items;
    }
    if AllReady(bar) {
      forall k | 0 <= k < |items| && IsBar(items[k]) ensures items[k].isReady {
        assert items[k] in bar;
      }
    } else {
      var j :| 0 <= j < |bar| && !bar[j].isReady;
      assert bar[j] in bar;
      var t :| 0 <= t < |items| && items[t] == bar[j];
    }
  }

  // ---------------------------------------------------------------------
  // Editing an order's lines

  /** One line of the edit request: product id, quantity, modifier ids. */
  datatype ItemRequest = ItemRequest(productId: nat, qty: int, modifierIds: seq<nat>)

  /** A line as stored after the edit, priced at the moment. */
  datatype PricedLine = PricedLine(productId: nat, name: string, quantity: int, unitPrice: real, preparationArea: string)

  /** Σ of the database prices of the modifiers that exist; ids the
      database does not know are dropped. */
  function ModsPrice(ids: seq<nat>, mods: map<nat, Modifier>): real
  {
    if ids == [] then 0.0 else (if ids[0] in mods then mods[ids[0]].price else 0.0) + ModsPrice(ids[1..], mods)
  }

  /** One request line priced: none for an unknown product or no units. */
  function PriceOne(q: ItemRequest, products: map<nat, Product>, mods: map<nat, Modifier>): seq<PricedLine>
  {
    if q.productId in products && q.qty > 0 then
      var p := products[q.productId];
      [PricedLine(q.productId, p.name, q.qty, p.price + ModsPrice(q.modifierIds, mods), p.preparationArea)]
    else []
  }

  /** The request's lines for known products with a positive quantity. */
  function PriceLines(reqs: seq<ItemRequest>, products: map<nat, Product>, mods: map<nat, Modifier>): (r: seq<PricedLine>)
    ensures |r| <= |reqs|
    ensures forall l | l in r :: l.productId in products && l.quantity > 0
  {
    if reqs == [] then [] else PriceOne(reqs[0], products, mods) + PriceLines(reqs[1..], products, mods)
  }

  lemma {:induction false} PriceLinesAppend(a: seq<ItemRequest>, b: seq<ItemRequest>, products: map<nat, Product>, mods: map<nat, Modifier>)
    ensures PriceLines(a + b, products, mods) == PriceLines(a, products, mods) + PriceLines(b, products, mods)
  {
    if a == [] {
      assert a + b == b;
    } else {
      assert (a + b)[1..] == a[1..] + b;
      PriceLinesAppend(a[1..], b, products, mods);
    }
  }

  lemma PriceLinesStep(reqs: seq<ItemRequest>, products: map<nat, Product>, mods: map<nat, Modifier>, k: nat)
    requires k < |reqs|
    ensures PriceLines(reqs[..k + 1], products, mods) == PriceLines(reqs[..k], products, mods) + PriceOne(reqs[k], products, mods)
  {
    assert reqs[..k + 1] == reqs[..k] + [reqs[k]];
    PriceLinesAppend(reqs[..k], [reqs[k]], products, mods);
    assert PriceLines([reqs[k]], products, mods) == PriceOne(reqs[k], products, mods) + [];
  }

  function LineAmount(l: PricedLine): real { l.unitPrice * l.quantity as real }

  /** Σ unit price × quantity. */
  function LinesTotal(lines: seq<PricedLine>): real
  {
    if lines == [] then 0.0 else LineAmount(lines[0]) + LinesTotal(lines[1..])
  }

  /** The delivery charge of an edited order: a delivery order pays
      deliveryCost unless the lines reach the free-delivery threshold. */
  function WithDelivery(total: real, isDelivery: bool, deliveryCost: real, freeFrom: Option<real>): real
  {
    if !isDelivery then total
    else if freeFrom.Some? && total >= freeFrom.value then total
    else total + deliveryCost
  }

  /** create_staff_delivery_order's rule: the fee is added only when it is
      positive and there is no threshold or the total is below it. */
  function StaffDeliveryTotal(total: real, deliveryCost: real, freeFrom: Option<real>): real
  {
    if deliveryCost > 0.0 && (freeFrom.None? || total < freeFrom.value) then total + deliveryCost else total
  }

  /** The two delivery-fee rules agree for any fee that is not negative:
      the fee is charged exactly below the threshold. */
  lemma DeliveryRulesAgree(total: real, deliveryCost: real, freeFrom: Option<real>)
    requires deliveryCost >= 0.0
    ensures StaffDeliveryTotal(total, deliveryCost, freeFrom) == WithDelivery(total, true, deliveryCost, freeFrom)
    ensures WithDelivery(total, true, deliveryCost, freeFrom) ==
      total + (if freeFrom.Some? && total >= freeFrom.value then 0.0 else deliveryCost)
  {
  }

  /** update_order_items_api: the edit is refused for a missing order,
      without the edit right, on a closed order, once the kitchen has it,
      and once its stock is written off; otherwise the lines are replaced,
      the order re-priced and both station flags reset. */
  function UpdateItemsSpec(order: Option<Order>, current: Status, a: Actor, reqs: seq<ItemRequest>,
                           products: map<nat, Product>, mods: map<nat, Modifier>, deliveryCost: real, freeFrom: Option<real>)
    : Result<(Order, seq<PricedLine>), StaffError>
  {
    if order.None? then Err(OrderNotFound)
    else
      var o := order.value;
      if !CanEditItems(a, o) then Err(NoRights)
      else if current.IsClosed() then Err(OrderClosed)
      else if current.requiresKitchenNotify then Err(AtKitchen)
      else if o.isInventoryDeducted then Err(StockDeducted)
      else
        var lines := PriceLines(reqs, products, mods);
        Ok((o.(kitchenDone := false, barDone := false,
               totalPrice := WithDelivery(LinesTotal(lines), o.isDelivery, deliveryCost, freeFrom)), lines))
  }

  /** Lines of unknown products or with no units add nothing to the
      total, and the total of known lines is never negative. */
  lemma {:induction false} PriceLinesTotal(reqs: seq<ItemRequest>, products: map<nat, Product>, mods: map<nat, Modifier>)
    requires forall id | id in products :: products[id].price >= 0.0
    requires forall id | id in mods :: mods[id].price >= 0.0
    ensures LinesTotal(PriceLines(reqs, products, mods)) >= 0.0
    ensures (forall k | 0 <= k < |reqs| :: reqs[k].productId !in products || reqs[k].qty <= 0) ==>
      PriceLines(reqs, products, mods) == [] && LinesTotal(PriceLines(reqs, products, mods)) == 0.0
  {
    if reqs != [] {
      PriceLinesTotal(reqs[1..], products, mods);
      var q := reqs[0];
      if q.productId in products && q.qty > 0 {
        var p := products[q.productId];
        ModsPriceNonNegative(q.modifierIds, mods);
        var l := PricedLine(q.productId, p.name, q.qty, p.price + ModsPrice(q.modifierIds, mods), p.preparationArea);
        assert LineAmount(l) >= 0.0 by { MulNonNegative(l.unitPrice, q.qty as real); }
        assert PriceOne(q, products, mods) == [l];
        assert ([l] + PriceLines(reqs[1..], products, mods))[1..] == PriceLines(reqs[1..], products, mods);
      } else {
        assert PriceOne(q, products, mods) == [];
        assert [] + PriceLines(reqs[1..], products, mods) == PriceLines(reqs[1..], products, mods);
      }
    }
  }

  lemma MulNonNegative(x: real, y: real)
    requires x >= 0.0 && y >= 0.0
    ensures x * y >= 0.0
  {
  }

  lemma {:induction false} ModsPriceNonNegative(ids: seq<nat>, mods: map<nat, Modifier>)
    requires forall id | id in mods :: mods[id].price >= 0.0
    ensures ModsPrice(ids, mods) >= 0.0
  {
    if ids != [] { ModsPriceNonNegative(ids[1..], mods); }
  }

  /** An accepted edit replaces the lines by the request's valid ones,
      resets both station flags and sets the total to the lines' total plus
      the delivery fee rule; a refused edit names the first failed check. */
  lemma UpdateItemsGuards(o: Order, current: Status, a: Actor, reqs: seq<ItemRequest>,
                          products: map<nat, Product>, mods: map<nat, Modifier>, deliveryCost: real, freeFrom: Option<real>)
    ensures var r := UpdateItemsSpec(Some(o), current, a, reqs, products, mods, deliveryCost, freeFrom);
      && (r.Ok? <==> CanEditItems(a, o) && !current.IsClosed() && !current.requiresKitchenNotify && !o.isInventoryDeducted)
      && (r.Ok? ==>
            && !r.value.0.kitchenDone && !r.value.0.barDone
            && (forall l | l in r.value.1 :: l.productId in products && l.quantity > 0)
            && r.value.0.totalPrice == WithDelivery(LinesTotal(r.value.1), o.isDelivery, deliveryCost, freeFrom)
            && r.value.0.statusId == o.statusId)
    ensures UpdateItemsSpec(None, current, a, reqs, products, mods, deliveryCost, freeFrom) == Err(OrderNotFound)
  {
  }

  /** The modifier loop: Σ of the known modifiers' prices. */
  method ModsPriceOf(ids: seq<nat>, mods: map<nat, Modifier>) returns (total: real)
    ensures total == ModsPrice(ids, mods)
  {
    total := 0.0;
    var k := 0;
    while k < |ids|
      invariant 0 <= k <= |ids|
      invariant total + ModsPrice(ids[k..], mods) == ModsPrice(ids, mods)
    {
      assert ids[k..][1..] == ids[k + 1..];
      if ids[k] in mods {
        total := total + mods[ids[k]].price;
      }
      k := k + 1;
    }
  }

  /** update_order_items_api's pricing loop: the stored lines and their
      running total. */
  method PriceRequest(reqs: seq<ItemRequest>, products: map<nat, Product>, mods: map<nat, Modifier>)
    returns (lines: seq<PricedLine>, total: real)
    ensures lines == PriceLines(reqs, products, mods)
    ensures total == LinesTotal(lines)
  {
    lines, total := [], 0.0;
    var k := 0;
    while k < |reqs|
      invariant 0 <= k <= |reqs|
      invariant lines == PriceLines(reqs[..k], products, mods)
      invariant total == LinesTotal(lines)
    {
      PriceLinesStep(reqs, products, mods, k);
      var one := PriceItem(reqs[k], products, mods);
      LinesTotalConcat(lines, one);
      lines, total := lines + one, total + LinesTotal(one);
      k := k + 1;
    }
    assert reqs[..k] == reqs;
  }

  /** One requested item: a known product with a positive quantity becomes
      a line priced with its modifiers; anything else adds nothing. */
  method PriceItem(q: ItemRequest, products: map<nat, Product>, mods: map<nat, Modifier>) returns (one: seq<PricedLine>)
    ensures one == PriceOne(q, products, mods)
  {
    one := [];
    if q.productId in products && q.qty > 0 {
      var p := products[q.productId];
      var extra := ModsPriceOf(q.modifierIds, mods);
      one := [PricedLine(q.productId, p.name, q.qty, p.price + extra, p.preparationArea)];
    }
  }

  lemma {:induction false} LinesTotalConcat(a: seq<PricedLine>, b: seq<PricedLine>)
    ensures LinesTotal(a + b) == LinesTotal(a) + LinesTotal(b)
  {
    if a == [] {
      assert a + b == b;
    } else {
      assert (a + b)[1..] == a[1..] + b;
      LinesTotalConcat(a[1..], b);
    }
  }

  // ---------------------------------------------------------------------
  // Notification feed

  datatype Notification = Notification(id: nat, message: string, isRead: bool)

  function UnreadCount(feed: seq<Notification>): nat
  {
    if feed == [] then 0 else (if feed[0].isRead then 0 else 1) + UnreadCount(feed[1..])
  }

  /** The feed with every notification read. */
  function AllRead(feed: seq<Notification>): (r: seq<Notification>)
    ensures |r| == |feed| && forall k | 0 <= k < |feed| :: r[k] == feed[k].(isRead := true)
  {
    if feed == [] then [] else [feed[0].(isRead := true)] + AllRead(feed[1..])
  }

  /** Once the feed is marked read a second call counts nothing. */
  lemma {:induction false} AllReadCountsNothing(feed: seq<Notification>)
    ensures UnreadCount(AllRead(feed)) == 0
    ensures UnreadCount(feed) <= |feed|
  {
    if feed != [] {
      AllReadCountsNothing(feed[1..]);
      assert AllRead(feed)[1..] == AllRead(feed[1..]);
    }
  }

  /** get_notifications_api over the 20 latest notifications: the unread
      count is taken before anything is marked, the list shows the flags as
      they were, and then every notification is marked read. */
  method GetNotifications(feed: array<Notification>) returns (unread: nat, shown: seq<Notification>)
    modifies feed
    ensures unread == UnreadCount(old(feed[..]))
    ensures shown == old(feed[..])
    ensures feed[..] == AllRead(old(feed[..]))
  {
    unread := 0;
    var k := 0;
    while k < feed.Length
      invariant 0 <= k <= feed.Length
      invariant unread + UnreadCount(old(feed[..])[k..]) == UnreadCount(old(feed[..]))
    {
      assert old(feed[..])[k..][1..] == old(feed[..])[k + 1..];
      if !feed[k].isRead {
        unread := unread + 1;
      }
      k := k + 1;
    }
    shown := feed[..];
    k := 0;
    while k < feed.Length
      invariant 0 <= k <= feed.Length
      invariant forall t | 0 <= t < k :: feed[t] == old(feed[t]).(isRead := true)
      invariant forall t | k <= t < feed.Length :: feed[t] == old(feed[t])
    {
      feed[k] := feed[k].(isRead := true);
      k := k + 1;
    }
  }
}
