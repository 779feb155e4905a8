/** The stock side of status changes and the routing of order items to the
    kitchen and the bar (notification_manager.py). Messages themselves
    (Telegram, PWA, WebSocket) are not modelled; what is modelled is which
    items go where and what happens to the stock ledger. */
module Notifications {
  import opened Wrappers
  import opened Records
  import opened Inventory
  import StaffApp

  // ---------------------------------------------------------------------
  // Routing items to production

  /** The kitchen and bar lists of a run of items, built front to back. */
  function Routed(items: seq<OrderItem>): (seq<OrderItem>, seq<OrderItem>)
  {
    if items == [] then ([], [])
    else
      var rest := Routed(items[1..]);
      if StaffApp.IsBar(items[0]) then (rest.0, [items[0]] + rest.1) else ([items[0]] + rest.0, rest.1)
  }

  lemma {:induction false} RoutedIsSplit(items: seq<OrderItem>)
    ensures Routed(items) == (StaffApp.Kitchen(items), StaffApp.Bar(items))
  {
    if items != [] {
      RoutedIsSplit(items[1..]);
      if StaffApp.IsBar(items[0]) {
        assert StaffApp.Kitchen(items) == [] + StaffApp.Kitchen(items[1..]) == StaffApp.Kitchen(items[1..]);
        assert StaffApp.Bar(items) == [items[0]] + StaffApp.Bar(items[1..]);
        assert Routed(items) == (Routed(items[1..]).0, [items[0]] + Routed(items[1..]).1);
      } else {
        assert StaffApp.Kitchen(items) == [items[0]] + StaffApp.Kitchen(items[1..]);
        assert StaffApp.Bar(items) == [] + StaffApp.Bar(items[1..]) == StaffApp.Bar(items[1..]);
      }
    }
  }

  /** distribute_order_to_production's loop: a 'bar' item goes to the bar
      list, every other item to the kitchen list, each in order. */
  method Distribute(items: seq<OrderItem>) returns (kitchen: seq<OrderItem>, bar: seq<OrderItem>)
    ensures kitchen == StaffApp.Kitchen(items) && bar == StaffApp.Bar(items)
  {
    kitchen, bar := [], [];
    var k := 0;
    assert items[0..] == items;
    while k < |items|
      invariant 0 <= k <= |items|
      invariant kitchen + Routed(items[k..]).0 == Routed(items).0
      invariant bar + Routed(items[k..]).1 == Routed(items).1
    {
      assert items[k..][1..] == items[k + 1..];
      if StaffApp.IsBar(items[k]) {
        assert bar + Routed(items[k..]).1 == (bar + [items[k]]) + Routed(items[k + 1..]).1;
        bar := bar + [items[k]];
      } else {
        assert kitchen + Routed(items[k..]).0 == (kitchen + [items[k]]) + Routed(items[k + 1..]).0;
        kitchen := kitchen + [items[k]];
      }
      k := k + 1;
    }
    assert items[k..] == [];
    RoutedIsSplit(items);
  }

  /** The two production lists split the order: every item lands in exactly
      one of them, as often as it occurs in the order. */
  lemma {:induction false} DistributeSplitsOrder(items: seq<OrderItem>)
    ensures multiset(StaffApp.Kitchen(items)) + multiset(StaffApp.Bar(items)) == multiset(items)
  {
    if items != [] {
      DistributeSplitsOrder(items[1..]);
      assert items == [items[0]] + items[1..];
    }
  }

  /** notify_new_order_to_staff, step 3: a new order is sent to production
      only when its status asks for it (requires_kitchen_notify); the lists
      are then the ones Distribute builds. */
  method NotifyNewOrder(status: Option<Status>, items: seq<OrderItem>)
    returns (sent: bool, kitchen: seq<OrderItem>, bar: seq<OrderItem>)
    ensures sent <==> status.Some? && status.value.requiresKitchenNotify
    ensures sent ==> kitchen == StaffApp.Kitchen(items) && bar == StaffApp.Bar(items)
    ensures !sent ==> kitchen == [] && bar == []
  {
    if status.Some? && status.value.requiresKitchenNotify {
      sent := true;
      kitchen, bar := Distribute(items);
    } else {
      sent, kitchen, bar := false, [], [];
    }
  }

  /** The items whose product is made in one of the given workshops. */
  function InWorkshops(items: seq<OrderItem>, workshops: seq<nat>): (r: seq<OrderItem>)
    ensures forall it :: it in r <==> it in items && it.workshop.Some? && it.workshop.value in workshops
  {
    if items == [] then []
    else
      (if items[0].workshop.Some? && items[0].workshop.value in workshops then [items[0]] else [])
        + InWorkshops(items[1..], workshops)
  }

  /** notify_station_completion's list of ready items. workshops is the
      reporting employee's assigned workshops ([] when no employee is named
      or none are assigned). Items of those workshops come first; when there
      are none, 'kitchen' lists the non-bar items, 'bar' the bar items and
      any other area every item. */
  function StationItems(items: seq<OrderItem>, area: string, workshops: seq<nat>): (r: seq<OrderItem>)
    ensures InWorkshops(items, workshops) != [] ==> r == InWorkshops(items, workshops)
    ensures InWorkshops(items, workshops) == [] ==>
      forall it :: it in r <==>
        (&& it in items
         && (area == "kitchen" ==> !StaffApp.IsBar(it))
         && (area == "bar" ==> StaffApp.IsBar(it)))
  {
    var own := InWorkshops(items, workshops);
    if own != [] then own
    else if area == "kitchen" then StaffApp.Kitchen(items)
    else if area == "bar" then StaffApp.Bar(items)
    else items
  }

  // ---------------------------------------------------------------------
  // Stock on a status change

  /** Deduction is due when the new status is the ready status (by name) or
      a completed one. */
  predicate ShouldDeduct(s: Status)
  {
    s.name == ReadyStatusName || s.isCompletedStatus
  }

  /** A deduction document of the order, retyped when a cancellation keeps
      the stock written off. */
  predicate OrderDeduction(d: Doc, orderId: nat)
  {
    d.linkedOrderId == Some(orderId) && d.docType == "deduction"
  }

  /** Every deduction document of the order becomes a write-off; no other
      document changes. */
  function RetypeSpec(docs: map<nat, Doc>, orderId: nat): (r: map<nat, Doc>)
    ensures r.Keys == docs.Keys
    ensures forall id | id in docs ::
      (&& r[id] == docs[id].(docType := r[id].docType)
       && !OrderDeduction(r[id], orderId)
       && (OrderDeduction(docs[id], orderId) ==> r[id].docType == "writeoff")
       && (!OrderDeduction(docs[id], orderId) ==> r[id] == docs[id]))
  {
    map id | id in docs :: if OrderDeduction(docs[id], orderId) then docs[id].(docType := "writeoff") else docs[id]
  }

  /** notify_all_parties_on_status_change's stock step. stored is the order
      as re-read from the database, skip the skip_inventory_return flag the
      caller had set before the re-read. Returns the new ledger and order.
      A failed reversal or deduction is logged and changes nothing. */
  function StatusChangeSpec(l: Ledger, cat: Catalog, stored: Order, skip: bool, newStatus: Status,
                            lines: seq<OrderLine>): (r: (Ledger, Order))
    ensures r.1.skipInventoryReturn == skip
    ensures r.1 == stored.(skipInventoryReturn := skip, isInventoryDeducted := r.1.isInventoryDeducted)
    // Only a cancellation of a deducted order or a due deduction of an
    // undeducted one touches the ledger, so no order is deducted twice.
    ensures (&& !(newStatus.isCancelledStatus && stored.isInventoryDeducted)
             && !(ShouldDeduct(newStatus) && !stored.isInventoryDeducted)) ==>
      r == (l, stored.(skipInventoryReturn := skip))
  {
    var o := stored.(skipInventoryReturn := skip);
    var afterCancel :=
      if newStatus.isCancelledStatus && o.isInventoryDeducted then
        if !o.skipInventoryReturn then
          match ReverseSpec(l, cat, o, lines)
          case Ok(res) => (res.0, o.(isInventoryDeducted := res.1))
          case Err(_) => (l, o)
        else (l.(docs := RetypeSpec(l.docs, o.id)), o)
      else (l, o);
    var l1, o1 := afterCancel.0, afterCancel.1;
    if ShouldDeduct(newStatus) && !o1.isInventoryDeducted then
      match DeductSpec(l1, cat, o1, lines)
      case Ok(res) => (res.0, o1.(isInventoryDeducted := res.1))
      case Err(_) => (l1, o1)
    else (l1, o1)
  }

  /** Cancelling a deducted order without skip_inventory_return gives the
      order's plan back to every warehouse and clears the flag (when there
      is a warehouse and there are items). */
  lemma CancelReturnsStock(l: Ledger, cat: Catalog, stored: Order, skip: bool, newStatus: Status,
                           lines: seq<OrderLine>, w: nat, i: nat)
    requires Inv(l)
    requires newStatus.isCancelledStatus && !ShouldDeduct(newStatus)
    requires stored.isInventoryDeducted && !skip && lines != [] && l.warehouses != []
    ensures var r := StatusChangeSpec(l, cat, stored, skip, newStatus, lines);
      var o := stored.(skipInventoryReturn := skip);
      && Inv(r.0) && !r.1.isInventoryDeducted
      && Qty(r.0.stock, w, i) == Qty(l.stock, w, i) + PlanQty(OrderPlan(l.warehouses, cat, l.ingredients, o, lines), w, i)
  {
    ReverseMoves(l, cat, stored.(skipInventoryReturn := skip), lines, w, i);
  }

  /** Cancelling a deducted order with skip_inventory_return leaves the
      stock as it is and the order marked as deducted, and turns the
      order's deduction documents into write-offs. */
  lemma CancelWithSkipWritesOff(l: Ledger, cat: Catalog, stored: Order, newStatus: Status, lines: seq<OrderLine>)
    requires Inv(l)
    requires newStatus.isCancelledStatus && stored.isInventoryDeducted
    ensures var r := StatusChangeSpec(l, cat, stored, true, newStatus, lines);
      && Inv(r.0) && r.1.isInventoryDeducted
      && r.0 == l.(docs := r.0.docs)
      && r.0.docs.Keys == l.docs.Keys
      && forall id | id in l.docs ::
           r.0.docs[id].docType == (if OrderDeduction(l.docs[id], stored.id) then "writeoff" else l.docs[id].docType)
  {
    var r := StatusChangeSpec(l, cat, stored, true, newStatus, lines);
    assert r.0 == l.(docs := RetypeSpec(l.docs, stored.id));
  }

  /** Reaching the ready status, or a completed one, deducts an order not
      yet deducted: its plan leaves every warehouse, and the order is
      marked unless there is no warehouse to take from. */
  lemma ReadyDeducts(l: Ledger, cat: Catalog, stored: Order, skip: bool, newStatus: Status,
                     lines: seq<OrderLine>, w: nat, i: nat)
    requires Inv(l)
    requires ShouldDeduct(newStatus) && !stored.isInventoryDeducted
    ensures var r := StatusChangeSpec(l, cat, stored, skip, newStatus, lines);
      var o := stored.(skipInventoryReturn := skip);
      && Inv(r.0)
      && (r.1.isInventoryDeducted <==> lines == [] || l.warehouses != [])
      && (lines != [] && l.warehouses != [] ==>
            Qty(r.0.stock, w, i) == Qty(l.stock, w, i) - PlanQty(OrderPlan(l.warehouses, cat, l.ingredients, o, lines), w, i))
  {
    DeductMoves(l, cat, stored.(skipInventoryReturn := skip), lines, w, i);
  }

  /** Ready, then cancelled without skip_inventory_return: every stock row
      is back where it started and the order is no longer deducted. */
  lemma ReadyThenCancelRestores(l: Ledger, cat: Catalog, stored: Order, skip: bool, ready: Status,
                                cancelled: Status, lines: seq<OrderLine>, w: nat, i: nat)
    requires Inv(l) && !stored.isInventoryDeducted
    requires ShouldDeduct(ready) && !ready.isCancelledStatus
    requires cancelled.isCancelledStatus && !ShouldDeduct(cancelled)
    ensures var r1 := StatusChangeSpec(l, cat, stored, skip, ready, lines);
      var r2 := StatusChangeSpec(r1.0, cat, r1.1, false, cancelled, lines);
      && Inv(r2.0) && !r2.1.isInventoryDeducted
      && Qty(r2.0.stock, w, i) == Qty(l.stock, w, i)
  {
    var o := stored.(skipInventoryReturn := skip);
    ReadyStep(l, cat, stored, skip, ready, lines);
    var d := DeductSpec(l, cat, o, lines).value;
    var o1 := o.(isInventoryDeducted := d.1);
    var r1 := StatusChangeSpec(l, cat, stored, skip, ready, lines);
    assert r1 == (d.0, o1);
    CancelStep(d.0, cat, o1, cancelled, lines);
    DeductThenReverse(l, cat, o, lines, w, i);
  }

  /** A due deduction of an undeducted order is exactly DeductSpec's. */
  lemma ReadyStep(l: Ledger, cat: Catalog, stored: Order, skip: bool, ready: Status, lines: seq<OrderLine>)
    requires Inv(l) && !stored.isInventoryDeducted
    requires ShouldDeduct(ready) && !ready.isCancelledStatus
    ensures var o := stored.(skipInventoryReturn := skip);
      var d := DeductSpec(l, cat, o, lines);
      && d.Ok? && Inv(d.value.0)
      && StatusChangeSpec(l, cat, stored, skip, ready, lines) == (d.value.0, o.(isInventoryDeducted := d.value.1))
  {
    DeductMoves(l, cat, stored.(skipInventoryReturn := skip), lines, 0, 0);
  }

  /** A cancellation without skip_inventory_return is exactly ReverseSpec's. */
  lemma CancelStep(l: Ledger, cat: Catalog, o: Order, cancelled: Status, lines: seq<OrderLine>)
    requires Inv(l)
    requires cancelled.isCancelledStatus && !ShouldDeduct(cancelled)
    ensures var r := ReverseSpec(l, cat, o, lines);
      && r.Ok? && Inv(r.value.0)
      && StatusChangeSpec(l, cat, o, false, cancelled, lines)
         == (r.value.0, o.(skipInventoryReturn := false, isInventoryDeducted := r.value.1))
  {
    ReverseMoves(l, cat, o, lines, 0, 0);
    ReverseSkipIrrelevant(l, cat, o, lines);
  }

  /** Reversal does not look at skip_inventory_return. */
  lemma ReverseSkipIrrelevant(l: Ledger, cat: Catalog, o: Order, lines: seq<OrderLine>)
    ensures ReverseSpec(l, cat, o.(skipInventoryReturn := false), lines) == ReverseSpec(l, cat, o, lines)
  {
    if l.warehouses != [] {
      assert OrderPlan(l.warehouses, cat, l.ingredients, o.(skipInventoryReturn := false), lines)
          == OrderPlan(l.warehouses, cat, l.ingredients, o, lines);
    }
  }

  /** The retyping loop over the order's deduction documents. */
  method RetypeDeductions(ledger: StockLedger, orderId: nat)
    requires ledger.Valid()
    modifies ledger
    ensures ledger.Valid()
    ensures ledger.State() == old(ledger.State()).(docs := RetypeSpec(old(ledger.docs), orderId))
  {
    ghost var docs0 := ledger.docs;
    var pending := set id | id in ledger.docs && OrderDeduction(ledger.docs[id], orderId);
    while pending != {}
      invariant pending <= ledger.docs.Keys
      invariant ledger.docs.Keys == docs0.Keys
      invariant forall id | id in ledger.docs ::
        ledger.docs[id] == if id in pending then docs0[id] else RetypeSpec(docs0, orderId)[id]
      invariant ledger.State() == old(ledger.State()).(docs := ledger.docs)
      decreases pending
    {
      var id :| id in pending;
      ledger.docs := ledger.docs[id := ledger.docs[id].(docType := "writeoff")];
      pending := pending - {id};
    }
    assert ledger.docs == RetypeSpec(docs0, orderId);
  }

  /** notify_all_parties_on_status_change, the stock part, on the live
      ledger. */
  method OnStatusChange(ledger: StockLedger, cat: Catalog, stored: Order, skip: bool, newStatus: Status,
                        lines: seq<OrderLine>) returns (o: Order)
    requires ledger.Valid()
    modifies ledger
    ensures ledger.Valid()
    ensures (ledger.State(), o) == StatusChangeSpec(old(ledger.State()), cat, stored, skip, newStatus, lines)
  {
    o := stored.(skipInventoryReturn := skip);
    if newStatus.isCancelledStatus && o.isInventoryDeducted {
      if !o.skipInventoryReturn {
        var deducted := ledger.ReverseDeduction(cat, o, lines);
        o := o.(isInventoryDeducted := deducted);
      } else {
        RetypeDeductions(ledger, o.id);
      }
    }
    if ShouldDeduct(newStatus) && !o.isInventoryDeducted {
      var deducted := ledger.DeductProductsByTechCard(cat, o, lines);
      o := o.(isInventoryDeducted := deducted);
    }
  }
}
