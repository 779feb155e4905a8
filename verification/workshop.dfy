/** The staff Telegram bot (courier_handlers.py): a workshop's order queue
    and its "all ready" button, the courier's or waiter's status change with
    its cash-desk side effects, logging out, and finalising the waiter's
    table order from the bot's cart. Messages, keyboards and history rows
    are not modelled. */
module Workshop {
  import opened Wrappers
  import opened Text
  import opened Records
  import opened Cash
  import Carts
  import StaffApp

  /** The staff member the bot finds by Telegram id. */
  datatype BotUser = BotUser(
    id: nat,
    telegramUserId: Option<nat>,
    isOnShift: bool,
    workshops: seq<nat>,          // assigned_workshop_ids, [] when unset
    cashBalance: real)

  // ---------------------------------------------------------------------
  // The workshop's view of an order

  const Hourglass: char := '⏳'
  const Done: char := '✅'

  /** An order line together with the names of its stored modifiers. */
  datatype KitchenLine = KitchenLine(item: OrderItem, modifierNames: seq<string>)

  /** The dish is prepared in one of the given workshops. */
  predicate InWorkshop(it: OrderItem, workshops: seq<nat>)
  {
    it.workshop.Some? && it.workshop.value in workshops
  }

  /** html.escape with quote=True. */
  function EscapeChar(c: char): string
  {
    if c == '&' then "&amp;"
    else if c == '<' then "&lt;"
    else if c == '>' then "&gt;"
    else if c == '"' then "&quot;"
    else if c == '\'' then "&#x27;"
    else [c]
  }

  function Escape(s: string): (r: string)
    ensures Hourglass in r <==> Hourglass in s
  {
    if s == [] then ""
    else
      assert s == [s[0]] + s[1..];
      EscapeChar(s[0]) + Escape(s[1..])
  }

  /** " (+ a, b)" after the dish name, nothing without modifiers. */
  function ModsSuffix(names: seq<string>): string
  {
    if names == [] then "" else " (+ " + Join(names, ", ") + ")"
  }

  /** "✅ name (+ mods) x qty" for a ready dish, "⏳ ..." otherwise. */
  function LineText(l: KitchenLine): string
  {
    [if l.item.isReady then Done else Hourglass] + " " + Escape(l.item.productName)
      + ModsSuffix(l.modifierNames) + " x " + IntToString(l.item.quantity)
  }

  /** The lines of the dishes of the given workshops, in order. */
  function MyLines(lines: seq<KitchenLine>, workshops: seq<nat>): (r: seq<string>)
    ensures |r| <= |lines|
  {
    if lines == [] then []
    else
      (if InWorkshop(lines[0].item, workshops) then [LineText(lines[0])] else [])
        + MyLines(lines[1..], workshops)
  }

  /** _get_workshop_order_text: the lines joined by newlines, "" when the
      order has no dish of these workshops. */
  function WorkshopText(lines: seq<KitchenLine>, workshops: seq<nat>): string
  {
    var mine := MyLines(lines, workshops);
    if mine == [] then "" else Join(mine, "\n")
  }

  /** The queue's test on the text: some dish of the workshop, and an
      hourglass somewhere in the text. */
  predicate ShowsInQueue(lines: seq<KitchenLine>, workshops: seq<nat>)
  {
    var t := WorkshopText(lines, workshops);
    t != "" && Hourglass in t
  }

  /** No dish or modifier name carries an hourglass of its own. */
  predicate PlainNames(lines: seq<KitchenLine>)
  {
    forall k | 0 <= k < |lines| ::
      Hourglass !in lines[k].item.productName
      && forall j | 0 <= j < |lines[k].modifierNames| :: Hourglass !in lines[k].modifierNames[j]
  }

  /** The dishes of the workshops still waiting. */
  function PendingCount(items: seq<OrderItem>, workshops: seq<nat>): nat
  {
    if items == [] then 0
    else (if InWorkshop(items[0], workshops) && !items[0].isReady then 1 else 0) + PendingCount(items[1..], workshops)
  }

  function ItemsOf(lines: seq<KitchenLine>): (r: seq<OrderItem>)
    ensures |r| == |lines| && forall k | 0 <= k < |lines| :: r[k] == lines[k].item
  {
    if lines == [] then [] else [lines[0].item] + ItemsOf(lines[1..])
  }

  lemma {:induction false} JoinHas(parts: seq<string>, sep: string, c: char)
    requires c !in sep
    ensures c in Join(parts, sep) <==> exists k | 0 <= k < |parts| :: c in parts[k]
  {
    if |parts| > 1 {
      JoinHas(parts[1..], sep, c);
      if c in Join(parts[1..], sep) {
        var k :| 0 <= k < |parts[1..]| && c in parts[1..][k];
        assert c in parts[k + 1];
      }
      if exists k | 0 <= k < |parts| :: c in parts[k] {
        var k :| 0 <= k < |parts| && c in parts[k];
        if k > 0 {
          assert c in parts[1..][k - 1];
        }
      }
    }
  }

  lemma NoHourglassInNumber(i: int)
    ensures Hourglass !in IntToString(i)
  {
    var s := IntToString(i);
    forall k | 0 <= k < |s|
      ensures s[k] != Hourglass
    {
      if k > 0 && i < 0 {
        assert s[1..][k - 1] == s[k];
      }
    }
  }

  /** A line shows an hourglass exactly for a dish not ready, unless a
      name brings one along. */
  lemma LineHourglass(l: KitchenLine)
    ensures Hourglass in LineText(l) <==>
      (|| !l.item.isReady
       || Hourglass in l.item.productName
       || exists j | 0 <= j < |l.modifierNames| :: Hourglass in l.modifierNames[j])
  {
    NoHourglassInNumber(l.item.quantity);
    JoinHas(l.modifierNames, ", ", Hourglass);
  }

  lemma {:induction false} MyLinesHourglass(lines: seq<KitchenLine>, workshops: seq<nat>)
    requires PlainNames(lines)
    ensures (exists k | 0 <= k < |MyLines(lines, workshops)| :: Hourglass in MyLines(lines, workshops)[k])
      <==> PendingCount(ItemsOf(lines), workshops) > 0
  {
    if lines != [] {
      assert ItemsOf(lines)[1..] == ItemsOf(lines[1..]);
      assert PlainNames(lines[1..]) by {
        forall k | 0 <= k < |lines[1..]|
          ensures lines[1..][k] == lines[k + 1]
        {
        }
      }
      MyLinesHourglass(lines[1..], workshops);
      var head := if InWorkshop(lines[0].item, workshops) then [LineText(lines[0])] else [];
      var rest := MyLines(lines[1..], workshops);
      assert MyLines(lines, workshops) == head + rest;
      MentionsAppend(head, rest, Hourglass);
      assert Mentions(head, Hourglass) <==> InWorkshop(lines[0].item, workshops) && !lines[0].item.isReady by {
        LineHourglass(lines[0]);
        if head != [] {
          assert head[0] == LineText(lines[0]);
        }
      }
      assert PendingCount(ItemsOf(lines), workshops)
        == (if InWorkshop(lines[0].item, workshops) && !lines[0].item.isReady then 1 else 0)
           + PendingCount(ItemsOf(lines[1..]), workshops);
    }
  }

  /** Some part contains the character. */
  predicate Mentions(parts: seq<string>, c: char)
  {
    exists k | 0 <= k < |parts| :: c in parts[k]
  }

  lemma MentionsAppend(a: seq<string>, b: seq<string>, c: char)
    ensures Mentions(a + b, c) <==> Mentions(a, c) || Mentions(b, c)
  {
    if Mentions(b, c) {
      var k :| 0 <= k < |b| && c in b[k];
      assert (a + b)[|a| + k] == b[k];
    }
    if Mentions(a, c) {
      var k :| 0 <= k < |a| && c in a[k];
      assert (a + b)[k] == a[k];
    }
    if Mentions(a + b, c) {
      var k :| 0 <= k < |a + b| && c in (a + b)[k];
      if k >= |a| {
        assert b[k - |a|] == (a + b)[k];
      }
    }
  }

  lemma {:induction false} MyLinesEmpty(lines: seq<KitchenLine>, workshops: seq<nat>)
    ensures MyLines(lines, workshops) == [] <==> forall k | 0 <= k < |lines| :: !InWorkshop(lines[k].item, workshops)
  {
    if lines != [] {
      MyLinesEmpty(lines[1..], workshops);
      if forall k | 0 <= k < |lines[1..]| :: !InWorkshop(lines[1..][k].item, workshops) {
        forall k | 1 <= k < |lines|
          ensures !InWorkshop(lines[k].item, workshops)
        {
          assert lines[1..][k - 1] == lines[k];
        }
      }
    }
  }

  /** The text is empty exactly when the order has no dish of these
      workshops. */
  lemma WorkshopTextEmpty(lines: seq<KitchenLine>, workshops: seq<nat>)
    ensures WorkshopText(lines, workshops) == "" <==>
      forall k | 0 <= k < |lines| :: !InWorkshop(lines[k].item, workshops)
  {
    MyLinesEmpty(lines, workshops);
    var mine := MyLines(lines, workshops);
    if mine != [] {
      Carts.JoinStartsWithFirst(mine, "\n");
      if InWorkshop(lines[0].item, workshops) {
        assert mine[0] == LineText(lines[0]);
      } else {
        assert mine == MyLines(lines[1..], workshops);
      }
      assert mine[0] != "" by { MyLinesNonEmpty(lines, workshops); }
    }
  }

  lemma {:induction false} MyLinesNonEmpty(lines: seq<KitchenLine>, workshops: seq<nat>)
    ensures forall k | 0 <= k < |MyLines(lines, workshops)| :: MyLines(lines, workshops)[k] != ""
  {
    if lines != [] {
      MyLinesNonEmpty(lines[1..], workshops);
      var head := if InWorkshop(lines[0].item, workshops) then [LineText(lines[0])] else [];
      var rest := MyLines(lines[1..], workshops);
      assert MyLines(lines, workshops) == head + rest;
      forall k | 0 <= k < |head + rest|
        ensures (head + rest)[k] != ""
      {
        if k >= |head| {
          assert (head + rest)[k] == rest[k - |head|];
        } else {
          assert (head + rest)[k] == LineText(lines[0]);
          assert |LineText(lines[0])| >= 1;
        }
      }
    }
  }

  /** show_workshop_orders keeps an order exactly when one of the
      workshop's dishes in it is not ready, as long as no dish or modifier
      name contains an hourglass of its own. */
  lemma QueueFilterMatchesFlags(lines: seq<KitchenLine>, workshops: seq<nat>)
    requires PlainNames(lines)
    ensures ShowsInQueue(lines, workshops) <==> PendingCount(ItemsOf(lines), workshops) > 0
  {
    WorkshopTextEmpty(lines, workshops);
    MyLinesHourglass(lines, workshops);
    var mine := MyLines(lines, workshops);
    if mine != [] {
      JoinHas(mine, "\n", Hourglass);
    } else {
      PendingWithoutDishes(lines, workshops);
    }
  }

  lemma {:induction false} PendingWithoutDishes(lines: seq<KitchenLine>, workshops: seq<nat>)
    requires forall k | 0 <= k < |lines| :: !InWorkshop(lines[k].item, workshops)
    ensures PendingCount(ItemsOf(lines), workshops) == 0
  {
    if lines != [] {
      assert ItemsOf(lines)[1..] == ItemsOf(lines[1..]);
      assert forall k | 0 <= k < |lines[1..]| :: lines[1..][k] == lines[k + 1];
      PendingWithoutDishes(lines[1..], workshops);
    }
  }

  /** The queue tests the text rather than the flags: a finished dish
      whose name begins with an hourglass keeps its order in the queue. */
  lemma HourglassNameKeepsOrderQueued()
    ensures var l := KitchenLine(OrderItem(1, 7, "⏳ Стейк", 1, 300.0, true, "kitchen", Some(3)), []);
      ShowsInQueue([l], [3]) && PendingCount(ItemsOf([l]), [3]) == 0
  {
    var l := KitchenLine(OrderItem(1, 7, "⏳ Стейк", 1, 300.0, true, "kitchen", Some(3)), []);
    assert MyLines([l], [3]) == [LineText(l)];
    assert Hourglass in l.item.productName by { assert l.item.productName[0] == Hourglass; }
    LineHourglass(l);
    assert ItemsOf([l]) == [l.item];
  }

  datatype QueueError = NotAuthorised | OffShift | NoWorkshops

  /** An order of a kitchen status with its lines. */
  datatype QueuedOrder = QueuedOrder(order: Order, lines: seq<KitchenLine>)

  /** The order is in a status the kitchen works on. */
  predicate AtKitchen(statuses: seq<Status>, o: Order)
  {
    var s := StatusById(statuses, o.statusId);
    s.Some? && s.value.requiresKitchenNotify
  }

  function Listed(orders: seq<QueuedOrder>, statuses: seq<Status>, workshops: seq<nat>): (r: seq<nat>)
    ensures forall id :: id in r <==>
      exists k | 0 <= k < |orders| :: orders[k].order.id == id
        && AtKitchen(statuses, orders[k].order) && ShowsInQueue(orders[k].lines, workshops)
  {
    if orders == [] then []
    else
      var q := orders[0];
      var rest := Listed(orders[1..], statuses, workshops);
      assert forall k | 1 <= k < |orders| :: orders[1..][k - 1] == orders[k];
      (if AtKitchen(statuses, q.order) && ShowsInQueue(q.lines, workshops) then [q.order.id] else []) + rest
  }

  /** show_workshop_orders: the ids of the orders the workshop still has
      dishes to prepare for, in the order given (the query sorts by id).
      An unknown user, a user off shift and a user without workshops are
      turned away. */
  function QueueSpec(user: Option<BotUser>, statuses: seq<Status>, orders: seq<QueuedOrder>): Result<seq<nat>, QueueError>
  {
    if user.None? then Err(NotAuthorised)
    else if !user.value.isOnShift then Err(OffShift)
    else if user.value.workshops == [] then Err(NoWorkshops)
    else Ok(Listed(orders, statuses, user.value.workshops))
  }

  /** The queue is refused exactly to users who are unknown, off shift or
      without workshops; otherwise, with plain names, it lists an order
      exactly when it is at the kitchen and has an unready dish of the
      user's workshops. */
  lemma QueueListsPending(user: Option<BotUser>, statuses: seq<Status>, orders: seq<QueuedOrder>, id: nat)
    requires forall k | 0 <= k < |orders| :: PlainNames(orders[k].lines)
    ensures var r := QueueSpec(user, statuses, orders);
      && (r.Err? <==> user.None? || !user.value.isOnShift || user.value.workshops == [])
      && (r.Ok? ==> (id in r.value <==>
            exists k | 0 <= k < |orders| :: orders[k].order.id == id && AtKitchen(statuses, orders[k].order)
              && PendingCount(ItemsOf(orders[k].lines), user.value.workshops) > 0))
  {
    if user.Some? && user.value.isOnShift && user.value.workshops != [] {
      forall k | 0 <= k < |orders|
        ensures ShowsInQueue(orders[k].lines, user.value.workshops)
          <==> PendingCount(ItemsOf(orders[k].lines), user.value.workshops) > 0
      {
        QueueFilterMatchesFlags(orders[k].lines, user.value.workshops);
      }
    }
  }

  // ---------------------------------------------------------------------
  // "All ready" for a workshop

  /** A dish as the button leaves it: ready when it is the workshop's. */
  function MarkOne(it: OrderItem, workshops: seq<nat>): OrderItem
  {
    if InWorkshop(it, workshops) then it.(isReady := true) else it
  }

  function MarkAll(items: seq<OrderItem>, workshops: seq<nat>): (r: seq<OrderItem>)
    ensures |r| == |items|
  {
    seq(|items|, k requires 0 <= k < |items| => MarkOne(items[k], workshops))
  }

  /** The number of positions where two lists of dishes differ. */
  function Differences(a: seq<OrderItem>, b: seq<OrderItem>): nat
    requires |a| == |b|
  {
    if a == [] then 0 else (if a[0] != b[0] then 1 else 0) + Differences(a[1..], b[1..])
  }

  /** After the button every dish of the workshops is ready, every other
      dish is untouched, the count is the number of dishes that changed,
      and a second press finds nothing to do. */
  lemma {:induction false} MarkAllEffect(items: seq<OrderItem>, workshops: seq<nat>)
    ensures var r := MarkAll(items, workshops);
      && (forall k | 0 <= k < |items| ::
            && r[k] == items[k].(isReady := r[k].isReady)
            && (InWorkshop(items[k], workshops) ==> r[k].isReady)
            && (!InWorkshop(items[k], workshops) ==> r[k] == items[k]))
      && PendingCount(r, workshops) == 0
      && MarkAll(r, workshops) == r
      && PendingCount(items, workshops) == Differences(items, r)
  {
    if items != [] {
      MarkAllEffect(items[1..], workshops);
      var r := MarkAll(items, workshops);
      assert r[1..] == MarkAll(items[1..], workshops);
    }
  }

  /** The button on an order the workshop has nothing to do for marks no
      dish: PendingCount is zero exactly then. */
  lemma {:induction false} NothingPendingIff(items: seq<OrderItem>, workshops: seq<nat>)
    ensures PendingCount(items, workshops) == 0 <==>
      forall k | 0 <= k < |items| :: InWorkshop(items[k], workshops) ==> items[k].isReady
  {
    if items != [] {
      NothingPendingIff(items[1..], workshops);
      assert forall k | 1 <= k < |items| :: items[1..][k - 1] == items[k];
    }
  }

  /** Once the button is pressed the order leaves that workshop's queue. */
  lemma MarkedOrderLeavesQueue(lines: seq<KitchenLine>, workshops: seq<nat>)
    requires PlainNames(lines)
    ensures var marked := seq(|lines|, k requires 0 <= k < |lines| => lines[k].(item := MarkOne(lines[k].item, workshops)));
      !ShowsInQueue(marked, workshops)
  {
    var marked := seq(|lines|, k requires 0 <= k < |lines| => lines[k].(item := MarkOne(lines[k].item, workshops)));
    assert PlainNames(marked);
    assert ItemsOf(marked) == MarkAll(ItemsOf(lines), workshops);
    MarkAllEffect(ItemsOf(lines), workshops);
    QueueFilterMatchesFlags(marked, workshops);
  }

  /** The loop of chef_mark_all_ready over the order's items. */
  method MarkAllReady(items: array<OrderItem>, workshops: seq<nat>) returns (marked: nat)
    modifies items
    ensures items[..] == MarkAll(old(items[..]), workshops)
    ensures marked == PendingCount(old(items[..]), workshops)
  {
    marked := 0;
    var k := 0;
    while k < items.Length
      invariant 0 <= k <= items.Length
      invariant items[..k] == MarkAll(old(items[..]), workshops)[..k]
      invariant items[k..] == old(items[..])[k..]
      invariant marked + PendingCount(old(items[..])[k..], workshops) == PendingCount(old(items[..]), workshops)
    {
      assert old(items[..])[k..][1..] == old(items[..])[k + 1..];
      assert items[k] == old(items[..])[k];
      if InWorkshop(items[k], workshops) {
        if !items[k].isReady {
          items[k] := items[k].(isReady := true);
          marked := marked + 1;
        }
      }
      assert items[k] == MarkOne(old(items[..])[k], workshops);
      k := k + 1;
    }
    assert items[..] == items[..k];
  }

  datatype MarkError = NoRights | OrderNotFound

  /** chef_mark_all_ready: an unknown user or one without workshops is
      refused, a missing order is reported, otherwise the workshop's dishes
      are marked and counted. */
  method ChefMarkAllReady(user: Option<BotUser>, items: Option<array<OrderItem>>) returns (r: Result<nat, MarkError>)
    modifies if items.Some? then {items.value} else {}
    ensures user.None? || user.value.workshops == [] ==> r == Err(NoRights)
    ensures user.Some? && user.value.workshops != [] && items.None? ==> r == Err(OrderNotFound)
    ensures user.Some? && user.value.workshops != [] && items.Some? ==>
      && items.value[..] == MarkAll(old(items.value[..]), user.value.workshops)
      && r == Ok(PendingCount(old(items.value[..]), user.value.workshops))
    ensures r.Err? && items.Some? ==> items.value[..] == old(items.value[..])
  {
    if user.None? || user.value.workshops == [] {
      return Err(NoRights);
    }
    if items.None? {
      return Err(OrderNotFound);
    }
    var n := MarkAllReady(items.value, user.value.workshops);
    r := Ok(n);
  }

  // ---------------------------------------------------------------------
  // Logging out

  /** logout_handler: a user who still holds cash is refused and keeps
      everything; otherwise the Telegram link is dropped and the shift
      ends. An unknown user changes nothing. */
  function LogoutSpec(user: Option<BotUser>): (Option<BotUser>, bool)
  {
    if user.None? then (user, false)
    else if user.value.cashBalance > 0.0 then (user, true)
    else (Some(user.value.(telegramUserId := None, isOnShift := false)), false)
  }

  /** Logging out is refused exactly while the balance is positive; a
      logout that goes through leaves the user unlinked and off shift with
      the same balance. */
  lemma LogoutRule(user: BotUser)
    ensures var (u, refused) := LogoutSpec(Some(user));
      && (refused <==> user.cashBalance > 0.0)
      && (refused ==> u == Some(user))
      && (!refused ==>
            u.Some? && u.value.telegramUserId.None? && !u.value.isOnShift
            && u.value == user.(telegramUserId := None, isOnShift := false))
  {
  }

  /** Cash taken on a completed order keeps its courier from logging out
      until the cash desk takes it back. */
  lemma CashDebtBlocksLogout(b: Books, i: nat, user: BotUser)
    requires Inv(b) && i < |b.orders|
    requires b.orders[i].paymentMethod == "cash" && b.orders[i].totalPrice > 0.0 && user.id in b.balances
    requires user.cashBalance == RegisterEmployeeDebtSpec(b, i, user.id).balances[user.id]
    ensures LogoutSpec(Some(user)).1
  {
    RegisterDebtAdds(b, i, user.id);
  }

  // ---------------------------------------------------------------------
  // The bot's status change

  datatype BotStatusError =
    | BotOrderNotFound
    | BotStatusMissing    // the order's or the requested status row is missing
    | BotOrderClosed      // a completed or cancelled order is not changed
    | PaymentAsked        // completing without a payment choice asks for one
    | NoEmployee          // completing needs the acting employee's row

  /** A payment choice was sent with the button. */
  predicate HasChoice(choice: Option<string>) { choice.Some? && choice.value != "" }

  /** The new status and the chosen payment on the i-th order. */
  function WriteStatus(b: Books, i: nat, to: Status, choice: Option<string>): (r: Books)
    requires i < |b.orders|
    ensures |r.orders| == |b.orders|
  {
    var o := b.orders[i];
    b.(orders := b.orders[i := o.(statusId := to.id,
                                 paymentMethod := if HasChoice(choice) then choice.value else o.paymentMethod)])
  }

  /** The completion steps: a delivery records the acting employee as its
      completing courier, the order joins the employee's shift, and cash
      goes onto the employee's balance. */
  function BotComplete(b: Books, i: nat, employeeId: nat): (r: Books)
    requires i < |b.orders|
    ensures |r.orders| == |b.orders|
  {
    var b2 := BotLinked(b, i, employeeId);
    if b.orders[i].paymentMethod == "cash" then RegisterEmployeeDebtSpec(b2, i, employeeId) else b2
  }

  /** A delivery records the acting employee as its completing courier,
      and the order joins the employee's shift. */
  function BotLinked(b: Books, i: nat, employeeId: nat): (r: Books)
    requires i < |b.orders|
    ensures |r.orders| == |b.orders|
  {
    var o := b.orders[i];
    var o2 := if o.isDelivery then o.(completedByCourierId := Some(employeeId)) else o;
    LinkOrderToShiftSpec(b.(orders := b.orders[i := o2]), i, Some(employeeId))
  }

  lemma BotLinkedKeeps(b: Books, i: nat, employeeId: nat)
    requires Inv(b) && i < |b.orders|
    ensures var o := b.orders[i];
      var o2 := if o.isDelivery then o.(completedByCourierId := Some(employeeId)) else o;
      var b2 := BotLinked(b, i, employeeId);
      && Inv(b2) && b2.shifts == b.shifts && b2.balances == b.balances && b2.history == b.history
      && b2.orders[i] == o2.(cashShiftId := b2.orders[i].cashShiftId)
      && (forall k | 0 <= k < |b.orders| && k != i :: b2.orders[k] == b.orders[k])
  {
  }

  /** staff_set_status on the i-th order. */
  function BotSetStatusSpec(b: Books, statuses: seq<Status>, actor: Option<nat>, i: nat, newStatusId: nat,
                            choice: Option<string>): Result<Books, BotStatusError>
  {
    if i >= |b.orders| then Err(BotOrderNotFound)
    else match StatusById(statuses, b.orders[i].statusId)
      case None => Err(BotStatusMissing)
      case Some(from) =>
        if from.IsClosed() then Err(BotOrderClosed)
        else match StatusById(statuses, newStatusId)
          case None => Err(BotStatusMissing)
          case Some(to) =>
            if to.isCompletedStatus && !HasChoice(choice) then Err(PaymentAsked)
            else if !to.isCompletedStatus then Ok(WriteStatus(b, i, to, choice))
            else if actor.None? then Err(NoEmployee)
            else Ok(BotComplete(WriteStatus(b, i, to, choice), i, actor.value))
  }

  lemma BotCompleteInv(b: Books, i: nat, employeeId: nat)
    requires Inv(b) && i < |b.orders|
    ensures var r := BotComplete(b, i, employeeId);
      && Inv(r) && r.shifts == b.shifts
      && (forall k | 0 <= k < |b.orders| && k != i :: r.orders[k] == b.orders[k])
      && r.orders[i].statusId == b.orders[i].statusId
      && r.orders[i].paymentMethod == b.orders[i].paymentMethod
      && r.orders[i].totalPrice == b.orders[i].totalPrice
      && r.orders[i].courierId == b.orders[i].courierId
      && r.orders[i].acceptedByWaiterId == b.orders[i].acceptedByWaiterId
      && (b.orders[i].isDelivery ==> r.orders[i].completedByCourierId == Some(employeeId))
      && (b.orders[i].paymentMethod != "cash" ==> r.balances == b.balances && r.history == b.history)
  {
    BotLinkedKeeps(b, i, employeeId);
    if b.orders[i].paymentMethod == "cash" {
      RegisterDebtAdds(BotLinked(b, i, employeeId), i, employeeId);
    }
  }

  /** The bot changes a status exactly when the order is open, both
      statuses exist, and a completion carries a payment choice and an
      acting employee; the change sets the new status on that order alone
      and keeps the cash desk's invariant. */
  lemma BotSetStatusGuards(b: Books, statuses: seq<Status>, actor: Option<nat>, i: nat, newStatusId: nat,
                           choice: Option<string>, from: Status, to: Status)
    requires Inv(b) && i < |b.orders|
    requires StatusById(statuses, b.orders[i].statusId) == Some(from) && StatusById(statuses, newStatusId) == Some(to)
    ensures var r := BotSetStatusSpec(b, statuses, actor, i, newStatusId, choice);
      && (r.Ok? <==> !from.IsClosed() && (to.isCompletedStatus ==> HasChoice(choice) && actor.Some?))
      && (from.IsClosed() ==> r == Err(BotOrderClosed))
      && (!from.IsClosed() && to.isCompletedStatus && !HasChoice(choice) ==> r == Err(PaymentAsked))
      && (r.Ok? ==>
            && Inv(r.value)
            && r.value.orders[i].statusId == newStatusId
            && (HasChoice(choice) ==> r.value.orders[i].paymentMethod == choice.value)
            && (forall k | 0 <= k < |b.orders| && k != i :: r.value.orders[k] == b.orders[k])
            && (!to.isCompletedStatus ==> r.value.balances == b.balances && r.value.shifts == b.shifts))
  {
    var w := WriteStatus(b, i, to, choice);
    WriteStatusFacts(b, i, to, choice);
    if !from.IsClosed() && to.isCompletedStatus && HasChoice(choice) && actor.Some? {
      BotCompleteInv(w, i, actor.value);
    }
  }

  /** Writing a status touches only the i-th order's status and payment
      method, and keeps the cash desk's invariant. */
  lemma WriteStatusFacts(b: Books, i: nat, to: Status, choice: Option<string>)
    requires Inv(b) && i < |b.orders|
    ensures var w := WriteStatus(b, i, to, choice);
      && Inv(w) && w.balances == b.balances && w.shifts == b.shifts && w.history == b.history
      && w.orders[i].statusId == to.id
      && (HasChoice(choice) ==> w.orders[i].paymentMethod == choice.value)
      && w.orders[i].totalPrice == b.orders[i].totalPrice
      && (forall k | 0 <= k < |b.orders| && k != i :: w.orders[k] == b.orders[k])
  {
  }

  /** Completing an order for cash from the bot puts the order total on
      the acting employee's balance, with a history row of the new balance,
      and leaves the cash not yet turned in; a card completion moves no
      balance. */
  lemma BotCompletionCharges(b: Books, statuses: seq<Status>, e: nat, i: nat, newStatusId: nat, payment: string,
                             from: Status, to: Status)
    requires Inv(b) && i < |b.orders| && e in b.balances && payment != ""
    requires StatusById(statuses, b.orders[i].statusId) == Some(from) && StatusById(statuses, newStatusId) == Some(to)
    requires !from.IsClosed() && to.isCompletedStatus
    ensures var r := BotSetStatusSpec(b, statuses, Some(e), i, newStatusId, Some(payment));
      && r.Ok?
      && (payment == "cash" ==>
            && r.value.balances == b.balances[e := b.balances[e] + b.orders[i].totalPrice]
            && r.value.history == b.history + [BalanceEntry(e, b.orders[i].totalPrice, b.balances[e] + b.orders[i].totalPrice)]
            && !r.value.orders[i].isCashTurnedIn)
      && (payment != "cash" ==> r.value.balances == b.balances && r.value.history == b.history)
  {
    var w := WriteStatus(b, i, to, Some(payment));
    WriteStatusFacts(b, i, to, Some(payment));
    assert BotSetStatusSpec(b, statuses, Some(e), i, newStatusId, Some(payment)) == Ok(BotComplete(w, i, e));
    var b2 := BotLinked(w, i, e);
    BotLinkedKeeps(w, i, e);
    if payment == "cash" {
      assert b2.orders[i].paymentMethod == "cash" && b2.orders[i].totalPrice == b.orders[i].totalPrice;
      assert BotComplete(w, i, e) == RegisterEmployeeDebtSpec(b2, i, e);
    } else {
      assert BotComplete(w, i, e) == b2;
    }
  }

  /** When the acting employee is the one unregister_employee_debt charges
      back (the order's courier; with no courier its accepting waiter; with
      neither, the employee who completed a delivery), completing for cash
      in the bot and then releasing the debt restores every balance. */
  lemma BotCompletionReleasedRestores(b: Books, statuses: seq<Status>, e: nat, i: nat, newStatusId: nat,
                                      from: Status, to: Status)
    requires Inv(b) && i < |b.orders| && e in b.balances
    requires StatusById(statuses, b.orders[i].statusId) == Some(from) && StatusById(statuses, newStatusId) == Some(to)
    requires !from.IsClosed() && to.isCompletedStatus
    requires var o := b.orders[i];
      || o.courierId == Some(e)
      || (o.courierId.None? && o.acceptedByWaiterId == Some(e))
      || (o.courierId.None? && o.acceptedByWaiterId.None? && o.isDelivery)
    ensures var r := BotSetStatusSpec(b, statuses, Some(e), i, newStatusId, Some("cash"));
      r.Ok? && UnregisterEmployeeDebtSpec(r.value, i).balances == b.balances
  {
    var w := WriteStatus(b, i, to, Some("cash"));
    WriteStatusFacts(b, i, to, Some("cash"));
    assert BotSetStatusSpec(b, statuses, Some(e), i, newStatusId, Some("cash")) == Ok(BotComplete(w, i, e));
    var b2 := BotLinked(w, i, e);
    BotLinkedKeeps(w, i, e);
    assert w.orders[i] == b.orders[i].(statusId := to.id, paymentMethod := "cash");
    assert DebtHolder(b2.orders[i]) == Some(e);
    assert BotComplete(w, i, e) == RegisterEmployeeDebtSpec(b2, i, e);
    RegisterThenUnregister(b2, i, e);
  }

  /** staff_set_status on the live cash desk. */
  method BotSetStatus(desk: CashDesk, statuses: seq<Status>, actor: Option<nat>, i: nat, newStatusId: nat,
                      choice: Option<string>) returns (err: Option<BotStatusError>)
    requires desk.Valid()
    modifies desk
    ensures desk.Valid()
    ensures match BotSetStatusSpec(old(desk.State()), statuses, actor, i, newStatusId, choice)
      case Ok(b) => err.None? && desk.State() == b
      case Err(e) => err == Some(e) && desk.State() == old(desk.State())
  {
    if i >= |desk.orders| {
      return Some(BotOrderNotFound);
    }
    var current := StatusById(statuses, desk.orders[i].statusId);
    if current.None? {
      return Some(BotStatusMissing);
    }
    if current.value.IsClosed() {
      return Some(BotOrderClosed);
    }
    var next := StatusById(statuses, newStatusId);
    if next.None? {
      return Some(BotStatusMissing);
    }
    var to := next.value;
    if to.isCompletedStatus && !HasChoice(choice) {
      return Some(PaymentAsked);
    }
    if to.isCompletedStatus && actor.None? {
      return Some(NoEmployee);
    }
    var o := desk.orders[i];
    desk.orders := desk.orders[i := o.(statusId := to.id,
                                       paymentMethod := if HasChoice(choice) then choice.value else o.paymentMethod)];
    if to.isCompletedStatus {
      BotCompleteOrder(desk, i, actor.value);
    }
    err := None;
  }

  /** BotComplete on the live desk. */
  method BotCompleteOrder(desk: CashDesk, i: nat, employeeId: nat)
    requires desk.Valid() && i < |desk.orders|
    modifies desk
    ensures desk.Valid()
    ensures desk.State() == BotComplete(old(desk.State()), i, employeeId)
  {
    ghost var b := desk.State();
    BotLinkedKeeps(b, i, employeeId);
    var o := desk.orders[i];
    if o.isDelivery {
      desk.orders := desk.orders[i := o.(completedByCourierId := Some(employeeId))];
    }
    desk.LinkOrderToShift(i, Some(employeeId));
    assert desk.State() == BotLinked(b, i, employeeId);
    if desk.orders[i].paymentMethod == "cash" {
      desk.RegisterEmployeeDebt(i, employeeId);
    }
  }

  // ---------------------------------------------------------------------
  // Finalising the waiter's table order

  datatype FinalizeError = EmptyCart | ProductsGone | NoWaiter

  /** The order the waiter creates for a table. */
  datatype TableOrder = TableOrder(tableId: nat, statusId: nat, waiterId: nat, totalPrice: real,
                                   lines: seq<StaffApp.PricedLine>)

  /** The cart lines priced from the database: a product that no longer
      exists drops its line; the unit price is the product's price plus the
      prices of the modifiers that still exist. */
  function FinalLines(cart: Carts.Lines, products: map<nat, Product>, mods: map<nat, Modifier>)
    : (r: seq<StaffApp.PricedLine>)
    ensures |r| <= |cart|
    ensures forall l | l in r :: l.productId in products
  {
    if cart == [] then []
    else
      var line := cart[0].1;
      (if line.productId in products then
         var p := products[line.productId];
         [StaffApp.PricedLine(line.productId, p.name, line.quantity,
                              p.price + StaffApp.ModsPrice(line.modifierIds, mods), p.preparationArea)]
       else [])
      + FinalLines(cart[1..], products, mods)
  }

  /** waiter_cart_finalize: an empty cart and a cart whose products all
      vanished are refused; the order is priced from the database. */
  function FinalizeSpec(cart: Carts.Lines, products: map<nat, Product>, mods: map<nat, Modifier>,
                        statuses: seq<Status>, tableId: nat, waiter: Option<nat>): Result<TableOrder, FinalizeError>
  {
    if cart == [] then Err(EmptyCart)
    else
      var lines := FinalLines(cart, products, mods);
      if lines == [] then Err(ProductsGone)
      else if waiter.None? then Err(NoWaiter)
      else Ok(TableOrder(tableId, NewStatusId(statuses), waiter.value, StaffApp.LinesTotal(lines), lines))
  }

  lemma {:induction false} FinalLinesEmpty(cart: Carts.Lines, products: map<nat, Product>, mods: map<nat, Modifier>)
    ensures FinalLines(cart, products, mods) == [] <==> forall k | 0 <= k < |cart| :: cart[k].1.productId !in products
  {
    if cart != [] {
      FinalLinesEmpty(cart[1..], products, mods);
      assert forall k | 1 <= k < |cart| :: cart[1..][k - 1] == cart[k];
    }
  }

  /** Finalising fails on an empty cart, then on a cart none of whose
      products exists; otherwise the waiter's order carries the priced
      lines, their total and the new-order status. */
  lemma FinalizeGuards(cart: Carts.Lines, products: map<nat, Product>, mods: map<nat, Modifier>,
                       statuses: seq<Status>, tableId: nat, waiter: nat)
    ensures var r := FinalizeSpec(cart, products, mods, statuses, tableId, Some(waiter));
      && (r == Err(EmptyCart) <==> cart == [])
      && (r == Err(ProductsGone) <==> cart != [] && forall k | 0 <= k < |cart| :: cart[k].1.productId !in products)
      && (r.Ok? ==>
            && r.value.waiterId == waiter && r.value.tableId == tableId
            && r.value.statusId == NewStatusId(statuses)
            && r.value.lines == FinalLines(cart, products, mods) && r.value.lines != []
            && r.value.totalPrice == StaffApp.LinesTotal(r.value.lines))
  {
    FinalLinesEmpty(cart, products, mods);
  }

  /** The prices and names kept in the cart play no part: two carts with
      the same products, quantities and modifiers finalise alike. */
  lemma {:induction false} FinalizeIgnoresCartPrices(a: Carts.Lines, b: Carts.Lines, products: map<nat, Product>,
                                                     mods: map<nat, Modifier>)
    requires |a| == |b|
    requires forall k | 0 <= k < |a| ::
      && a[k].1.productId == b[k].1.productId && a[k].1.quantity == b[k].1.quantity
      && a[k].1.modifierIds == b[k].1.modifierIds
    ensures FinalLines(a, products, mods) == FinalLines(b, products, mods)
  {
    if a != [] {
      assert forall k | 1 <= k < |a| :: a[1..][k - 1] == a[k] && b[1..][k - 1] == b[k];
      FinalizeIgnoresCartPrices(a[1..], b[1..], products, mods);
    }
  }

  /** The cart as the staff app's edit request. */
  function Requests(cart: Carts.Lines): (r: seq<StaffApp.ItemRequest>)
    ensures |r| == |cart|
  {
    if cart == [] then []
    else [StaffApp.ItemRequest(cart[0].1.productId, cart[0].1.quantity, cart[0].1.modifierIds)] + Requests(cart[1..])
  }

  /** On a cart whose lines all hold a unit, the bot prices exactly as the
      staff app's order edit does. */
  lemma {:induction false} FinalizeAgreesWithStaffPricing(cart: Carts.Lines, products: map<nat, Product>,
                                                          mods: map<nat, Modifier>)
    requires forall k | 0 <= k < |cart| :: cart[k].1.quantity >= 1
    ensures FinalLines(cart, products, mods) == StaffApp.PriceLines(Requests(cart), products, mods)
  {
    if cart != [] {
      assert forall k | 1 <= k < |cart| :: cart[1..][k - 1] == cart[k];
      FinalizeAgreesWithStaffPricing(cart[1..], products, mods);
      assert Requests(cart)[1..] == Requests(cart[1..]);
      assert Requests(cart)[0].qty == cart[0].1.quantity;
    }
  }
}
