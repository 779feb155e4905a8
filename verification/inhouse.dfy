/** Ordering from a table's QR menu (in_house_menu.py): the server side of
    place_in_house_order, which prices the guest's lines itself, and the
    table's grand total shown with its order history. */
module InHouse {
  import opened Wrappers
  import opened Text
  import Records

  // ---------------------------------------------------------------------
  // The request body
  // ---------------------------------------------------------------------

  /** A JSON value the browser may send where a number is expected. */
  datatype Json = JInt(i: int) | JReal(r: real) | JStr(s: string) | JNull

  /** A modifier as the browser sends it; price None is a missing key or
      null, both counted as 0. */
  datatype ModIn = ModIn(name: Option<string>, price: Option<real>)

  /** One line of the request; None is a key the object does not have. */
  datatype QrItem = QrItem(id: Option<Json>, quantity: Option<Json>, modifiers: seq<ModIn>)

  /** int() toward zero of a float. */
  function Truncate(r: real): int
  {
    if r >= 0.0 then r.Floor else -((-r).Floor)
  }

  /** Python's int() of the value; None where it raises. */
  function IntOf(j: Json): Option<int>
  {
    match j
    case JInt(i) => Some(i)
    case JReal(r) => Some(Truncate(r))
    case JStr(s) => ParseInt(s)
    case JNull => None
  }

  /** `str(item.get('id'))`, the text the product is looked up by. A float
      prints with a '.' or an exponent and never names a product: None. */
  function KeyText(id: Option<Json>): Option<string>
  {
    match id
    case None => Some("None")
    case Some(JNull) => Some("None")
    case Some(JInt(i)) => Some(IntToString(i))
    case Some(JStr(s)) => Some(s)
    case Some(JReal(_)) => None
  }

  /** The id passes the first check: absent, null, or int() accepts it. */
  predicate IdConvertible(item: QrItem)
  {
    item.id.None? || item.id.value.JNull? || IntOf(item.id.value).Some?
  }

  /** `int(item.get('quantity', 1))`: a missing quantity is 1; None where
      int() raises, which nothing catches. */
  function QtyOf(item: QrItem): Option<int>
  {
    if item.quantity.None? then Some(1) else IntOf(item.quantity.value)
  }

  /** Σ of the modifier prices the browser sent, a missing one as 0. */
  function ModsPrice(mods: seq<ModIn>): real
  {
    if mods == [] then 0.0 else (if mods[0].price.Some? then mods[0].price.value else 0.0) + ModsPrice(mods[1..])
  }

  // ---------------------------------------------------------------------
  // Placing the order
  // ---------------------------------------------------------------------

  datatype Table = Table(id: nat, name: string)

  /** An order line as saved: the product's own name and price plus the
      modifiers' prices from the request. */
  datatype TableLine = TableLine(productId: nat, productName: string, quantity: int, priceAtMoment: real,
                                 preparationArea: string, modifiers: seq<ModIn>)

  datatype TableOrder = TableOrder(customerName: string, phoneNumber: string, totalPrice: real,
                                   isDelivery: bool, deliveryTime: string, orderType: string,
                                   tableId: nat, statusId: nat, lines: seq<TableLine>)

  datatype PlaceError =
    | TableNotFound    // 404
    | EmptyOrder       // 400 "Замовлення порожнє."
    | BadProductId     // 400 "Невірний формат ID товару."
    | BadQuantity      // int() of a quantity raised: an unhandled error
    | BadModifierName  // joining the names of a kept line's modifiers raised: an unhandled error
    | NoValidItems     // 400 "Невалідні товари."

  /** The ids the request names, as int() reads them. */
  function IdInts(items: seq<QrItem>): set<int>
  {
    set i, v | 0 <= i < |items| && items[i].id.Some? && v == IntOf(items[i].id.value) && v.Some? :: v.value
  }

  /** The products loaded for the request: those whose id it names. */
  function Loaded(products: seq<Records.Product>, ids: set<int>): (r: seq<Records.Product>)
    ensures forall p :: p in r <==> p in products && p.id in ids
  {
    if products == [] then []
    else (if products[0].id in ids then [products[0]] else []) + Loaded(products[1..], ids)
  }

  /** `db_products[pid]`: the loaded product whose printed id is the key. */
  function FindProduct(loaded: seq<Records.Product>, key: string): (r: Option<Records.Product>)
    ensures r.Some? ==> r.value in loaded && NatToString(r.value.id) == key
    ensures r.None? ==> forall p | p in loaded :: NatToString(p.id) != key
  {
    if loaded == [] then None
    else if NatToString(loaded[0].id) == key then Some(loaded[0])
    else FindProduct(loaded[1..], key)
  }

  /** The line an item yields: none unless its key names a loaded product
      and its quantity is positive. */
  function LineFor(item: QrItem, loaded: seq<Records.Product>): seq<TableLine>
  {
    var key := KeyText(item.id);
    var qty := QtyOf(item);
    if key.None? || qty.None? then []
    else match FindProduct(loaded, key.value)
      case None => []
      case Some(p) =>
        if qty.value > 0 then [TableLine(p.id, p.name, qty.value, p.price + ModsPrice(item.modifiers), p.preparationArea, item.modifiers)]
        else []
  }

  function KeptLines(items: seq<QrItem>, loaded: seq<Records.Product>): seq<TableLine>
  {
    if items == [] then [] else KeptLines(items[..|items| - 1], loaded) + LineFor(items[|items| - 1], loaded)
  }

  function Amount(l: TableLine): real { l.priceAtMoment * l.quantity as real }

  /** Σ price_at_moment · quantity. */
  function LinesTotal(lines: seq<TableLine>): real
  {
    if lines == [] then 0.0 else LinesTotal(lines[..|lines| - 1]) + Amount(lines[|lines| - 1])
  }

  /** The status a table's order starts in: status 1, or an unsaved "Новий"
      with id 1 when the table has none. */
  function FirstStatus(statuses: seq<Records.Status>): (s: Records.Status)
    ensures s.id == 1
    ensures Records.StatusById(statuses, 1).None? ==> s.name == Records.NewStatusName && s.requiresKitchenNotify
  {
    match Records.StatusById(statuses, 1)
    case Some(s) => s
    case None => Records.Status(1, Records.NewStatusName, false, false, true)
  }

  function NewTableOrder(t: Table, lines: seq<TableLine>, total: real, statuses: seq<Records.Status>): TableOrder
  {
    TableOrder("Стіл: " + t.name, "table_" + NatToString(t.id), total, false, "In House", "in_house",
               t.id, FirstStatus(statuses).id, lines)
  }

  /** One of the modifiers has no name (a missing key or null): joining
      the names for the notification raises. */
  predicate NamelessModifier(mods: seq<ModIn>)
  {
    exists m | m in mods :: m.name.None?
  }

  /** The error the loop raises at this item: int() of its quantity first,
      then, for a line it keeps, the join of its modifiers' names. */
  function ItemError(item: QrItem, loaded: seq<Records.Product>): Option<PlaceError>
  {
    if QtyOf(item).None? then Some(BadQuantity)
    else if LineFor(item, loaded) != [] && NamelessModifier(item.modifiers) then Some(BadModifierName)
    else None
  }

  /** The error of the first item that raises one. */
  function FirstError(items: seq<QrItem>, loaded: seq<Records.Product>): Option<PlaceError>
  {
    if items == [] then None
    else if ItemError(items[0], loaded).Some? then ItemError(items[0], loaded)
    else FirstError(items[1..], loaded)
  }

  /** place_in_house_order. */
  function PlaceSpec(table: Option<Table>, items: seq<QrItem>, products: seq<Records.Product>,
                     statuses: seq<Records.Status>): Result<TableOrder, PlaceError>
  {
    if table.None? then Err(TableNotFound)
    else if items == [] then Err(EmptyOrder)
    else if exists i | 0 <= i < |items| :: !IdConvertible(items[i]) then Err(BadProductId)
    else
      var loaded := Loaded(products, IdInts(items));
      var failure := FirstError(items, loaded);
      if failure.Some? then Err(failure.value)
      else
        var lines := KeptLines(items, loaded);
        if lines == [] then Err(NoValidItems)
        else Ok(NewTableOrder(table.value, lines, LinesTotal(lines), statuses))
  }

  /** No item raises exactly when FirstError finds none. */
  lemma {:induction false} FirstErrorNone(items: seq<QrItem>, loaded: seq<Records.Product>)
    ensures FirstError(items, loaded).None? <==> forall i | 0 <= i < |items| :: ItemError(items[i], loaded).None?
  {
    if items != [] {
      FirstErrorNone(items[1..], loaded);
      assert forall i | 1 <= i < |items| :: items[i] == items[1..][i - 1];
    }
  }

  /** The error of an item that every earlier item lets through is the one
      reported. */
  lemma {:induction false} FirstErrorAt(items: seq<QrItem>, loaded: seq<Records.Product>, i: nat)
    requires i < |items| && ItemError(items[i], loaded).Some?
    requires forall j | 0 <= j < i :: ItemError(items[j], loaded).None?
    ensures FirstError(items, loaded) == ItemError(items[i], loaded)
  {
    if i > 0 {
      assert ItemError(items[0], loaded).None?;
      assert forall j | 0 <= j < i - 1 :: items[1..][j] == items[j + 1];
      FirstErrorAt(items[1..], loaded, i - 1);
    }
  }

  /** A reported error comes from an item that every earlier item lets
      through. */
  lemma {:induction false} FirstErrorSome(items: seq<QrItem>, loaded: seq<Records.Product>)
    requires FirstError(items, loaded).Some?
    ensures exists i | 0 <= i < |items| ::
      ItemError(items[i], loaded) == FirstError(items, loaded) && forall j | 0 <= j < i :: ItemError(items[j], loaded).None?
  {
    if ItemError(items[0], loaded).Some? {
      assert ItemError(items[0], loaded) == FirstError(items, loaded);
    } else {
      FirstErrorSome(items[1..], loaded);
      var k :| 0 <= k < |items[1..]| && ItemError(items[1..][k], loaded) == FirstError(items[1..], loaded)
        && forall j | 0 <= j < k :: ItemError(items[1..][j], loaded).None?;
      assert forall j | 1 <= j < k + 1 :: items[j] == items[1..][j - 1];
      assert ItemError(items[k + 1], loaded) == FirstError(items, loaded);
    }
  }

  /** The request is refused, in this order, for an unknown table, an empty
      list, an id int() rejects, and then at the first item that raises in
      the loop: a quantity int() rejects, or a kept line with a nameless
      modifier. A list in which no line survives is refused last. */
  lemma PlaceGuards(table: Option<Table>, items: seq<QrItem>, products: seq<Records.Product>,
                    statuses: seq<Records.Status>)
    ensures var r := PlaceSpec(table, items, products, statuses);
      var loaded := Loaded(products, IdInts(items));
      && (r == Err(TableNotFound) <==> table.None?)
      && (r == Err(EmptyOrder) <==> table.Some? && items == [])
      && (r == Err(BadProductId) <==>
            table.Some? && exists i | 0 <= i < |items| :: !IdConvertible(items[i]))
      && (r == Err(BadQuantity) <==>
            && table.Some?
            && (forall i | 0 <= i < |items| :: IdConvertible(items[i]))
            && exists i | 0 <= i < |items| ::
                 QtyOf(items[i]).None? && forall j | 0 <= j < i :: ItemError(items[j], loaded).None?)
      && (r == Err(BadModifierName) <==>
            && table.Some?
            && (forall i | 0 <= i < |items| :: IdConvertible(items[i]))
            && exists i | 0 <= i < |items| ::
                 && QtyOf(items[i]).Some? && LineFor(items[i], loaded) != [] && NamelessModifier(items[i].modifiers)
                 && forall j | 0 <= j < i :: ItemError(items[j], loaded).None?)
      && (r.Ok? ==>
            && items != []
            && forall i | 0 <= i < |items| ::
                 && IdConvertible(items[i]) && QtyOf(items[i]).Some?
                 && (LineFor(items[i], loaded) != [] ==> !NamelessModifier(items[i].modifiers)))
  {
    var loaded := Loaded(products, IdInts(items));
    FirstErrorNone(items, loaded);
    if FirstError(items, loaded).Some? {
      FirstErrorSome(items, loaded);
    }
    forall i | 0 <= i < |items| && ItemError(items[i], loaded).Some? && forall j | 0 <= j < i :: ItemError(items[j], loaded).None?
      ensures FirstError(items, loaded) == ItemError(items[i], loaded)
    {
      FirstErrorAt(items, loaded, i);
    }
  }

  /** A request that passes every check is placed with the lines it keeps. */
  lemma PlaceAccepted(t: Table, items: seq<QrItem>, products: seq<Records.Product>, statuses: seq<Records.Status>)
    requires items != []
    requires forall i | 0 <= i < |items| :: IdConvertible(items[i]) && ItemError(items[i], Loaded(products, IdInts(items))).None?
    requires KeptLines(items, Loaded(products, IdInts(items))) != []
    ensures var lines := KeptLines(items, Loaded(products, IdInts(items)));
      PlaceSpec(Some(t), items, products, statuses) == Ok(NewTableOrder(t, lines, LinesTotal(lines), statuses))
  {
    FirstErrorNone(items, Loaded(products, IdInts(items)));
  }

  /** Every saved line has a positive quantity and carries the loaded
      product's own name and price plus the request's modifier prices. */
  lemma {:induction false} KeptLinesFromProducts(items: seq<QrItem>, loaded: seq<Records.Product>)
    ensures forall l | l in KeptLines(items, loaded) ::
      && l.quantity > 0
      && exists p | p in loaded :: p.id == l.productId && p.name == l.productName
                                   && l.priceAtMoment == p.price + ModsPrice(l.modifiers)
    decreases |items|
  {
    if items != [] {
      KeptLinesFromProducts(items[..|items| - 1], loaded);
    }
  }

  /** A placed order is a table order in status 1, for this table, with at
      least one line, every line drawn from the product table, and a total
      that is Σ price · quantity over its lines. */
  lemma PlaceEffect(t: Table, items: seq<QrItem>, products: seq<Records.Product>, statuses: seq<Records.Status>)
    requires PlaceSpec(Some(t), items, products, statuses).Ok?
    ensures var o := PlaceSpec(Some(t), items, products, statuses).value;
      && o.statusId == 1 && o.tableId == t.id && o.orderType == "in_house" && !o.isDelivery
      && o.lines != []
      && o.totalPrice == LinesTotal(o.lines)
      && forall l | l in o.lines ::
           && l.quantity > 0
           && exists p | p in products :: p.id == l.productId && l.priceAtMoment == p.price + ModsPrice(l.modifiers)
  {
    var loaded := Loaded(products, IdInts(items));
    KeptLinesFromProducts(items, loaded);
  }

  /** An item without a quantity whose id names a product is saved as one
      unit of it. */
  lemma MissingQuantityIsOne(id: Json, mods: seq<ModIn>, loaded: seq<Records.Product>, p: Records.Product)
    requires KeyText(Some(id)).Some? && FindProduct(loaded, KeyText(Some(id)).value) == Some(p)
    ensures LineFor(QrItem(Some(id), None, mods), loaded) ==
      [TableLine(p.id, p.name, 1, p.price + ModsPrice(mods), p.preparationArea, mods)]
  {
  }

  lemma NothingPrintsAs05(n: nat)
    ensures NatToString(n) != "05"
  {
    assert "05"[0] == '0';
  }

  /** The lookup compares printed ids: an id sent as "05" passes int()... */
  lemma LeadingZeroIdConverts(mods: seq<ModIn>, qty: Option<Json>)
    ensures IdConvertible(QrItem(Some(JStr("05")), qty, mods))
  {
    assert AllDigits("05");
    DigitsParse("05");
  }

  lemma DigitsParse(t: string)
    requires |t| >= 1 && AllDigits(t)
    ensures ParseInt(t) == Some(DigitsValue(t))
  {
    assert StripStart(t) == t;
    assert StripEnd(t) == t;
  }

  /** ... and still matches no product, so its line is dropped. */
  lemma LeadingZeroIdDropped(loaded: seq<Records.Product>, mods: seq<ModIn>, qty: Option<Json>)
    ensures LineFor(QrItem(Some(JStr("05")), qty, mods), loaded) == []
  {
    var r := FindProduct(loaded, "05");
    if r.Some? {
      NothingPrintsAs05(r.value.id);
    }
  }

  /** An id sent as a float is dropped the same way. */
  lemma FloatIdDropped(loaded: seq<Records.Product>, mods: seq<ModIn>, qty: Option<Json>, r: real)
    ensures IdConvertible(QrItem(Some(JReal(r)), qty, mods))
    ensures LineFor(QrItem(Some(JReal(r)), qty, mods), loaded) == []
  {
  }

  lemma KeptLinesStep(items: seq<QrItem>, k: nat, loaded: seq<Records.Product>)
    requires k < |items|
    ensures KeptLines(items[..k + 1], loaded) == KeptLines(items[..k], loaded) + LineFor(items[k], loaded)
  {
    assert items[..k + 1][..k] == items[..k];
  }

  lemma LinesTotalStep(lines: seq<TableLine>, line: TableLine)
    ensures LinesTotal(lines + [line]) == LinesTotal(lines) + Amount(line)
  {
    assert (lines + [line])[..|lines|] == lines;
  }

  /** place_in_house_order's loop over the request: it stops at the first
      item that raises, and otherwise collects the saved lines and their
      total. */
  method CollectLines(items: seq<QrItem>, loaded: seq<Records.Product>)
    returns (r: Result<(seq<TableLine>, real), PlaceError>)
    ensures r.Err? <==> exists i | 0 <= i < |items| :: ItemError(items[i], loaded).Some?
    ensures r.Err? ==> exists i | 0 <= i < |items| ::
      ItemError(items[i], loaded) == Some(r.error) && forall j | 0 <= j < i :: ItemError(items[j], loaded).None?
    ensures r.Ok? ==> r.value.0 == KeptLines(items, loaded) && r.value.1 == LinesTotal(r.value.0)
  {
    var total := 0.0;
    var lines: seq<TableLine> := [];
    var k := 0;
    while k < |items|
      invariant 0 <= k <= |items|
      invariant forall j | 0 <= j < k :: ItemError(items[j], loaded).None?
      invariant lines == KeptLines(items[..k], loaded)
      invariant total == LinesTotal(lines)
    {
      if QtyOf(items[k]).None? {
        assert ItemError(items[k], loaded) == Some(BadQuantity);
        return Err(BadQuantity);
      }
      KeptLinesStep(items, k, loaded);
      var step := CollectItem(items[k], loaded, lines, total);
      if step.Err? {
        return Err(step.error);
      }
      lines, total := step.value.0, step.value.1;
      k := k + 1;
    }
    assert items[..k] == items;
    r := Ok((lines, total));
  }

  /** The loop body for one item whose quantity int() accepts: the saved
      line, if the item yields one, joins the lines and the total, unless
      one of its modifiers has no name to join. */
  method CollectItem(item: QrItem, loaded: seq<Records.Product>, lines: seq<TableLine>, total: real)
    returns (r: Result<(seq<TableLine>, real), PlaceError>)
    requires QtyOf(item).Some? && total == LinesTotal(lines)
    ensures r.Err? <==> ItemError(item, loaded).Some?
    ensures r.Err? ==> r.error == BadModifierName
    ensures r.Ok? ==> r.value.0 == lines + LineFor(item, loaded) && r.value.1 == LinesTotal(r.value.0)
  {
    var qty := QtyOf(item).value;
    var key := KeyText(item.id);
    if key.Some? {
      var found := FindProduct(loaded, key.value);
      if found.Some? && qty > 0 {
        var p := found.value;
        var line := TableLine(p.id, p.name, qty, p.price + ModsPrice(item.modifiers), p.preparationArea, item.modifiers);
        assert LineFor(item, loaded) == [line];
        assert LinesTotal(lines + [line]) == total + Amount(line) by { LinesTotalStep(lines, line); }
        if exists m | m in item.modifiers :: m.name.None? {
          return Err(BadModifierName);
        }
        return Ok((lines + [line], total + Amount(line)));
      } else {
        assert LineFor(item, loaded) == [];
      }
    } else {
      assert LineFor(item, loaded) == [];
    }
    assert lines + [] == lines;
    r := Ok((lines, total));
  }

  /** place_in_house_order. */
  method PlaceInHouseOrder(table: Option<Table>, items: seq<QrItem>, products: seq<Records.Product>,
                           statuses: seq<Records.Status>) returns (r: Result<TableOrder, PlaceError>)
    ensures r == PlaceSpec(table, items, products, statuses)
  {
    if table.None? {
      return Err(TableNotFound);
    }
    if items == [] {
      return Err(EmptyOrder);
    }
    if exists i | 0 <= i < |items| :: !IdConvertible(items[i]) {
      return Err(BadProductId);
    }
    var loaded := Loaded(products, IdInts(items));
    var collected := CollectLines(items, loaded);
    if collected.Err? {
      var i :| 0 <= i < |items| && ItemError(items[i], loaded) == Some(collected.error)
        && forall j | 0 <= j < i :: ItemError(items[j], loaded).None?;
      FirstErrorAt(items, loaded, i);
      return Err(collected.error);
    }
    FirstErrorNone(items, loaded);
    var (lines, total) := collected.value;
    if lines == [] {
      return Err(NoValidItems);
    }
    r := Ok(NewTableOrder(table.value, lines, total, statuses));
  }

  // ---------------------------------------------------------------------
  // The table's grand total
  // ---------------------------------------------------------------------

  /** An order with the table it was placed from. */
  datatype Seated = Seated(tableId: nat, order: Records.Order)

  /** The ids of the completed and the cancelled statuses. */
  function FinalIds(statuses: seq<Records.Status>): (ids: set<nat>)
    ensures forall s | s in statuses && s.IsClosed() :: s.id in ids
    ensures forall id | id in ids :: exists s | s in statuses :: s.IsClosed() && s.id == id
  {
    set s | s in statuses && s.IsClosed() :: s.id
  }

  /** The query: this table's orders in no final status. */
  function Active(orders: seq<Seated>, tableId: nat, finalIds: set<nat>): (r: seq<Records.Order>)
    ensures forall o | o in r :: o.statusId !in finalIds
  {
    if orders == [] then []
    else
      var x := orders[0];
      (if x.tableId == tableId && x.order.statusId !in finalIds then [x.order] else []) + Active(orders[1..], tableId, finalIds)
  }

  function Owed(orders: seq<Records.Order>): real
  {
    if orders == [] then 0.0 else orders[0].totalPrice + Owed(orders[1..])
  }

  /** The grand total shown to the table. */
  function GrandTotalSpec(orders: seq<Seated>, tableId: nat, finalIds: set<nat>): real
  {
    Owed(Active(orders, tableId, finalIds))
  }

  /** get_in_house_menu's and get_table_updates' loop over the active
      orders. */
  method GrandTotal(active: seq<Records.Order>) returns (total: real)
    ensures total == Owed(active)
  {
    total := 0.0;
    var k := 0;
    while k < |active|
      invariant 0 <= k <= |active|
      invariant total + Owed(active[k..]) == Owed(active)
    {
      assert active[k..][1..] == active[k + 1..];
      total := total + active[k].totalPrice;
      k := k + 1;
    }
    assert active[k..] == [];
  }

  lemma {:induction false} OwedAppend(a: seq<Records.Order>, b: seq<Records.Order>)
    ensures Owed(a + b) == Owed(a) + Owed(b)
  {
    if a == [] {
      assert a + b == b;
    } else {
      assert (a + b)[0] == a[0] && (a + b)[1..] == a[1..] + b;
      OwedAppend(a[1..], b);
    }
  }

  lemma {:induction false} ActiveAppend(a: seq<Seated>, b: seq<Seated>, tableId: nat, finalIds: set<nat>)
    ensures Active(a + b, tableId, finalIds) == Active(a, tableId, finalIds) + Active(b, tableId, finalIds)
  {
    if a == [] {
      assert a + b == b;
    } else {
      assert (a + b)[0] == a[0] && (a + b)[1..] == a[1..] + b;
      ActiveAppend(a[1..], b, tableId, finalIds);
    }
  }

  /** A new open order of the table adds its total to the grand total; an
      order of another table leaves it alone. */
  lemma PlacingRaisesGrandTotal(orders: seq<Seated>, tableId: nat, finalIds: set<nat>, x: Seated)
    ensures x.tableId == tableId && x.order.statusId !in finalIds ==>
      GrandTotalSpec(orders + [x], tableId, finalIds) == GrandTotalSpec(orders, tableId, finalIds) + x.order.totalPrice
    ensures x.tableId != tableId ==>
      GrandTotalSpec(orders + [x], tableId, finalIds) == GrandTotalSpec(orders, tableId, finalIds)
  {
    ActiveAppend(orders, [x], tableId, finalIds);
    OwedAppend(Active(orders, tableId, finalIds), Active([x], tableId, finalIds));
  }

  /** Moving one of the table's open orders to a completed or cancelled
      status takes exactly its total off the grand total. */
  lemma {:induction false} ClosingLowersGrandTotal(orders: seq<Seated>, i: nat, tableId: nat, finalIds: set<nat>, s: nat)
    requires i < |orders| && orders[i].tableId == tableId && orders[i].order.statusId !in finalIds
    requires s in finalIds
    ensures var closed := orders[i := orders[i].(order := orders[i].order.(statusId := s))];
      GrandTotalSpec(closed, tableId, finalIds) == GrandTotalSpec(orders, tableId, finalIds) - orders[i].order.totalPrice
    decreases |orders|
  {
    var closed := orders[i := orders[i].(order := orders[i].order.(statusId := s))];
    if i == 0 {
      assert closed[1..] == orders[1..];
      assert Active(closed, tableId, finalIds) == Active(orders[1..], tableId, finalIds);
      assert Active(orders, tableId, finalIds) == [orders[0].order] + Active(orders[1..], tableId, finalIds);
    } else {
      assert closed[0] == orders[0];
      assert closed[1..] == orders[1..][i - 1 := orders[i].(order := orders[i].order.(statusId := s))];
      ClosingLowersGrandTotal(orders[1..], i - 1, tableId, finalIds, s);
      var head := if orders[0].tableId == tableId && orders[0].order.statusId !in finalIds then [orders[0].order] else [];
      assert Active(closed, tableId, finalIds) == head + Active(closed[1..], tableId, finalIds);
      assert Active(orders, tableId, finalIds) == head + Active(orders[1..], tableId, finalIds);
      OwedAppend(head, Active(closed[1..], tableId, finalIds));
      OwedAppend(head, Active(orders[1..], tableId, finalIds));
    }
  }
}
