/** The table QR menu in the guest's browser (tpl_client_qr.py): the footer
    total, the badge of each order in the history, the cart kept in local
    storage, and the request that places the cart as an order. Its cart
    itself is a Carts.Cart keyed with '-'. */
module QrClient {
  import opened Wrappers
  import opened Text
  import opened Dict
  import opened Carts
  import Records
  import InHouse

  // ---------------------------------------------------------------------
  // Footer and history badge
  // ---------------------------------------------------------------------

  /** updateFooterTotal: the cart tab shows Σ price · quantity of the cart;
      the history tab shows what the table owes plus the cart. */
  function FooterTotal(onCartTab: bool, c: Lines, grandTotal: real): real
  {
    if onCartTab then CartTotal(c) else grandTotal + CartTotal(c)
  }

  /** The two tabs differ by exactly the table's grand total, and an empty
      cart shows 0 on its tab and the grand total on the history tab. */
  lemma FooterMeaning(c: Lines, grandTotal: real)
    ensures FooterTotal(false, c, grandTotal) - FooterTotal(true, c, grandTotal) == grandTotal
    ensures FooterTotal(true, [], grandTotal) == 0.0 && FooterTotal(false, [], grandTotal) == grandTotal
  {
  }

  /** Placing the cart keeps the history tab's amount exactly when the
      order's total is the cart's total: afterwards the cart is empty and
      the grand total has grown by the order's total. */
  lemma FooterAfterPlacing(c: Lines, grandTotal: real, orderTotal: real)
    ensures FooterTotal(false, [], grandTotal + orderTotal) == FooterTotal(false, c, grandTotal)
      <==> orderTotal == CartTotal(c)
  {
  }

  /** The history badge: the lower-cased status name is tested for "нов",
      then "роб" or "оброб", then "гот"; anything else is done. */
  function StatusClass(status: string): string
  {
    var s := Lower(status);
    if Contains(s, "нов") then "st-new"
    else if Contains(s, "роб") || Contains(s, "оброб") then "st-work"
    else if Contains(s, "гот") then "st-ready"
    else "st-done"
  }

  /** "оброб" contains "роб", so the second test of the work badge never
      decides anything. */
  lemma InnerMatch(s: string)
    ensures Contains(s, "оброб") ==> Contains(s, "роб")
  {
    if Contains(s, "оброб") {
      var i :| 0 <= i <= |s| && OccursAt(s, "оброб", i);
      assert s[i + 2..i + 5] == s[i..i + 5][2..5];
      assert OccursAt(s, "роб", i + 2);
    }
  }

  /** Each badge in terms of the three words alone. */
  lemma StatusClassMeaning(status: string)
    ensures var s := Lower(status);
      && (StatusClass(status) == "st-new" <==> Contains(s, "нов"))
      && (StatusClass(status) == "st-work" <==> !Contains(s, "нов") && Contains(s, "роб"))
      && (StatusClass(status) == "st-ready" <==> !Contains(s, "нов") && !Contains(s, "роб") && Contains(s, "гот"))
      && (StatusClass(status) == "st-done" <==> !Contains(s, "нов") && !Contains(s, "роб") && !Contains(s, "гот"))
  {
    InnerMatch(Lower(status));
  }

  // ---------------------------------------------------------------------
  // The stored cart
  // ---------------------------------------------------------------------

  /** What JSON.parse makes of the stored text. */
  datatype Stored = Unparseable | StoredObject(lines: Lines) | StoredArray | StoredNull | StoredScalar

  /** The page's start-up: the cart starts empty and takes the stored value
      only when there is one and it parses to an object that is not an
      array. */
  function Restore(saved: Option<string>, parsed: Stored): Lines
  {
    if saved.None? || saved.value == "" then []
    else match parsed
      case StoredObject(lines) => lines
      case _ => []
  }

  lemma RestoreMeaning(saved: Option<string>, parsed: Stored)
    ensures Restore(saved, parsed) != [] <==>
      saved.Some? && saved.value != "" && parsed.StoredObject? && parsed.lines != []
    ensures saved.Some? && saved.value != "" && parsed.StoredObject? ==> Restore(saved, parsed) == parsed.lines
  {
  }

  // ---------------------------------------------------------------------
  // Placing the cart
  // ---------------------------------------------------------------------

  /** The modifier objects a line keeps, as the menu gave them. */
  function LineMods(ids: seq<nat>, menu: map<nat, Records.Modifier>): seq<InHouse.ModIn>
  {
    if ids == [] then []
    else (if ids[0] in menu then [InHouse.ModIn(Some(menu[ids[0]].name), Some(menu[ids[0]].price))] else [])
         + LineMods(ids[1..], menu)
  }

  /** placeOrder as written: `quantity: i.qty` reads a field the cart lines
      do not have, and JSON.stringify leaves the undefined key out. */
  function PayloadAsWritten(c: Lines, menu: map<nat, Records.Modifier>): (items: seq<InHouse.QrItem>)
    ensures |items| == |c|
    ensures forall i | 0 <= i < |c| ::
      items[i] == InHouse.QrItem(Some(InHouse.JInt(c[i].1.productId)), None, LineMods(c[i].1.modifierIds, menu))
  {
    seq(|c|, i requires 0 <= i < |c| =>
      InHouse.QrItem(Some(InHouse.JInt(c[i].1.productId)), None, LineMods(c[i].1.modifierIds, menu)))
  }

  /** placeOrder with the line's own quantity sent. */
  function Payload(c: Lines, menu: map<nat, Records.Modifier>): (items: seq<InHouse.QrItem>)
    ensures |items| == |c|
    ensures forall i | 0 <= i < |c| ::
      items[i] == InHouse.QrItem(Some(InHouse.JInt(c[i].1.productId)), Some(InHouse.JInt(c[i].1.quantity)),
                                 LineMods(c[i].1.modifierIds, menu))
  {
    seq(|c|, i requires 0 <= i < |c| =>
      InHouse.QrItem(Some(InHouse.JInt(c[i].1.productId)), Some(InHouse.JInt(c[i].1.quantity)),
                     LineMods(c[i].1.modifierIds, menu)))
  }

  /** Without a quantity key the server reads every line as one unit. */
  lemma {:induction false} NoQuantityMeansOne(items: seq<InHouse.QrItem>, loaded: seq<Records.Product>)
    requires forall i | 0 <= i < |items| :: items[i].quantity.None?
    ensures forall l | l in InHouse.KeptLines(items, loaded) :: l.quantity == 1
    decreases |items|
  {
    if items != [] {
      NoQuantityMeansOne(items[..|items| - 1], loaded);
    }
  }

  /** As written, every line of the placed order is a single unit,
      whatever the guest chose. */
  lemma AsWrittenOrdersOneOfEach(c: Lines, menu: map<nat, Records.Modifier>, loaded: seq<Records.Product>)
    ensures forall l | l in InHouse.KeptLines(PayloadAsWritten(c, menu), loaded) :: l.quantity == 1
  {
    NoQuantityMeansOne(PayloadAsWritten(c, menu), loaded);
  }

  /** The smallest case: three of a plain product in the cart, which shows
      three times its price, become an order of one at one price. */
  lemma AsWrittenLosesQuantity(t: InHouse.Table, p: Records.Product, key: string, statuses: seq<Records.Status>)
    ensures var c := [(key, Line(p.id, p.name, p.price, 3, []))];
      && CartTotal(c) == p.price * 3.0
      && InHouse.PlaceSpec(Some(t), PayloadAsWritten(c, map[]), [p], statuses).Ok?
      && var o := InHouse.PlaceSpec(Some(t), PayloadAsWritten(c, map[]), [p], statuses).value;
         && o.lines == [InHouse.TableLine(p.id, p.name, 1, p.price, p.preparationArea, [])]
         && o.totalPrice == p.price
  {
    var c := [(key, Line(p.id, p.name, p.price, 3, []))];
    assert c[1..] == [];
    assert CartTotal(c) == LineTotal(key, c[0].1) + CartTotal([]);
    var items := PayloadAsWritten(c, map[]);
    var item := InHouse.QrItem(Some(InHouse.JInt(p.id)), None, []);
    assert LineMods([], map[]) == [];
    assert items == [item];
    var line := OneUnit(p, item);
    assert InHouse.IdConvertible(item) && InHouse.QtyOf(item) == Some(1);
    assert InHouse.FirstError(items, InHouse.Loaded([p], InHouse.IdInts(items))).None? by {
      assert !InHouse.NamelessModifier(item.modifiers);
      assert items[1..] == [];
    }
    assert InHouse.KeptLines(items, InHouse.Loaded([p], InHouse.IdInts(items))) == [line] by {
      assert items[..0] == [];
    }
    assert InHouse.LinesTotal([line]) == p.price * 1.0 by {
      assert [line][..0] == [];
    }
  }

  /** The one line the server makes of a plain product sent without a
      quantity. */
  lemma OneUnit(p: Records.Product, item: InHouse.QrItem) returns (line: InHouse.TableLine)
    requires item == InHouse.QrItem(Some(InHouse.JInt(p.id)), None, [])
    ensures line == InHouse.TableLine(p.id, p.name, 1, p.price, p.preparationArea, [])
    ensures InHouse.LineFor(item, InHouse.Loaded([p], InHouse.IdInts([item]))) == [line]
  {
    var items := [item];
    assert p.id in InHouse.IdInts(items) by {
      assert items[0].id.Some? && InHouse.IntOf(items[0].id.value) == Some(p.id as int);
    }
    var loaded := InHouse.Loaded([p], InHouse.IdInts(items));
    assert loaded == [p] by {
      assert InHouse.Loaded([p][1..], InHouse.IdInts(items)) == [];
    }
    assert InHouse.KeyText(item.id) == Some(NatToString(p.id));
    assert InHouse.FindProduct(loaded, NatToString(p.id)) == Some(p);
    line := InHouse.TableLine(p.id, p.name, 1, p.price, p.preparationArea, []);
    assert InHouse.ModsPrice([]) == 0.0;
  }

  /** A product the server loads is found by its printed id exactly when
      the whole table would find it. */
  lemma {:induction false} FindLoaded(products: seq<Records.Product>, ids: set<int>, n: nat)
    requires n as int in ids
    ensures InHouse.FindProduct(InHouse.Loaded(products, ids), NatToString(n)) == InHouse.FindProduct(products, NatToString(n))
    decreases |products|
  {
    if products != [] {
      var q := products[0];
      var rest := InHouse.Loaded(products[1..], ids);
      var key := NatToString(n);
      if NatToString(q.id) == key {
        NatToStringInjective(q.id, n);
        assert InHouse.Loaded(products, ids) == [q] + rest;
        assert ([q] + rest)[0] == q;
      } else {
        FindLoaded(products[1..], ids, n);
        if q.id in ids {
          assert InHouse.Loaded(products, ids) == [q] + rest;
          assert ([q] + rest)[1..] == rest;
        } else {
          assert InHouse.Loaded(products, ids) == rest;
        }
      }
    }
  }

  /** The cart lines the server can price: each has at least one unit and
      its product is in the product table. */
  predicate Placeable(c: Lines, products: seq<Records.Product>)
  {
    forall i | 0 <= i < |c| :: c[i].1.quantity >= 1 && InHouse.FindProduct(products, NatToString(c[i].1.productId)).Some?
  }

  /** The line the server saves for a cart line. */
  function Saved(l: Line, products: seq<Records.Product>, menu: map<nat, Records.Modifier>): InHouse.TableLine
    requires InHouse.FindProduct(products, NatToString(l.productId)).Some?
  {
    var p := InHouse.FindProduct(products, NatToString(l.productId)).value;
    InHouse.TableLine(p.id, p.name, l.quantity, p.price + InHouse.ModsPrice(LineMods(l.modifierIds, menu)),
                      p.preparationArea, LineMods(l.modifierIds, menu))
  }

  lemma SavedLine(l: Line, products: seq<Records.Product>, menu: map<nat, Records.Modifier>, ids: set<int>)
    requires l.quantity >= 1 && InHouse.FindProduct(products, NatToString(l.productId)).Some?
    requires l.productId as int in ids
    ensures var item := InHouse.QrItem(Some(InHouse.JInt(l.productId)), Some(InHouse.JInt(l.quantity)), LineMods(l.modifierIds, menu));
      InHouse.LineFor(item, InHouse.Loaded(products, ids)) == [Saved(l, products, menu)]
  {
    var item := InHouse.QrItem(Some(InHouse.JInt(l.productId)), Some(InHouse.JInt(l.quantity)), LineMods(l.modifierIds, menu));
    var loaded := InHouse.Loaded(products, ids);
    var p := InHouse.FindProduct(products, NatToString(l.productId)).value;
    assert InHouse.KeyText(item.id) == Some(NatToString(l.productId));
    assert InHouse.QtyOf(item) == Some(l.quantity as int);
    assert InHouse.FindProduct(loaded, NatToString(l.productId)) == Some(p) by {
      FindLoaded(products, ids, l.productId);
    }
    assert p.id == l.productId by { NatToStringInjective(p.id, l.productId); }
    var line := InHouse.TableLine(p.id, p.name, l.quantity, p.price + InHouse.ModsPrice(item.modifiers),
                                  p.preparationArea, item.modifiers);
    assert InHouse.LineFor(item, loaded) == [line];
    assert Saved(l, products, menu) == line;
  }

  /** The lines the server saves for a whole cart, in the cart's order. */
  function SavedLines(c: Lines, products: seq<Records.Product>, menu: map<nat, Records.Modifier>): (r: seq<InHouse.TableLine>)
    requires Placeable(c, products)
    ensures |r| == |c| && forall i | 0 <= i < |c| :: r[i] == Saved(c[i].1, products, menu)
  {
    if c == [] then []
    else
      var n := |c| - 1;
      assert forall i | 0 <= i < n :: c[..n][i] == c[i];
      SavedLines(c[..n], products, menu) + [Saved(c[n].1, products, menu)]
  }

  lemma {:induction false} KeptPayload(c: Lines, products: seq<Records.Product>, menu: map<nat, Records.Modifier>, ids: set<int>)
    requires Placeable(c, products)
    requires forall i | 0 <= i < |c| :: c[i].1.productId as int in ids
    ensures InHouse.KeptLines(Payload(c, menu), InHouse.Loaded(products, ids)) == SavedLines(c, products, menu)
    decreases |c|
  {
    if c != [] {
      var n := |c| - 1;
      var items := Payload(c, menu);
      var loaded := InHouse.Loaded(products, ids);
      var front := c[..n];
      assert forall i | 0 <= i < n :: front[i] == c[i];
      assert items[..n] == Payload(front, menu);
      KeptPayload(front, products, menu, ids);
      SavedLine(c[n].1, products, menu, ids);
      assert InHouse.KeptLines(items, loaded) == InHouse.KeptLines(items[..n], loaded) + InHouse.LineFor(items[n], loaded);
    }
  }

  lemma {:induction false} SumSnoc(d: Lines, x: (string, Line))
    ensures CartTotal(d + [x]) == CartTotal(d) + LineTotal(x.0, x.1)
  {
    if d == [] {
      assert d + [x] == [x];
    } else {
      assert (d + [x])[0] == d[0] && (d + [x])[1..] == d[1..] + [x];
      SumSnoc(d[1..], x);
    }
  }

  lemma {:induction false} SameTotals(c: Lines, lines: seq<InHouse.TableLine>)
    requires |lines| == |c|
    requires forall i | 0 <= i < |c| :: InHouse.Amount(lines[i]) == LineTotal(c[i].0, c[i].1)
    ensures InHouse.LinesTotal(lines) == CartTotal(c)
    decreases |c|
  {
    if c != [] {
      var n := |c| - 1;
      SameTotals(c[..n], lines[..n]);
      assert c == c[..n] + [c[n]];
      SumSnoc(c[..n], c[n]);
    }
  }

  /** Every cart line is priced by the server as the cart priced it: the
      product's price plus the surcharges of the modifiers it keeps. */
  predicate PricedAlike(c: Lines, products: seq<Records.Product>, menu: map<nat, Records.Modifier>)
    requires Placeable(c, products)
  {
    forall i | 0 <= i < |c| :: Saved(c[i].1, products, menu).priceAtMoment == c[i].1.unitPrice
  }

  /** With the quantity sent, a non-empty cart of placeable lines becomes an
      order with one line per cart line and the cart line's quantity; when
      the server prices the lines as the cart did, the order's total is the
      total the cart showed. */
  lemma PlacedOrderMatchesCart(t: InHouse.Table, c: Lines, menu: map<nat, Records.Modifier>,
                               products: seq<Records.Product>, statuses: seq<Records.Status>)
    requires c != [] && Placeable(c, products)
    ensures var r := InHouse.PlaceSpec(Some(t), Payload(c, menu), products, statuses);
      && r.Ok?
      && |r.value.lines| == |c|
      && (forall i | 0 <= i < |c| ::
            r.value.lines[i].productId == c[i].1.productId && r.value.lines[i].quantity == c[i].1.quantity)
      && (PricedAlike(c, products, menu) ==> r.value.totalPrice == CartTotal(c))
  {
    var lines := SavedLines(c, products, menu);
    PlacedLines(t, c, menu, products, statuses);
    SavedIds(c, products, menu);
    if PricedAlike(c, products, menu) {
      assert InHouse.LinesTotal(lines) == CartTotal(c) by {
        AmountsAgree(c, products, menu);
        SameTotals(c, lines);
      }
    }
  }

  /** The order the server places holds the saved lines and their sum. */
  lemma PlacedLines(t: InHouse.Table, c: Lines, menu: map<nat, Records.Modifier>,
                    products: seq<Records.Product>, statuses: seq<Records.Status>)
    requires c != [] && Placeable(c, products)
    ensures var r := InHouse.PlaceSpec(Some(t), Payload(c, menu), products, statuses);
      var lines := SavedLines(c, products, menu);
      r.Ok? && r.value.lines == lines && r.value.totalPrice == InHouse.LinesTotal(lines)
  {
    var items := Payload(c, menu);
    var ids := InHouse.IdInts(items);
    PayloadAccepted(c, menu);
    KeptPayload(c, products, menu, ids);
    assert |SavedLines(c, products, menu)| == |c|;
    InHouse.PlaceAccepted(t, items, products, statuses);
  }

  lemma AmountsAgree(c: Lines, products: seq<Records.Product>, menu: map<nat, Records.Modifier>)
    requires Placeable(c, products) && PricedAlike(c, products, menu)
    ensures forall i | 0 <= i < |c| :: InHouse.Amount(SavedLines(c, products, menu)[i]) == LineTotal(c[i].0, c[i].1)
  {
    var lines := SavedLines(c, products, menu);
    forall i | 0 <= i < |c|
      ensures InHouse.Amount(lines[i]) == LineTotal(c[i].0, c[i].1)
    {
      assert lines[i] == Saved(c[i].1, products, menu);
      SavedAmount(c[i].0, c[i].1, products, menu);
    }
  }

  lemma SavedAmount(key: string, l: Line, products: seq<Records.Product>, menu: map<nat, Records.Modifier>)
    requires InHouse.FindProduct(products, NatToString(l.productId)).Some?
    requires Saved(l, products, menu).priceAtMoment == l.unitPrice
    ensures InHouse.Amount(Saved(l, products, menu)) == LineTotal(key, l)
  {
    var s := Saved(l, products, menu);
    assert s.quantity == l.quantity;
  }

  /** The corrected request passes the server's id and quantity checks,
      every modifier it sends has a name, and it names every product of
      the cart. */
  lemma PayloadAccepted(c: Lines, menu: map<nat, Records.Modifier>)
    ensures var items := Payload(c, menu);
      && (forall i | 0 <= i < |items| ::
            InHouse.IdConvertible(items[i]) && InHouse.QtyOf(items[i]).Some? && !InHouse.NamelessModifier(items[i].modifiers))
      && (forall i | 0 <= i < |c| :: c[i].1.productId as int in InHouse.IdInts(items))
  {
    var items := Payload(c, menu);
    forall i | 0 <= i < |c|
      ensures c[i].1.productId as int in InHouse.IdInts(items)
      ensures !InHouse.NamelessModifier(items[i].modifiers)
    {
      assert items[i].id.Some? && InHouse.IntOf(items[i].id.value) == Some(c[i].1.productId as int);
      LineModsNamed(c[i].1.modifierIds, menu);
    }
  }

  /** The menu's modifiers all carry their names. */
  lemma {:induction false} LineModsNamed(ids: seq<nat>, menu: map<nat, Records.Modifier>)
    ensures forall m | m in LineMods(ids, menu) :: m.name.Some?
  {
    if ids != [] {
      LineModsNamed(ids[1..], menu);
    }
  }

  /** Each saved line names the product of its cart line. */
  lemma SavedIds(c: Lines, products: seq<Records.Product>, menu: map<nat, Records.Modifier>)
    requires Placeable(c, products)
    ensures forall i | 0 <= i < |c| :: SavedLines(c, products, menu)[i].productId == c[i].1.productId
  {
    forall i | 0 <= i < |c|
      ensures Saved(c[i].1, products, menu).productId == c[i].1.productId
    {
      var p := InHouse.FindProduct(products, NatToString(c[i].1.productId)).value;
      NatToStringInjective(p.id, c[i].1.productId);
    }
  }
}
