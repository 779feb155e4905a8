/** The legacy composition of a Telegram order: a products string
    "Name x Qty, Name x Qty" read into an insertion-ordered dict from product
    name to quantity, edited, written back, and the order total recomputed
    from the menu prices. */
module ProductsString {
  import opened Wrappers
  import opened Text
  import opened Dict
  import opened Records

  type Items = seq<(string, int)>

  const PartSep: string := ", "
  const QtySep: string := " x "

  /** One part of the string into the dict: split at the last " x ", the
      right side read by int(); a part that fails either step is skipped. */
  function ParseStep(d: Items, part: string): Items
  {
    match RSplitOnce(part, QtySep)
    case None => d
    case Some((name, q)) =>
      match ParseInt(q)
      case None => d
      case Some(n) => Put(d, name, n)
  }

  function ParseFrom(d: Items, parts: seq<string>): Items
    decreases parts
  {
    if parts == [] then d else ParseFrom(ParseStep(d, parts[0]), parts[1..])
  }

  /** parse_products_string */
  function Parse(s: string): Items
  {
    if s == "" then [] else ParseFrom([], Split(s, PartSep))
  }

  /** The loop of parse_products_string, filling the dict part by part. */
  method ParseProductsString(s: string) returns (d: Items)
    ensures d == Parse(s)
    ensures DistinctKeys(d)
  {
    d := [];
    if s == "" {
      return;
    }
    var parts := Split(s, PartSep);
    var i := 0;
    while i < |parts|
      invariant 0 <= i <= |parts|
      invariant ParseFrom(d, parts[i..]) == Parse(s)
      invariant DistinctKeys(d)
    {
      assert parts[i..][1..] == parts[i + 1..];
      var piece := RSplitOnce(parts[i], QtySep);
      if piece.Some? {
        var n := ParseInt(piece.value.1);
        if n.Some? {
          PutDistinct(d, piece.value.0, n.value);
          d := Put(d, piece.value.0, n.value);
        }
      }
      i := i + 1;
    }
  }

  function Render(name: string, q: int): string
  {
    name + QtySep + IntToString(q)
  }

  function RenderAll(d: Items): (r: seq<string>)
    ensures |r| == |d|
    ensures forall k | 0 <= k < |d| :: r[k] == Render(d[k].0, d[k].1)
  {
    if d == [] then [] else [Render(d[0].0, d[0].1)] + RenderAll(d[1..])
  }

  /** build_products_string */
  function Build(d: Items): string
  {
    Join(RenderAll(d), PartSep)
  }

  /** A name survives the trip through the string when neither it nor its
      end followed by the " x " that comes after it reads as ", ". */
  predicate NameOk(name: string)
  {
    forall i | 0 <= i < |name| :: name[i] == ',' ==> i + 1 < |name| && name[i + 1] != ' '
  }

  predicate NamesOk(d: Items)
  {
    forall k | 0 <= k < |d| :: NameOk(d[k].0)
  }

  lemma NumberChars(q: int, k: nat)
    requires k < |IntToString(q)|
    ensures IsDigit(IntToString(q)[k]) || IntToString(q)[k] == '-'
  {
    var t := IntToString(q);
    if q < 0 && k > 0 {
      assert t[k] == t[1..][k - 1];
    }
  }

  /** A rendered part contains no ", " and ends in no ','. */
  lemma RenderSepFree(name: string, q: int)
    requires NameOk(name)
    ensures SepFree(Render(name, q), PartSep)
  {
    var p := Render(name, q);
    var t := p + PartSep;
    forall j | 0 <= j < |p| ensures !OccursAt(t, PartSep, j) {
      if j < |name| {
        assert t[j..j + 2][0] == t[j] == name[j];
        assert t[j..j + 2][1] == t[j + 1] == if j + 1 < |name| then name[j + 1] else ' ';
      } else if j >= |name| + 3 {
        NumberChars(q, j - |name| - 3);
        assert t[j] == IntToString(q)[j - |name| - 3];
      } else {
        assert t[j] == QtySep[j - |name|];
      }
    }
  }

  /** The " x " before the quantity is the last one in a rendered part. */
  lemma LastQtySep(name: string, q: int)
    ensures RFind(Render(name, q), QtySep) == Some(|name|)
  {
    var p := Render(name, q);
    var t := IntToString(q);
    assert p == name + QtySep + t;
    assert OccursAt(p, QtySep, |name|) by { assert p[|name|..|name| + 3] == QtySep; }
    forall j | |name| < j <= |p| ensures !OccursAt(p, QtySep, j) {
      if j + 3 <= |p| {
        if j == |name| + 1 {
          assert p[j] == 'x';
        } else {
          NumberChars(q, j + 1 - |name| - 3);
          assert p[j + 1] == t[j + 1 - |name| - 3];
        }
        assert p[j..j + 3][0] == p[j] && p[j..j + 3][1] == p[j + 1];
      }
    }
  }

  /** rsplit(' x ', 1) of a rendered part gives back the name and the
      printed quantity. */
  lemma RenderSplitsBack(name: string, q: int)
    ensures RSplitOnce(Render(name, q), QtySep) == Some((name, IntToString(q)))
  {
    LastQtySep(name, q);
    var p := Render(name, q);
    assert p[..|name|] == name;
    assert p[|name| + 3..] == IntToString(q);
  }

  /** A rendered part of a new name appends that name's entry. */
  lemma ParseStepRendered(acc: Items, name: string, q: int)
    requires !HasKey(acc, name)
    ensures ParseStep(acc, Render(name, q)) == acc + [(name, q)]
  {
    RenderSplitsBack(name, q);
    IntRoundTrip(q);
    PutAbsentAppends(acc, name, q);
  }

  /** With distinct keys, the first entry's key is absent from the rest. */
  lemma RestAvoidsFirst(acc: Items, d: Items)
    requires DistinctKeys(d) && d != []
    requires forall k | 0 <= k < |d| :: !HasKey(acc, d[k].0)
    ensures forall k | 0 <= k < |d| - 1 :: !HasKey(acc + [d[0]], d[1..][k].0)
  {
    forall k | 0 <= k < |d| - 1 ensures !HasKey(acc + [d[0]], d[1..][k].0) {
      GetAppend(acc, [d[0]], d[1..][k].0);
      assert d[1..][k] == d[k + 1];
      if d[k + 1].0 == d[0].0 {
        GetIsAt(d[1..], k);
      }
    }
  }

  lemma ConsBack<T>(a: seq<T>, d: seq<T>)
    requires d != []
    ensures a + [d[0]] + d[1..] == a + d
  {
    assert d == [d[0]] + d[1..];
  }

  lemma {:induction false} ParseFromRendered(acc: Items, d: Items)
    requires DistinctKeys(d)
    requires forall k | 0 <= k < |d| :: !HasKey(acc, d[k].0)
    ensures ParseFrom(acc, RenderAll(d)) == acc + d
    decreases d
  {
    if d != [] {
      var parts := RenderAll(d);
      var next := acc + [d[0]];
      assert parts[1..] == RenderAll(d[1..]);
      assert parts[0] == Render(d[0].0, d[0].1);
      ParseStepRendered(acc, d[0].0, d[0].1);
      assert ParseStep(acc, parts[0]) == next;
      RestAvoidsFirst(acc, d);
      ParseFromRendered(next, d[1..]);
      assert ParseFrom(acc, parts) == ParseFrom(next, RenderAll(d[1..]));
      ConsBack(acc, d);
    }
  }

  /** parse(build(m)) == m for every dict whose names survive the trip. */
  lemma ParseBuildRoundTrip(d: Items)
    requires DistinctKeys(d) && NamesOk(d)
    ensures Parse(Build(d)) == d
  {
    if d != [] {
      var parts := RenderAll(d);
      forall k | 0 <= k < |parts| ensures SepFree(parts[k], PartSep) {
        RenderSepFree(d[k].0, d[k].1);
      }
      SplitJoin(parts, PartSep);
      assert |Build(d)| > 0 by {
        if |parts| == 1 { assert Build(d) == parts[0]; }
        else { assert Build(d) == parts[0] + PartSep + Join(parts[1..], PartSep); }
      }
      ParseFromRendered([], d);
    }
  }

  // ----------------------------------------------------------------- totals

  /** The price recalculate_order_total finds for a name: the dict built
      from the matching products keeps the last one. */
  function PriceByName(menu: seq<Product>, name: string): (r: Option<real>)
    ensures r.None? <==> forall k | 0 <= k < |menu| :: menu[k].name != name
    ensures r.Some? ==> exists k | 0 <= k < |menu| :: menu[k].name == name && menu[k].price == r.value
  {
    if menu == [] then None
    else if menu[|menu| - 1].name == name then Some(menu[|menu| - 1].price)
    else PriceByName(menu[..|menu| - 1], name)
  }

  function LineCost(menu: seq<Product>): (string, int) -> real
  {
    (name: string, q: int) => match PriceByName(menu, name)
      case None => 0.0
      case Some(p) => p * q as real
  }

  /** recalculate_order_total */
  function RecalculateTotal(d: Items, menu: seq<Product>): real
  {
    SumValues(d, LineCost(menu))
  }

  lemma {:induction false} UnknownNamesAddNothing(d: Items, menu: seq<Product>)
    requires forall k | 0 <= k < |d| :: PriceByName(menu, d[k].0).None?
    ensures RecalculateTotal(d, menu) == 0.0
  {
    if d != [] {
      assert forall k | 0 <= k < |d[1..]| :: d[1..][k] == d[k + 1];
      UnknownNamesAddNothing(d[1..], menu);
    }
  }

  // ------------------------------------------------------------------ edits

  /** `items.get(name, 0)`. */
  function Quantity(d: Items, name: string): int
  {
    Get(d, name).GetOr(0)
  }

  datatype ItemAction = ChangeQuantity(delta: int) | DeleteItem

  datatype EditError = OrderOrProductMissing | KeyError

  /** The dict edit of admin_modify_item. A change that leaves the quantity
      at 0 or below deletes the name, which fails with KeyError when the
      name was not there. */
  function ModifyItems(d: Items, name: string, action: ItemAction): Result<Items, EditError>
  {
    match action
    case ChangeQuantity(delta) =>
      var q := Quantity(d, name) + delta;
      if q > 0 then Ok(Put(d, name, q))
      else if HasKey(d, name) then Ok(Remove(d, name))
      else Err(KeyError)
    case DeleteItem =>
      if HasKey(d, name) then Ok(Remove(d, name)) else Ok(d)
  }

  /** The quantity of the edited name afterwards, the error case, and
      every other name untouched. */
  lemma ModifyItemsEffect(d: Items, name: string, action: ItemAction)
    requires DistinctKeys(d)
    ensures var r := ModifyItems(d, name, action);
      && (r.Err? <==> action.ChangeQuantity? && Get(d, name).None? && action.delta <= 0)
      && (r.Ok? ==> DistinctKeys(r.value))
      && (r.Ok? && action.ChangeQuantity? ==>
            var q := Quantity(d, name) + action.delta;
            Get(r.value, name) == if q > 0 then Some(q) else None)
      && (r.Ok? && action.DeleteItem? ==> Get(r.value, name) == None)
      && (r.Ok? ==> forall other | other != name :: Get(r.value, other) == Get(d, other))
  {
    PutDistinct(d, name, Quantity(d, name) + (if action.ChangeQuantity? then action.delta else 0));
    RemoveDistinct(d, name);
  }

  /** The recomputed total moves by the edited line's cost only. */
  lemma ModifyItemsTotal(d: Items, name: string, action: ItemAction, menu: seq<Product>)
    requires DistinctKeys(d) && ModifyItems(d, name, action).Ok?
    ensures var d' := ModifyItems(d, name, action).value;
      RecalculateTotal(d', menu)
        == RecalculateTotal(d, menu) - ValueAt(d, name, LineCost(menu)) + ValueAt(d', name, LineCost(menu))
  {
    var d' := ModifyItems(d, name, action).value;
    if d' == Remove(d, name) {
      SumRemove(d, name, LineCost(menu));
    } else if d' == d {
    } else {
      SumPut(d, name, Get(d', name).value, LineCost(menu));
    }
  }

  /** admin_modify_item: the order's products string and total after the
      edit; a missing order or product changes nothing. */
  function AdminModifyItem(order: Option<Order>, product: Option<Product>, action: ItemAction, menu: seq<Product>)
    : (r: Result<Order, EditError>)
    ensures order.None? || product.None? ==> r == Err(OrderOrProductMissing)
  {
    if order.None? || product.None? then Err(OrderOrProductMissing)
    else
      match ModifyItems(Parse(order.value.products), product.value.name, action)
      case Err(e) => Err(e)
      case Ok(d) => Ok(order.value.(products := Build(d), totalPrice := RecalculateTotal(d, menu)))
  }

  lemma {:induction false} RemoveKeepsNamesOk(d: Items, name: string)
    requires NamesOk(d)
    ensures NamesOk(Remove(d, name))
  {
    if d != [] {
      assert forall k | 0 <= k < |d| - 1 :: d[1..][k] == d[k + 1];
      RemoveKeepsNamesOk(d[1..], name);
      var r := Remove(d, name);
      if d[0].0 != name {
        assert r == [d[0]] + Remove(d[1..], name);
        assert forall k | 1 <= k < |r| :: r[k] == Remove(d[1..], name)[k - 1];
      }
    }
  }

  /** An edited order's products string reads back as the edited dict, and
      its total is the total of that dict. */
  lemma AdminModifyItemEffect(order: Order, product: Product, action: ItemAction, menu: seq<Product>)
    requires NamesOk(Parse(order.products)) && NameOk(product.name)
    ensures var d := Parse(order.products);
      var r := AdminModifyItem(Some(order), Some(product), action, menu);
      && (r.Err? <==> ModifyItems(d, product.name, action).Err?)
      && (r.Ok? ==> Parse(r.value.products) == ModifyItems(d, product.name, action).value
                    && r.value.totalPrice == RecalculateTotal(Parse(r.value.products), menu))
  {
    var d := Parse(order.products);
    var m := ModifyItems(d, product.name, action);
    if m.Ok? {
      var s := AdminModifyItem(Some(order), Some(product), action, menu).value.products;
      assert Parse(s) == m.value by {
        ParseIsDistinct(order.products);
        ModifiedNamesOk(d, product.name, action);
        ReadsBack(m.value, s);
      }
    }
  }

  /** A successful edit keeps the keys distinct and the names writable. */
  lemma ModifiedNamesOk(d: Items, name: string, action: ItemAction)
    requires DistinctKeys(d) && NamesOk(d) && NameOk(name) && ModifyItems(d, name, action).Ok?
    ensures DistinctKeys(ModifyItems(d, name, action).value) && NamesOk(ModifyItems(d, name, action).value)
  {
    var q := Quantity(d, name) + (if action.ChangeQuantity? then action.delta else 0);
    PutDistinct(d, name, q);
    RemoveDistinct(d, name);
    PutKeepsNamesOk(d, name, q);
    RemoveKeepsNamesOk(d, name);
  }

  /** `d[name] = d.get(name, 0) + 1`. */
  function AddOne(d: Items, name: string): (r: Items)
    ensures Get(r, name) == Some(Quantity(d, name) + 1)
    ensures forall other | other != name :: Get(r, other) == Get(d, other)
  {
    Put(d, name, Quantity(d, name) + 1)
  }

  /** admin_add_to_order: one more of the product. */
  function AdminAddToOrder(order: Option<Order>, product: Option<Product>, menu: seq<Product>)
    : (r: Result<Order, EditError>)
    ensures order.None? || product.None? ==> r == Err(OrderOrProductMissing)
  {
    if order.None? || product.None? then Err(OrderOrProductMissing)
    else
      var d' := AddOne(Parse(order.value.products), product.value.name);
      Ok(order.value.(products := Build(d'), totalPrice := RecalculateTotal(d', menu)))
  }

  /** The products string written by admin_add_to_order reads back as the
      order's dict with `d[name] = d.get(name, 0) + 1` applied. */
  lemma AddToOrderReadsBack(order: Order, product: Product, menu: seq<Product>)
    requires NamesOk(Parse(order.products)) && NameOk(product.name)
    ensures Parse(AdminAddToOrder(Some(order), Some(product), menu).value.products)
      == AddOne(Parse(order.products), product.name)
    ensures var r := AdminAddToOrder(Some(order), Some(product), menu).value;
      r.totalPrice == RecalculateTotal(Parse(r.products), menu)
  {
    var d := Parse(order.products);
    var d' := AddOne(d, product.name);
    var s := AdminAddToOrder(Some(order), Some(product), menu).value.products;
    assert Parse(s) == d' by {
      ParseIsDistinct(order.products);
      AddOneNamesOk(d, product.name);
      ReadsBack(d', s);
    }
  }

  lemma AddOneNamesOk(d: Items, name: string)
    requires DistinctKeys(d) && NamesOk(d) && NameOk(name)
    ensures DistinctKeys(AddOne(d, name)) && NamesOk(AddOne(d, name))
  {
    var q := Quantity(d, name) + 1;
    PutDistinct(d, name, q);
    PutKeepsNamesOk(d, name, q);
  }

  /** A string written from a dict reads back as that dict. */
  lemma ReadsBack(d: Items, s: string)
    requires DistinctKeys(d) && NamesOk(d) && s == Build(d)
    ensures Parse(s) == d
  {
    ParseBuildRoundTrip(d);
  }

  lemma {:induction false} PutKeepsNamesOk(d: Items, name: string, q: int)
    requires NamesOk(d) && NameOk(name)
    ensures NamesOk(Put(d, name, q))
  {
    if d != [] && d[0].0 != name {
      assert forall k | 0 <= k < |d| - 1 :: d[1..][k] == d[k + 1];
      PutKeepsNamesOk(d[1..], name, q);
      var r := Put(d, name, q);
      assert r == [d[0]] + Put(d[1..], name, q);
      assert forall k | 1 <= k < |r| :: r[k] == Put(d[1..], name, q)[k - 1];
    }
  }

  lemma {:induction false} ParseFromDistinct(d: Items, parts: seq<string>)
    requires DistinctKeys(d)
    ensures DistinctKeys(ParseFrom(d, parts))
    decreases parts
  {
    if parts != [] {
      ParseStepDistinct(d, parts[0]);
      ParseFromDistinct(ParseStep(d, parts[0]), parts[1..]);
    }
  }

  lemma ParseStepDistinct(d: Items, part: string)
    requires DistinctKeys(d)
    ensures DistinctKeys(ParseStep(d, part))
  {
    var piece := RSplitOnce(part, QtySep);
    if piece.Some? && ParseInt(piece.value.1).Some? {
      PutDistinct(d, piece.value.0, ParseInt(piece.value.1).value);
    }
  }

  lemma ParseIsDistinct(s: string)
    ensures DistinctKeys(Parse(s))
  {
    if s != "" { ParseFromDistinct([], Split(s, PartSep)); }
  }

  /** toggle_delivery_type; a missing order is left alone. */
  function ToggleDelivery(order: Order): (r: Order)
    ensures r.isDelivery == !order.isDelivery
    ensures !r.isDelivery ==> r.address.None?
    ensures r.isDelivery ==> r.address == order.address
    ensures r.(isDelivery := order.isDelivery, address := order.address) == order
  {
    var o := order.(isDelivery := !order.isDelivery);
    if !o.isDelivery then o.(address := None) else o
  }

  /** Toggling twice restores a pickup order, and a delivery order loses its
      address on the way. */
  lemma ToggleTwice(order: Order)
    ensures !order.isDelivery && order.address.None? ==> ToggleDelivery(ToggleDelivery(order)) == order
    ensures order.isDelivery ==> ToggleDelivery(ToggleDelivery(order)) == order.(address := None)
  {
  }
}
