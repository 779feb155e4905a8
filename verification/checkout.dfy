/** The customer-facing handlers and admin pages of main.py: the Telegram
    checkout dialogue (name, phone, address), the paged category menu and
    the admin list page counts, the web shop's order endpoint, the admin
    order form's save, and the quick employee form's phone check. The
    Telegram client's cart is Carts.Cart (AddAvailable, ChangeQuantity,
    RemoveLine). */
module Checkout {
  import opened Wrappers
  import opened Text
  import opened Records
  import ProductsString
  import Employees
  import Dict

  // ---------------------------------------------------------------------
  // The Telegram checkout dialogue

  datatype Step = AskName | AskPhone | AskAddress | AskTime

  /** What the dialogue has stored so far. */
  datatype Contact = Contact(name: Option<string>, phone: Option<string>, address: Option<string>)

  lemma StripIdempotent(s: string)
    ensures Strip(Strip(s)) == Strip(s)
  {
    var t := Strip(s);
    if t != [] {
      assert StripStart(t) == t;
      assert StripEnd(t) == t;
    }
  }

  /** The reply stripped, kept when it has at least `min` characters. */
  function Stripped(text: string, min: nat): (r: Option<string>)
    ensures r.Some? ==> |r.value| >= min && r.value != "" && Strip(r.value) == r.value
  {
    var t := Strip(text);
    StripIdempotent(text);
    if t == "" || |t| < min then None else Some(t)
  }

  /** `re.match(r'^\+?\d{10,15}$', phone)`: an optional plus, then ten to
      fifteen digits and nothing else (the phone is already stripped, so
      the trailing newline `$` would also allow cannot occur). */
  predicate PhoneMatches(p: string)
  {
    var digits := if |p| > 0 && p[0] == '+' then p[1..] else p;
    AllDigits(digits) && 10 <= |digits| <= 15
  }

  /** process_name */
  function OnName(c: Contact, text: string): (Step, Contact)
  {
    match Stripped(text, 3)
    case None => (AskName, c)
    case Some(n) => (AskPhone, c.(name := Some(n)))
  }

  /** process_phone: a delivery asks for the address next, a pickup for
      the time. */
  function OnPhone(c: Contact, text: string, isDelivery: bool): (Step, Contact)
  {
    var p := Strip(text);
    if !PhoneMatches(p) then (AskPhone, c)
    else (if isDelivery then AskAddress else AskTime, c.(phone := Some(p)))
  }

  /** process_address */
  function OnAddress(c: Contact, text: string): (Step, Contact)
  {
    match Stripped(text, 5)
    case None => (AskAddress, c)
    case Some(a) => (AskTime, c.(address := Some(a)))
  }

  /** One message in the dialogue; the time step is outside this model. */
  function Reply(step: Step, c: Contact, text: string, isDelivery: bool): (Step, Contact)
  {
    match step
    case AskName => OnName(c, text)
    case AskPhone => OnPhone(c, text, isDelivery)
    case AskAddress => OnAddress(c, text)
    case AskTime => (step, c)
  }

  function Run(step: Step, c: Contact, replies: seq<string>, isDelivery: bool): (Step, Contact)
    decreases |replies|
  {
    if replies == [] then (step, c)
    else
      var (s1, c1) := Reply(step, c, replies[0], isDelivery);
      Run(s1, c1, replies[1..], isDelivery)
  }

  predicate NameOk(n: string) { |n| >= 3 && Strip(n) == n }

  predicate AddressOk(a: string) { |a| >= 5 && Strip(a) == a }

  /** What every step past a question guarantees about the stored answer. */
  predicate Collected(step: Step, c: Contact, isDelivery: bool)
  {
    && (step != AskName ==> c.name.Some? && NameOk(c.name.value))
    && (step == AskAddress ==> isDelivery)
    && (step == AskAddress || step == AskTime ==> c.phone.Some? && PhoneMatches(c.phone.value))
    && (step == AskTime && isDelivery ==> c.address.Some? && AddressOk(c.address.value))
  }

  /** A reply either is refused, and the same question is asked again with
      nothing stored, or moves on with the stripped answer stored; each
      step keeps what the earlier ones stored. */
  lemma ReplyKeepsCollected(step: Step, c: Contact, text: string, isDelivery: bool)
    requires Collected(step, c, isDelivery)
    ensures var (s, c1) := Reply(step, c, text, isDelivery);
      && Collected(s, c1, isDelivery)
      && (s == step ==> c1 == c)
      && (step == AskName ==> (s == AskPhone <==> |Strip(text)| >= 3))
      && (step == AskPhone ==> (s != AskPhone <==> PhoneMatches(Strip(text))))
      && (step == AskAddress ==> (s == AskTime <==> |Strip(text)| >= 5))
  {
    match step
    case AskName => StrippedReply(text, 3);
    case AskPhone =>
    case AskAddress => StrippedReply(text, 5);
    case AskTime =>
  }

  /** A reply is kept exactly when its stripped text is long enough. */
  lemma StrippedReply(text: string, min: nat)
    requires min > 0
    ensures var t := Strip(text);
      Stripped(text, min) == if |t| >= min then Some(t) else None
    ensures |Strip(text)| >= min ==> Strip(Strip(text)) == Strip(text)
  {
    StripIdempotent(text);
  }

  lemma {:induction false} RunKeepsCollected(step: Step, c: Contact, replies: seq<string>, isDelivery: bool)
    requires Collected(step, c, isDelivery)
    decreases |replies|
    ensures Collected(Run(step, c, replies, isDelivery).0, Run(step, c, replies, isDelivery).1, isDelivery)
  {
    if replies != [] {
      ReplyKeepsCollected(step, c, replies[0], isDelivery);
      var next := Reply(step, c, replies[0], isDelivery);
      assert Run(step, c, replies, isDelivery) == Run(next.0, next.1, replies[1..], isDelivery);
      RunKeepsCollected(next.0, next.1, replies[1..], isDelivery);
    }
  }

  /** Whatever the customer types, once the dialogue reaches the time
      question the name has at least 3 characters, the phone matches the
      pattern, and a delivery has an address of at least 5 characters, all
      without surrounding whitespace. */
  lemma DialogueCollects(c: Contact, replies: seq<string>, isDelivery: bool)
    ensures var r := Run(AskName, c, replies, isDelivery);
      r.0 == AskTime ==>
        && r.1.name.Some? && NameOk(r.1.name.value)
        && r.1.phone.Some? && PhoneMatches(r.1.phone.value)
        && (isDelivery ==> r.1.address.Some? && AddressOk(r.1.address.value))
  {
    RunKeepsCollected(AskName, c, replies, isDelivery);
  }

  /** Three good answers complete a delivery checkout, two a pickup, with
      the stripped answers stored. */
  lemma GoodAnswersFinish(c: Contact, name: string, phone: string, address: string, isDelivery: bool)
    requires |Strip(name)| >= 3 && PhoneMatches(Strip(phone)) && |Strip(address)| >= 5
    ensures var replies := if isDelivery then [name, phone, address] else [name, phone];
      var (s, c1) := Run(AskName, c, replies, isDelivery);
      && s == AskTime
      && c1.name == Some(Strip(name)) && c1.phone == Some(Strip(phone))
      && c1.address == (if isDelivery then Some(Strip(address)) else c.address)
  {
    var c1 := c.(name := Some(Strip(name)));
    var c2 := c1.(phone := Some(Strip(phone)));
    if isDelivery {
      assert [name, phone, address][1..] == [phone, address];
      assert [phone, address][1..] == [address];
      assert Run(AskName, c, [name, phone, address], true) == Run(AskPhone, c1, [phone, address], true);
      assert Run(AskPhone, c1, [phone, address], true) == Run(AskAddress, c2, [address], true);
    } else {
      assert [name, phone][1..] == [phone];
      assert Run(AskName, c, [name, phone], false) == Run(AskPhone, c1, [phone], false);
      assert Run(AskPhone, c1, [phone], false) == Run(AskTime, c2, [], false);
    }
  }

  /** A phone the checkout accepts also passes the staff phone rule, and
      its digits are the phone without the plus. */
  lemma CheckoutPhoneIsStaffPhone(p: string)
    requires PhoneMatches(p)
    ensures Employees.CleanPhone(Some(p)) == Some(if p[0] == '+' then p[1..] else p)
    ensures Employees.PhoneOk(Employees.CleanPhone(Some(p)))
  {
    if p[0] == '+' {
      assert DigitsOf(p) == DigitsOf(p[1..]);
    }
  }

  // ---------------------------------------------------------------------
  // Paging

  const ProductsPerPage: nat := 5

  /** The navigation row of show_category_paginated: the query offset, the
      page count, and which of back, counter and next are shown. */
  datatype PageNav = PageNav(offset: int, totalPages: nat, back: bool, counter: bool, next: bool)

  function CategoryNav(total: nat, page: int): PageNav
  {
    var pages := (total + ProductsPerPage - 1) / ProductsPerPage;
    PageNav((page - 1) * ProductsPerPage, pages, page > 1, pages > 1, page < pages)
  }

  /** The products a page shows; a page before the first makes the
      database refuse the negative offset. */
  function PageItems<T>(items: seq<T>, page: int): (r: Option<seq<T>>)
    ensures r.Some? <==> page >= 1
    ensures r.Some? ==> |r.value| <= ProductsPerPage
  {
    if page < 1 then None
    else
      var lo := (page - 1) * ProductsPerPage;
      var hi := lo + ProductsPerPage;
      Some(if lo >= |items| then [] else items[lo..if hi <= |items| then hi else |items|])
  }

  /** total_pages is the ceiling of total / 5; the next button appears
      exactly when products remain after this page, the back button
      exactly after the first page, and every product is on exactly one
      page, the page of its position. */
  lemma CategoryNavMeaning<T>(items: seq<T>, page: int, k: nat)
    requires k < |items|
    ensures var n := CategoryNav(|items|, page);
      && n.totalPages * ProductsPerPage >= |items|
      && (n.totalPages - 1) * ProductsPerPage < |items|
      && (n.next <==> page * ProductsPerPage < |items|)
      && (n.back <==> page > 1)
      && 1 <= k / ProductsPerPage + 1 <= n.totalPages
      && PageItems(items, k / ProductsPerPage + 1).value[k % ProductsPerPage] == items[k]
      && (page >= 1 && page != k / ProductsPerPage + 1 ==> items[k] !in PageItems(items, page).value || exists j :: j != k && 0 <= j < |items| && items[j] == items[k])
  {
    var n := CategoryNav(|items|, page);
    var t := |items|;
    assert t + 4 == n.totalPages * 5 + (t + 4) % 5;
    var p := k / 5 + 1;
    assert k == (p - 1) * 5 + k % 5;
    if page >= 1 && page != p && items[k] in PageItems(items, page).value {
      var lo := (page - 1) * 5;
      var s := PageItems(items, page).value;
      var i :| 0 <= i < |s| && s[i] == items[k];
      assert s[i] == items[lo + i];
      assert lo + i != k;
    }
  }

  /** The admin lists' page count: total // per_page, plus one for a
      partial last page. */
  function AdminPages(total: nat, perPage: nat): nat
    requires perPage > 0
  {
    total / perPage + (if total % perPage > 0 then 1 else 0)
  }

  /** The admin count is the ceiling of total / per_page, the same number
      the menu's (total + per_page − 1) // per_page gives. */
  lemma AdminPagesIsCeiling(total: nat, perPage: nat)
    requires perPage > 0
    ensures AdminPages(total, perPage) * perPage >= total
    ensures (AdminPages(total, perPage) - 1) * perPage < total || total == 0
    ensures AdminPages(total, perPage) == (total + perPage - 1) / perPage
  {
    var q, r := total / perPage, total % perPage;
    assert total == q * perPage + r;
    var c, d := (total + perPage - 1) / perPage, (total + perPage - 1) % perPage;
    assert total + perPage - 1 == c * perPage + d;
    if total == 0 {
      assert c == 0;
    } else {
      var a := AdminPages(total, perPage);
      assert a * perPage == q * perPage + (if r > 0 then perPage else 0);
      assert (a - 1) * perPage == a * perPage - perPage;
      assert (c - 1) * perPage == c * perPage - perPage;
      CeilingUnique(total, perPage, a, c);
    }
  }

  lemma CeilingUnique(total: nat, m: nat, a: int, c: int)
    requires m > 0
    requires a * m >= total && c * m >= total
    requires (a - 1) * m < total && (c - 1) * m < total
    ensures a == c
  {
  }

  // ---------------------------------------------------------------------
  // The web shop's order

  /** A line of the browser's cart as posted. */
  datatype WebItem = WebItem(id: nat, name: string, price: real, quantity: int)

  /** The new order's fields the endpoint fills. */
  datatype NewOrder = NewOrder(
    customerName: Option<string>,
    phone: Option<string>,
    address: Option<string>,
    products: string,
    totalPrice: real,
    isDelivery: bool,
    orderType: string,
    deliveryTime: string)

  datatype WebOrderError = EmptyCart   // 400

  /** Σ price × quantity, with the prices the browser sent. */
  function ItemsTotal(items: seq<WebItem>): real
  {
    if items == [] then 0.0 else items[0].price * items[0].quantity as real + ItemsTotal(items[1..])
  }

  function ItemsNamed(items: seq<WebItem>): (r: ProductsString.Items)
    ensures |r| == |items| && forall k | 0 <= k < |items| :: r[k] == (items[k].name, items[k].quantity)
  {
    if items == [] then [] else [(items[0].name, items[0].quantity)] + ItemsNamed(items[1..])
  }

  /** place_web_order: is_delivery defaults to true; the address is kept
      only for a delivery. */
  function PlaceWebOrderSpec(items: seq<WebItem>, name: Option<string>, phone: Option<string>,
                             address: Option<string>, isDelivery: Option<bool>, deliveryTime: Option<string>)
    : Result<NewOrder, WebOrderError>
  {
    if items == [] then Err(EmptyCart)
    else
      var d := isDelivery.None? || isDelivery.value;
      Ok(NewOrder(name, phone, if d then address else None, ProductsString.Build(ItemsNamed(items)),
                  ItemsTotal(items), d, if d then "delivery" else "pickup",
                  if deliveryTime.Some? then deliveryTime.value else "Якнайшвидше"))
  }

  /** The order is refused exactly for an empty cart; a pickup never keeps
      an address and its type always matches the delivery flag; and the
      products text reads back as the cart's names and quantities when the
      names are distinct and free of ", ". */
  lemma WebOrderEffect(items: seq<WebItem>, name: Option<string>, phone: Option<string>,
                       address: Option<string>, isDelivery: Option<bool>, deliveryTime: Option<string>)
    ensures var r := PlaceWebOrderSpec(items, name, phone, address, isDelivery, deliveryTime);
      && (r.Err? <==> items == [])
      && (r.Ok? ==>
            && (r.value.isDelivery <==> isDelivery != Some(false))
            && (r.value.orderType == "delivery" <==> r.value.isDelivery)
            && (r.value.orderType == "pickup" <==> !r.value.isDelivery)
            && (!r.value.isDelivery ==> r.value.address.None?)
            && (r.value.isDelivery ==> r.value.address == address)
            && r.value.totalPrice == ItemsTotal(items)
            && (Dict.DistinctKeys(ItemsNamed(items)) && ProductsString.NamesOk(ItemsNamed(items)) ==>
                  ProductsString.Parse(r.value.products) == ItemsNamed(items)))
  {
    if items != [] && Dict.DistinctKeys(ItemsNamed(items)) && ProductsString.NamesOk(ItemsNamed(items)) {
      ProductsString.ParseBuildRoundTrip(ItemsNamed(items));
    }
  }

  // ---------------------------------------------------------------------
  // The admin order form's save

  /** A quantity as the form's JSON carries it. */
  datatype QtyValue = QInt(i: int) | QReal(r: real) | QText(s: string) | QMissing | QNull

  /** `int(item_data.get('quantity', 0))`, 0 when int() raises: a float is
      cut toward zero, a string must spell an integer. */
  function QuantityOf(v: QtyValue): int
  {
    match v
    case QInt(i) => i
    case QReal(r) => if r >= 0.0 then r.Floor else -((-r).Floor)
    case QText(s) => (match ParseInt(s) case Some(n) => n case None => 0)
    case QMissing => 0
    case QNull => 0
  }

  /** The product id of a key made only of digits. */
  function KeyId(key: string): Option<nat>
  {
    if key != "" && AllDigits(key) then Some(DigitsValue(key)) else None
  }

  /** The entry names a known product with a positive quantity. */
  predicate Takes(e: (string, QtyValue), products: map<nat, Product>)
  {
    KeyId(e.0).Some? && KeyId(e.0).value in products && QuantityOf(e.1) > 0
  }

  /** The lines the save keeps: each taken entry's product and quantity,
      in the order of the form. */
  function Accepted(entries: seq<(string, QtyValue)>, products: map<nat, Product>): (r: seq<(Product, int)>)
    ensures |r| <= |entries|
    ensures forall l :: l in r <==>
      exists k | 0 <= k < |entries| :: Takes(entries[k], products)
        && l == (products[KeyId(entries[k].0).value], QuantityOf(entries[k].1))
  {
    if entries == [] then []
    else
      var rest := Accepted(entries[1..], products);
      assert forall k | 1 <= k < |entries| :: entries[1..][k - 1] == entries[k];
      (if Takes(entries[0], products)
       then [(products[KeyId(entries[0].0).value], QuantityOf(entries[0].1))] else []) + rest
  }

  function AcceptedNames(lines: seq<(Product, int)>): (r: ProductsString.Items)
    ensures |r| == |lines| && forall k | 0 <= k < |lines| :: r[k] == (lines[k].0.name, lines[k].1)
  {
    if lines == [] then [] else [(lines[0].0.name, lines[0].1)] + AcceptedNames(lines[1..])
  }

  /** Σ database price × quantity. */
  function AcceptedTotal(lines: seq<(Product, int)>): real
  {
    if lines == [] then 0.0 else lines[0].0.price * lines[0].1 as real + AcceptedTotal(lines[1..])
  }

  /** The posted order form. */
  datatype OrderForm = OrderForm(deliveryType: Option<string>, address: Option<string>,
                                 items: seq<(string, QtyValue)>)

  /** _process_and_save_order on the order's stored fields. A new order
      without a status gets the new-order status. */
  function AdminSaveSpec(o: Order, f: OrderForm, products: map<nat, Product>, statuses: seq<Status>, isNew: bool)
    : Order
  {
    var d := f.deliveryType == Some("delivery");
    var lines := Accepted(f.items, products);
    o.(isDelivery := d, address := if d then f.address else None, orderType := if d then "delivery" else "pickup",
       products := ProductsString.Build(AcceptedNames(lines)), totalPrice := AcceptedTotal(lines),
       statusId := if isNew && o.statusId == 0 then NewStatusId(statuses) else o.statusId)
  }

  lemma {:induction false} AcceptedTotalNonNegative(lines: seq<(Product, int)>)
    requires forall k | 0 <= k < |lines| :: lines[k].0.price >= 0.0 && lines[k].1 > 0
    ensures AcceptedTotal(lines) >= 0.0
  {
    if lines != [] {
      assert forall k | 1 <= k < |lines| :: lines[1..][k - 1] == lines[k];
      AcceptedTotalNonNegative(lines[1..]);
      assert lines[0].0.price * lines[0].1 as real >= 0.0;
    }
  }

  lemma {:induction false} NoneTaken(entries: seq<(string, QtyValue)>, products: map<nat, Product>)
    requires forall k | 0 <= k < |entries| :: !Takes(entries[k], products)
    ensures Accepted(entries, products) == []
  {
    if entries != [] {
      assert forall k | 1 <= k < |entries| :: entries[1..][k - 1] == entries[k];
      NoneTaken(entries[1..], products);
    }
  }

  /** The save keeps the address only for a delivery and sets the type to
      match; with no taken entry the products text is empty and the total
      0; with non-negative prices the total is never negative. */
  lemma AdminSaveEffect(o: Order, f: OrderForm, products: map<nat, Product>, statuses: seq<Status>, isNew: bool)
    ensures var r := AdminSaveSpec(o, f, products, statuses, isNew);
      && (r.isDelivery <==> f.deliveryType == Some("delivery"))
      && (r.address == if r.isDelivery then f.address else None)
      && (r.orderType == if r.isDelivery then "delivery" else "pickup")
      && ((forall k | 0 <= k < |f.items| :: !Takes(f.items[k], products)) ==> r.products == "" && r.totalPrice == 0.0)
      && ((forall id | id in products :: products[id].price >= 0.0) ==> r.totalPrice >= 0.0)
      && r.id == o.id && r.courierId == o.courierId && r.paymentMethod == o.paymentMethod
      && (!isNew ==> r.statusId == o.statusId)
  {
    AdminSaveFields(o, f, products, statuses, isNew);
    AdminSaveTotals(o, f, products, statuses, isNew);
  }

  lemma AdminSaveFields(o: Order, f: OrderForm, products: map<nat, Product>, statuses: seq<Status>, isNew: bool)
    ensures var r := AdminSaveSpec(o, f, products, statuses, isNew);
      && (r.isDelivery <==> f.deliveryType == Some("delivery"))
      && (r.address == if r.isDelivery then f.address else None)
      && (r.orderType == if r.isDelivery then "delivery" else "pickup")
      && r.id == o.id && r.courierId == o.courierId && r.paymentMethod == o.paymentMethod
      && (!isNew ==> r.statusId == o.statusId)
  {
  }

  lemma AdminSaveTotals(o: Order, f: OrderForm, products: map<nat, Product>, statuses: seq<Status>, isNew: bool)
    ensures var r := AdminSaveSpec(o, f, products, statuses, isNew);
      && ((forall k | 0 <= k < |f.items| :: !Takes(f.items[k], products)) ==> r.products == "" && r.totalPrice == 0.0)
      && ((forall id | id in products :: products[id].price >= 0.0) ==> r.totalPrice >= 0.0)
  {
    var lines := Accepted(f.items, products);
    if forall k | 0 <= k < |f.items| :: !Takes(f.items[k], products) {
      assert lines == [] by { NoneTaken(f.items, products); }
      assert AcceptedNames(lines) == [];
      assert ProductsString.Build([]) == "";
    }
    if forall id | id in products :: products[id].price >= 0.0 {
      assert AcceptedTotal(lines) >= 0.0 by { AcceptedPricesNonNegative(f.items, products); }
    }
  }

  lemma AcceptedPricesNonNegative(entries: seq<(string, QtyValue)>, products: map<nat, Product>)
    requires forall id | id in products :: products[id].price >= 0.0
    ensures AcceptedTotal(Accepted(entries, products)) >= 0.0
  {
    var lines := Accepted(entries, products);
    forall k | 0 <= k < |lines|
      ensures lines[k].0.price >= 0.0 && lines[k].1 > 0
    {
      assert lines[k] in lines;
    }
    AcceptedTotalNonNegative(lines);
  }

  /** The saving loop: the "name x qty" parts and the running total. */
  method SaveLines(entries: seq<(string, QtyValue)>, products: map<nat, Product>)
    returns (parts: ProductsString.Items, total: real)
    ensures parts == AcceptedNames(Accepted(entries, products))
    ensures total == AcceptedTotal(Accepted(entries, products))
  {
    parts, total := [], 0.0;
    var kept: seq<(Product, int)> := [];
    var k := 0;
    while k < |entries|
      invariant 0 <= k <= |entries|
      invariant kept + Accepted(entries[k..], products) == Accepted(entries, products)
      invariant parts == AcceptedNames(kept) && total == AcceptedTotal(kept)
    {
      assert entries[k..][0] == entries[k] && entries[k..][1..] == entries[k + 1..];
      var e := entries[k];
      var id := KeyId(e.0);
      if id.Some? && id.value in products {
        var q := QuantityOf(e.1);
        if q > 0 {
          var line := (products[id.value], q);
          assert kept + ([line] + Accepted(entries[k + 1..], products)) == (kept + [line]) + Accepted(entries[k + 1..], products);
          AcceptedAppend(kept, line);
          kept := kept + [line];
          parts := parts + [(line.0.name, q)];
          total := total + line.0.price * q as real;
        } else {
          assert [] + Accepted(entries[k + 1..], products) == Accepted(entries[k + 1..], products);
        }
      } else {
        assert [] + Accepted(entries[k + 1..], products) == Accepted(entries[k + 1..], products);
      }
      k := k + 1;
    }
    assert entries[k..] == [];
    assert kept == Accepted(entries, products);
  }

  lemma {:induction false} AcceptedAppend(lines: seq<(Product, int)>, line: (Product, int))
    ensures AcceptedNames(lines + [line]) == AcceptedNames(lines) + [(line.0.name, line.1)]
    ensures AcceptedTotal(lines + [line]) == AcceptedTotal(lines) + line.0.price * line.1 as real
  {
    if lines == [] {
      assert [] + [line] == [line];
    } else {
      assert (lines + [line])[1..] == lines[1..] + [line];
      AcceptedAppend(lines[1..], line);
    }
  }

  // ---------------------------------------------------------------------
  // The quick employee form

  datatype QuickAddError = BadPhone   // 400

  /** add_employee's phone: the digits of a non-empty phone, refused when
      there are some but not 10 to 15 of them. */
  function QuickAddPhone(phone: Option<string>): Result<Option<string>, QuickAddError>
  {
    var cleaned := if phone.Some? && phone.value != "" then Some(DigitsOf(phone.value)) else None;
    if cleaned.Some? && cleaned.value != "" && !(10 <= |cleaned.value| <= 15) then Err(BadPhone)
    else Ok(cleaned)
  }

  /** The quick form and the full employee form accept the same phones and
      store the same digits. */
  lemma QuickAddMatchesEmployeeForm(phone: Option<string>)
    ensures QuickAddPhone(phone).Ok? <==> Employees.PhoneOk(Employees.CleanPhone(phone))
    ensures QuickAddPhone(phone).Ok? ==> QuickAddPhone(phone).value == Employees.CleanPhone(phone)
  {
  }
}
