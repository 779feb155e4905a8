/** The staff app's page script: the order cart (a Carts.Cart keyed with
    '-', whose lines carry the modifier names in their label), the modifier
    picker, the WebSocket reconnection back-off, the notification poll and
    the product search of the "new order" list. */
module StaffClient {
  import opened Wrappers
  import opened Records
  import opened Carts
  import AdminForm

  // ---------------------------------------------------------------------
  // The modifier picker

  /** Switching a modifier on or off. */
  function Toggle(selected: set<nat>, id: nat): (r: set<nat>)
    ensures forall x :: x in r <==> (x in selected) != (x == id)
  {
    if id in selected then selected - {id} else selected + {id}
  }

  lemma ToggleTwice(selected: set<nat>, id: nat)
    ensures Toggle(Toggle(selected, id), id) == selected
  {
  }

  /** The product's modifiers whose id is switched on, in the product's
      order. */
  function Chosen(mods: seq<Modifier>, selected: set<nat>): (r: seq<Modifier>)
    ensures |r| <= |mods|
  {
    if mods == [] then []
    else (if mods[0].id in selected then [mods[0]] else []) + Chosen(mods[1..], selected)
  }

  lemma {:induction false} ChosenMembers(mods: seq<Modifier>, selected: set<nat>, m: Modifier)
    ensures m in Chosen(mods, selected) <==> m in mods && m.id in selected
  {
    if mods != [] {
      ChosenMembers(mods[1..], selected, m);
      assert mods == [mods[0]] + mods[1..];
    }
  }

  lemma ChosenStep(mods: seq<Modifier>, selected: set<nat>, i: nat)
    requires i < |mods|
    ensures Chosen(mods[i..], selected)
      == (if mods[i].id in selected then [mods[i]] else []) + Chosen(mods[i + 1..], selected)
  {
    assert mods[i..][1..] == mods[i + 1..];
  }

  /** The `forEach` that pushes the switched-on modifiers. */
  method CollectChosen(mods: seq<Modifier>, selected: set<nat>) returns (chosen: seq<Modifier>)
    ensures chosen == Chosen(mods, selected)
  {
    chosen := [];
    var i := 0;
    while i < |mods|
      invariant 0 <= i <= |mods|
      invariant chosen + Chosen(mods[i..], selected) == Chosen(mods, selected)
    {
      ChosenStep(mods, selected, i);
      if mods[i].id in selected {
        chosen := chosen + [mods[i]];
      }
      i := i + 1;
    }
    assert mods[i..] == [];
  }

  lemma SurchargeCons(m: Modifier, rest: seq<Modifier>)
    ensures Surcharge([m] + rest) == m.price + Surcharge(rest)
  {
    assert ([m] + rest)[1..] == rest;
  }

  // ---------------------------------------------------------------------
  // The WebSocket back-off

  const InitialRetry: int := 1000
  const MaxRetry: int := 10000

  /** `Math.min(wsRetryInterval * 2, 10000)`. */
  function NextRetry(r: int): int
  {
    if r * 2 < MaxRetry then r * 2 else MaxRetry
  }

  /** The interval after n closes in a row since the last open. */
  function RetryAfter(n: nat): int
  {
    if n == 0 then InitialRetry else NextRetry(RetryAfter(n - 1))
  }

  function Pow2(n: nat): (p: nat)
    ensures p >= 1
  {
    if n == 0 then 1 else 2 * Pow2(n - 1)
  }

  /** The reconnect delays are 1000·2ⁿ milliseconds, capped at 10000: 1000,
      2000, 4000, 8000, then 10000 for ever. */
  lemma {:induction false} RetryAfterIsCappedDoubling(n: nat)
    ensures RetryAfter(n) == if InitialRetry * Pow2(n) < MaxRetry then InitialRetry * Pow2(n) else MaxRetry
  {
    if n > 0 {
      RetryAfterIsCappedDoubling(n - 1);
    }
  }

  // ---------------------------------------------------------------------
  // The notification poll

  /** What `/staff/api/notifications` answered: a 401, a failure (network
      or JSON, swallowed by the catch) or the unread count with the list,
      newest first. */
  datatype Poll = Unauthorized | Failed | Notifications(unreadCount: int, messages: seq<string>)

  /** The search result of the "new order" list: per category, the
      matching products; a category without a match is not shown. */
  datatype Category = Category(name: string, products: seq<Product>)

  function MenuSearch(menu: seq<Category>, term: string): seq<(string, seq<Product>)>
  {
    if menu == [] then []
    else
      var found := AdminForm.Search(menu[0].products, term);
      (if found != [] then [(menu[0].name, found)] else []) + MenuSearch(menu[1..], term)
  }

  lemma MenuSearchCons(menu: seq<Category>, term: string)
    requires menu != []
    ensures var found := AdminForm.Search(menu[0].products, term);
      MenuSearch(menu, term) == (if found != [] then [(menu[0].name, found)] else []) + MenuSearch(menu[1..], term)
  {
  }

  /** Every group shown is non-empty and is the search result of a
      category of the same name. */
  lemma {:induction false} MenuSearchSound(menu: seq<Category>, term: string)
    ensures forall g | g in MenuSearch(menu, term) ::
      g.1 != [] && exists c | c in menu :: c.name == g.0 && g.1 == AdminForm.Search(c.products, term)
  {
    if menu != [] {
      MenuSearchSound(menu[1..], term);
      MenuSearchCons(menu, term);
      assert menu[0] in menu;
      assert forall c | c in menu[1..] :: c in menu;
    }
  }

  /** Every matching product is shown under its category's name. */
  lemma {:induction false} MenuSearchComplete(menu: seq<Category>, term: string)
    ensures forall c, p | c in menu && p in c.products && AdminForm.NameMatches(p.name, term) ::
      exists g | g in MenuSearch(menu, term) :: g.0 == c.name && p in g.1
  {
    if menu != [] {
      MenuSearchComplete(menu[1..], term);
      MenuSearchCons(menu, term);
      var found := AdminForm.Search(menu[0].products, term);
      forall p | p in menu[0].products && AdminForm.NameMatches(p.name, term)
        ensures p in found
      {
        AdminForm.SearchMembers(menu[0].products, term, p);
      }
      assert menu == [menu[0]] + menu[1..];
    }
  }

  /** Every group shown is non-empty and lists only matching products of
      its category; every matching product is shown under its category;
      "nothing found" appears exactly when no product matches. */
  lemma MenuSearchMeaning(menu: seq<Category>, term: string)
    ensures forall g | g in MenuSearch(menu, term) ::
      g.1 != [] && exists c | c in menu :: c.name == g.0 && g.1 == AdminForm.Search(c.products, term)
    ensures forall c, p | c in menu && p in c.products && AdminForm.NameMatches(p.name, term) ::
      exists g | g in MenuSearch(menu, term) :: g.0 == c.name && p in g.1
    ensures MenuSearch(menu, term) == [] <==>
      forall c, p | c in menu && p in c.products :: !AdminForm.NameMatches(p.name, term)
  {
    MenuSearchSound(menu, term);
    MenuSearchComplete(menu, term);
    if MenuSearch(menu, term) != [] {
      var g := MenuSearch(menu, term)[0];
      assert g in MenuSearch(menu, term);
      var c :| c in menu && c.name == g.0 && g.1 == AdminForm.Search(c.products, term);
      AdminForm.SearchMembers(c.products, term, g.1[0]);
    }
  }

  // ---------------------------------------------------------------------
  // The page

  class StaffPage {
    /** `cart`. */
    const cart: Cart
    /** `selectedProduct` with its modifiers. */
    var picked: Option<(Product, seq<Modifier>)>
    /** `selectedModifiers`. */
    var selected: set<nat>
    /** `wsRetryInterval`. */
    var retryInterval: int
    /** `lastNotificationCount`. */
    var lastNotificationCount: int

    ghost predicate Valid()
      reads this, cart
    {
      cart.Valid() && InitialRetry <= retryInterval <= MaxRetry
    }

    constructor ()
      ensures Valid() && fresh(cart) && cart.lines == []
      ensures picked.None? && selected == {} && retryInterval == InitialRetry && lastNotificationCount == 0
    {
      cart := new Cart();
      picked := None;
      selected := {};
      retryInterval := InitialRetry;
      lastNotificationCount := 0;
    }

    /** openModifierModal: remember the product and clear the choice. */
    method OpenModifierModal(p: Product, mods: seq<Modifier>)
      requires Valid()
      modifies this
      ensures Valid() && picked == Some((p, mods)) && selected == {}
      ensures retryInterval == old(retryInterval) && lastNotificationCount == old(lastNotificationCount)
    {
      picked := Some((p, mods));
      selected := {};
    }

    /** updateStaffModPrice: the price on the "add" button, which is the
        unit price the line will get. */
    method ModPrice() returns (total: real)
      requires picked.Some?
      ensures var (p, mods) := picked.value;
        var ch := Chosen(mods, selected);
        total == NewLine(p, ch, StaffLabel(p.name, ch)).unitPrice
    {
      var (p, mods) := picked.value;
      total := p.price;
      var i := 0;
      while i < |mods|
        invariant 0 <= i <= |mods|
        invariant total + Surcharge(Chosen(mods[i..], selected)) == p.price + Surcharge(Chosen(mods, selected))
      {
        ChosenStep(mods, selected, i);
        if mods[i].id in selected {
          SurchargeCons(mods[i], Chosen(mods[i + 1..], selected));
          total := total + mods[i].price;
        } else {
          assert Chosen(mods[i..], selected) == Chosen(mods[i + 1..], selected);
        }
        i := i + 1;
      }
      assert mods[i..] == [];
    }

    /** toggleStaffMod, which then refreshes the price. */
    method ToggleMod(id: nat) returns (shownPrice: real)
      requires Valid() && picked.Some?
      modifies this
      ensures Valid() && selected == Toggle(old(selected), id) && picked == old(picked)
      ensures retryInterval == old(retryInterval) && lastNotificationCount == old(lastNotificationCount)
      ensures var (p, mods) := picked.value;
        var ch := Chosen(mods, selected);
        shownPrice == NewLine(p, ch, StaffLabel(p.name, ch)).unitPrice
    {
      if id in selected {
        selected := selected - {id};
      } else {
        selected := selected + {id};
      }
      shownPrice := ModPrice();
    }

    /** addStaffWithMods: collect the chosen modifiers, then addToCart. */
    method AddWithMods()
      requires Valid() && picked.Some?
      modifies cart
      ensures Valid()
      ensures var (p, mods) := picked.value;
        var ch := Chosen(mods, selected);
        cart.lines == AddSpec(old(cart.lines), LineKey(p.id, ModIds(ch), '-'), NewLine(p, ch, StaffLabel(p.name, ch)))
    {
      var (p, mods) := picked.value;
      var chosen := CollectChosen(mods, selected);
      cart.AddChoice(p, chosen, '-', true);
    }

    /** ws.onopen. */
    method OnOpen()
      requires Valid()
      modifies this
      ensures Valid() && retryInterval == InitialRetry
      ensures picked == old(picked) && selected == old(selected) && lastNotificationCount == old(lastNotificationCount)
    {
      retryInterval := InitialRetry;
    }

    /** ws.onclose: schedule the reconnection after the current interval,
        then double the interval up to the cap. */
    method OnClose() returns (delay: int)
      requires Valid()
      modifies this
      ensures Valid() && delay == old(retryInterval) && retryInterval == NextRetry(old(retryInterval))
      ensures picked == old(picked) && selected == old(selected) && lastNotificationCount == old(lastNotificationCount)
    {
      delay := retryInterval;
      retryInterval := if retryInterval * 2 < MaxRetry then retryInterval * 2 else MaxRetry;
    }

    /** updateNotifications: the badge is shown when something is unread;
        a toast with the newest message fires only when the unread count
        went up since the last poll; a 401 or a failure changes nothing. */
    method UpdateNotifications(res: Poll) returns (toast: Option<string>, badge: Option<bool>)
      requires Valid()
      modifies this
      ensures Valid() && picked == old(picked) && selected == old(selected) && retryInterval == old(retryInterval)
      ensures !res.Notifications? ==> toast.None? && badge.None? && lastNotificationCount == old(lastNotificationCount)
      ensures res.Notifications? ==>
        (lastNotificationCount == res.unreadCount && badge == Some(res.unreadCount > 0)
         && (toast.Some? <==> res.unreadCount > 0 && res.unreadCount > old(lastNotificationCount) && res.messages != [])
         && (toast.Some? ==> toast.value == res.messages[0]))
    {
      toast, badge := None, None;
      if !res.Notifications? {
        return;
      }
      if res.unreadCount > 0 {
        badge := Some(true);
        if res.unreadCount > lastNotificationCount {
          if |res.messages| > 0 {
            toast := Some(res.messages[0]);
          }
        }
      } else {
        badge := Some(false);
      }
      lastNotificationCount := res.unreadCount;
    }
  }
}
