/** The shopping carts: the browser carts of the web shop and of the table
    QR menu, the staff app's cart, the Telegram waiter's cart, the Telegram
    client's stored cart and the admin order form. Each is a dictionary from
    a line key to a line; adding a product a second time with the same
    modifiers raises the quantity of its line, and a quantity that drops to
    zero deletes the line. */
module Carts {
  import opened Wrappers
  import opened Text
  import opened Dict
  import opened Records

  /** One cart line: the unit price already includes the modifiers'
      surcharges. */
  datatype Line = Line(productId: nat, name: string, unitPrice: real, quantity: int, modifierIds: seq<nat>)

  type Lines = seq<(string, Line)>

  function ModIds(mods: seq<Modifier>): (ids: seq<nat>)
    ensures |ids| == |mods| && forall i | 0 <= i < |mods| :: ids[i] == mods[i].id
  {
    if mods == [] then [] else [mods[0].id] + ModIds(mods[1..])
  }

  function ModNames(mods: seq<Modifier>): (names: seq<string>)
    ensures |names| == |mods| && forall i | 0 <= i < |mods| :: names[i] == mods[i].name
  {
    if mods == [] then [] else [mods[0].name] + ModNames(mods[1..])
  }

  function Surcharge(mods: seq<Modifier>): real
  {
    if mods == [] then 0.0 else mods[0].price + Surcharge(mods[1..])
  }

  function IdStrings(ids: seq<nat>): (r: seq<string>)
    ensures |r| == |ids| && forall i | 0 <= i < |ids| :: r[i] == NatToString(ids[i])
  {
    if ids == [] then [] else [NatToString(ids[0])] + IdStrings(ids[1..])
  }

  /** The modifier ids sorted as strings and joined with '-': JavaScript's
      default sort and Python's sorted() of the str ids agree on this. */
  function ModifierPart(ids: seq<nat>): string
  {
    Join(SortStrings(IdStrings(ids)), "-")
  }

  /** The line key: the product id, a separator ('-' in the browser carts,
      '_' in the Telegram waiter cart), then the modifier part, which is
      empty for a product without modifiers. */
  function LineKey(productId: nat, ids: seq<nat>, sep: char): string
  {
    NatToString(productId) + [sep] + ModifierPart(ids)
  }

  /** The line a new key starts with. */
  function NewLine(p: Product, mods: seq<Modifier>, name: string): Line
  {
    Line(p.id, name, p.price + Surcharge(mods), 1, ModIds(mods))
  }

  /** The staff app's display name: the product name, then the modifier
      names in parentheses when there are any. */
  function StaffLabel(name: string, mods: seq<Modifier>): string
  {
    if mods == [] then name else name + " (+ " + Join(ModNames(mods), ", ") + ")"
  }

  // ---------------------------------------------------------------------
  // Keys identify a product together with its multiset of modifiers

  lemma {:induction false} IdStringsCount(ids: seq<nat>, x: nat)
    ensures multiset(IdStrings(ids))[NatToString(x)] == multiset(ids)[x]
  {
    if ids != [] {
      IdStringsCount(ids[1..], x);
      NatToStringInjective(ids[0], x);
      assert ids == [ids[0]] + ids[1..];
      assert IdStrings(ids) == [NatToString(ids[0])] + IdStrings(ids[1..]);
    }
  }

  lemma IdStringsNumerals(ids: seq<nat>, s: string)
    requires s in multiset(IdStrings(ids))
    ensures exists x: nat :: x in ids && NatToString(x) == s
  {
    var i :| 0 <= i < |ids| && IdStrings(ids)[i] == s;
    assert ids[i] in ids;
  }

  lemma IdStringsMultiset(a: seq<nat>, b: seq<nat>)
    ensures multiset(IdStrings(a)) == multiset(IdStrings(b)) <==> multiset(a) == multiset(b)
  {
    if multiset(IdStrings(a)) == multiset(IdStrings(b)) {
      forall x: nat ensures multiset(a)[x] == multiset(b)[x] {
        IdStringsCount(a, x);
        IdStringsCount(b, x);
      }
      assert multiset(a) == multiset(b);
    }
    if multiset(a) == multiset(b) {
      forall s: string ensures multiset(IdStrings(a))[s] == multiset(IdStrings(b))[s] {
        if s in multiset(IdStrings(a)) {
          IdStringsNumerals(a, s);
          var x: nat :| x in a && NatToString(x) == s;
          IdStringsCount(a, x);
          IdStringsCount(b, x);
        } else if s in multiset(IdStrings(b)) {
          IdStringsNumerals(b, s);
          var x: nat :| x in b && NatToString(x) == s;
          IdStringsCount(a, x);
          IdStringsCount(b, x);
        }
      }
      assert multiset(IdStrings(a)) == multiset(IdStrings(b));
    }
  }

  /** Every piece of the sorted list is a numeral, which holds no '-'. */
  lemma SortedNumerals(ids: seq<nat>)
    ensures forall k | 0 <= k < |SortStrings(IdStrings(ids))| ::
      |SortStrings(IdStrings(ids))[k]| >= 1 && SepFree(SortStrings(IdStrings(ids))[k], "-")
  {
    var ss := SortStrings(IdStrings(ids));
    forall k | 0 <= k < |ss| ensures |ss[k]| >= 1 && SepFree(ss[k], "-") {
      assert ss[k] in multiset(ss);
      NumeralPiece(ids, ss[k]);
    }
  }

  lemma NumeralPiece(ids: seq<nat>, s: string)
    requires s in multiset(IdStrings(ids))
    ensures |s| >= 1 && SepFree(s, "-")
  {
    IdStringsNumerals(ids, s);
    var x: nat :| x in ids && NatToString(x) == s;
    assert AllDigits(s);
    SepFreeSingle(s, '-');
  }

  lemma JoinStartsWithFirst(parts: seq<string>, sep: string)
    requires |parts| >= 1
    ensures |Join(parts, sep)| >= |parts[0]|
  {
  }

  /** The modifier part determines the multiset of modifier ids. */
  lemma ModifierPartIdentifies(a: seq<nat>, b: seq<nat>)
    ensures ModifierPart(a) == ModifierPart(b) <==> multiset(a) == multiset(b)
  {
    var sa, sb := SortStrings(IdStrings(a)), SortStrings(IdStrings(b));
    IdStringsMultiset(a, b);
    if multiset(a) == multiset(b) {
      SortStringsCanonical(IdStrings(a), IdStrings(b));
    }
    if ModifierPart(a) == ModifierPart(b) {
      SortedNumerals(a);
      SortedNumerals(b);
      if sa == [] || sb == [] {
        if sa != [] { JoinStartsWithFirst(sa, "-"); }
        if sb != [] { JoinStartsWithFirst(sb, "-"); }
        assert sa == [] && sb == [];
        assert |multiset(IdStrings(a))| == 0 && |multiset(IdStrings(b))| == 0;
      } else {
        SplitJoin(sa, "-");
        SplitJoin(sb, "-");
      }
    }
  }

  /** Two keys are equal exactly when they name the same product with the
      same modifiers, in whatever order the modifiers were picked. */
  lemma LineKeyIdentifies(p: nat, a: seq<nat>, q: nat, b: seq<nat>, sep: char)
    requires !IsDigit(sep)
    ensures LineKey(p, a, sep) == LineKey(q, b, sep) <==> p == q && multiset(a) == multiset(b)
  {
    ModifierPartIdentifies(a, b);
    if LineKey(p, a, sep) == LineKey(q, b, sep) {
      DigitsBeforeSep(NatToString(p), NatToString(q), ModifierPart(a), ModifierPart(b), sep);
      NatToStringInjective(p, q);
    }
  }

  /** A digits-only head followed by a non-digit separator is recovered
      from the joined text. */
  lemma DigitsBeforeSep(x: string, y: string, ra: string, rb: string, sep: char)
    requires AllDigits(x) && AllDigits(y) && !IsDigit(sep)
    requires x + [sep] + ra == y + [sep] + rb
    ensures x == y && ra == rb
  {
    var key := x + [sep] + ra;
    assert key[|x|] == sep;
    assert key[|y|] == sep;
    assert forall k | 0 <= k < |x| :: key[k] == x[k];
    assert forall k | 0 <= k < |y| :: key[k] == y[k];
    assert |x| == |y|;
    assert x == key[..|x|] == y;
    assert ra == key[|x| + 1..] == rb;
  }

  // ---------------------------------------------------------------------
  // The cart operations on the dictionary

  function LineTotal(key: string, l: Line): real { l.unitPrice * l.quantity as real }

  function LineUnits(key: string, l: Line): real { l.quantity as real }

  /** Σ price × quantity, the total every cart view shows. */
  function CartTotal(c: Lines): real { SumValues(c, LineTotal) }

  /** Σ quantity, the badge on the cart button. */
  function CartUnits(c: Lines): real { SumValues(c, LineUnits) }

  /** Every line has its own key and at least one unit. */
  ghost predicate Wellformed(c: Lines)
  {
    DistinctKeys(c) && forall k | HasKey(c, k) :: Get(c, k).value.quantity >= 1
  }

  /** Adding: one more unit of an existing line, else the new line. */
  function AddSpec(c: Lines, key: string, start: Line): Lines
  {
    match Get(c, key)
    case Some(l) => Put(c, key, l.(quantity := l.quantity + 1))
    case None => Put(c, key, start)
  }

  /** The +/− buttons: a line of an unknown key is ignored, a quantity that
      reaches zero or less deletes the line. */
  function ChangeSpec(c: Lines, key: string, delta: int): Lines
  {
    match Get(c, key)
    case None => c
    case Some(l) =>
      if l.quantity + delta <= 0 then Remove(c, key)
      else Put(c, key, l.(quantity := l.quantity + delta))
  }

  /** The admin form's quantity box: a positive number replaces the
      quantity of an existing line, anything else (zero, negative, not a
      number) deletes the line. */
  function SetSpec(c: Lines, key: string, n: Option<int>): Lines
  {
    if n.Some? && n.value > 0 then
      match Get(c, key)
      case None => c
      case Some(l) => Put(c, key, l.(quantity := n.value))
    else Remove(c, key)
  }

  lemma AddKeepsWellformed(c: Lines, key: string, start: Line)
    requires Wellformed(c) && start.quantity >= 1
    ensures Wellformed(AddSpec(c, key, start))
  {
    PutDistinct(c, key, if HasKey(c, key) then Get(c, key).value.(quantity := Get(c, key).value.quantity + 1) else start);
  }

  lemma ChangeKeepsWellformed(c: Lines, key: string, delta: int)
    requires Wellformed(c)
    ensures Wellformed(ChangeSpec(c, key, delta))
  {
    if HasKey(c, key) {
      var l := Get(c, key).value;
      if l.quantity + delta <= 0 {
        RemoveDistinct(c, key);
      } else {
        PutDistinct(c, key, l.(quantity := l.quantity + delta));
      }
    }
  }

  lemma SetKeepsWellformed(c: Lines, key: string, n: Option<int>)
    requires Wellformed(c)
    ensures Wellformed(SetSpec(c, key, n))
  {
    if n.Some? && n.value > 0 {
      if HasKey(c, key) {
        PutDistinct(c, key, Get(c, key).value.(quantity := n.value));
      }
    } else {
      RemoveDistinct(c, key);
    }
  }

  /** Adding raises the total by one unit price and the count by one. */
  lemma AddTotal(c: Lines, key: string, start: Line)
    requires Wellformed(c) && start.quantity == 1
    ensures CartTotal(AddSpec(c, key, start))
      == CartTotal(c) + (if HasKey(c, key) then Get(c, key).value.unitPrice else start.unitPrice)
    ensures CartUnits(AddSpec(c, key, start)) == CartUnits(c) + 1.0
  {
    var r := AddSpec(c, key, start);
    if HasKey(c, key) {
      var l := Get(c, key).value;
      var v := l.(quantity := l.quantity + 1);
      assert r == Put(c, key, v);
      assert CartTotal(r) == CartTotal(c) - LineTotal(key, l) + LineTotal(key, v) by { SumPut(c, key, v, LineTotal); }
      assert LineTotal(key, v) == LineTotal(key, l) + l.unitPrice by { Distribute(l.unitPrice, l.quantity, 1); }
      assert CartUnits(r) == CartUnits(c) - LineUnits(key, l) + LineUnits(key, v) by { SumPut(c, key, v, LineUnits); }
    } else {
      assert r == Put(c, key, start);
      assert CartTotal(r) == CartTotal(c) + LineTotal(key, start) by { SumPut(c, key, start, LineTotal); }
      assert CartUnits(r) == CartUnits(c) + LineUnits(key, start) by { SumPut(c, key, start, LineUnits); }
    }
  }

  lemma Distribute(p: real, a: int, b: int)
    ensures p * (a + b) as real == p * a as real + p * b as real
  {
  }

  /** What a +/− press of delta does to the total: nothing for an unknown
      key, delta unit prices for a line that stays, minus the whole line's
      worth for a line that is deleted. */
  function TotalShift(line: Option<Line>, delta: int): real
  {
    match line
    case None => 0.0
    case Some(l) =>
      if l.quantity + delta <= 0 then -(l.unitPrice * l.quantity as real)
      else l.unitPrice * delta as real
  }

  lemma ChangeTotal(c: Lines, key: string, delta: int)
    requires DistinctKeys(c)
    ensures CartTotal(ChangeSpec(c, key, delta)) == CartTotal(c) + TotalShift(Get(c, key), delta)
  {
    var g := Get(c, key);
    if g.Some? {
      ChangeLineTotal(c, key, delta, g.value);
    }
  }

  lemma ChangeLineTotal(c: Lines, key: string, delta: int, l: Line)
    requires DistinctKeys(c) && Get(c, key) == Some(l)
    ensures CartTotal(ChangeSpec(c, key, delta)) == CartTotal(c) + TotalShift(Some(l), delta)
  {
    if l.quantity + delta <= 0 {
      RemoveLineTotal(c, key, delta, l);
    } else {
      QuantityMoveTotal(c, key, l, delta);
    }
  }

  lemma RemoveLineTotal(c: Lines, key: string, delta: int, l: Line)
    requires DistinctKeys(c) && Get(c, key) == Some(l) && l.quantity + delta <= 0
    ensures CartTotal(ChangeSpec(c, key, delta)) == CartTotal(c) + TotalShift(Some(l), delta)
  {
    assert ChangeSpec(c, key, delta) == Remove(c, key);
    SumRemove(c, key, LineTotal);
    assert ValueAt(c, key, LineTotal) == LineTotal(key, l);
    assert TotalShift(Some(l), delta) == -LineTotal(key, l);
  }

  lemma QuantityMoveTotal(c: Lines, key: string, l: Line, delta: int)
    requires DistinctKeys(c) && Get(c, key) == Some(l) && l.quantity + delta > 0
    ensures CartTotal(ChangeSpec(c, key, delta)) == CartTotal(c) + TotalShift(Some(l), delta)
  {
    var m := l.(quantity := l.quantity + delta);
    assert ChangeSpec(c, key, delta) == Put(c, key, m) by {
      ChangeKeeps(c, key, delta, l);
    }
    SumPut(c, key, m, LineTotal);
    assert ValueAt(c, key, LineTotal) == LineTotal(key, l);
    KeptShift(key, l, delta);
  }

  lemma ChangeKeeps(c: Lines, key: string, delta: int, l: Line)
    requires Get(c, key) == Some(l) && l.quantity + delta > 0
    ensures ChangeSpec(c, key, delta) == Put(c, key, l.(quantity := l.quantity + delta))
  {
  }

  /** A line that stays moves the total by delta unit prices. */
  lemma KeptShift(key: string, l: Line, delta: int)
    requires l.quantity + delta > 0
    ensures LineTotal(key, l.(quantity := l.quantity + delta)) == LineTotal(key, l) + TotalShift(Some(l), delta)
  {
    Distribute(l.unitPrice, l.quantity, delta);
  }

  /** A + press followed by a − press leaves the cart as it was, also when
      the + created the line. */
  lemma AddThenDecrementRestores(c: Lines, key: string, start: Line)
    requires Wellformed(c) && start.quantity == 1
    ensures ChangeSpec(AddSpec(c, key, start), key, -1) == c
  {
    if HasKey(c, key) {
      var l := Get(c, key).value;
      var up := l.(quantity := l.quantity + 1);
      assert up.(quantity := up.quantity - 1) == l;
      PutPut(c, key, up, l);
      PutSame(c, key);
    } else {
      RemovePut(c, key, start);
      RemoveAbsent(c, key);
    }
  }

  /** Picking the same modifiers in another order lands on the same line:
      the second add creates no line and adds one unit. */
  lemma SameChoiceMerges(c: Lines, p: Product, a: seq<Modifier>, b: seq<Modifier>, sep: char, fa: Line, fb: Line)
    requires !IsDigit(sep) && multiset(ModIds(a)) == multiset(ModIds(b))
    ensures var ka := LineKey(p.id, ModIds(a), sep);
      var c1 := AddSpec(c, ka, fa);
      var c2 := AddSpec(c1, LineKey(p.id, ModIds(b), sep), fb);
      |c2| == |c1| && Get(c2, ka).value.quantity == Get(c1, ka).value.quantity + 1
  {
    LineKeyIdentifies(p.id, ModIds(a), p.id, ModIds(b), sep);
  }

  // ---------------------------------------------------------------------
  // The waiter cart's +/− callback carries the key and the change

  const QtyPrefix: string := "waiter_cart_qnt_"

  function QtyCallback(key: string, change: int): string
  {
    QtyPrefix + key + "_" + IntToString(change)
  }

  /** The handler splits on '_', reads the change from the last piece and
      rejoins the pieces between the prefix and the change into the key;
      None is the ValueError of a change that is not a number. */
  function ParseQtyCallback(data: string): Option<(string, int)>
  {
    var parts := Split(data, "_");
    var key := if |parts| >= 4 then Join(parts[3..|parts| - 1], "_") else "";
    match ParseInt(parts[|parts| - 1])
    case None => None
    case Some(change) => Some((key, change))
  }

  lemma CallbackJoin(np: string, mp: string, cs: string)
    ensures Join(["waiter", "cart", "qnt", np, mp, cs], "_") == QtyPrefix + (np + "_" + mp) + "_" + cs
  {
    var parts := ["waiter", "cart", "qnt", np, mp, cs];
    assert Join(parts[5..], "_") == cs;
    assert Join(parts[4..], "_") == mp + "_" + cs;
    assert Join(parts[3..], "_") == np + "_" + (mp + "_" + cs);
    assert Join(parts[2..], "_") == "qnt" + "_" + (np + "_" + (mp + "_" + cs));
    assert Join(parts[1..], "_") == "cart" + "_" + ("qnt" + "_" + (np + "_" + (mp + "_" + cs)));
    assert QtyPrefix == "waiter" + "_" + ("cart" + "_" + ("qnt" + "_"));
  }

  lemma CallbackSplit(np: string, mp: string, cs: string)
    requires SepFree(np, "_") && SepFree(mp, "_") && SepFree(cs, "_")
    ensures Split(QtyPrefix + (np + "_" + mp) + "_" + cs, "_") == ["waiter", "cart", "qnt", np, mp, cs]
  {
    var parts := ["waiter", "cart", "qnt", np, mp, cs];
    CallbackJoin(np, mp, cs);
    SepFreeSingle("waiter", '_');
    SepFreeSingle("cart", '_');
    SepFreeSingle("qnt", '_');
    assert forall k | 0 <= k < |parts| :: SepFree(parts[k], "_") by {
      assert parts[0] == "waiter" && parts[1] == "cart" && parts[2] == "qnt";
      assert parts[3] == np && parts[4] == mp && parts[5] == cs;
    }
    SplitJoin(parts, "_");
  }

  /** Only digits and '-': the characters of a numeral, a negative
      numeral or a modifier part. */
  predicate NumeralChars(s: string)
  {
    forall k | 0 <= k < |s| :: IsDigit(s[k]) || s[k] == '-'
  }

  lemma NumeralsHaveNoUnderscore(s: string)
    requires NumeralChars(s)
    ensures SepFree(s, "_")
  {
    SepFreeSingle(s, '_');
  }

  lemma NumeralCharsConcat(a: string, b: string)
    requires NumeralChars(a) && NumeralChars(b)
    ensures NumeralChars(a + b)
  {
    assert forall k | 0 <= k < |a + b| :: (a + b)[k] == if k < |a| then a[k] else b[k - |a|];
  }

  lemma {:induction false} JoinNumeralChars(parts: seq<string>)
    requires forall k | 0 <= k < |parts| :: NumeralChars(parts[k])
    ensures NumeralChars(Join(parts, "-"))
    decreases |parts|
  {
    if |parts| > 1 {
      JoinNumeralChars(parts[1..]);
      NumeralCharsConcat(parts[0], "-");
      NumeralCharsConcat(parts[0] + "-", Join(parts[1..], "-"));
    }
  }

  lemma ModifierPartChars(ids: seq<nat>)
    ensures NumeralChars(ModifierPart(ids))
  {
    var ss := SortStrings(IdStrings(ids));
    forall k | 0 <= k < |ss| ensures NumeralChars(ss[k]) {
      assert ss[k] in multiset(ss);
      IdStringsNumerals(ids, ss[k]);
    }
    JoinNumeralChars(ss);
  }

  lemma IntToStringChars(i: int)
    ensures NumeralChars(IntToString(i))
  {
    var cs := IntToString(i);
    forall k | 0 <= k < |cs| ensures IsDigit(cs[k]) || cs[k] == '-' {
      if k > 0 && i < 0 { assert cs[1..][k - 1] == cs[k]; }
    }
  }

  /** The key and change the buttons were built with come back out. */
  lemma QtyCallbackRoundTrip(productId: nat, ids: seq<nat>, change: int)
    ensures ParseQtyCallback(QtyCallback(LineKey(productId, ids, '_'), change))
      == Some((LineKey(productId, ids, '_'), change))
  {
    var np, mp, cs := NatToString(productId), ModifierPart(ids), IntToString(change);
    NumeralsHaveNoUnderscore(np);
    ModifierPartChars(ids);
    NumeralsHaveNoUnderscore(mp);
    IntToStringChars(change);
    NumeralsHaveNoUnderscore(cs);
    CallbackSplit(np, mp, cs);
    assert LineKey(productId, ids, '_') == np + "_" + mp;
    var parts := ["waiter", "cart", "qnt", np, mp, cs];
    assert parts[3..5] == [np, mp];
    assert Join(parts[3..5], "_") == np + "_" + mp;
    IntRoundTrip(change);
  }

  // ---------------------------------------------------------------------
  // A cart object

  class Cart {
    var lines: Lines

    ghost predicate Valid()
      reads this
    {
      Wellformed(lines)
    }

    constructor ()
      ensures lines == [] && Valid()
    {
      lines := [];
    }

    /** The browser, staff and waiter carts' addToCart: the key from the
        product and its modifiers, a new line priced with the surcharges
        (the staff app labels it with the modifier names). */
    method AddChoice(p: Product, mods: seq<Modifier>, sep: char, labelled: bool)
      requires Valid()
      modifies this
      ensures Valid()
      ensures lines == AddSpec(old(lines), LineKey(p.id, ModIds(mods), sep),
        NewLine(p, mods, if labelled then StaffLabel(p.name, mods) else p.name))
    {
      var first := NewLine(p, mods, if labelled then StaffLabel(p.name, mods) else p.name);
      AddKeepsWellformed(lines, LineKey(p.id, ModIds(mods), sep), first);
      lines := AddSpec(lines, LineKey(p.id, ModIds(mods), sep), first);
    }

    /** The admin order form's addProductToOrder: keyed by the product id. */
    method AddPlain(p: Product)
      requires Valid()
      modifies this
      ensures Valid()
      ensures lines == AddSpec(old(lines), NatToString(p.id), NewLine(p, [], p.name))
    {
      AddKeepsWellformed(lines, NatToString(p.id), NewLine(p, [], p.name));
      lines := AddSpec(lines, NatToString(p.id), NewLine(p, [], p.name));
    }

    /** The Telegram client's add_to_cart: a missing or inactive product is
        refused; otherwise the product's row gets one more unit. */
    method AddAvailable(product: Option<Product>) returns (added: bool)
      requires Valid()
      modifies this
      ensures Valid()
      ensures added <==> product.Some? && product.value.isActive
      ensures added ==> lines == AddSpec(old(lines), NatToString(product.value.id), NewLine(product.value, [], product.value.name))
      ensures !added ==> lines == old(lines)
    {
      if product.None? || !product.value.isActive {
        return false;
      }
      AddPlain(product.value);
      added := true;
    }

    /** updateQty / updateCartItemQty / waiter_cart_change_quantity /
        change_quantity. */
    method ChangeQuantity(key: string, delta: int)
      requires Valid()
      modifies this
      ensures Valid()
      ensures lines == ChangeSpec(old(lines), key, delta)
    {
      ChangeKeepsWellformed(lines, key, delta);
      lines := ChangeSpec(lines, key, delta);
    }

    /** The admin form's quantity input. */
    method SetQuantity(key: string, n: Option<int>)
      requires Valid()
      modifies this
      ensures Valid()
      ensures lines == SetSpec(old(lines), key, n)
    {
      SetKeepsWellformed(lines, key, n);
      lines := SetSpec(lines, key, n);
    }

    /** The remove button and delete_from_cart. */
    method RemoveLine(key: string)
      requires Valid()
      modifies this
      ensures Valid()
      ensures lines == Remove(old(lines), key)
    {
      RemoveDistinct(lines, key);
      lines := Remove(lines, key);
    }

    /** clear_cart and the reset after a placed order. */
    method Clear()
      modifies this
      ensures Valid() && lines == []
    {
      lines := [];
    }

    /** updateCartView / calculateTotals: the running total and count. */
    method Summary() returns (total: real, units: int)
      ensures total == CartTotal(lines) && units as real == CartUnits(lines)
    {
      total, units := 0.0, 0;
      var i := 0;
      while i < |lines|
        invariant 0 <= i <= |lines|
        invariant total + CartTotal(lines[i..]) == CartTotal(lines)
        invariant units as real + CartUnits(lines[i..]) == CartUnits(lines)
      {
        assert lines[i..][1..] == lines[i + 1..];
        total := total + lines[i].1.unitPrice * lines[i].1.quantity as real;
        units := units + lines[i].1.quantity;
        i := i + 1;
      }
    }
  }
}
