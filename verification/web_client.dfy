/** The web shop's browser page: the Cyrillic-to-Latin slugs of the
    category anchors, the cart sidebar with its free-delivery progress bar,
    the checkout summary and the +380 phone field. The cart itself is a
    Carts.Cart keyed with '-' (addToCart and updateQty are AddChoice and
    ChangeQuantity). */
module WebClient {
  import opened Wrappers
  import opened Text
  import opened Carts
  import Checkout

  // ---------------------------------------------------------------------
  // transliterate: lower-case, map each character, collapse runs of '-',
  // drop a leading and a trailing '-'

  /** The converter table of the page. */
  function Converter(c: char): Option<string>
  {
    match c
    case 'а' => Some("a") case 'б' => Some("b") case 'в' => Some("v") case 'г' => Some("h")
    case 'ґ' => Some("g") case 'д' => Some("d") case 'е' => Some("e") case 'є' => Some("ye")
    case 'ж' => Some("zh") case 'з' => Some("z") case 'и' => Some("y") case 'і' => Some("i")
    case 'ї' => Some("yi") case 'й' => Some("y") case 'к' => Some("k") case 'л' => Some("l")
    case 'м' => Some("m") case 'н' => Some("n") case 'о' => Some("o") case 'п' => Some("p")
    case 'р' => Some("r") case 'с' => Some("s") case 'т' => Some("t") case 'у' => Some("u")
    case 'ф' => Some("f") case 'х' => Some("kh") case 'ц' => Some("ts") case 'ч' => Some("ch")
    case 'ш' => Some("sh") case 'щ' => Some("shch") case 'ь' => Some("") case 'ю' => Some("yu")
    case 'я' => Some("ya") case ' ' => Some("-") case '\'' => Some("") case '’' => Some("")
    case _ => None
  }

  /** The characters `/[a-z0-9\-]/` lets through. */
  predicate SlugChar(c: char) { 'a' <= c <= 'z' || IsDigit(c) || c == '-' }

  predicate SlugChars(s: string) { forall k | 0 <= k < |s| :: SlugChar(s[k]) }

  /** `converter[char] || (/[a-z0-9\-]/.test(char) ? char : '')`: an empty
      table entry is falsy, so it falls through to the test, which the
      apostrophes and the soft sign fail. */
  function Mapped(c: char): string
  {
    match Converter(c)
    case Some(t) => if t != "" then t else if SlugChar(c) then [c] else ""
    case None => if SlugChar(c) then [c] else ""
  }

  function MapAll(s: string): string
  {
    if s == [] then [] else Mapped(s[0]) + MapAll(s[1..])
  }

  /** `.replace(/-+/g, '-')`: a '-' followed by another '-' is dropped. */
  function Collapse(s: string): (r: string)
    ensures |r| <= |s|
    ensures |s| > 0 ==> |r| > 0 && r[0] == s[0]
    decreases |s|
  {
    if |s| <= 1 then s
    else if s[0] == '-' && s[1] == '-' then Collapse(s[1..])
    else [s[0]] + Collapse(s[1..])
  }

  /** `.replace(/^-|-$/g, '')`. */
  function TrimDashes(s: string): string
  {
    var a := if |s| > 0 && s[0] == '-' then s[1..] else s;
    if |a| > 0 && a[|a| - 1] == '-' then a[..|a| - 1] else a
  }

  function Transliterate(word: string): string
  {
    TrimDashes(Collapse(MapAll(Lower(word))))
  }

  predicate NoDoubleDash(s: string)
  {
    forall k | 0 <= k < |s| - 1 :: !(s[k] == '-' && s[k + 1] == '-')
  }

  /** What the page uses as an anchor: only [a-z0-9-], no "--", no '-' at
      either end. */
  predicate IsSlug(s: string)
  {
    SlugChars(s) && NoDoubleDash(s) && (|s| > 0 ==> s[0] != '-' && s[|s| - 1] != '-')
  }

  /** The characters of s other than '-'. */
  function Letters(s: string): string
  {
    if s == [] then [] else (if s[0] == '-' then [] else [s[0]]) + Letters(s[1..])
  }

  lemma MappedChars(c: char)
    ensures SlugChars(Mapped(c))
  {
  }

  lemma MappedSlugChar(c: char)
    requires SlugChar(c)
    ensures Mapped(c) == [c]
  {
  }

  lemma SlugCharsConcat(a: string, b: string)
    requires SlugChars(a) && SlugChars(b)
    ensures SlugChars(a + b)
  {
    assert forall k | 0 <= k < |a + b| :: (a + b)[k] == if k < |a| then a[k] else b[k - |a|];
  }

  lemma {:induction false} MapAllChars(s: string)
    ensures SlugChars(MapAll(s))
  {
    if s != [] {
      MappedChars(s[0]);
      MapAllChars(s[1..]);
      SlugCharsConcat(Mapped(s[0]), MapAll(s[1..]));
    }
  }

  lemma {:induction false} MapAllFixed(s: string)
    requires SlugChars(s)
    ensures MapAll(s) == s
  {
    if s != [] {
      MappedSlugChar(s[0]);
      MapAllFixed(s[1..]);
      assert s == [s[0]] + s[1..];
    }
  }

  lemma LowerFixed(s: string)
    requires SlugChars(s)
    ensures Lower(s) == s
  {
    assert forall k | 0 <= k < |s| :: LowerChar(s[k]) == s[k];
  }

  lemma {:induction false} CollapseNoDoubleDash(s: string)
    ensures NoDoubleDash(Collapse(s))
    decreases |s|
  {
    if |s| > 1 {
      CollapseNoDoubleDash(s[1..]);
      if !(s[0] == '-' && s[1] == '-') {
        var t := Collapse(s[1..]);
        assert t[0] == s[1];
        assert forall k | 1 <= k < |t| :: ([s[0]] + t)[k] == t[k - 1];
      }
    }
  }

  lemma {:induction false} CollapseChars(s: string)
    requires SlugChars(s)
    ensures SlugChars(Collapse(s))
    decreases |s|
  {
    if |s| > 1 {
      CollapseChars(s[1..]);
      if !(s[0] == '-' && s[1] == '-') {
        SlugCharsConcat([s[0]], Collapse(s[1..]));
      }
    }
  }

  lemma {:induction false} CollapseFixed(s: string)
    requires NoDoubleDash(s)
    ensures Collapse(s) == s
    decreases |s|
  {
    if |s| > 1 {
      CollapseFixed(s[1..]);
      assert s == [s[0]] + s[1..];
    }
  }

  /** Collapsing removes dashes only: every other character stays, in
      order. */
  lemma {:induction false} CollapseKeepsLetters(s: string)
    ensures Letters(Collapse(s)) == Letters(s)
    decreases |s|
  {
    if |s| > 1 {
      CollapseKeepsLetters(s[1..]);
      if s[0] == '-' && s[1] == '-' {
        assert Letters(s) == Letters(s[1..]);
      } else {
        var t := Collapse(s[1..]);
        assert ([s[0]] + t)[1..] == t;
      }
    }
  }

  lemma TrimSlug(t: string)
    requires SlugChars(t) && NoDoubleDash(t)
    ensures IsSlug(TrimDashes(t))
  {
    var a := if |t| > 0 && t[0] == '-' then t[1..] else t;
    assert SlugChars(a) && NoDoubleDash(a);
    assert |a| > 0 ==> a[0] != '-' by {
      if |a| > 0 && |t| > 0 && t[0] == '-' { assert a[0] == t[1]; }
    }
    if |a| > 0 && a[|a| - 1] == '-' {
      var b := a[..|a| - 1];
      assert |b| > 0 ==> b[|b| - 1] == a[|a| - 2];
    }
  }

  lemma TrimFixed(s: string)
    requires IsSlug(s)
    ensures TrimDashes(s) == s
  {
  }

  /** The output is always a slug. */
  lemma TransliterateIsSlug(word: string)
    ensures IsSlug(Transliterate(word))
  {
    var m := MapAll(Lower(word));
    MapAllChars(Lower(word));
    CollapseChars(m);
    CollapseNoDoubleDash(m);
    TrimSlug(Collapse(m));
  }

  /** A slug comes back unchanged, so transliterating twice is the same as
      transliterating once. */
  lemma SlugUnchanged(s: string)
    requires IsSlug(s)
    ensures Transliterate(s) == s
  {
    LowerFixed(s);
    MapAllFixed(s);
    CollapseFixed(s);
    TrimFixed(s);
  }

  lemma TransliterateIdempotent(word: string)
    ensures Transliterate(Transliterate(word)) == Transliterate(word)
  {
    TransliterateIsSlug(word);
    SlugUnchanged(Transliterate(word));
  }

  // ---------------------------------------------------------------------
  // The delivery fee in the cart sidebar and in the checkout summary

  /** The free-delivery bar is shown only for a positive threshold. */
  predicate FreeDeliveryOn(freeFrom: Option<real>)
  {
    freeFrom.Some? && freeFrom.value > 0.0
  }

  /** The fee the sidebar adds: none for an empty cart, none once an
      active threshold is reached, otherwise the delivery cost. */
  function CartFee(freeFrom: Option<real>, cost: real, total: real, empty: bool): real
  {
    if empty then 0.0
    else if FreeDeliveryOn(freeFrom) && total >= freeFrom.value then 0.0
    else cost
  }

  /** The checkout summary's fee: none for a pickup; for a delivery, none
      when a threshold is set and the subtotal reaches it. */
  function CheckoutFee(freeFrom: Option<real>, cost: real, subtotal: real, delivery: bool): real
  {
    if !delivery then 0.0
    else if freeFrom.Some? && subtotal >= freeFrom.value then 0.0
    else cost
  }

  /** The two pages charge the same fee for a delivery of a non-empty cart
      unless the threshold is zero or negative; a threshold of 0 makes the
      sidebar charge the delivery cost and the checkout charge nothing. */
  lemma FeesAgree(freeFrom: Option<real>, cost: real, total: real)
    ensures freeFrom.None? || freeFrom.value > 0.0 ==>
      CartFee(freeFrom, cost, total, false) == CheckoutFee(freeFrom, cost, total, true)
    ensures freeFrom == Some(0.0) && total >= 0.0 ==>
      CartFee(freeFrom, cost, total, false) == cost && CheckoutFee(freeFrom, cost, total, true) == 0.0
  {
  }

  /** What updateCartView shows: the progress bar (percent of the
      threshold, at most 100) and the sidebar's total. */
  datatype CartView = CartView(fee: real, progress: Option<real>, shownTotal: real, checkoutDisabled: bool, badgeShown: bool)

  lemma {:induction false} UnitsAtLeastLines(c: Lines)
    requires forall i | 0 <= i < |c| :: c[i].1.quantity >= 1
    ensures CartUnits(c) >= |c| as real
  {
    if c != [] {
      assert forall i | 0 <= i < |c[1..]| :: c[1..][i] == c[i + 1];
      UnitsAtLeastLines(c[1..]);
    }
  }

  /** In a well-formed cart the unit count is zero exactly when there is no
      line, so `count === 0` and "the cart is empty" are the same test. */
  lemma UnitsZeroIffEmpty(c: Lines)
    requires Wellformed(c)
    ensures CartUnits(c) >= 0.0
    ensures CartUnits(c) == 0.0 <==> c == []
  {
    forall i | 0 <= i < |c| ensures c[i].1.quantity >= 1 {
      Dict.GetIsAt(c, i);
    }
    UnitsAtLeastLines(c);
  }

  /** The bar's percentage passes 100 exactly when the total passes the
      threshold, and is 100 exactly when they are equal. */
  lemma Percent(total: real, threshold: real)
    requires threshold > 0.0
    ensures (total / threshold) * 100.0 > 100.0 <==> total > threshold
    ensures (total / threshold) * 100.0 == 100.0 <==> total == threshold
  {
    var q := total / threshold;
    assert q * threshold == total;
    if q > 1.0 {
      assert q * threshold > 1.0 * threshold;
    } else if q < 1.0 {
      assert q * threshold < 1.0 * threshold;
    }
  }

  method UpdateCartView(cart: Cart, freeFrom: Option<real>, deliveryCost: real) returns (v: CartView)
    requires cart.Valid()
    ensures v.fee == CartFee(freeFrom, deliveryCost, CartTotal(cart.lines), cart.lines == [])
    ensures v.shownTotal == CartTotal(cart.lines) + v.fee
    ensures v.checkoutDisabled <==> cart.lines == []
    ensures v.badgeShown <==> cart.lines != []
    ensures v.progress.Some? <==> cart.lines != [] && FreeDeliveryOn(freeFrom)
    ensures v.progress.Some? ==>
      (v.progress.value <= 100.0 && (v.progress.value == 100.0 <==> CartTotal(cart.lines) >= freeFrom.value))
  {
    var total, count := cart.Summary();
    UnitsZeroIffEmpty(cart.lines);
    var finalDelivery := deliveryCost;
    var progress: Option<real> := None;
    if freeFrom.Some? && freeFrom.value > 0.0 {
      var remaining := freeFrom.value - total;
      var percent := (total / freeFrom.value) * 100.0;
      Percent(total, freeFrom.value);
      if percent > 100.0 {
        percent := 100.0;
      }
      progress := Some(percent);
      if remaining > 0.0 {
        finalDelivery := deliveryCost;
      } else {
        finalDelivery := 0.0;
      }
    }
    if count == 0 {
      finalDelivery := 0.0;
      progress := None;
    }
    v := CartView(finalDelivery, progress, total + finalDelivery, count == 0, count > 0);
  }

  /** The older shop page's updateCartView, without a delivery fee: the
      total and the count of units, the checkout button disabled exactly
      when there is no line and the badge shown exactly when there is one. */
  method UpdatePlainCartView(cart: Cart) returns (total: real, count: int, checkoutDisabled: bool, badgeShown: bool)
    requires cart.Valid()
    ensures total == CartTotal(cart.lines) && count as real == CartUnits(cart.lines)
    ensures checkoutDisabled <==> cart.lines == []
    ensures badgeShown <==> cart.lines != []
  {
    total, count := cart.Summary();
    UnitsZeroIffEmpty(cart.lines);
    checkoutDisabled := |cart.lines| == 0;
    badgeShown := count > 0;
  }

  /** updateCheckoutTotal: the subtotal, the fee and their sum. */
  method UpdateCheckoutTotal(cart: Cart, freeFrom: Option<real>, deliveryCost: real, delivery: bool)
    returns (subtotal: real, fee: real, total: real)
    ensures subtotal == CartTotal(cart.lines)
    ensures fee == CheckoutFee(freeFrom, deliveryCost, subtotal, delivery)
    ensures total == subtotal + fee
  {
    var units;
    subtotal, units := cart.Summary();
    fee := 0.0;
    if delivery {
      if freeFrom.Some? && subtotal >= freeFrom.value {
        fee := 0.0;
      } else {
        fee := deliveryCost;
      }
    } else {
      fee := 0.0;
    }
    total := subtotal + fee;
  }

  // ---------------------------------------------------------------------
  // The phone field

  /** The input handler: keep the digits, put "380" in front unless they
      already start with it, cut to twelve digits and prefix '+'. (The
      `replace(/^380/, '')` inside the prefixing branch never fires, since
      that branch runs only when the digits do not start with "380".) */
  function PhoneInput(value: string): string
  {
    var d := DigitsOf(value);
    var v := if |d| >= 3 && d[..3] == "380" then d else "380" + d;
    "+" + (if |v| > 12 then v[..12] else v)
  }

  /** Focusing an empty field fills in the country code. */
  function PhoneFocus(value: string): (r: string)
    ensures value != "" ==> r == value
    ensures value == "" ==> r == PhoneInput(value)
  {
    if value == "" then "+380" else value
  }

  /** The submit handler refuses fewer than 13 characters. */
  predicate PhoneSubmittable(value: string) { |value| >= 13 }

  /** The field always holds "+380" and then at most nine more digits. */
  lemma PhoneShape(value: string)
    ensures var r := PhoneInput(value);
      4 <= |r| <= 13 && r[..4] == "+380" && AllDigits(r[1..])
  {
    var d := DigitsOf(value);
    var v := if |d| >= 3 && d[..3] == "380" then d else "380" + d;
    var w := if |v| > 12 then v[..12] else v;
    assert AllDigits(v) by {
      if !(|d| >= 3 && d[..3] == "380") {
        assert forall k | 3 <= k < |v| :: v[k] == d[k - 3];
      }
    }
    assert w[..3] == "380";
    assert AllDigits(w);
    var r := "+" + w;
    assert r == PhoneInput(value);
    assert r[..4] == "+" + w[..3];
    assert r[1..] == w;
  }

  /** Typing into a field the handler produced changes nothing. */
  lemma PhoneInputIdempotent(value: string)
    ensures PhoneInput(PhoneInput(value)) == PhoneInput(value)
  {
    var r := PhoneInput(value);
    PhoneShape(value);
    var w := r[1..];
    assert DigitsOf(r) == DigitsOf(w) by {
      assert r == "+" + w;
      assert r[1..] == w;
    }
    assert DigitsOf(w) == w;
    assert w[..3] == r[..4][1..];
  }

  /** A value the handler produced can be submitted exactly when it holds
      twelve digits, and then the server's `^\+?\d{10,15}$` accepts it. */
  lemma PhoneSubmitMeaning(value: string)
    ensures var r := PhoneInput(value);
      (PhoneSubmittable(r) <==> |r[1..]| == 12)
      && (PhoneSubmittable(r) ==> Checkout.PhoneMatches(r))
  {
    PhoneShape(value);
  }

  /** A ten-digit national number typed without the country code (it
      starts with its trunk '0', so not with "380") keeps that zero after
      "380" and loses its last digit, yet can be submitted. */
  lemma NationalNumberLosesLastDigit(typed: string)
    requires |typed| == 10 && AllDigits(typed) && typed[0] == '0'
    ensures PhoneInput(typed) == "+380" + typed[..9]
    ensures PhoneSubmittable(PhoneInput(typed))
  {
    var v := "380" + typed;
    assert typed[..3] != "380" by {
      assert typed[..3][0] == '0';
    }
    assert v[..12] == "380" + typed[..9];
    assert "+" + ("380" + typed[..9]) == "+380" + typed[..9];
  }
}
