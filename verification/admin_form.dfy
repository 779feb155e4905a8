/** The admin panel's order form (new order and edit order): its item
    dictionary is a Carts.Cart keyed by the product id (addProductToOrder is
    AddPlain, the quantity box SetQuantity, × RemoveLine, calculateTotals
    Summary); this module adds the form's initialisation and the product
    picker's search. */
module AdminForm {
  import opened Wrappers
  import opened Text
  import opened Records
  import opened Carts

  // ---------------------------------------------------------------------
  // Search: a case-insensitive substring match on the product name

  /** `name.toLowerCase().includes(term.toLowerCase())`. */
  predicate NameMatches(name: string, term: string)
  {
    Contains(Lower(name), Lower(term))
  }

  /** `products.filter(...)`: the matching products in their order. */
  function Search(products: seq<Product>, term: string): (r: seq<Product>)
    ensures |r| <= |products|
  {
    if products == [] then []
    else (if NameMatches(products[0].name, term) then [products[0]] else []) + Search(products[1..], term)
  }

  /** A product is listed exactly when it is in the list and its name
      matches. */
  lemma {:induction false} SearchMembers(products: seq<Product>, term: string, p: Product)
    ensures p in Search(products, term) <==> p in products && NameMatches(p.name, term)
  {
    if products != [] {
      SearchMembers(products[1..], term, p);
      assert products == [products[0]] + products[1..];
    }
  }

  /** The search keeps the products' order: the result is the list with
      the non-matching products left out. */
  lemma {:induction false} SearchAppend(a: seq<Product>, b: seq<Product>, term: string)
    ensures Search(a + b, term) == Search(a, term) + Search(b, term)
  {
    if a == [] {
      assert a + b == b;
    } else {
      var h := if NameMatches(a[0].name, term) then [a[0]] else [];
      assert (a + b)[0] == a[0] && (a + b)[1..] == a[1..] + b;
      assert Search(a + b, term) == h + Search(a[1..] + b, term);
      assert Search(a, term) == h + Search(a[1..], term);
      SearchAppend(a[1..], b, term);
    }
  }

  lemma EmptyOccurs(s: string)
    ensures Contains(s, "")
  {
    assert OccursAt(s, "", 0);
  }

  /** An empty search box lists everything. */
  lemma {:induction false} EmptyTermKeepsAll(products: seq<Product>)
    ensures Search(products, "") == products
  {
    if products != [] {
      assert Lower("") == "";
      EmptyOccurs(Lower(products[0].name));
      assert NameMatches(products[0].name, "");
      EmptyTermKeepsAll(products[1..]);
      assert products == [products[0]] + products[1..];
    }
  }

  // ---------------------------------------------------------------------
  // The form

  const NewOrderAction: string := "/api/admin/order/new"
  const NewOrderButton: string := "Створити замовлення"

  /** `data.form_values`: the customer fields of an order being edited. */
  datatype FormValues = FormValues(phoneNumber: Option<string>, customerName: Option<string>, isDelivery: bool, address: Option<string>)

  /** The data the server injects into the page. */
  datatype FormData = FormData(action: string, submitText: string, values: Option<FormValues>, items: Option<Lines>)

  class OrderForm {
    var action: string
    var submitText: string
    var phoneNumber: string
    var customerName: string
    var deliveryType: string
    var address: string
    /** `orderItems`. */
    const items: Cart

    ghost predicate Valid()
      reads this, items
    {
      items.Valid()
    }

    constructor ()
      ensures Valid() && items.lines == [] && fresh(items)
      ensures action == NewOrderAction && submitText == NewOrderButton
      ensures phoneNumber == "" && customerName == "" && deliveryType == "delivery" && address == ""
    {
      action := NewOrderAction;
      submitText := NewOrderButton;
      phoneNumber, customerName, deliveryType, address := "", "", "delivery", "";
      items := new Cart();
    }

    /** initializeForm: without data the form resets to an empty new
        order; with data it takes the action, the button text, the
        customer fields (a missing text becomes '') and the items (none
        given is an empty dictionary). */
    method Initialize(data: Option<FormData>)
      modifies this, items
      ensures data.None? ==> action == NewOrderAction && submitText == NewOrderButton && items.lines == []
      ensures data.Some? ==>
        (action == data.value.action && submitText == data.value.submitText
         && items.lines == data.value.items.GetOr([]))
      ensures data.Some? && data.value.values.Some? ==>
        (var v := data.value.values.value;
         phoneNumber == v.phoneNumber.GetOr("") && customerName == v.customerName.GetOr("")
         && deliveryType == (if v.isDelivery then "delivery" else "pickup") && address == v.address.GetOr(""))
      ensures data.None? || data.value.values.None? ==>
        (phoneNumber == old(phoneNumber) && customerName == old(customerName)
         && deliveryType == old(deliveryType) && address == old(address))
      ensures data.None? || data.value.items.None? ==> Valid()
    {
      if data.None? {
        action := NewOrderAction;
        submitText := NewOrderButton;
        items.lines := [];
        return;
      }
      var d := data.value;
      action := d.action;
      submitText := d.submitText;
      if d.values.Some? {
        var v := d.values.value;
        phoneNumber := v.phoneNumber.GetOr("");
        customerName := v.customerName.GetOr("");
        deliveryType := if v.isDelivery then "delivery" else "pickup";
        address := v.address.GetOr("");
      }
      items.lines := d.items.GetOr([]);
    }
  }
}
