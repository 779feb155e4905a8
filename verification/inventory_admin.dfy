/** The warehouse admin pages around the stock ledger: creating, filling,
    deleting and approving documents, entering an inventory count, and
    adding and deleting warehouses. Every edit of a document is refused once
    the document has been posted. */
module InventoryAdmin {
  import opened Wrappers
  import opened Text
  import opened Dict
  import opened Inventory

  datatype AdminError =
    | NotFound                  // 404
    | Locked                    // 400: the document is missing or already posted
    | SupplierRequired
    | TargetRequired
    | BothWarehousesRequired
    | SameWarehouses
    | SourceRequired
    | EmptyDocument
    | HasStock
    | StillReferenced           // the delete's flush fails on a foreign key
    | Posting(cause: StockError)

  // ---------------------------------------------------------------------
  // Creating a document

  /** An optional form field read as an id: a field that is all digits once
      its surrounding whitespace is dropped, else no id. */
  function FormId(field: Option<string>): Option<nat>
  {
    if field.Some? && |Strip(field.value)| > 0 && AllDigits(Strip(field.value)) then
      Some(DigitsValue(Strip(field.value)))
    else None
  }

  /** The id the select box sends back is the id it was rendered from. */
  lemma FormIdReadsPrintedId(n: nat)
    ensures FormId(Some(NatToString(n))) == Some(n)
  {
    var s := NatToString(n);
    assert StripStart(s) == s by { assert !IsSpace(s[0]); }
    assert StripEnd(s) == s by { assert !IsSpace(s[|s| - 1]); }
    NatToStringRoundTrip(n);
  }

  /** create_doc_action: each document type's required fields, then a new
      unposted document with no lines. */
  function CreateDocSpec(l: Ledger, docType: string, supplier: Option<string>, source: Option<string>, target: Option<string>)
    : Result<Ledger, AdminError>
  {
    var s, src, tgt := FormId(supplier), FormId(source), FormId(target);
    if docType == "supply" && !Given(s) then Err(SupplierRequired)
    else if docType == "supply" && !Given(tgt) then Err(TargetRequired)
    else if docType == "transfer" && !(Given(src) && Given(tgt)) then Err(BothWarehousesRequired)
    else if docType == "transfer" && src == tgt then Err(SameWarehouses)
    else if docType == "writeoff" && !Given(src) then Err(SourceRequired)
    else Ok(Created(l, Doc(docType, s, src, tgt, [], false, None)))
  }

  /** The ledger with d stored under the next document id. */
  function Created(l: Ledger, d: Doc): Ledger
  {
    l.(docs := l.docs[l.nextDocId := d], nextDocId := l.nextDocId + 1)
  }

  /** Storing a document under the next id keeps the others and the
      invariant. */
  lemma CreatedKeeps(l: Ledger, d: Doc)
    requires Inv(l)
    ensures var l2 := Created(l, d);
      && l.nextDocId !in l.docs && l2.docs[l.nextDocId] == d
      && (forall id | id in l.docs :: id in l2.docs && l2.docs[id] == l.docs[id])
      && l2.stock == l.stock
      && Inv(l2)
  {
  }

  /** The form is accepted exactly when the fields its type needs are
      given, and a transfer's two warehouses differ. */
  lemma CreateDocChecks(l: Ledger, docType: string, supplier: Option<string>, source: Option<string>, target: Option<string>)
    ensures var s, src, tgt := FormId(supplier), FormId(source), FormId(target);
      CreateDocSpec(l, docType, supplier, source, target).Ok? <==>
        && (docType == "supply" ==> Given(s) && Given(tgt))
        && (docType == "transfer" ==> Given(src) && Given(tgt) && src != tgt)
        && (docType == "writeoff" ==> Given(src))
  {
  }

  /** The new document is unposted and empty, takes a fresh id and leaves
      the other documents and the stock alone; one a supply, transfer or
      write-off form created always has the warehouses posting asks for. */
  lemma CreateDocAdds(l: Ledger, docType: string, supplier: Option<string>, source: Option<string>, target: Option<string>)
    requires Inv(l)
    requires CreateDocSpec(l, docType, supplier, source, target).Ok?
    ensures var l2 := CreateDocSpec(l, docType, supplier, source, target).value;
      var d := l2.docs[l.nextDocId];
      && l.nextDocId !in l.docs
      && d.docType == docType && d.items == [] && !d.isProcessed
      && (docType == "supply" || docType == "transfer" || docType == "writeoff" ==> !MissingWarehouse(d))
      && (forall id | id in l.docs :: id in l2.docs && l2.docs[id] == l.docs[id])
      && l2.stock == l.stock
      && Inv(l2)
  {
    CreatedKeeps(l, Doc(docType, FormId(supplier), FormId(source), FormId(target), [], false, None));
  }

  // ---------------------------------------------------------------------
  // Lines, deletion, approval

  /** delete_document: a missing document is a 404, a posted one a 400. */
  function DeleteDocSpec(l: Ledger, docId: nat): Result<Ledger, AdminError>
  {
    if docId !in l.docs then Err(NotFound)
    else if l.docs[docId].isProcessed then Err(Locked)
    else Ok(l.(docs := l.docs - {docId}))
  }

  /** add_doc_item: a new line with the next item id on an unposted
      document. */
  function AddDocItemSpec(l: Ledger, docId: nat, ingredientId: nat, quantity: real, price: real): Result<Ledger, AdminError>
  {
    if docId !in l.docs || l.docs[docId].isProcessed then Err(Locked)
    else
      var d := l.docs[docId];
      var item := DocItem(l.nextItemId, ingredientId, quantity, price);
      Ok(l.(docs := l.docs[docId := d.(items := d.items + [item])], nextItemId := l.nextItemId + 1))
  }

  /** The lines left after deleting the line with this id. */
  function RemoveItem(items: seq<DocItem>, itemId: nat): (r: seq<DocItem>)
    ensures forall it | it in r :: it in items && it.id != itemId
    ensures forall it | it in items && it.id != itemId :: it in r
  {
    if items == [] then []
    else if items[0].id == itemId then RemoveItem(items[1..], itemId)
    else [items[0]] + RemoveItem(items[1..], itemId)
  }

  /** del_doc_item as written: the route's document is checked, but the
      line is looked up by its own id alone, so it is deleted from whatever
      document holds it. */
  function DelDocItemAsWritten(l: Ledger, docId: nat, itemId: nat): Result<Ledger, AdminError>
  {
    if docId !in l.docs || l.docs[docId].isProcessed then Err(Locked)
    else Ok(l.(docs := map id | id in l.docs :: l.docs[id].(items := RemoveItem(l.docs[id].items, itemId))))
  }

  /** A posted supply (document 1) holding line 7 and an open document 2:
      deleting "line 7 of document 2" passes the guard and strips the line
      from the posted document. */
  lemma DelDocItemEditsPostedDoc()
    ensures var posted := Doc("supply", Some(1), None, Some(1), [DocItem(7, 1, 5.0, 10.0)], true, None);
      var open := Doc("supply", Some(1), None, Some(1), [], false, None);
      var l := Ledger([((1, 1), 5.0)], map[], [(1, Warehouse("Store", false, None))], map[1 := posted, 2 := open], 3, 8);
      && DelDocItemAsWritten(l, 2, 7).Ok?
      && DelDocItemAsWritten(l, 2, 7).value.docs[1].isProcessed
      && DelDocItemAsWritten(l, 2, 7).value.docs[1].items == []
  {
    var posted := Doc("supply", Some(1), None, Some(1), [DocItem(7, 1, 5.0, 10.0)], true, None);
    assert RemoveItem(posted.items, 7) == RemoveItem([], 7);
  }

  /** del_doc_item with the line's document checked against the route's:
      a line of another document is left alone. */
  function DelDocItemSpec(l: Ledger, docId: nat, itemId: nat): Result<Ledger, AdminError>
  {
    if docId !in l.docs || l.docs[docId].isProcessed then Err(Locked)
    else
      var d := l.docs[docId];
      Ok(l.(docs := l.docs[docId := d.(items := RemoveItem(d.items, itemId))]))
  }

  /** approve_doc: the number of the document's lines, 0 for a missing
      document. */
  function ItemCount(l: Ledger, docId: nat): nat
  {
    if docId in l.docs then |l.docs[docId].items| else 0
  }

  /** approve_doc: a document without lines (or no document) is refused
      before posting; otherwise it is posted. */
  function ApproveDocSpec(l: Ledger, docId: nat): Result<Ledger, AdminError>
  {
    if ItemCount(l, docId) == 0 then Err(EmptyDocument)
    else
      match ApplyDocSpec(l, docId)
      case Ok(l2) => Ok(l2)
      case Err(e) => Err(Posting(e))
  }

  /** Approval never posts an empty document, posts what apply_doc_stock_changes
      posts, and a second approval is refused. */
  lemma ApproveOnce(l: Ledger, docId: nat)
    ensures ItemCount(l, docId) == 0 ==> ApproveDocSpec(l, docId) == Err(EmptyDocument)
    ensures ApproveDocSpec(l, docId).Ok? ==>
      && l.docs[docId].items != []
      && ApplyDocSpec(l, docId) == Ok(ApproveDocSpec(l, docId).value)
      && ApproveDocSpec(ApproveDocSpec(l, docId).value, docId) == Err(Posting(AlreadyProcessed))
  {
    if ApproveDocSpec(l, docId).Ok? {
      ApplyDocOnce(l, docId);
      var l2 := ApplyDocSpec(l, docId).value;
      assert l2.docs[docId].items == l.docs[docId].items;
      assert ItemCount(l2, docId) != 0;
    }
  }

  // ---------------------------------------------------------------------
  // Entering an inventory count

  /** The part of s before its first '_', all of s without one. */
  function FirstField(s: string): (r: string)
    ensures |r| <= |s|
  {
    match Find(s, "_")
    case None => s
    case Some(i) => s[..i]
  }

  /** The item id of a `qty_<id>` form key: the second '_'-separated field
      read with int(); None for other keys and for a field int() refuses. */
  function CountKey(key: string): Option<int>
  {
    if |key| >= 4 && key[..4] == "qty_" then ParseInt(FirstField(key[4..])) else None
  }

  /** The first line with this id gets the counted quantity (the loop
      breaks at the first match). */
  function SetCount(items: seq<DocItem>, id: int, q: real): (r: seq<DocItem>)
    ensures |r| == |items|
    ensures forall k | 0 <= k < |items| ::
      r[k] == if items[k].id == id && (forall t | 0 <= t < k :: items[t].id != id) then items[k].(quantity := q) else items[k]
  {
    if items == [] then []
    else if items[0].id == id then [items[0].(quantity := q)] + items[1..]
    else [items[0]] + SetCount(items[1..], id, q)
  }

  /** A form field that names a line and carries a number; float() of the
      value is abstracted as an optional number. */
  function FieldCount(field: (string, Option<real>)): Option<(int, real)>
  {
    if CountKey(field.0).Some? && field.1.Some? then Some((CountKey(field.0).value, field.1.value)) else None
  }

  /** The form's fields applied in order; malformed ones are skipped. */
  function ApplyCounts(items: seq<DocItem>, form: seq<(string, Option<real>)>): seq<DocItem>
    decreases |form|
  {
    if form == [] then items
    else ApplyCounts(ApplyField(items, form[0]), form[1..])
  }

  /** One field of the form applied to the lines. */
  function ApplyField(items: seq<DocItem>, field: (string, Option<real>)): seq<DocItem>
  {
    match FieldCount(field)
    case None => items
    case Some(c) => SetCount(items, c.0, c.1)
  }

  lemma {:induction false} ApplyCountsSnoc(items: seq<DocItem>, form: seq<(string, Option<real>)>, field: (string, Option<real>))
    ensures ApplyCounts(items, form + [field]) == ApplyField(ApplyCounts(items, form), field)
    decreases |form|
  {
    if form == [] {
      assert [] + [field] == [field];
    } else {
      assert (form + [field])[1..] == form[1..] + [field];
      ApplyCountsSnoc(ApplyField(items, form[0]), form[1..], field);
    }
  }

  /** The last well-formed field of the form that names line `id`. */
  function LastCount(form: seq<(string, Option<real>)>, id: int): Option<real>
  {
    if form == [] then None
    else
      match LastCount(form[1..], id)
      case Some(q) => Some(q)
      case None => if FieldCount(form[0]).Some? && FieldCount(form[0]).value.0 == id then Some(FieldCount(form[0]).value.1) else None
  }

  predicate DistinctItemIds(items: seq<DocItem>)
  {
    forall a, b | 0 <= a < b < |items| :: items[a].id != items[b].id
  }

  /** Each line ends with the last quantity the form gives for it and keeps
      its quantity when the form names it nowhere; nothing else about a line
      changes. */
  lemma {:induction false} CountsEffect(items: seq<DocItem>, form: seq<(string, Option<real>)>)
    requires DistinctItemIds(items)
    ensures var r := ApplyCounts(items, form);
      && |r| == |items|
      && forall k | 0 <= k < |items| :: r[k] == items[k].(quantity := LastCount(form, items[k].id).GetOr(items[k].quantity))
    decreases |form|
  {
    if form != [] {
      var next := ApplyField(items, form[0]);
      assert |next| == |items| && forall k | 0 <= k < |items| ::
        next[k] == items[k].(quantity := if FieldCount(form[0]).Some? && FieldCount(form[0]).value.0 == items[k].id
                                         then FieldCount(form[0]).value.1 else items[k].quantity);
      assert DistinctItemIds(next);
      CountsEffect(next, form[1..]);
    }
  }

  lemma ApplyCountsStep(items: seq<DocItem>, form: seq<(string, Option<real>)>, k: nat)
    requires k < |form|
    ensures ApplyCounts(items, form[..k + 1]) == ApplyField(ApplyCounts(items, form[..k]), form[k])
  {
    assert form[..k + 1] == form[..k] + [form[k]];
    ApplyCountsSnoc(items, form[..k], form[k]);
  }

  /** SetCount at the first line carrying the id. */
  lemma SetCountAt(items: seq<DocItem>, id: int, q: real, j: nat)
    requires j < |items| && items[j].id == id && forall t | 0 <= t < j :: items[t].id != id
    ensures SetCount(items, id, q) == items[j := items[j].(quantity := q)]
  {
  }

  /** A well-formed field sets the quantity of the first line carrying its
      id, found at j, and changes nothing when no line carries it (j is
      then the length); a malformed field changes nothing. */
  lemma FieldAt(items: seq<DocItem>, field: (string, Option<real>), j: nat)
    requires FieldCount(field).Some? ==>
      var id := FieldCount(field).value.0;
      && j <= |items| && (forall t | 0 <= t < j :: items[t].id != id)
      && (j < |items| ==> items[j].id == id)
    ensures FieldCount(field).None? ==> ApplyField(items, field) == items
    ensures FieldCount(field).Some? && j < |items| ==>
      ApplyField(items, field) == items[j := items[j].(quantity := FieldCount(field).value.1)]
    ensures FieldCount(field).Some? && j == |items| ==> ApplyField(items, field) == items
  {
    if FieldCount(field).Some? {
      var (id, q) := FieldCount(field).value;
      if j < |items| {
        SetCountAt(items, id, q, j);
      } else {
        assert SetCount(items, id, q) == items;
      }
    }
  }

  /** The inner loop of update_inventory_check: the first line carrying
      the id, or the array's length when none does. */
  method FindLine(items: array<DocItem>, id: int) returns (j: nat)
    ensures j <= items.Length
    ensures forall t | 0 <= t < j :: items[t].id != id
    ensures j < items.Length ==> items[j].id == id
  {
    j := 0;
    while j < items.Length && items[j].id != id
      invariant j <= items.Length
      invariant forall t | 0 <= t < j :: items[t].id != id
    {
      j := j + 1;
    }
  }

  /** One field of the form: a well-formed one sets the quantity of the
      first line carrying its id; a malformed one is skipped. */
  method SaveField(items: array<DocItem>, field: (string, Option<real>))
    modifies items
    ensures items[..] == ApplyField(old(items[..]), field)
  {
    ghost var prev := items[..];
    var c := FieldCount(field);
    if c.Some? {
      var id, q := c.value.0, c.value.1;
      var j := FindLine(items, id);
      FieldAt(prev, field, j);
      if j < items.Length {
        items[j] := items[j].(quantity := q);
        assert items[..] == prev[j := prev[j].(quantity := q)];
      }
    } else {
      FieldAt(prev, field, 0);
    }
  }

  /** update_inventory_check's nested loop over the document's lines, in
      place. */
  method UpdateCounts(items: array<DocItem>, form: seq<(string, Option<real>)>)
    modifies items
    ensures items[..] == ApplyCounts(old(items[..]), form)
  {
    var k := 0;
    while k < |form|
      invariant 0 <= k <= |form|
      invariant items[..] == ApplyCounts(old(items[..]), form[..k])
    {
      ApplyCountsStep(old(items[..]), form, k);
      SaveField(items, form[k]);
      k := k + 1;
    }
    assert form[..k] == form;
  }

  /** update_inventory_check: the counts are saved first; with "approve"
      the count is then posted, and a posting failure leaves the saved
      counts in place. */
  function UpdateCheckSpec(l: Ledger, docId: nat, form: seq<(string, Option<real>)>, approve: bool): (Ledger, Option<AdminError>)
  {
    if docId !in l.docs || l.docs[docId].isProcessed then (l, Some(Locked))
    else
      var d := l.docs[docId];
      var saved := l.(docs := l.docs[docId := d.(items := ApplyCounts(d.items, form))]);
      if !approve then (saved, None)
      else
        match InventoryCheckSpec(saved, docId)
        case Ok(l2) => (l2, None)
        case Err(e) => (saved, Some(Posting(e)))
  }

  /** Entering a count and approving it corrects each row of the counted
      warehouse by the entered lines' differences against the booked
      quantity, and leaves every other row as it was; when each ingredient
      has one line, its row ends at the quantity entered for it. */
  lemma UpdateThenApproveSetsStock(l: Ledger, docId: nat, form: seq<(string, Option<real>)>, k: nat, w: nat, i: nat)
    requires Inv(l) && docId in l.docs
    requires UpdateCheckSpec(l, docId, form, true).1.None?
    requires DistinctItemIds(l.docs[docId].items)
    requires k < |l.docs[docId].items|
    ensures var d := l.docs[docId];
      var after := UpdateCheckSpec(l, docId, form, true).0.stock;
      && (w == d.source.value ==>
            Qty(after, w, i) == Qty(l.stock, w, i) + CountNet(l.stock, w, ApplyCounts(d.items, form), i))
      && (DistinctIngredients(d.items) && d.items[k].ingredientId == i && w == d.source.value ==>
            Qty(after, w, i) == LastCount(form, d.items[k].id).GetOr(d.items[k].quantity))
      && (w != d.source.value || !Counted(d.items, i) ==> Qty(after, w, i) == Qty(l.stock, w, i))
  {
    var d := l.docs[docId];
    var items := ApplyCounts(d.items, form);
    var saved := l.(docs := l.docs[docId := d.(items := items)]);
    CountsEffect(d.items, form);
    assert DistinctIngredients(d.items) ==> DistinctIngredients(items) by {
      if DistinctIngredients(d.items) {
        forall a, b | 0 <= a < b < |items| ensures items[a].ingredientId != items[b].ingredientId {
          assert items[a].ingredientId == d.items[a].ingredientId && items[b].ingredientId == d.items[b].ingredientId;
        }
      }
    }
    assert Counted(items, i) ==> Counted(d.items, i) by {
      if Counted(items, i) {
        var t :| 0 <= t < |items| && items[t].ingredientId == i;
        assert d.items[t].ingredientId == i;
      }
    }
    InventoryCheckSetsCounts(saved, docId, w, i);
    assert items[k].ingredientId == d.items[k].ingredientId;
  }

  // ---------------------------------------------------------------------
  // Guards shared by the document edits

  /** A posted document is still there, unchanged. */
  ghost predicate PostedKept(l: Ledger, l2: Ledger)
  {
    forall id | id in l.docs && l.docs[id].isProcessed :: id in l2.docs && l2.docs[id] == l.docs[id]
  }

  /** Adding or deleting a line, deleting a document and saving a count
      leave every posted document as it was; the corrected line deletion
      touches only the route's document and removes exactly that line. */
  lemma EditsKeepPostedDocs(l: Ledger, docId: nat, itemId: nat, ing: nat, q: real, p: real, form: seq<(string, Option<real>)>)
    ensures AddDocItemSpec(l, docId, ing, q, p).Ok? ==> PostedKept(l, AddDocItemSpec(l, docId, ing, q, p).value)
    ensures DelDocItemSpec(l, docId, itemId).Ok? ==> PostedKept(l, DelDocItemSpec(l, docId, itemId).value)
    ensures DeleteDocSpec(l, docId).Ok? ==> PostedKept(l, DeleteDocSpec(l, docId).value)
    ensures PostedKept(l, UpdateCheckSpec(l, docId, form, false).0)
    ensures DelDocItemSpec(l, docId, itemId).Ok? ==>
      var l2 := DelDocItemSpec(l, docId, itemId).value;
      && (forall id | id in l.docs && id != docId :: l2.docs[id] == l.docs[id])
      && (forall it | it in l.docs[docId].items :: it in l2.docs[docId].items <==> it.id != itemId)
  {
  }

  /** A line added to an open document is its last line, with a fresh id;
      adding keeps the ledger's invariant. */
  lemma AddDocItemAppends(l: Ledger, docId: nat, ing: nat, q: real, p: real)
    requires Inv(l)
    ensures AddDocItemSpec(l, docId, ing, q, p).Ok? <==> docId in l.docs && !l.docs[docId].isProcessed
    ensures AddDocItemSpec(l, docId, ing, q, p).Ok? ==>
      var l2 := AddDocItemSpec(l, docId, ing, q, p).value;
      && l2.docs[docId].items == l.docs[docId].items + [DocItem(l.nextItemId, ing, q, p)]
      && l2.nextItemId > l.nextItemId
      && Inv(l2)
  {
  }

  // ---------------------------------------------------------------------
  // Warehouses

  /** The largest warehouse id in use, 0 for none. */
  function MaxWarehouseId(ws: seq<(nat, Warehouse)>): (m: nat)
    ensures forall k: nat | HasKey(ws, k) :: k <= m
  {
    if ws == [] then 0
    else
      var rest := MaxWarehouseId(ws[1..]);
      assert forall k: nat | HasKey(ws, k) && k != ws[0].0 :: HasKey(ws[1..], k);
      if ws[0].0 > rest then ws[0].0 else rest
  }

  /** add_warehouse: a new warehouse under a fresh id; the link to a store
      room is kept only for a production warehouse. */
  function AddWarehouseSpec(l: Ledger, name: string, isProduction: bool, linked: Option<nat>): Ledger
  {
    var id: nat := MaxWarehouseId(l.warehouses) + 1;
    l.(warehouses := Put<nat, Warehouse>(l.warehouses, id, Warehouse(name, isProduction, if isProduction then linked else None)))
  }

  /** The new warehouse is appended with a fresh non-zero id, the others
      are kept, and deductions that reach a new non-production warehouse
      stay in it. */
  lemma AddWarehouseLinks(l: Ledger, name: string, isProduction: bool, linked: Option<nat>, fallback: nat)
    requires Inv(l)
    ensures var l2 := AddWarehouseSpec(l, name, isProduction, linked);
      var id: nat := MaxWarehouseId(l.warehouses) + 1;
      && !HasKey(l.warehouses, id)
      && l2.warehouses == l.warehouses + [(id, Warehouse(name, isProduction, if isProduction then linked else None))]
      && Get(l2.warehouses, id) == Some(Warehouse(name, isProduction, if isProduction then linked else None))
      && (!isProduction ==> Resolve(l2.warehouses, fallback, id) == id)
      && Inv(l2)
  {
    var id: nat := MaxWarehouseId(l.warehouses) + 1;
    var w := Warehouse(name, isProduction, if isProduction then linked else None);
    PutAbsentAppends<nat, Warehouse>(l.warehouses, id, w);
    PutDistinct<nat, Warehouse>(l.warehouses, id, w);
    var l2 := AddWarehouseSpec(l, name, isProduction, linked);
    assert forall k: nat | HasKey(l2.warehouses, k) :: k == id || HasKey(l.warehouses, k);
  }

  /** A row of warehouse w holding anything. */
  predicate HasNonZeroRow(st: StockTable, w: nat)
  {
    exists k | 0 <= k < |st| :: st[k].0.0 == w && st[k].1 != 0.0
  }

  /** Something in the ledger still pointing at warehouse w: a stock row
      of any quantity (stocks.warehouse_id is not nullable and the
      relationship has no delete cascade), a document's source or target,
      or another warehouse's link. */
  predicate Referenced(l: Ledger, w: nat)
  {
    || (exists k | 0 <= k < |l.stock| :: l.stock[k].0.0 == w)
    || (exists id | id in l.docs :: l.docs[id].source == Some(w) || l.docs[id].target == Some(w))
    || (exists k | 0 <= k < |l.warehouses| :: l.warehouses[k].0 != w && l.warehouses[k].1.linkedWarehouseId == Some(w))
  }

  /** delete_warehouse: an unknown id is a no-op; a warehouse with stock
      is refused; otherwise the row is deleted, and the commit fails (the
      warehouse stays) while anything still refers to it. */
  function DeleteWarehouseSpec(l: Ledger, w: nat): Result<Ledger, AdminError>
  {
    if !HasKey(l.warehouses, w) then Ok(l)
    else if HasNonZeroRow(l.stock, w) then Err(HasStock)
    else if Referenced(l, w) then Err(StillReferenced)
    else Ok(l.(warehouses := Remove<nat, Warehouse>(l.warehouses, w)))
  }

  /** A warehouse holding some ingredient is refused; one that holds none
      is deleted exactly when nothing refers to it any more, so a deletion
      loses no stock and leaves no row, document or link pointing at a
      missing warehouse. */
  lemma DeleteWarehouseLosesNoStock(l: Ledger, w: nat)
    requires Inv(l) && HasKey(l.warehouses, w)
    ensures DeleteWarehouseSpec(l, w) == Err(HasStock) <==> exists i: nat :: Qty(l.stock, w, i) != 0.0
    ensures DeleteWarehouseSpec(l, w).Ok? <==> (forall i: nat :: Qty(l.stock, w, i) == 0.0) && !Referenced(l, w)
    ensures DeleteWarehouseSpec(l, w).Ok? ==>
      var l2 := DeleteWarehouseSpec(l, w).value;
      !HasKey(l2.warehouses, w) && l2.stock == l.stock && !Referenced(l2, w) && Inv(l2)
  {
    if HasNonZeroRow(l.stock, w) {
      var k :| 0 <= k < |l.stock| && l.stock[k].0.0 == w && l.stock[k].1 != 0.0;
      GetIsAt(l.stock, k);
      assert Qty(l.stock, w, l.stock[k].0.1) != 0.0;
    } else {
      forall i: nat ensures Qty(l.stock, w, i) == 0.0 {
        if HasKey(l.stock, (w, i)) {
          GetIn(l.stock, (w, i));
        }
      }
      if !Referenced(l, w) {
        RemoveDistinct<nat, Warehouse>(l.warehouses, w);
        var l2 := DeleteWarehouseSpec(l, w).value;
        assert forall k: nat | HasKey(l2.warehouses, k) :: HasKey(l.warehouses, k);
        RemoveLinks(l.warehouses, w);
      }
    }
  }

  /** Removing a warehouse keeps the other rows of the table. */
  lemma {:induction false} RemoveLinks(ws: seq<(nat, Warehouse)>, w: nat)
    ensures forall k | 0 <= k < |Remove<nat, Warehouse>(ws, w)| ::
      Remove<nat, Warehouse>(ws, w)[k] in ws && Remove<nat, Warehouse>(ws, w)[k].0 != w
    decreases ws
  {
    if ws != [] {
      RemoveLinks(ws[1..], w);
    }
  }

  // ---------------------------------------------------------------------
  // Navigation

  /** get_nav: the tab to highlight; the rules page sits under the
      modifiers tab. */
  function NavHighlight(activeTab: string): (r: string)
    ensures r != "rules"
    ensures activeTab != "rules" ==> r == activeTab
  {
    if activeTab == "rules" then "modifiers" else activeTab
  }
}
