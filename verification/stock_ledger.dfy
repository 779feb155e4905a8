/** The warehouse stock ledger. The stock table holds one quantity per
    (warehouse, ingredient) pair and changes only when a document is posted:
    a supply or a return adds to the target warehouse, a transfer moves from
    the source to the target, a write-off or an order deduction takes from
    the source. A document is posted once. A supply with a price also moves
    the ingredient's weighted-average cost. */
module Inventory {
  import opened Wrappers
  import opened Dict
  import opened Records

  // ---------------------------------------------------------------------
  // Rows

  datatype DocItem = DocItem(id: nat, ingredientId: nat, quantity: real, price: real)

  datatype Doc = Doc(
    docType: string,          // "supply", "return", "transfer", "writeoff", "deduction", "inventory"
    supplierId: Option<nat>,
    source: Option<nat>,
    target: Option<nat>,
    items: seq<DocItem>,
    isProcessed: bool,
    linkedOrderId: Option<nat>)

  datatype RecipeItem = RecipeItem(childId: nat, gross: real)

  datatype Ingredient = Ingredient(currentCost: real, isSemiFinished: bool, recipe: seq<RecipeItem>)

  datatype Warehouse = Warehouse(name: string, isProduction: bool, linkedWarehouseId: Option<nat>)

  /** One line of a document about to be created. */
  datatype Move = Move(ingredientId: nat, qty: real, price: real)

  /** (warehouse id, ingredient id) ↦ quantity; an absent row reads as 0. */
  type StockTable = seq<((nat, nat), real)>

  datatype Ledger = Ledger(
    stock: StockTable,
    ingredients: map<nat, Ingredient>,
    warehouses: seq<(nat, Warehouse)>,   // in id order, as the table is read
    docs: map<nat, Doc>,
    nextDocId: nat,
    nextItemId: nat)

  datatype StockError =
    | DocNotFound
    | AlreadyProcessed
    | WarehouseMissing
    | BadQuantity
    | NotSemiFinished
    | NoRecipe

  /** Python's truthiness of an optional id: present and not 0. */
  predicate Given(id: Option<nat>) { id.Some? && id.value != 0 }

  ghost predicate Inv(l: Ledger)
  {
    && DistinctKeys(l.stock)
    && DistinctKeys(l.warehouses)
    && (forall k | HasKey(l.warehouses, k) :: k != 0)
    && (forall id | id in l.docs :: id < l.nextDocId)
  }

  // ---------------------------------------------------------------------
  // Stock rows

  /** get_stock(...).quantity: the row's quantity, 0 for a row not yet
      created. */
  function Qty(st: StockTable, wh: nat, ing: nat): real
  {
    Get(st, (wh, ing)).GetOr(0.0)
  }

  /** `stock.quantity += q` on the row get_stock returns. */
  function AddQty(st: StockTable, wh: nat, ing: nat, q: real): (r: StockTable)
    ensures forall w: nat, i: nat :: Qty(r, w, i) == Qty(st, w, i) + (if (w, i) == (wh, ing) then q else 0.0)
    ensures DistinctKeys(st) ==> DistinctKeys(r)
  {
    assert DistinctKeys(st) ==> DistinctKeys(Put(st, (wh, ing), Qty(st, wh, ing) + q)) by {
      if DistinctKeys(st) { PutDistinct(st, (wh, ing), Qty(st, wh, ing) + q); }
    }
    Put(st, (wh, ing), Qty(st, wh, ing) + q)
  }

  function OfIngredient(ing: nat): ((nat, nat), real) -> real
  {
    (k: (nat, nat), v: real) => if k.1 == ing then v else 0.0
  }

  /** SELECT sum(quantity) FROM stock WHERE ingredient_id = ing (None, for
      no rows, read as 0). */
  function IngredientTotal(st: StockTable, ing: nat): real
  {
    SumValues(st, OfIngredient(ing))
  }

  lemma AddQtyTotal(st: StockTable, wh: nat, ing: nat, q: real, j: nat)
    requires DistinctKeys(st)
    ensures IngredientTotal(AddQty(st, wh, ing, q), j) == IngredientTotal(st, j) + (if ing == j then q else 0.0)
  {
    SumPut(st, (wh, ing), Qty(st, wh, ing) + q, OfIngredient(j));
  }

  // ---------------------------------------------------------------------
  // Weighted-average cost

  /** The new cost after supplying q at price p when `existing` units are
      in stock across all warehouses; a negative existing stock counts as
      none, and a non-positive new total keeps the old cost. */
  function AverageCost(existing: real, oldCost: real, q: real, p: real): real
  {
    var e := if existing > 0.0 then existing else 0.0;
    if e + q > 0.0 then (e * oldCost + q * p) / (e + q) else oldCost
  }

  /** The stock's value at the new cost is the old value plus the supply's. */
  lemma AverageCostKeepsValue(existing: real, oldCost: real, q: real, p: real)
    requires (if existing > 0.0 then existing else 0.0) + q > 0.0
    ensures var e := if existing > 0.0 then existing else 0.0;
      (e + q) * AverageCost(existing, oldCost, q, p) == e * oldCost + q * p
  {
  }

  /** For a real supply the new cost lies between the old cost and the
      supply price. */
  lemma AverageCostBetween(existing: real, oldCost: real, q: real, p: real)
    requires q > 0.0
    ensures var r := AverageCost(existing, oldCost, q, p);
      (oldCost <= p ==> oldCost <= r <= p) && (p <= oldCost ==> p <= r <= oldCost)
  {
    var e := if existing > 0.0 then existing else 0.0;
    var r := AverageCost(existing, oldCost, q, p);
    AverageCostKeepsValue(existing, oldCost, q, p);
    var lo, hi := if oldCost <= p then oldCost else p, if oldCost <= p then p else oldCost;
    MulMono(e, lo, oldCost);
    MulMono(q, lo, p);
    MulMono(e, oldCost, hi);
    MulMono(q, p, hi);
    assert (e + q) * lo <= (e + q) * r <= (e + q) * hi;
    MulCancel(e + q, lo, r);
    MulCancel(e + q, r, hi);
  }

  lemma MulMono(c: real, a: real, b: real)
    requires c >= 0.0 && a <= b
    ensures c * a <= c * b
  {
  }

  lemma MulCancel(c: real, a: real, b: real)
    requires c > 0.0 && c * a <= c * b
    ensures a <= b
  {
  }

  /** Supplying at the current cost leaves the cost where it was. */
  lemma AverageAtSameCost(existing: real, cost: real, q: real)
    ensures AverageCost(existing, cost, q, cost) == cost
  {
    var e := if existing > 0.0 then existing else 0.0;
    if e + q > 0.0 {
      assert e * cost + q * cost == (e + q) * cost;
    }
  }

  // ---------------------------------------------------------------------
  // Posting a document

  predicate Adds(docType: string) { docType == "supply" || docType == "return" }

  predicate Takes(docType: string) { docType == "writeoff" || docType == "deduction" }

  /** The warehouse check each branch makes before touching a row. */
  predicate MissingFor(docType: string, source: Option<nat>, target: Option<nat>)
  {
    || (Adds(docType) && !Given(target))
    || (docType == "transfer" && !(Given(source) && Given(target)))
    || (Takes(docType) && !Given(source))
  }

  predicate MissingWarehouse(d: Doc) { MissingFor(d.docType, d.source, d.target) }

  /** What a document does to warehouse w's row when its lines hold x of
      an ingredient: +x at the target, −x at the source (both for a
      transfer), nothing elsewhere or for an unknown document type. */
  function MovedBy(docType: string, source: Option<nat>, target: Option<nat>, w: nat, x: real): real
    requires !MissingFor(docType, source, target)
  {
    if Adds(docType) then (if w == target.value then x else 0.0)
    else if Takes(docType) then (if w == source.value then -x else 0.0)
    else if docType == "transfer" then
      (if w == target.value then x else 0.0) - (if w == source.value then x else 0.0)
    else 0.0
  }

  function Moved(d: Doc, w: nat, x: real): real
    requires !MissingWarehouse(d)
  {
    MovedBy(d.docType, d.source, d.target, w, x)
  }

  /** The supply branch's cost update, read before the row is increased. */
  function SupplyCost(st: StockTable, ings: map<nat, Ingredient>, item: DocItem): map<nat, Ingredient>
  {
    if item.price > 0.0 && item.ingredientId in ings then
      var g := ings[item.ingredientId];
      ings[item.ingredientId := g.(currentCost :=
        AverageCost(IngredientTotal(st, item.ingredientId), g.currentCost, item.quantity, item.price))]
    else ings
  }

  /** One document line. */
  function PostItem(st: StockTable, ings: map<nat, Ingredient>, d: Doc, item: DocItem): (StockTable, map<nat, Ingredient>)
    requires !MissingWarehouse(d)
  {
    var ing, q := item.ingredientId, item.quantity;
    if d.docType == "supply" then
      (AddQty(st, d.target.value, ing, q), SupplyCost(st, ings, item))
    else if d.docType == "return" then
      (AddQty(st, d.target.value, ing, q), ings)
    else if d.docType == "transfer" then
      (AddQty(AddQty(st, d.source.value, ing, -q), d.target.value, ing, q), ings)
    else if Takes(d.docType) then
      (AddQty(st, d.source.value, ing, -q), ings)
    else
      (st, ings)
  }

  /** The lines in document order. */
  function PostItems(st: StockTable, ings: map<nat, Ingredient>, d: Doc, items: seq<DocItem>): (StockTable, map<nat, Ingredient>)
    requires !MissingWarehouse(d)
    decreases items
  {
    if items == [] then (st, ings)
    else
      var next := PostItem(st, ings, d, items[0]);
      PostItems(next.0, next.1, d, items[1..])
  }

  /** Σ quantity of the lines of one ingredient. */
  function ItemsQty(items: seq<DocItem>, ing: nat): real
  {
    if items == [] then 0.0
    else (if items[0].ingredientId == ing then items[0].quantity else 0.0) + ItemsQty(items[1..], ing)
  }

  /** apply_doc_stock_changes. */
  function ApplyDocSpec(l: Ledger, docId: nat): Result<Ledger, StockError>
  {
    if docId !in l.docs then Err(DocNotFound)
    else
      var d := l.docs[docId];
      if d.isProcessed then Err(AlreadyProcessed)
      else if d.items == [] then Ok(l.(docs := l.docs[docId := d.(isProcessed := true)]))
      else if MissingWarehouse(d) then Err(WarehouseMissing)
      else
        var posted := PostItems(l.stock, l.ingredients, d, d.items);
        Ok(l.(stock := posted.0, ingredients := posted.1, docs := l.docs[docId := d.(isProcessed := true)]))
  }

  /** The document's lines, numbered from the next free item id. */
  function Numbered(moves: seq<Move>, firstId: nat): (items: seq<DocItem>)
    ensures |items| == |moves|
    ensures forall k | 0 <= k < |moves| ::
      items[k] == DocItem(firstId + k, moves[k].ingredientId, moves[k].qty, moves[k].price)
  {
    if moves == [] then []
    else [DocItem(firstId, moves[0].ingredientId, moves[0].qty, moves[0].price)] + Numbered(moves[1..], firstId + 1)
  }

  /** process_movement: nothing for no lines; otherwise a new unprocessed
      document, posted at once. */
  function ProcessMovementSpec(l: Ledger, docType: string, moves: seq<Move>, source: Option<nat>, target: Option<nat>,
                               supplierId: Option<nat>, orderId: Option<nat>): Result<Ledger, StockError>
  {
    if moves == [] then Ok(l)
    else
      var d := Doc(docType, supplierId, source, target, Numbered(moves, l.nextItemId), false, orderId);
      ApplyDocSpec(Staged(l, d, |moves|), l.nextDocId)
  }

  /** The ledger with a new document stored under the next id, before it
      is applied. */
  function Staged(l: Ledger, d: Doc, n: nat): Ledger
  {
    l.(docs := l.docs[l.nextDocId := d], nextDocId := l.nextDocId + 1, nextItemId := l.nextItemId + n)
  }

  lemma StagedInv(l: Ledger, d: Doc, n: nat)
    requires Inv(l)
    ensures Inv(Staged(l, d, n))
  {
  }

  /** Σ qty of the moves of one ingredient. */
  function MovesQty(moves: seq<Move>, ing: nat): real
  {
    if moves == [] then 0.0
    else (if moves[0].ingredientId == ing then moves[0].qty else 0.0) + MovesQty(moves[1..], ing)
  }

  // ---------------------------------------------------------------------
  // What posting does

  /** Every row moves by what the document does to its warehouse with the
      document's whole quantity of that ingredient. */
  lemma {:induction false} PostItemsMoves(st: StockTable, ings: map<nat, Ingredient>, d: Doc, items: seq<DocItem>, w: nat, i: nat)
    requires !MissingWarehouse(d)
    ensures Qty(PostItems(st, ings, d, items).0, w, i) == Qty(st, w, i) + Moved(d, w, ItemsQty(items, i))
    decreases items
  {
    if items != [] {
      var next := PostItem(st, ings, d, items[0]);
      var x := if items[0].ingredientId == i then items[0].quantity else 0.0;
      PostItemsMoves(next.0, next.1, d, items[1..], w, i);
      PostItemMoves(st, ings, d, items[0], w, i);
      assert PostItems(st, ings, d, items) == PostItems(next.0, next.1, d, items[1..]);
      assert ItemsQty(items, i) == x + ItemsQty(items[1..], i);
      MovedAdds(d, w, x, ItemsQty(items[1..], i));
    }
  }

  lemma MovedAdds(d: Doc, w: nat, x: real, y: real)
    requires !MissingWarehouse(d)
    ensures Moved(d, w, x + y) == Moved(d, w, x) + Moved(d, w, y)
  {
  }

  lemma PostItemMoves(st: StockTable, ings: map<nat, Ingredient>, d: Doc, item: DocItem, w: nat, i: nat)
    requires !MissingWarehouse(d)
    ensures Qty(PostItem(st, ings, d, item).0, w, i)
      == Qty(st, w, i) + Moved(d, w, if item.ingredientId == i then item.quantity else 0.0)
  {
  }

  lemma {:induction false} PostItemsDistinct(st: StockTable, ings: map<nat, Ingredient>, d: Doc, items: seq<DocItem>)
    requires !MissingWarehouse(d) && DistinctKeys(st)
    ensures DistinctKeys(PostItems(st, ings, d, items).0)
    decreases items
  {
    if items != [] {
      var next := PostItem(st, ings, d, items[0]);
      PostItemsDistinct(next.0, next.1, d, items[1..]);
    }
  }

  /** Only a supply changes ingredient costs. */
  lemma {:induction false} PostItemsKeepsCosts(st: StockTable, ings: map<nat, Ingredient>, d: Doc, items: seq<DocItem>)
    requires !MissingWarehouse(d) && d.docType != "supply"
    ensures PostItems(st, ings, d, items).1 == ings
    decreases items
  {
    if items != [] {
      var next := PostItem(st, ings, d, items[0]);
      PostItemsKeepsCosts(next.0, next.1, d, items[1..]);
    }
  }

  /** A transfer keeps every ingredient's total across the warehouses. */
  lemma {:induction false} TransferConserves(st: StockTable, ings: map<nat, Ingredient>, d: Doc, items: seq<DocItem>, j: nat)
    requires !MissingWarehouse(d) && d.docType == "transfer" && DistinctKeys(st)
    ensures IngredientTotal(PostItems(st, ings, d, items).0, j) == IngredientTotal(st, j)
    decreases items
  {
    if items != [] {
      var it := items[0];
      var s1 := AddQty(st, d.source.value, it.ingredientId, -it.quantity);
      var s2 := AddQty(s1, d.target.value, it.ingredientId, it.quantity);
      AddQtyTotal(st, d.source.value, it.ingredientId, -it.quantity, j);
      AddQtyTotal(s1, d.target.value, it.ingredientId, it.quantity, j);
      assert PostItem(st, ings, d, it) == (s2, ings);
      assert PostItems(st, ings, d, items) == PostItems(s2, ings, d, items[1..]);
      TransferConserves(s2, ings, d, items[1..], j);
    }
  }

  lemma {:induction false} NumberedQty(moves: seq<Move>, firstId: nat, i: nat)
    ensures ItemsQty(Numbered(moves, firstId), i) == MovesQty(moves, i)
    decreases moves
  {
    if moves != [] {
      NumberedQty(moves[1..], firstId + 1, i);
    }
  }

  /** A document that is missing or already posted is refused; a posted
      one is marked processed, and a document without lines changes no
      row. */
  lemma ApplyDocOnce(l: Ledger, docId: nat)
    ensures docId !in l.docs ==> ApplyDocSpec(l, docId) == Err(DocNotFound)
    ensures docId in l.docs && l.docs[docId].isProcessed ==> ApplyDocSpec(l, docId) == Err(AlreadyProcessed)
    ensures ApplyDocSpec(l, docId).Ok? ==>
      var l' := ApplyDocSpec(l, docId).value;
      && docId in l'.docs && l'.docs[docId].isProcessed
      && (l.docs[docId].items == [] ==> l'.stock == l.stock && l'.ingredients == l.ingredients)
      && ApplyDocSpec(l', docId) == Err(AlreadyProcessed)
  {
  }

  /** A posted document moves each row by what it does to the row's
      warehouse, and keeps the table's keys distinct. */
  lemma ApplyDocMoves(l: Ledger, docId: nat, w: nat, i: nat)
    requires Inv(l) && ApplyDocSpec(l, docId).Ok?
    ensures docId in l.docs && !MissingWarehouse(l.docs[docId])
      ==> Qty(ApplyDocSpec(l, docId).value.stock, w, i)
          == Qty(l.stock, w, i) + Moved(l.docs[docId], w, ItemsQty(l.docs[docId].items, i))
    ensures Inv(ApplyDocSpec(l, docId).value)
  {
    var d := l.docs[docId];
    if d.items != [] {
      PostItemsMoves(l.stock, l.ingredients, d, d.items, w, i);
      PostItemsDistinct(l.stock, l.ingredients, d, d.items);
    } else if !MissingWarehouse(d) {
      assert ItemsQty(d.items, i) == 0.0;
    }
  }

  /** process_movement: with no lines nothing changes; otherwise the new
      document is posted, moving each row by the lines' quantity of its
      ingredient, and it is refused only for a missing warehouse. */
  lemma ProcessMovementMoves(l: Ledger, docType: string, moves: seq<Move>, source: Option<nat>, target: Option<nat>,
                             supplierId: Option<nat>, orderId: Option<nat>, w: nat, i: nat)
    requires Inv(l)
    ensures var r := ProcessMovementSpec(l, docType, moves, source, target, supplierId, orderId);
      && (moves == [] ==> r == Ok(l))
      && (moves != [] ==> (r.Ok? <==> !MissingFor(docType, source, target)))
      && (r.Ok? ==> Inv(r.value))
      && (moves != [] && r.Ok? ==>
            Qty(r.value.stock, w, i) == Qty(l.stock, w, i) + MovedBy(docType, source, target, w, MovesQty(moves, i)))
  {
    if moves != [] {
      var d := Doc(docType, supplierId, source, target, Numbered(moves, l.nextItemId), false, orderId);
      var l1 := l.(docs := l.docs[l.nextDocId := d], nextDocId := l.nextDocId + 1, nextItemId := l.nextItemId + |moves|);
      assert Inv(l1);
      if !MissingFor(docType, source, target) {
        ApplyDocMoves(l1, l.nextDocId, w, i);
        NumberedQty(moves, l.nextItemId, i);
      }
    }
  }

  // ---------------------------------------------------------------------
  // Inventory count

  function CostOf(ings: map<nat, Ingredient>, ing: nat): real
  {
    if ing in ings then ings[ing].currentCost else 0.0
  }

  /** The count's surplus lines (counted above the system quantity) or its
      shortage lines (below), each at the ingredient's current cost. */
  function CountMoves(st: StockTable, wh: nat, items: seq<DocItem>, ings: map<nat, Ingredient>, surplus: bool): seq<Move>
  {
    if items == [] then []
    else CountLine(st, wh, items[0], ings, surplus) + CountMoves(st, wh, items[1..], ings, surplus)
  }

  /** The move one counted line contributes to the surplus or the shortage
      side (none when the count agrees with the system). */
  function CountLine(st: StockTable, wh: nat, it: DocItem, ings: map<nat, Ingredient>, surplus: bool): seq<Move>
  {
    var diff := it.quantity - Qty(st, wh, it.ingredientId);
    if surplus && diff > 0.0 then [Move(it.ingredientId, diff, CostOf(ings, it.ingredientId))]
    else if !surplus && diff < 0.0 then [Move(it.ingredientId, -diff, CostOf(ings, it.ingredientId))]
    else []
  }

  lemma {:induction false} CountMovesAppend(st: StockTable, wh: nat, a: seq<DocItem>, b: seq<DocItem>, ings: map<nat, Ingredient>, surplus: bool)
    ensures CountMoves(st, wh, a + b, ings, surplus) == CountMoves(st, wh, a, ings, surplus) + CountMoves(st, wh, b, ings, surplus)
  {
    if a == [] {
      assert a + b == b;
    } else {
      assert (a + b)[1..] == a[1..] + b;
      CountMovesAppend(st, wh, a[1..], b, ings, surplus);
    }
  }

  /** One more counted line adds its move at the end. */
  lemma CountMovesStep(st: StockTable, wh: nat, items: seq<DocItem>, ings: map<nat, Ingredient>, surplus: bool, k: nat)
    requires k < |items|
    ensures CountMoves(st, wh, items[..k + 1], ings, surplus)
      == CountMoves(st, wh, items[..k], ings, surplus) + CountLine(st, wh, items[k], ings, surplus)
  {
    assert items[..k + 1] == items[..k] + [items[k]];
    CountMovesAppend(st, wh, items[..k], [items[k]], ings, surplus);
    assert CountMoves(st, wh, [items[k]], ings, surplus) == CountLine(st, wh, items[k], ings, surplus) + [];
  }

  /** process_inventory_check: the surplus becomes a supply and the
      shortage a write-off on the counted warehouse; the count document is
      then processed. */
  function InventoryCheckSpec(l: Ledger, docId: nat): Result<Ledger, StockError>
  {
    if docId !in l.docs then Err(DocNotFound)
    else
      var d := l.docs[docId];
      if d.isProcessed then Err(AlreadyProcessed)
      else if !Given(d.source) then Err(WarehouseMissing)
      else
        var wh := d.source.value;
        var sur := CountMoves(l.stock, wh, d.items, l.ingredients, true);
        var sho := CountMoves(l.stock, wh, d.items, l.ingredients, false);
        match ProcessMovementSpec(l, "supply", sur, None, Some(wh), None, None)
        case Err(e) => Err(e)
        case Ok(l1) =>
          match ProcessMovementSpec(l1, "writeoff", sho, Some(wh), None, None, None)
          case Err(e) => Err(e)
          case Ok(l2) => Ok(l2.(docs := l2.docs[docId := d.(isProcessed := true)]))
  }

  /** A document whose warehouses are given always posts, keeping the
      invariant, and only ever raises the document counter. */
  lemma MovementPosts(l: Ledger, docType: string, moves: seq<Move>, source: Option<nat>, target: Option<nat>,
                      supplierId: Option<nat>, orderId: Option<nat>)
    requires Inv(l) && !MissingFor(docType, source, target)
    ensures var r := ProcessMovementSpec(l, docType, moves, source, target, supplierId, orderId);
      r.Ok? && Inv(r.value) && r.value.nextDocId >= l.nextDocId
  {
    ProcessMovementMoves(l, docType, moves, source, target, supplierId, orderId, 0, 0);
  }

  /** Rewriting a numbered document keeps the invariant. */
  lemma MarkKeepsInv(l: Ledger, docId: nat, d: Doc)
    requires Inv(l) && docId < l.nextDocId
    ensures Inv(l.(docs := l.docs[docId := d]))
  {
  }

  /** The two postings of an inventory check, put together. */
  lemma CheckSteps(l: Ledger, docId: nat, l1: Ledger, l2: Ledger)
    requires docId in l.docs && !l.docs[docId].isProcessed && Given(l.docs[docId].source)
    requires var d := l.docs[docId]; var wh := d.source.value;
      ProcessMovementSpec(l, "supply", CountMoves(l.stock, wh, d.items, l.ingredients, true), None, Some(wh), None, None) == Ok(l1)
    requires var d := l.docs[docId]; var wh := d.source.value;
      ProcessMovementSpec(l1, "writeoff", CountMoves(l.stock, wh, d.items, l.ingredients, false), Some(wh), None, None, None) == Ok(l2)
    ensures InventoryCheckSpec(l, docId) == Ok(l2.(docs := l2.docs[docId := l.docs[docId].(isProcessed := true)]))
  {
  }

  function MovesConcatQty(a: seq<Move>, b: seq<Move>, i: nat): real { MovesQty(a, i) + MovesQty(b, i) }

  lemma {:induction false} MovesQtyAppend(a: seq<Move>, b: seq<Move>, i: nat)
    ensures MovesQty(a + b, i) == MovesConcatQty(a, b, i)
    decreases a
  {
    if a == [] {
      assert a + b == b;
    } else {
      assert (a + b)[1..] == a[1..] + b;
      MovesQtyAppend(a[1..], b, i);
    }
  }

  /** Σ (counted − system) over the count lines of ingredient i. */
  function CountNet(st: StockTable, wh: nat, items: seq<DocItem>, i: nat): real
  {
    if items == [] then 0.0
    else (if items[0].ingredientId == i then items[0].quantity - Qty(st, wh, i) else 0.0) + CountNet(st, wh, items[1..], i)
  }

  lemma {:induction false} CountMovesNet(st: StockTable, wh: nat, items: seq<DocItem>, ings: map<nat, Ingredient>, i: nat)
    ensures MovesQty(CountMoves(st, wh, items, ings, true), i) - MovesQty(CountMoves(st, wh, items, ings, false), i)
      == CountNet(st, wh, items, i)
    decreases items
  {
    if items != [] {
      var it := items[0];
      var diff := it.quantity - Qty(st, wh, it.ingredientId);
      var hs := if diff > 0.0 then [Move(it.ingredientId, diff, CostOf(ings, it.ingredientId))] else [];
      var hw := if diff < 0.0 then [Move(it.ingredientId, -diff, CostOf(ings, it.ingredientId))] else [];
      MovesQtyAppend(hs, CountMoves(st, wh, items[1..], ings, true), i);
      MovesQtyAppend(hw, CountMoves(st, wh, items[1..], ings, false), i);
      CountMovesNet(st, wh, items[1..], ings, i);
    }
  }

  predicate DistinctIngredients(items: seq<DocItem>)
  {
    forall a, b | 0 <= a < b < |items| :: items[a].ingredientId != items[b].ingredientId
  }

  predicate Counted(items: seq<DocItem>, i: nat)
  {
    exists k | 0 <= k < |items| :: items[k].ingredientId == i
  }

  /** An ingredient no line counts nets nothing. */
  lemma {:induction false} CountNetUncounted(st: StockTable, wh: nat, items: seq<DocItem>, i: nat)
    requires !Counted(items, i)
    ensures CountNet(st, wh, items, i) == 0.0
    decreases items
  {
    if items != [] {
      assert items[0].ingredientId != i;
      assert !Counted(items[1..], i) by {
        forall k | 0 <= k < |items[1..]| ensures items[1..][k].ingredientId != i {
          assert items[1..][k] == items[k + 1];
        }
      }
      CountNetUncounted(st, wh, items[1..], i);
    }
  }

  /** Two lines counting the same ingredient both correct it against the
      same booked quantity b: counts c1 and c2 net c1 + c2 − 2b, so the
      row ends at c1 + c2 − b rather than at either count. */
  lemma DuplicateCountLines(st: StockTable, wh: nat, a: DocItem, b: DocItem)
    requires a.ingredientId == b.ingredientId
    ensures CountNet(st, wh, [a, b], a.ingredientId) == a.quantity + b.quantity - 2.0 * Qty(st, wh, a.ingredientId)
  {
    var i := a.ingredientId;
    assert [a, b][1..] == [b];
    assert [b][1..] == [];
    assert CountNet(st, wh, [b], i) == b.quantity - Qty(st, wh, i) + CountNet(st, wh, [], i);
    assert CountNet(st, wh, [a, b], i) == a.quantity - Qty(st, wh, i) + CountNet(st, wh, [b], i);
  }

  lemma {:induction false} CountNetOf(st: StockTable, wh: nat, items: seq<DocItem>, i: nat)
    requires DistinctIngredients(items)
    ensures !Counted(items, i) ==> CountNet(st, wh, items, i) == 0.0
    ensures forall k | 0 <= k < |items| && items[k].ingredientId == i ::
      CountNet(st, wh, items, i) == items[k].quantity - Qty(st, wh, i)
    decreases items
  {
    if items != [] {
      assert DistinctIngredients(items[1..]) by {
        forall a, b | 0 <= a < b < |items[1..]| ensures items[1..][a].ingredientId != items[1..][b].ingredientId {
          assert items[1..][a] == items[a + 1] && items[1..][b] == items[b + 1];
        }
      }
      CountNetOf(st, wh, items[1..], i);
      if items[0].ingredientId == i {
        assert !Counted(items[1..], i) by {
          forall k | 0 <= k < |items[1..]| ensures items[1..][k].ingredientId != i {
            assert items[1..][k] == items[k + 1];
          }
        }
      } else {
        if Counted(items[1..], i) {
          var k :| 0 <= k < |items[1..]| && items[1..][k].ingredientId == i;
          assert items[k + 1].ingredientId == i;
        }
        forall k | 0 <= k < |items| && items[k].ingredientId == i
          ensures CountNet(st, wh, items, i) == items[k].quantity - Qty(st, wh, i)
        {
          assert items[1..][k - 1] == items[k];
        }
        if !Counted(items, i) {
          assert !Counted(items[1..], i) by {
            forall k | 0 <= k < |items[1..]| ensures items[1..][k].ingredientId != i {
              assert items[1..][k] == items[k + 1];
            }
          }
        }
      }
    }
  }

  /** A count corrects each row of the counted warehouse by the sum of its
      lines' differences against the booked quantity, and leaves every
      other row as it was. When the count lists each ingredient once, each
      counted row then holds exactly the counted quantity. */
  lemma InventoryCheckSetsCounts(l: Ledger, docId: nat, w: nat, i: nat)
    requires Inv(l) && InventoryCheckSpec(l, docId).Ok?
    ensures var d := l.docs[docId];
      var after := InventoryCheckSpec(l, docId).value.stock;
      && (w == d.source.value ==> Qty(after, w, i) == Qty(l.stock, w, i) + CountNet(l.stock, w, d.items, i))
      && (w == d.source.value && DistinctIngredients(d.items) ==>
            forall k | 0 <= k < |d.items| && d.items[k].ingredientId == i :: Qty(after, w, i) == d.items[k].quantity)
      && (w != d.source.value || !Counted(d.items, i) ==> Qty(after, w, i) == Qty(l.stock, w, i))
    ensures Inv(InventoryCheckSpec(l, docId).value)
  {
    var d := l.docs[docId];
    var wh := d.source.value;
    var sur := CountMoves(l.stock, wh, d.items, l.ingredients, true);
    var sho := CountMoves(l.stock, wh, d.items, l.ingredients, false);
    ProcessMovementMoves(l, "supply", sur, None, Some(wh), None, None, w, i);
    var l1 := ProcessMovementSpec(l, "supply", sur, None, Some(wh), None, None).value;
    ProcessMovementMoves(l1, "writeoff", sho, Some(wh), None, None, None, w, i);
    var l2 := ProcessMovementSpec(l1, "writeoff", sho, Some(wh), None, None, None).value;
    assert Qty(l2.stock, w, i) == Qty(l.stock, w, i)
      + (if w == wh then MovesQty(sur, i) - MovesQty(sho, i) else 0.0);
    CountMovesNet(l.stock, wh, d.items, l.ingredients, i);
    if !Counted(d.items, i) {
      CountNetUncounted(l.stock, wh, d.items, i);
    }
    if DistinctIngredients(d.items) {
      CountNetOf(l.stock, wh, d.items, i);
    }
    InventoryCheckKeepsInv(l, docId);
  }

  /** A count of two lines for the same ingredient leaves its row at the
      sum of the two counts less the booked quantity. */
  lemma CountWithRepeatedIngredient(l: Ledger, docId: nat)
    requires Inv(l) && InventoryCheckSpec(l, docId).Ok?
    requires |l.docs[docId].items| == 2 && l.docs[docId].items[0].ingredientId == l.docs[docId].items[1].ingredientId
    ensures var d := l.docs[docId];
      var wh := d.source.value;
      var i := d.items[0].ingredientId;
      Qty(InventoryCheckSpec(l, docId).value.stock, wh, i)
        == d.items[0].quantity + d.items[1].quantity - Qty(l.stock, wh, i)
  {
    var d := l.docs[docId];
    var wh := d.source.value;
    var i := d.items[0].ingredientId;
    InventoryCheckSetsCounts(l, docId, wh, i);
    assert d.items == [d.items[0], d.items[1]];
    DuplicateCountLines(l.stock, wh, d.items[0], d.items[1]);
  }

  /** A successful inventory check keeps the ledger's invariant. */
  lemma InventoryCheckKeepsInv(l: Ledger, docId: nat)
    requires Inv(l) && InventoryCheckSpec(l, docId).Ok?
    ensures Inv(InventoryCheckSpec(l, docId).value)
  {
    var d := l.docs[docId];
    var wh := d.source.value;
    var sur := CountMoves(l.stock, wh, d.items, l.ingredients, true);
    var sho := CountMoves(l.stock, wh, d.items, l.ingredients, false);
    MovementPosts(l, "supply", sur, None, Some(wh), None, None);
    var l1 := ProcessMovementSpec(l, "supply", sur, None, Some(wh), None, None).value;
    MovementPosts(l1, "writeoff", sho, Some(wh), None, None, None);
    var l2 := ProcessMovementSpec(l1, "writeoff", sho, Some(wh), None, None, None).value;
    CheckSteps(l, docId, l1, l2);
    MarkKeepsInv(l2, docId, d.(isProcessed := true));
  }

  // ---------------------------------------------------------------------
  // Production of a semi-finished ingredient

  /** The raw materials for qty units: gross × qty of each component at
      its current cost. */
  function RecipeMoves(recipe: seq<RecipeItem>, qty: real, ings: map<nat, Ingredient>): (moves: seq<Move>)
    ensures |moves| == |recipe|
    ensures forall k | 0 <= k < |recipe| ::
      moves[k] == Move(recipe[k].childId, recipe[k].gross * qty, CostOf(ings, recipe[k].childId))
  {
    if recipe == [] then []
    else [Move(recipe[0].childId, recipe[0].gross * qty, CostOf(ings, recipe[0].childId))] + RecipeMoves(recipe[1..], qty, ings)
  }

  /** Σ qty × price. */
  function BatchCost(moves: seq<Move>): real
  {
    if moves == [] then 0.0 else moves[0].qty * moves[0].price + BatchCost(moves[1..])
  }

  /** process_production. */
  function ProductionSpec(l: Ledger, ingId: nat, qty: real, wh: nat): Result<Ledger, StockError>
  {
    if qty <= 0.0 then Err(BadQuantity)
    else if ingId !in l.ingredients || !l.ingredients[ingId].isSemiFinished then Err(NotSemiFinished)
    else if l.ingredients[ingId].recipe == [] then Err(NoRecipe)
    else
      var moves := RecipeMoves(l.ingredients[ingId].recipe, qty, l.ingredients);
      var unit := BatchCost(moves) / qty;
      match ProcessMovementSpec(l, "writeoff", moves, Some(wh), None, None, None)
      case Err(e) => Err(e)
      case Ok(l1) => ProcessMovementSpec(l1, "supply", [Move(ingId, qty, unit)], None, Some(wh), None, None)
  }

  /** Production takes gross × qty of every component from the warehouse
      and puts qty of the product into it, valued at the batch cost. */
  lemma ProductionMoves(l: Ledger, ingId: nat, qty: real, wh: nat, w: nat, i: nat)
    requires Inv(l) && ProductionSpec(l, ingId, qty, wh).Ok?
    ensures var moves := RecipeMoves(l.ingredients[ingId].recipe, qty, l.ingredients);
      && wh != 0
      && Qty(ProductionSpec(l, ingId, qty, wh).value.stock, w, i)
         == Qty(l.stock, w, i) + (if w == wh then (if i == ingId then qty else 0.0) - MovesQty(moves, i) else 0.0)
      && (BatchCost(moves) / qty) * qty == BatchCost(moves)
    ensures Inv(ProductionSpec(l, ingId, qty, wh).value)
  {
    var moves := RecipeMoves(l.ingredients[ingId].recipe, qty, l.ingredients);
    ProcessMovementMoves(l, "writeoff", moves, Some(wh), None, None, None, w, i);
    var l1 := ProcessMovementSpec(l, "writeoff", moves, Some(wh), None, None, None).value;
    var unit := BatchCost(moves) / qty;
    ProcessMovementMoves(l1, "supply", [Move(ingId, qty, unit)], None, Some(wh), None, None, w, i);
    assert MovesQty([Move(ingId, qty, unit)], i) == if i == ingId then qty else 0.0;
  }

  /** A write-off lowers each ingredient's total across the warehouses by
      the lines' quantity of it. */
  lemma {:induction false} TakesTotal(st: StockTable, ings: map<nat, Ingredient>, d: Doc, items: seq<DocItem>, j: nat)
    requires !MissingWarehouse(d) && Takes(d.docType) && DistinctKeys(st)
    ensures IngredientTotal(PostItems(st, ings, d, items).0, j) == IngredientTotal(st, j) - ItemsQty(items, j)
    decreases items
  {
    if items != [] {
      var it := items[0];
      var s1 := AddQty(st, d.source.value, it.ingredientId, -it.quantity);
      AddQtyTotal(st, d.source.value, it.ingredientId, -it.quantity, j);
      assert PostItem(st, ings, d, it) == (s1, ings);
      assert PostItems(st, ings, d, items) == PostItems(s1, ings, d, items[1..]);
      TakesTotal(s1, ings, d, items[1..], j);
    }
  }

  /** The write-off movement of a production, at the level of totals. */
  lemma WriteoffTotal(l: Ledger, moves: seq<Move>, wh: nat, j: nat)
    requires Inv(l) && moves != [] && wh != 0
    ensures var r := ProcessMovementSpec(l, "writeoff", moves, Some(wh), None, None, None);
      r.Ok? && IngredientTotal(r.value.stock, j) == IngredientTotal(l.stock, j) - MovesQty(moves, j)
  {
    var d := Doc("writeoff", None, Some(wh), None, Numbered(moves, l.nextItemId), false, None);
    TakesTotal(l.stock, l.ingredients, d, d.items, j);
    NumberedQty(moves, l.nextItemId, j);
  }

  /** A one-line supply movement updates the ingredients exactly as the
      supply branch does for that line. */
  lemma SupplyOneCost(l: Ledger, m: Move, wh: nat)
    requires wh != 0
    ensures var r := ProcessMovementSpec(l, "supply", [m], None, Some(wh), None, None);
      r.Ok? && r.value.ingredients == SupplyCost(l.stock, l.ingredients, DocItem(l.nextItemId, m.ingredientId, m.qty, m.price))
  {
    var item := DocItem(l.nextItemId, m.ingredientId, m.qty, m.price);
    var d := Doc("supply", None, None, Some(wh), Numbered([m], l.nextItemId), false, None);
    assert d.items == [item];
    var next := PostItem(l.stock, l.ingredients, d, item);
    assert PostItems(l.stock, l.ingredients, d, d.items) == PostItems(next.0, next.1, d, []);
  }

  /** Production values the product at the batch cost per unit: a positive
      unit cost is averaged into the product's cost over what is left of
      it in stock after the write-off, as a supply at that price is; a
      zero unit cost leaves it; no other ingredient changes. */
  lemma ProductionCost(l: Ledger, ingId: nat, qty: real, wh: nat)
    requires Inv(l) && ProductionSpec(l, ingId, qty, wh).Ok?
    ensures var moves := RecipeMoves(l.ingredients[ingId].recipe, qty, l.ingredients);
      var unit := BatchCost(moves) / qty;
      var g := l.ingredients[ingId];
      var after := ProductionSpec(l, ingId, qty, wh).value.ingredients;
      && (unit > 0.0 ==>
            after == l.ingredients[ingId := g.(currentCost :=
              AverageCost(IngredientTotal(l.stock, ingId) - MovesQty(moves, ingId), g.currentCost, qty, unit))])
      && (unit <= 0.0 ==> after == l.ingredients)
  {
    var moves := RecipeMoves(l.ingredients[ingId].recipe, qty, l.ingredients);
    var unit := BatchCost(moves) / qty;
    ProductionMoves(l, ingId, qty, wh, 0, 0);
    WriteoffTotal(l, moves, wh, ingId);
    ProcessMovementKeeps(l, "writeoff", moves, Some(wh), None, None, None);
    var l1 := ProcessMovementSpec(l, "writeoff", moves, Some(wh), None, None, None).value;
    SupplyOneCost(l1, Move(ingId, qty, unit), wh);
    assert ProductionSpec(l, ingId, qty, wh) == ProcessMovementSpec(l1, "supply", [Move(ingId, qty, unit)], None, Some(wh), None, None);
  }

  /** Production refuses a non-positive quantity, an ingredient that is
      not semi-finished and one without a recipe, changing nothing. */
  lemma ProductionRefusals(l: Ledger, ingId: nat, qty: real, wh: nat)
    ensures qty <= 0.0 ==> ProductionSpec(l, ingId, qty, wh) == Err(BadQuantity)
    ensures qty > 0.0 && (ingId !in l.ingredients || !l.ingredients[ingId].isSemiFinished)
      ==> ProductionSpec(l, ingId, qty, wh) == Err(NotSemiFinished)
    ensures qty > 0.0 && ingId in l.ingredients && l.ingredients[ingId].isSemiFinished && l.ingredients[ingId].recipe == []
      ==> ProductionSpec(l, ingId, qty, wh) == Err(NoRecipe)
  {
  }

  // ---------------------------------------------------------------------
  // Deduction of an order by its tech cards

  /** A tech-card line: gross amount of an ingredient per portion; a
      takeaway line (packaging) counts only for delivery and pickup. */
  datatype TechComponent = TechComponent(ingredientId: nat, gross: real, isTakeaway: bool)

  /** A modifier as stored in the order line's JSON; older orders lack the
      ingredient fields. */
  datatype ModData = ModData(id: Option<nat>, ingredientId: Option<nat>, ingredientQty: Option<real>, warehouseId: Option<nat>)

  /** The modifier table's row, read when the JSON lacks the fields. */
  datatype ModifierRow = ModifierRow(ingredientId: Option<nat>, ingredientQty: Option<real>, warehouseId: Option<nat>)

  datatype OrderLine = OrderLine(productId: nat, quantity: int, modifiers: seq<ModData>)

  /** An automatic deduction (packaging, napkins) for a kind of order:
      triggerType is "delivery", "pickup", "in_house" or "all". */
  datatype Rule = Rule(triggerType: string, warehouseId: Option<nat>, ingredientId: nat, quantity: real)

  /** The catalogue the deduction reads: products, tech cards by product,
      modifier rows and the automatic rules in table order. */
  datatype Catalog = Catalog(
    products: map<nat, Records.Product>,
    techCards: map<nat, seq<TechComponent>>,
    modifiers: map<nat, ModifierRow>,
    rules: seq<Rule>)

  /** One planned deduction line and the warehouse it is taken from. */
  type Plan = seq<(nat, Move)>

  /** Python's truthiness of an optional quantity. */
  predicate Truthy(q: Option<real>) { q.Some? && q.value != 0.0 }

  /** get_real_storage_id: no workshop means the fallback warehouse; a
      workshop linked to a store room means the store room. */
  function Resolve(ws: seq<(nat, Warehouse)>, fallback: nat, wh: nat): (r: nat)
    ensures fallback != 0 ==> r != 0
    ensures wh == 0 ==> r == fallback
    ensures wh != 0 && !(HasKey(ws, wh) && Given(Get(ws, wh).value.linkedWarehouseId)) ==> r == wh
  {
    if wh == 0 then fallback
    else match Get(ws, wh)
      case Some(w) => if Given(w.linkedWarehouseId) then w.linkedWarehouseId.value else wh
      case None => wh
  }

  /** Delivery and pickup orders are takeaway. */
  predicate Takeaway(o: Records.Order) { o.isDelivery || o.orderType == "pickup" }

  /** The rule trigger of an order. */
  function Trigger(o: Records.Order): (t: string)
    ensures t in ["delivery", "pickup", "in_house"]
    ensures t == "delivery" <==> o.isDelivery
  {
    if o.isDelivery then "delivery" else if o.orderType == "pickup" then "pickup" else "in_house"
  }

  /** The product's workshop, or the fallback for a deleted product or one
      without a workshop. */
  function ProductWarehouse(cat: Catalog, fallback: nat, productId: nat): nat
  {
    if productId in cat.products && Given(cat.products[productId].productionWarehouseId)
    then cat.products[productId].productionWarehouseId.value
    else fallback
  }

  /** A tech-card line counts unless it is packaging and the order is
      eaten in. */
  predicate Applies(c: TechComponent, takeaway: bool) { !c.isTakeaway || takeaway }

  /** One tech-card line for q portions: gross × q of its ingredient, at
      the ingredient's current cost. */
  function ComponentMove(c: TechComponent, q: real, ings: map<nat, Ingredient>): Move
  {
    Move(c.ingredientId, c.gross * q, CostOf(ings, c.ingredientId))
  }

  /** The tech card's lines for q portions. */
  function ComponentMoves(comps: seq<TechComponent>, takeaway: bool, wh: nat, q: real, ings: map<nat, Ingredient>): (p: Plan)
    ensures forall e | e in p :: e.0 == wh
    ensures |p| <= |comps|
    ensures takeaway ==> |p| == |comps|
  {
    if comps == [] then []
    else
      var c := comps[0];
      (if Applies(c, takeaway) then [(wh, ComponentMove(c, q, ings))] else [])
      + ComponentMoves(comps[1..], takeaway, wh, q, ings)
  }

  /** One modifier's line: the JSON's ingredient and quantity, else the
      modifier row's (whose warehouse fills in only a missing one), taken
      from the modifier's warehouse or else the product's workshop. */
  function ModifierMove(ws: seq<(nat, Warehouse)>, fallback: nat, cat: Catalog, ings: map<nat, Ingredient>,
                        prodWh: nat, q: real, m: ModData): Option<(nat, Move)>
  {
    var useRow := !(Given(m.ingredientId) && Truthy(m.ingredientQty)) && Given(m.id) && m.id.value in cat.modifiers;
    var ing := if useRow then cat.modifiers[m.id.value].ingredientId else m.ingredientId;
    var qty := if useRow then cat.modifiers[m.id.value].ingredientQty else m.ingredientQty;
    var wh0 := if useRow && !Given(m.warehouseId) then cat.modifiers[m.id.value].warehouseId else m.warehouseId;
    var wh := if Given(wh0) then wh0.value else prodWh;
    if Given(ing) && Truthy(qty)
    then Some((Resolve(ws, fallback, wh), Move(ing.value, qty.value * q, CostOf(ings, ing.value))))
    else None
  }

  /** Where a modifier's line comes from: the JSON's ingredient and
      quantity when both are set; otherwise, while the modifier still
      exists, the modifier row's, with the JSON's warehouse before the
      row's; otherwise nothing. The warehouse falls back to the product's
      workshop and is resolved to its store room. */
  lemma ModifierMoveCases(ws: seq<(nat, Warehouse)>, fallback: nat, cat: Catalog, ings: map<nat, Ingredient>,
                          prodWh: nat, q: real, m: ModData)
    // the JSON's ingredient and quantity, when both are set, win
    ensures Given(m.ingredientId) && Truthy(m.ingredientQty) ==>
      ModifierMove(ws, fallback, cat, ings, prodWh, q, m) == Some((Resolve(ws, fallback, if Given(m.warehouseId) then m.warehouseId.value else prodWh),
                 Move(m.ingredientId.value, m.ingredientQty.value * q, CostOf(ings, m.ingredientId.value))))
    // an incomplete JSON without a modifier row takes nothing
    ensures !(Given(m.ingredientId) && Truthy(m.ingredientQty)) && !(Given(m.id) && m.id.value in cat.modifiers) ==>
      ModifierMove(ws, fallback, cat, ings, prodWh, q, m) == None
    // otherwise the row's ingredient and quantity, and the JSON's warehouse
    // before the row's
    ensures !(Given(m.ingredientId) && Truthy(m.ingredientQty)) && Given(m.id) && m.id.value in cat.modifiers ==>
      var row := cat.modifiers[m.id.value];
      var r := ModifierMove(ws, fallback, cat, ings, prodWh, q, m);
      && (r.Some? <==> Given(row.ingredientId) && Truthy(row.ingredientQty))
      && (r.Some? ==> r.value.0 == Resolve(ws, fallback, if Given(m.warehouseId) then m.warehouseId.value
                                                        else if Given(row.warehouseId) then row.warehouseId.value else prodWh))
      && (r.Some? ==> r.value.1 == Move(row.ingredientId.value, row.ingredientQty.value * q, CostOf(ings, row.ingredientId.value)))
  {
    var json := Given(m.ingredientId) && Truthy(m.ingredientQty);
    var useRow := !json && Given(m.id) && m.id.value in cat.modifiers;
    var r := ModifierMove(ws, fallback, cat, ings, prodWh, q, m);
    if json {
      assert !useRow && r.Some?;
      assert r.value.0 == Resolve(ws, fallback, if Given(m.warehouseId) then m.warehouseId.value else prodWh);
      assert r.value.1 == Move(m.ingredientId.value, m.ingredientQty.value * q, CostOf(ings, m.ingredientId.value));
    } else if useRow {
      var row := cat.modifiers[m.id.value];
      assert r.Some? <==> Given(row.ingredientId) && Truthy(row.ingredientQty);
      if r.Some? {
        assert r.value.0 == Resolve(ws, fallback, if Given(m.warehouseId) then m.warehouseId.value
                                                  else if Given(row.warehouseId) then row.warehouseId.value else prodWh);
        assert r.value.1 == Move(row.ingredientId.value, row.ingredientQty.value * q, CostOf(ings, row.ingredientId.value));
      }
    }
  }

  function ModifierMoves(ws: seq<(nat, Warehouse)>, fallback: nat, cat: Catalog, ings: map<nat, Ingredient>,
                         prodWh: nat, q: real, mods: seq<ModData>): (p: Plan)
    ensures fallback != 0 ==> forall e | e in p :: e.0 != 0
    ensures |p| <= |mods|
  {
    if mods == [] then []
    else
      (match ModifierMove(ws, fallback, cat, ings, prodWh, q, mods[0])
       case Some(e) => [e]
       case None => [])
      + ModifierMoves(ws, fallback, cat, ings, prodWh, q, mods[1..])
  }

  /** An order line: its tech card from the (resolved) workshop, then its
      modifiers. */
  function LineMoves(ws: seq<(nat, Warehouse)>, fallback: nat, cat: Catalog, ings: map<nat, Ingredient>,
                     takeaway: bool, line: OrderLine): (p: Plan)
    ensures fallback != 0 ==> forall e | e in p :: e.0 != 0
  {
    var prodWh := ProductWarehouse(cat, fallback, line.productId);
    var storage := Resolve(ws, fallback, prodWh);
    (if line.productId in cat.techCards
     then ComponentMoves(cat.techCards[line.productId], takeaway, storage, line.quantity as real, ings)
     else [])
    + ModifierMoves(ws, fallback, cat, ings, prodWh, line.quantity as real, line.modifiers)
  }

  function LinesMoves(ws: seq<(nat, Warehouse)>, fallback: nat, cat: Catalog, ings: map<nat, Ingredient>,
                      takeaway: bool, lines: seq<OrderLine>): (p: Plan)
    ensures fallback != 0 ==> forall e | e in p :: e.0 != 0
  {
    if lines == [] then []
    else LineMoves(ws, fallback, cat, ings, takeaway, lines[0]) + LinesMoves(ws, fallback, cat, ings, takeaway, lines[1..])
  }

  /** `trigger_type IN (trigger, 'all')`. */
  predicate Fires(r: Rule, trigger: string) { r.triggerType == trigger || r.triggerType == "all" }

  /** A rule's line: its quantity once per order (not per portion), from
      its resolved warehouse (the fallback when it names none). */
  function RuleEntry(ws: seq<(nat, Warehouse)>, fallback: nat, ings: map<nat, Ingredient>, r: Rule): (nat, Move)
  {
    (Resolve(ws, fallback, r.warehouseId.GetOr(0)), Move(r.ingredientId, r.quantity, CostOf(ings, r.ingredientId)))
  }

  /** The rules for the order's trigger and for "all", in table order. */
  function RuleMoves(ws: seq<(nat, Warehouse)>, fallback: nat, ings: map<nat, Ingredient>, trigger: string, rules: seq<Rule>): (p: Plan)
    ensures fallback != 0 ==> forall e | e in p :: e.0 != 0
  {
    if rules == [] then []
    else
      var r := rules[0];
      (if Fires(r, trigger) then [RuleEntry(ws, fallback, ings, r)] else [])
      + RuleMoves(ws, fallback, ings, trigger, rules[1..])
  }

  /** Everything an order takes from stock: its lines, then its rules.
      The fallback is the first warehouse of the table. */
  function OrderPlan(ws: seq<(nat, Warehouse)>, cat: Catalog, ings: map<nat, Ingredient>, o: Records.Order, lines: seq<OrderLine>): (p: Plan)
    requires ws != []
    ensures ws[0].0 != 0 ==> forall e | e in p :: e.0 != 0
  {
    var fallback := ws[0].0;
    LinesMoves(ws, fallback, cat, ings, Takeaway(o), lines) + RuleMoves(ws, fallback, ings, Trigger(o), cat.rules)
  }

  /** Σ qty of the planned lines of ingredient i from warehouse w. */
  function PlanQty(p: Plan, w: nat, i: nat): real
  {
    if p == [] then 0.0
    else
      var e := p[|p| - 1];
      PlanQty(p[..|p| - 1], w, i) + (if e.0 == w && e.1.ingredientId == i then e.1.qty else 0.0)
  }

  lemma {:induction false} PlanQtyAppend(a: Plan, b: Plan, w: nat, i: nat)
    ensures PlanQty(a + b, w, i) == PlanQty(a, w, i) + PlanQty(b, w, i)
    decreases |b|
  {
    if b == [] {
      assert a + b == a;
    } else {
      var b' := b[..|b| - 1];
      assert (a + b)[..|a + b| - 1] == a + b';
      assert (a + b)[|a + b| - 1] == b[|b| - 1];
      PlanQtyAppend(a, b', w, i);
    }
  }

  lemma PlanQtySingle(e: (nat, Move), w: nat, i: nat)
    ensures PlanQty([e], w, i) == if e.0 == w && e.1.ingredientId == i then e.1.qty else 0.0
  {
    assert [e][..0] == [];
  }

  // ---------------------------------------------------------------------
  // What the plan takes

  /** The tech card's need of ingredient i for q portions: Σ gross × q over
      its lines of that ingredient that apply to the order. */
  function TechNeed(comps: seq<TechComponent>, takeaway: bool, q: real, i: nat): real
  {
    if comps == [] then 0.0
    else (if comps[0].ingredientId == i && Applies(comps[0], takeaway) then comps[0].gross * q else 0.0)
         + TechNeed(comps[1..], takeaway, q, i)
  }

  /** The tech card's lines are exactly its applying components, each
      gross × q, all from the given warehouse. */
  lemma {:induction false} ComponentMovesMembers(comps: seq<TechComponent>, takeaway: bool, wh: nat, q: real,
                                                 ings: map<nat, Ingredient>, e: (nat, Move))
    ensures e in ComponentMoves(comps, takeaway, wh, q, ings) <==>
      e.0 == wh && exists c | c in comps && Applies(c, takeaway) :: e.1 == ComponentMove(c, q, ings)
    decreases comps
  {
    if comps != [] {
      var c0 := comps[0];
      var h: Plan := if Applies(c0, takeaway) then [(wh, ComponentMove(c0, q, ings))] else [];
      assert ComponentMoves(comps, takeaway, wh, q, ings) == h + ComponentMoves(comps[1..], takeaway, wh, q, ings);
      ComponentMovesMembers(comps[1..], takeaway, wh, q, ings, e);
      assert forall c | c in comps :: c == c0 || c in comps[1..] by {
        assert comps == [c0] + comps[1..];
      }
    }
  }

  /** The tech card takes gross × q of each ingredient, summed over the
      lines that apply, and only from its warehouse. */
  lemma {:induction false} ComponentMovesQty(comps: seq<TechComponent>, takeaway: bool, wh: nat, q: real,
                                             ings: map<nat, Ingredient>, w: nat, i: nat)
    ensures PlanQty(ComponentMoves(comps, takeaway, wh, q, ings), w, i) == if w == wh then TechNeed(comps, takeaway, q, i) else 0.0
    decreases comps
  {
    if comps != [] {
      var c0 := comps[0];
      var h: Plan := if Applies(c0, takeaway) then [(wh, ComponentMove(c0, q, ings))] else [];
      var tail := ComponentMoves(comps[1..], takeaway, wh, q, ings);
      assert ComponentMoves(comps, takeaway, wh, q, ings) == h + tail;
      PlanQtyAppend(h, tail, w, i);
      ComponentMovesQty(comps[1..], takeaway, wh, q, ings, w, i);
      if h != [] {
        PlanQtySingle((wh, ComponentMove(c0, q, ings)), w, i);
      }
    }
  }

  /** The modifier lines are exactly what ModifierMove finds for some
      modifier of the line. */
  lemma {:induction false} ModifierMovesMembers(ws: seq<(nat, Warehouse)>, fallback: nat, cat: Catalog, ings: map<nat, Ingredient>,
                                                prodWh: nat, q: real, mods: seq<ModData>, e: (nat, Move))
    ensures e in ModifierMoves(ws, fallback, cat, ings, prodWh, q, mods) <==>
      exists m | m in mods :: ModifierMove(ws, fallback, cat, ings, prodWh, q, m) == Some(e)
    decreases mods
  {
    if mods != [] {
      var m0 := mods[0];
      var h: Plan := match ModifierMove(ws, fallback, cat, ings, prodWh, q, m0) case Some(x) => [x] case None => [];
      assert ModifierMoves(ws, fallback, cat, ings, prodWh, q, mods) == h + ModifierMoves(ws, fallback, cat, ings, prodWh, q, mods[1..]);
      ModifierMovesMembers(ws, fallback, cat, ings, prodWh, q, mods[1..], e);
      assert forall m | m in mods :: m == m0 || m in mods[1..] by {
        assert mods == [m0] + mods[1..];
      }
    }
  }

  /** An order line takes its tech card's applying components, gross ×
      quantity, from the product's workshop resolved to its store room,
      and what its modifiers find; nothing else. */
  lemma LineMovesMembers(ws: seq<(nat, Warehouse)>, fallback: nat, cat: Catalog, ings: map<nat, Ingredient>,
                         takeaway: bool, line: OrderLine, e: (nat, Move))
    ensures var prodWh := ProductWarehouse(cat, fallback, line.productId);
      var q := line.quantity as real;
      e in LineMoves(ws, fallback, cat, ings, takeaway, line) <==>
        (&& line.productId in cat.techCards
         && e.0 == Resolve(ws, fallback, prodWh)
         && exists c | c in cat.techCards[line.productId] && Applies(c, takeaway) :: e.1 == ComponentMove(c, q, ings))
        || exists m | m in line.modifiers :: ModifierMove(ws, fallback, cat, ings, prodWh, q, m) == Some(e)
  {
    var prodWh := ProductWarehouse(cat, fallback, line.productId);
    var q := line.quantity as real;
    ModifierMovesMembers(ws, fallback, cat, ings, prodWh, q, line.modifiers, e);
    if line.productId in cat.techCards {
      ComponentMovesMembers(cat.techCards[line.productId], takeaway, Resolve(ws, fallback, prodWh), q, ings, e);
    }
  }

  /** An order line's quantity of ingredient i from warehouse w: its tech
      card's need when w is the resolved workshop, plus its modifiers'. */
  lemma LineMovesQty(ws: seq<(nat, Warehouse)>, fallback: nat, cat: Catalog, ings: map<nat, Ingredient>,
                     takeaway: bool, line: OrderLine, w: nat, i: nat)
    ensures var prodWh := ProductWarehouse(cat, fallback, line.productId);
      var q := line.quantity as real;
      PlanQty(LineMoves(ws, fallback, cat, ings, takeaway, line), w, i)
        == (if line.productId in cat.techCards && w == Resolve(ws, fallback, prodWh)
            then TechNeed(cat.techCards[line.productId], takeaway, q, i) else 0.0)
           + PlanQty(ModifierMoves(ws, fallback, cat, ings, prodWh, q, line.modifiers), w, i)
  {
    var prodWh := ProductWarehouse(cat, fallback, line.productId);
    var q := line.quantity as real;
    var card: Plan := if line.productId in cat.techCards
      then ComponentMoves(cat.techCards[line.productId], takeaway, Resolve(ws, fallback, prodWh), q, ings) else [];
    PlanQtyAppend(card, ModifierMoves(ws, fallback, cat, ings, prodWh, q, line.modifiers), w, i);
    if line.productId in cat.techCards {
      ComponentMovesQty(cat.techCards[line.productId], takeaway, Resolve(ws, fallback, prodWh), q, ings, w, i);
    }
  }

  /** The lines' plan is the concatenation of each line's plan. */
  lemma {:induction false} LinesMovesAppend(ws: seq<(nat, Warehouse)>, fallback: nat, cat: Catalog, ings: map<nat, Ingredient>,
                                            takeaway: bool, a: seq<OrderLine>, b: seq<OrderLine>)
    ensures LinesMoves(ws, fallback, cat, ings, takeaway, a + b)
         == LinesMoves(ws, fallback, cat, ings, takeaway, a) + LinesMoves(ws, fallback, cat, ings, takeaway, b)
    decreases a
  {
    if a == [] {
      assert a + b == b;
    } else {
      assert (a + b)[0] == a[0] && (a + b)[1..] == a[1..] + b;
      LinesMovesAppend(ws, fallback, cat, ings, takeaway, a[1..], b);
    }
  }

  /** Every planned line comes from one order line, and every order line's
      plan is taken. */
  lemma {:induction false} LinesMovesMembers(ws: seq<(nat, Warehouse)>, fallback: nat, cat: Catalog, ings: map<nat, Ingredient>,
                                             takeaway: bool, lines: seq<OrderLine>, e: (nat, Move))
    ensures e in LinesMoves(ws, fallback, cat, ings, takeaway, lines) <==>
      exists l | l in lines :: e in LineMoves(ws, fallback, cat, ings, takeaway, l)
    decreases lines
  {
    if lines != [] {
      var l0 := lines[0];
      LinesMovesMembers(ws, fallback, cat, ings, takeaway, lines[1..], e);
      assert forall l | l in lines :: l == l0 || l in lines[1..] by {
        assert lines == [l0] + lines[1..];
      }
    }
  }

  /** Σ quantity of the firing rules of ingredient i whose resolved
      warehouse is w. */
  function RulesNeed(ws: seq<(nat, Warehouse)>, fallback: nat, trigger: string, rules: seq<Rule>, w: nat, i: nat): real
  {
    if rules == [] then 0.0
    else
      var r := rules[0];
      (if Fires(r, trigger) && r.ingredientId == i && Resolve(ws, fallback, r.warehouseId.GetOr(0)) == w then r.quantity else 0.0)
      + RulesNeed(ws, fallback, trigger, rules[1..], w, i)
  }

  /** A rule is applied exactly when its trigger is the order's or "all",
      with its own quantity from its resolved warehouse. */
  lemma {:induction false} RuleMovesMembers(ws: seq<(nat, Warehouse)>, fallback: nat, ings: map<nat, Ingredient>,
                                            trigger: string, rules: seq<Rule>, e: (nat, Move))
    ensures e in RuleMoves(ws, fallback, ings, trigger, rules) <==>
      exists r | r in rules && Fires(r, trigger) :: e == RuleEntry(ws, fallback, ings, r)
    decreases rules
  {
    if rules != [] {
      var r0 := rules[0];
      var h: Plan := if Fires(r0, trigger) then [RuleEntry(ws, fallback, ings, r0)] else [];
      assert RuleMoves(ws, fallback, ings, trigger, rules) == h + RuleMoves(ws, fallback, ings, trigger, rules[1..]);
      RuleMovesMembers(ws, fallback, ings, trigger, rules[1..], e);
      assert forall r | r in rules :: r == r0 || r in rules[1..] by {
        assert rules == [r0] + rules[1..];
      }
    }
  }

  /** The rules take, per ingredient and warehouse, the sum of the firing
      rules' quantities. */
  lemma {:induction false} RuleMovesQty(ws: seq<(nat, Warehouse)>, fallback: nat, ings: map<nat, Ingredient>,
                                        trigger: string, rules: seq<Rule>, w: nat, i: nat)
    ensures PlanQty(RuleMoves(ws, fallback, ings, trigger, rules), w, i) == RulesNeed(ws, fallback, trigger, rules, w, i)
    decreases rules
  {
    if rules != [] {
      var r0 := rules[0];
      var h: Plan := if Fires(r0, trigger) then [RuleEntry(ws, fallback, ings, r0)] else [];
      var tail := RuleMoves(ws, fallback, ings, trigger, rules[1..]);
      assert RuleMoves(ws, fallback, ings, trigger, rules) == h + tail;
      PlanQtyAppend(h, tail, w, i);
      RuleMovesQty(ws, fallback, ings, trigger, rules[1..], w, i);
      if h != [] {
        PlanQtySingle(RuleEntry(ws, fallback, ings, r0), w, i);
      }
    }
  }

  /** What an order takes: every line of every order item's plan, and one
      line per rule for the order's kind or for all orders; nothing else.
      The fallback is the first warehouse of the table. */
  lemma OrderPlanMembers(ws: seq<(nat, Warehouse)>, cat: Catalog, ings: map<nat, Ingredient>, o: Records.Order,
                         lines: seq<OrderLine>, e: (nat, Move))
    requires ws != []
    ensures e in OrderPlan(ws, cat, ings, o, lines) <==>
      (exists l | l in lines :: e in LineMoves(ws, ws[0].0, cat, ings, Takeaway(o), l))
      || (exists r | r in cat.rules && Fires(r, Trigger(o)) :: e == RuleEntry(ws, ws[0].0, ings, r))
  {
    LinesMovesMembers(ws, ws[0].0, cat, ings, Takeaway(o), lines, e);
    RuleMovesMembers(ws, ws[0].0, ings, Trigger(o), cat.rules, e);
  }

  /** An order's quantity of ingredient i from warehouse w: its items'
      plus its rules'. */
  lemma OrderPlanQty(ws: seq<(nat, Warehouse)>, cat: Catalog, ings: map<nat, Ingredient>, o: Records.Order,
                     lines: seq<OrderLine>, w: nat, i: nat)
    requires ws != []
    ensures PlanQty(OrderPlan(ws, cat, ings, o, lines), w, i)
         == PlanQty(LinesMoves(ws, ws[0].0, cat, ings, Takeaway(o), lines), w, i)
            + RulesNeed(ws, ws[0].0, Trigger(o), cat.rules, w, i)
  {
    PlanQtyAppend(LinesMoves(ws, ws[0].0, cat, ings, Takeaway(o), lines), RuleMoves(ws, ws[0].0, ings, Trigger(o), cat.rules), w, i);
    RuleMovesQty(ws, ws[0].0, ings, Trigger(o), cat.rules, w, i);
  }

  /** The per-warehouse lists: a new warehouse is appended, a known one
      gets the line at the end of its list. */
  type Groups = seq<(nat, seq<Move>)>

  function GroupAdd(g: Groups, e: (nat, Move)): Groups
  {
    Put(g, e.0, Get(g, e.0).GetOr([]) + [e.1])
  }

  /** The plan grouped by warehouse, in order of first appearance. */
  function GroupOf(p: Plan): Groups
  {
    if p == [] then [] else GroupAdd(GroupOf(p[..|p| - 1]), p[|p| - 1])
  }

  function GroupWeight(w: nat, i: nat): (nat, seq<Move>) -> real
  {
    (k: nat, ms: seq<Move>) => if k == w then MovesQty(ms, i) else 0.0
  }

  /** Σ of the group lists' quantity of ingredient i from warehouse w. */
  function GroupsQty(g: Groups, w: nat, i: nat): real { SumValues(g, GroupWeight(w, i)) }

  /** Grouping loses and invents no line: the groups hold exactly the
      plan's quantity of every ingredient per warehouse, under distinct
      warehouses that all appear in the plan. */
  lemma {:induction false} GroupOfKeeps(p: Plan, w: nat, i: nat)
    ensures DistinctKeys(GroupOf(p))
    ensures forall e | e in GroupOf(p) :: exists k | 0 <= k < |p| :: p[k].0 == e.0
    ensures GroupsQty(GroupOf(p), w, i) == PlanQty(p, w, i)
    decreases |p|
  {
    if p != [] {
      var init, e := p[..|p| - 1], p[|p| - 1];
      var g := GroupOf(init);
      GroupOfKeeps(init, w, i);
      var old_ := Get(g, e.0).GetOr([]);
      PutDistinct(g, e.0, old_ + [e.1]);
      PutEntries(g, e.0, old_ + [e.1]);
      forall x | x in GroupOf(p) ensures exists k | 0 <= k < |p| :: p[k].0 == x.0 {
        if x.0 == e.0 {
          assert p[|p| - 1].0 == x.0;
        } else {
          assert x in g;
          var k :| 0 <= k < |init| && init[k].0 == x.0;
          assert p[k] == init[k];
        }
      }
      SumPut(g, e.0, old_ + [e.1], GroupWeight(w, i));
      MovesQtyAppend(old_, [e.1], i);
      assert MovesQty([e.1], i) == if e.1.ingredientId == i then e.1.qty else 0.0;
    }
  }

  /** Posting each group as one document: deductions from, or returns to,
      the group's warehouse. */
  function PostGroups(l: Ledger, g: Groups, isReturn: bool, orderId: Option<nat>): Result<Ledger, StockError>
    decreases g
  {
    if g == [] then Ok(l)
    else
      match PostGroup(l, g[0].0, g[0].1, isReturn, orderId)
      case Err(e) => Err(e)
      case Ok(l1) => PostGroups(l1, g[1..], isReturn, orderId)
  }

  /** One group's document: a deduction from its warehouse, or a return to it. */
  function PostGroup(l: Ledger, wh: nat, ms: seq<Move>, isReturn: bool, orderId: Option<nat>): Result<Ledger, StockError>
  {
    if isReturn then ProcessMovementSpec(l, "return", ms, None, Some(wh), None, orderId)
    else ProcessMovementSpec(l, "deduction", ms, Some(wh), None, None, orderId)
  }

  /** A group's document posts for a real warehouse and moves exactly the
      group's quantity of every ingredient at that warehouse. */
  lemma PostGroupMoves(l: Ledger, wh: nat, ms: seq<Move>, isReturn: bool, orderId: Option<nat>, w: nat, i: nat)
    requires Inv(l) && wh != 0
    ensures var r := PostGroup(l, wh, ms, isReturn, orderId);
      var x := GroupWeight(w, i)(wh, ms);
      && r.Ok? && Inv(r.value)
      && r.value.ingredients == l.ingredients && r.value.warehouses == l.warehouses
      && Qty(r.value.stock, w, i) == Qty(l.stock, w, i) + (if isReturn then x else -x)
  {
    var docType := if isReturn then "return" else "deduction";
    var src := if isReturn then None else Some(wh);
    var tgt := if isReturn then Some(wh) else None;
    ProcessMovementMoves(l, docType, ms, src, tgt, None, orderId, w, i);
    ProcessMovementKeeps(l, docType, ms, src, tgt, None, orderId);
  }

  /** process_movement of anything but a supply leaves the costs and the
      warehouses alone. */
  lemma ProcessMovementKeeps(l: Ledger, docType: string, moves: seq<Move>, source: Option<nat>, target: Option<nat>,
                             supplierId: Option<nat>, orderId: Option<nat>)
    requires docType != "supply"
    ensures var r := ProcessMovementSpec(l, docType, moves, source, target, supplierId, orderId);
      r.Ok? ==> r.value.ingredients == l.ingredients && r.value.warehouses == l.warehouses
  {
    if moves != [] && !MissingFor(docType, source, target) {
      var d := Doc(docType, supplierId, source, target, Numbered(moves, l.nextItemId), false, orderId);
      PostItemsKeepsCosts(l.stock, l.ingredients, d, d.items);
    }
  }

  lemma {:induction false} PostGroupsMoves(l: Ledger, g: Groups, isReturn: bool, orderId: Option<nat>, w: nat, i: nat)
    requires Inv(l) && forall e | e in g :: e.0 != 0
    ensures var r := PostGroups(l, g, isReturn, orderId);
      && r.Ok? && Inv(r.value)
      && r.value.ingredients == l.ingredients && r.value.warehouses == l.warehouses
      && Qty(r.value.stock, w, i) == Qty(l.stock, w, i) + (if isReturn then GroupsQty(g, w, i) else -GroupsQty(g, w, i))
    decreases g
  {
    if g != [] {
      assert g[0] in g;
      PostGroupMoves(l, g[0].0, g[0].1, isReturn, orderId, w, i);
      var l1 := PostGroup(l, g[0].0, g[0].1, isReturn, orderId).value;
      assert forall e | e in g[1..] :: e in g;
      PostGroupsMoves(l1, g[1..], isReturn, orderId, w, i);
    }
  }

  /** deduct_products_by_tech_card: the answer is the ledger and the
      order's new "deducted" flag. */
  function DeductSpec(l: Ledger, cat: Catalog, o: Records.Order, lines: seq<OrderLine>): Result<(Ledger, bool), StockError>
  {
    if o.isInventoryDeducted then Ok((l, true))
    else if lines == [] then Ok((l, true))
    else if l.warehouses == [] then Ok((l, false))
    else
      match PostGroups(l, GroupOf(OrderPlan(l.warehouses, cat, l.ingredients, o, lines)), false, Some(o.id))
      case Err(e) => Err(e)
      case Ok(l1) => Ok((l1, true))
  }

  /** reverse_deduction: the same plan, returned to the same warehouses. */
  function ReverseSpec(l: Ledger, cat: Catalog, o: Records.Order, lines: seq<OrderLine>): Result<(Ledger, bool), StockError>
  {
    if !o.isInventoryDeducted then Ok((l, false))
    else if lines == [] then Ok((l, false))
    else if l.warehouses == [] then Ok((l, true))
    else
      match PostGroups(l, GroupOf(OrderPlan(l.warehouses, cat, l.ingredients, o, lines)), true, Some(o.id))
      case Err(e) => Err(e)
      case Ok(l1) => Ok((l1, false))
  }

  /** Deduction never fails; it is done at most once per order, keeps the
      ledger when there is no warehouse (so it can be retried), and
      otherwise takes from every warehouse exactly the order's plan. */
  lemma DeductMoves(l: Ledger, cat: Catalog, o: Records.Order, lines: seq<OrderLine>, w: nat, i: nat)
    requires Inv(l)
    ensures var r := DeductSpec(l, cat, o, lines);
      && r.Ok? && Inv(r.value.0)
      && r.value.0.ingredients == l.ingredients && r.value.0.warehouses == l.warehouses
      && (o.isInventoryDeducted ==> r.value == (l, true))
      && (!o.isInventoryDeducted && lines == [] ==> r.value == (l, true))
      && (l.warehouses == [] ==> r.value.0 == l && r.value.1 == (o.isInventoryDeducted || lines == []))
      && (!o.isInventoryDeducted && lines != [] && l.warehouses != [] ==>
            r.value.1 &&
            Qty(r.value.0.stock, w, i)
              == Qty(l.stock, w, i) - PlanQty(OrderPlan(l.warehouses, cat, l.ingredients, o, lines), w, i))
  {
    if !o.isInventoryDeducted && lines != [] && l.warehouses != [] {
      assert HasKey(l.warehouses, l.warehouses[0].0);
      var p := OrderPlan(l.warehouses, cat, l.ingredients, o, lines);
      GroupOfKeeps(p, w, i);
      forall e | e in GroupOf(p) ensures e.0 != 0 {
        var k :| 0 <= k < |p| && p[k].0 == e.0;
        assert p[k] in p;
      }
      PostGroupsMoves(l, GroupOf(p), false, Some(o.id), w, i);
    }
  }

  /** Reversal never fails; it only acts on a deducted order, keeps the
      ledger (and the flag) when there is no warehouse, and otherwise
      returns to every warehouse exactly the order's plan. */
  lemma ReverseMoves(l: Ledger, cat: Catalog, o: Records.Order, lines: seq<OrderLine>, w: nat, i: nat)
    requires Inv(l)
    ensures var r := ReverseSpec(l, cat, o, lines);
      && r.Ok? && Inv(r.value.0)
      && r.value.0.ingredients == l.ingredients && r.value.0.warehouses == l.warehouses
      && (!o.isInventoryDeducted ==> r.value == (l, false))
      && (o.isInventoryDeducted && lines == [] ==> r.value == (l, false))
      && (l.warehouses == [] ==> r.value.0 == l && r.value.1 == (o.isInventoryDeducted && lines != []))
      && (o.isInventoryDeducted && lines != [] && l.warehouses != [] ==>
            !r.value.1 &&
            Qty(r.value.0.stock, w, i)
              == Qty(l.stock, w, i) + PlanQty(OrderPlan(l.warehouses, cat, l.ingredients, o, lines), w, i))
  {
    if o.isInventoryDeducted && lines != [] && l.warehouses != [] {
      assert HasKey(l.warehouses, l.warehouses[0].0);
      var p := OrderPlan(l.warehouses, cat, l.ingredients, o, lines);
      GroupOfKeeps(p, w, i);
      forall e | e in GroupOf(p) ensures e.0 != 0 {
        var k :| 0 <= k < |p| && p[k].0 == e.0;
        assert p[k] in p;
      }
      PostGroupsMoves(l, GroupOf(p), true, Some(o.id), w, i);
    }
  }

  /** Cancelling an order returns what its deduction took: after a
      deduction and its reversal every stock row is what it was, and the
      order is no longer marked as deducted. */
  lemma DeductThenReverse(l: Ledger, cat: Catalog, o: Records.Order, lines: seq<OrderLine>, w: nat, i: nat)
    requires Inv(l) && !o.isInventoryDeducted
    ensures DeductSpec(l, cat, o, lines).Ok?
    ensures var d := DeductSpec(l, cat, o, lines).value;
      var r := ReverseSpec(d.0, cat, o.(isInventoryDeducted := d.1), lines);
      r.Ok? && !r.value.1 && Qty(r.value.0.stock, w, i) == Qty(l.stock, w, i)
  {
    DeductMoves(l, cat, o, lines, w, i);
    if lines != [] && l.warehouses != [] {
      assert HasKey(l.warehouses, l.warehouses[0].0);
      var d := DeductSpec(l, cat, o, lines).value;
      var o1 := o.(isInventoryDeducted := true);
      var p := OrderPlan(l.warehouses, cat, l.ingredients, o, lines);
      assert OrderPlan(d.0.warehouses, cat, d.0.ingredients, o1, lines) == p;
      GroupOfKeeps(p, w, i);
      forall e | e in GroupOf(p) ensures e.0 != 0 {
        var k :| 0 <= k < |p| && p[k].0 == e.0;
        assert p[k] in p;
      }
      PostGroupsMoves(d.0, GroupOf(p), true, Some(o.id), w, i);
    }
  }

  // ---------------------------------------------------------------------
  // Prime cost of an order

  /** Σ current cost × gross over the tech card's lines that count. */
  function ComponentsCost(comps: seq<TechComponent>, takeaway: bool, ings: map<nat, Ingredient>): real
  {
    if comps == [] then 0.0
    else
      (if comps[0].isTakeaway && !takeaway then 0.0 else CostOf(ings, comps[0].ingredientId) * comps[0].gross)
      + ComponentsCost(comps[1..], takeaway, ings)
  }

  /** A modifier's cost: the JSON's ingredient, or for an entry without
      one the modifier row's ingredient and quantity; only a positive
      quantity of a known ingredient costs anything. A stored modifier row
      always has a quantity (the column is not nullable), so the 0 read for
      a missing one applies only to the JSON entry. */
  function ModCost(cat: Catalog, ings: map<nat, Ingredient>, m: ModData): real
  {
    var fromRow := !Given(m.ingredientId) && Given(m.id) && m.id.value in cat.modifiers;
    var ing := if fromRow then cat.modifiers[m.id.value].ingredientId else m.ingredientId;
    var qty := if fromRow then cat.modifiers[m.id.value].ingredientQty.GetOr(0.0) else m.ingredientQty.GetOr(0.0);
    if Given(ing) && qty > 0.0 then CostOf(ings, ing.value) * qty else 0.0
  }

  function ModsCost(cat: Catalog, ings: map<nat, Ingredient>, mods: seq<ModData>): real
  {
    if mods == [] then 0.0 else ModCost(cat, ings, mods[0]) + ModsCost(cat, ings, mods[1..])
  }

  function TechCard(cat: Catalog, productId: nat): seq<TechComponent>
  {
    if productId in cat.techCards then cat.techCards[productId] else []
  }

  /** (dish cost + modifiers' cost) × quantity. */
  function LineCost(cat: Catalog, ings: map<nat, Ingredient>, takeaway: bool, line: OrderLine): real
  {
    (ComponentsCost(TechCard(cat, line.productId), takeaway, ings) + ModsCost(cat, ings, line.modifiers)) * (line.quantity as real)
  }

  function LinesCost(cat: Catalog, ings: map<nat, Ingredient>, takeaway: bool, lines: seq<OrderLine>): real
  {
    if lines == [] then 0.0 else LineCost(cat, ings, takeaway, lines[0]) + LinesCost(cat, ings, takeaway, lines[1..])
  }

  /** calculate_order_prime_cost: 0 for a missing order or one without
      lines. */
  function PrimeCostSpec(cat: Catalog, ings: map<nat, Ingredient>, o: Option<Records.Order>, lines: seq<OrderLine>): real
  {
    if o.None? || lines == [] then 0.0 else LinesCost(cat, ings, Takeaway(o.value), lines)
  }

  /** The cost loop of calculate_order_prime_cost. */
  method PrimeCost(cat: Catalog, ings: map<nat, Ingredient>, o: Option<Records.Order>, lines: seq<OrderLine>) returns (total: real)
    ensures total == PrimeCostSpec(cat, ings, o, lines)
  {
    if o.None? || lines == [] {
      return 0.0;
    }
    var takeaway := Takeaway(o.value);
    total := 0.0;
    var k := 0;
    while k < |lines|
      invariant 0 <= k <= |lines|
      invariant total + LinesCost(cat, ings, takeaway, lines[k..]) == LinesCost(cat, ings, takeaway, lines)
    {
      var cost := LineCostOf(cat, ings, takeaway, lines[k]);
      assert lines[k..][1..] == lines[k + 1..];
      total := total + cost;
      k := k + 1;
    }
  }

  /** One order line's share of calculate_order_prime_cost. */
  method LineCostOf(cat: Catalog, ings: map<nat, Ingredient>, takeaway: bool, line: OrderLine) returns (cost: real)
    ensures cost == LineCost(cat, ings, takeaway, line)
  {
    var itemCost := DishCost(TechCard(cat, line.productId), takeaway, ings);
    var modsCost := ModifiersCost(cat, ings, line.modifiers);
    cost := (itemCost + modsCost) * (line.quantity as real);
  }

  /** The tech-card loop of calculate_order_prime_cost. */
  method DishCost(comps: seq<TechComponent>, takeaway: bool, ings: map<nat, Ingredient>) returns (cost: real)
    ensures cost == ComponentsCost(comps, takeaway, ings)
  {
    cost := 0.0;
    var j := 0;
    while j < |comps|
      invariant 0 <= j <= |comps|
      invariant cost + ComponentsCost(comps[j..], takeaway, ings) == ComponentsCost(comps, takeaway, ings)
    {
      assert comps[j..][1..] == comps[j + 1..];
      if !(comps[j].isTakeaway && !takeaway) {
        cost := cost + CostOf(ings, comps[j].ingredientId) * comps[j].gross;
      }
      j := j + 1;
    }
  }

  /** The modifier loop of calculate_order_prime_cost. */
  method ModifiersCost(cat: Catalog, ings: map<nat, Ingredient>, mods: seq<ModData>) returns (cost: real)
    ensures cost == ModsCost(cat, ings, mods)
  {
    cost := 0.0;
    var j := 0;
    while j < |mods|
      invariant 0 <= j <= |mods|
      invariant cost + ModsCost(cat, ings, mods[j..]) == ModsCost(cat, ings, mods)
    {
      assert mods[j..][1..] == mods[j + 1..];
      cost := cost + ModCost(cat, ings, mods[j]);
      j := j + 1;
    }
  }

  lemma MulNonNeg(a: real, b: real)
    requires a >= 0.0 && b >= 0.0
    ensures a * b >= 0.0
  {
  }

  predicate CostsNonNegative(ings: map<nat, Ingredient>)
  {
    forall k | k in ings :: ings[k].currentCost >= 0.0
  }

  predicate CardsNonNegative(cat: Catalog)
  {
    forall p, c | p in cat.techCards && c in cat.techCards[p] :: c.gross >= 0.0
  }

  lemma {:induction false} ComponentsCostNonNegative(comps: seq<TechComponent>, takeaway: bool, ings: map<nat, Ingredient>)
    requires CostsNonNegative(ings) && forall c | c in comps :: c.gross >= 0.0
    ensures ComponentsCost(comps, takeaway, ings) >= 0.0
    decreases comps
  {
    if comps != [] {
      MulNonNeg(CostOf(ings, comps[0].ingredientId), comps[0].gross);
      assert forall c | c in comps[1..] :: c in comps;
      ComponentsCostNonNegative(comps[1..], takeaway, ings);
    }
  }

  lemma {:induction false} ModsCostNonNegative(cat: Catalog, ings: map<nat, Ingredient>, mods: seq<ModData>)
    requires CostsNonNegative(ings)
    ensures ModsCost(cat, ings, mods) >= 0.0
    decreases mods
  {
    if mods != [] {
      var m := mods[0];
      var fromRow := !Given(m.ingredientId) && Given(m.id) && m.id.value in cat.modifiers;
      var ing := if fromRow then cat.modifiers[m.id.value].ingredientId else m.ingredientId;
      var qty := if fromRow then cat.modifiers[m.id.value].ingredientQty.GetOr(0.0) else m.ingredientQty.GetOr(0.0);
      if Given(ing) && qty > 0.0 {
        MulNonNeg(CostOf(ings, ing.value), qty);
      }
      ModsCostNonNegative(cat, ings, mods[1..]);
    }
  }

  /** With non-negative costs and gross amounts, no order has a negative
      prime cost unless a line's quantity is negative. */
  lemma {:induction false} PrimeCostNonNegative(cat: Catalog, ings: map<nat, Ingredient>, o: Option<Records.Order>, lines: seq<OrderLine>)
    requires CostsNonNegative(ings) && CardsNonNegative(cat)
    requires forall line | line in lines :: line.quantity >= 0
    ensures PrimeCostSpec(cat, ings, o, lines) >= 0.0
  {
    if o.Some? {
      LinesCostNonNegative(cat, ings, Takeaway(o.value), lines);
    }
  }

  lemma {:induction false} LinesCostNonNegative(cat: Catalog, ings: map<nat, Ingredient>, takeaway: bool, lines: seq<OrderLine>)
    requires CostsNonNegative(ings) && CardsNonNegative(cat)
    requires forall line | line in lines :: line.quantity >= 0
    ensures LinesCost(cat, ings, takeaway, lines) >= 0.0
    decreases lines
  {
    if lines != [] {
      assert lines[0] in lines;
      LineCostNonNegative(cat, ings, takeaway, lines[0]);
      assert forall x | x in lines[1..] :: x in lines;
      LinesCostNonNegative(cat, ings, takeaway, lines[1..]);
    }
  }

  lemma LineCostNonNegative(cat: Catalog, ings: map<nat, Ingredient>, takeaway: bool, line: OrderLine)
    requires CostsNonNegative(ings) && CardsNonNegative(cat) && line.quantity >= 0
    ensures LineCost(cat, ings, takeaway, line) >= 0.0
  {
    ComponentsCostNonNegative(TechCard(cat, line.productId), takeaway, ings);
    ModsCostNonNegative(cat, ings, line.modifiers);
    MulNonNeg(ComponentsCost(TechCard(cat, line.productId), takeaway, ings) + ModsCost(cat, ings, line.modifiers),
              line.quantity as real);
  }

  /** The prime cost of an order is the sum of its lines' costs. */
  lemma {:induction false} LinesCostAppend(cat: Catalog, ings: map<nat, Ingredient>, takeaway: bool, a: seq<OrderLine>, b: seq<OrderLine>)
    ensures LinesCost(cat, ings, takeaway, a + b) == LinesCost(cat, ings, takeaway, a) + LinesCost(cat, ings, takeaway, b)
    decreases a
  {
    if a == [] {
      assert a + b == b;
    } else {
      assert (a + b)[0] == a[0] && (a + b)[1..] == a[1..] + b;
      LinesCostAppend(cat, ings, takeaway, a[1..], b);
    }
  }

  /** Σ qty × price of a plan: the value at current cost of what it takes. */
  function PlanValue(p: Plan): real
  {
    if p == [] then 0.0 else p[0].1.qty * p[0].1.price + PlanValue(p[1..])
  }

  lemma {:induction false} PlanValueAppend(a: Plan, b: Plan)
    ensures PlanValue(a + b) == PlanValue(a) + PlanValue(b)
    decreases a
  {
    if a == [] {
      assert a + b == b;
    } else {
      assert (a + b)[1..] == a[1..] + b;
      PlanValueAppend(a[1..], b);
    }
  }

  /** The first tech-card line's share of one portion's plan value and
      of the dish cost. */
  lemma ComponentsHead(comps: seq<TechComponent>, takeaway: bool, wh: nat, ings: map<nat, Ingredient>)
    requires comps != []
    ensures var c := comps[0];
      var share := if c.isTakeaway && !takeaway then 0.0 else c.gross * CostOf(ings, c.ingredientId);
      && PlanValue(ComponentMoves(comps, takeaway, wh, 1.0, ings)) == share + PlanValue(ComponentMoves(comps[1..], takeaway, wh, 1.0, ings))
      && ComponentsCost(comps, takeaway, ings) == share + ComponentsCost(comps[1..], takeaway, ings)
  {
    var c := comps[0];
    var p := ComponentMoves(comps, takeaway, wh, 1.0, ings);
    var tail := ComponentMoves(comps[1..], takeaway, wh, 1.0, ings);
    if !Applies(c, takeaway) {
      assert p == tail;
    } else {
      var e := (wh, ComponentMove(c, 1.0, ings));
      assert p == [e] + tail;
      assert ([e] + tail)[1..] == tail;
      assert PlanValue(p) == c.gross * 1.0 * CostOf(ings, c.ingredientId) + PlanValue(tail);
    }
  }

  /** The dish cost the prime cost counts is the value, at current cost, of
      the tech-card lines the deduction takes for one portion: both skip
      the takeaway lines of an order eaten in. */
  lemma {:induction false} ComponentsValue(comps: seq<TechComponent>, takeaway: bool, wh: nat, ings: map<nat, Ingredient>)
    ensures PlanValue(ComponentMoves(comps, takeaway, wh, 1.0, ings)) == ComponentsCost(comps, takeaway, ings)
    decreases comps
  {
    if comps != [] {
      ComponentsHead(comps, takeaway, wh, ings);
      ComponentsValue(comps[1..], takeaway, wh, ings);
    }
  }


  // ---------------------------------------------------------------------
  // The loops of the service, over values

  /** The count loop of process_inventory_check. */
  method CountPlan(st: StockTable, wh: nat, items: seq<DocItem>, ings: map<nat, Ingredient>) returns (surplus: seq<Move>, shortage: seq<Move>)
    ensures surplus == CountMoves(st, wh, items, ings, true)
    ensures shortage == CountMoves(st, wh, items, ings, false)
  {
    surplus, shortage := [], [];
    var k := 0;
    while k < |items|
      invariant 0 <= k <= |items|
      invariant surplus == CountMoves(st, wh, items[..k], ings, true)
      invariant shortage == CountMoves(st, wh, items[..k], ings, false)
    {
      var item := items[k];
      var diff := item.quantity - Qty(st, wh, item.ingredientId);
      var cost := CostOf(ings, item.ingredientId);
      CountMovesStep(st, wh, items, ings, true, k);
      CountMovesStep(st, wh, items, ings, false, k);
      if diff > 0.0 {
        surplus := surplus + [Move(item.ingredientId, diff, cost)];
      } else if diff < 0.0 {
        shortage := shortage + [Move(item.ingredientId, -diff, cost)];
      }
      k := k + 1;
    }
    assert items[..k] == items;
  }

  lemma {:induction false} BatchCostAppend(moves: seq<Move>, m: Move)
    ensures BatchCost(moves + [m]) == BatchCost(moves) + m.qty * m.price
    decreases moves
  {
    if moves == [] {
      assert moves + [m] == [m];
    } else {
      assert (moves + [m])[1..] == moves[1..] + [m];
      BatchCostAppend(moves[1..], m);
    }
  }

  /** The recipe loop of process_production: the raw materials and the
      batch cost. */
  method RecipePlan(recipe: seq<RecipeItem>, qty: real, ings: map<nat, Ingredient>) returns (moves: seq<Move>, total: real)
    ensures moves == RecipeMoves(recipe, qty, ings)
    ensures total == BatchCost(moves)
  {
    moves, total := [], 0.0;
    var k := 0;
    while k < |recipe|
      invariant 0 <= k <= |recipe|
      invariant |moves| == k
      invariant forall j | 0 <= j < k :: moves[j] == Move(recipe[j].childId, recipe[j].gross * qty, CostOf(ings, recipe[j].childId))
      invariant total == BatchCost(moves)
    {
      var needed := recipe[k].gross * qty;
      var raw := CostOf(ings, recipe[k].childId);
      BatchCostAppend(moves, Move(recipe[k].childId, needed, raw));
      total := total + needed * raw;
      moves := moves + [Move(recipe[k].childId, needed, raw)];
      k := k + 1;
    }
    assert moves == RecipeMoves(recipe, qty, ings);
  }

  /** add_deduction over the whole plan: a new warehouse gets an empty
      list, then the line is appended to its warehouse's list. */
  method GroupPlan(p: Plan) returns (g: Groups)
    ensures g == GroupOf(p)
  {
    g := [];
    var k := 0;
    while k < |p|
      invariant 0 <= k <= |p|
      invariant g == GroupOf(p[..k])
    {
      var e := p[k];
      ghost var before := g;
      if !HasKey(g, e.0) {
        g := Put(g, e.0, []);
        assert Get(g, e.0).value + [e.1] == [e.1];
        PutPut(before, e.0, [], [e.1]);
        assert Get(before, e.0).GetOr([]) + [e.1] == [e.1];
      }
      g := Put(g, e.0, Get(g, e.0).value + [e.1]);
      assert g == GroupAdd(before, e);
      assert p[..k + 1][..k] == p[..k];
      k := k + 1;
    }
    assert p[..|p|] == p;
  }

  // ---------------------------------------------------------------------
  // The ledger as the service holds it

  class StockLedger {
    var stock: StockTable
    var ingredients: map<nat, Ingredient>
    var warehouses: seq<(nat, Warehouse)>
    var docs: map<nat, Doc>
    var nextDocId: nat
    var nextItemId: nat

    function State(): Ledger
      reads this
    {
      Ledger(stock, ingredients, warehouses, docs, nextDocId, nextItemId)
    }

    ghost predicate Valid()
      reads this
    {
      Inv(State())
    }

    /** An empty ledger over the given warehouses and ingredients. */
    constructor (ws: seq<(nat, Warehouse)>, ings: map<nat, Ingredient>)
      requires DistinctKeys(ws) && forall k | HasKey(ws, k) :: k != 0
      ensures Valid()
      ensures State() == Ledger([], ings, ws, map[], 1, 1)
    {
      stock, ingredients, warehouses, docs, nextDocId, nextItemId := [], ings, ws, map[], 1, 1;
    }

    /** get_stock: the row's quantity, creating a zero row when there is
        none; no quantity changes. */
    method GetStock(wh: nat, ing: nat) returns (q: real)
      requires Valid()
      modifies this
      ensures Valid()
      ensures q == Qty(old(stock), wh, ing)
      ensures stock == if HasKey(old(stock), (wh, ing)) then old(stock) else old(stock) + [((wh, ing), 0.0)]
      ensures forall w: nat, i: nat :: Qty(stock, w, i) == Qty(old(stock), w, i)
      ensures ingredients == old(ingredients) && warehouses == old(warehouses) && docs == old(docs)
      ensures nextDocId == old(nextDocId) && nextItemId == old(nextItemId)
    {
      match Get(stock, (wh, ing))
      case Some(v) =>
        q := v;
      case None =>
        PutAbsentAppends(stock, (wh, ing), 0.0);
        PutDistinct(stock, (wh, ing), 0.0);
        stock := Put(stock, (wh, ing), 0.0);
        q := 0.0;
    }

    /** apply_doc_stock_changes. A refused document changes nothing: the
        transaction is rolled back. */
    method ApplyDocStockChanges(docId: nat) returns (err: Option<StockError>)
      requires Valid()
      modifies this
      ensures Valid()
      ensures match ApplyDocSpec(old(State()), docId)
        case Ok(l) => err == None && State() == l
        case Err(e) => err == Some(e) && State() == old(State())
    {
      ghost var l0 := State();
      if docId !in docs {
        return Some(DocNotFound);
      }
      var d := docs[docId];
      if d.isProcessed {
        return Some(AlreadyProcessed);
      }
      if d.items == [] {
        docs := docs[docId := d.(isProcessed := true)];
        return None;
      }
      // Every line of a document makes the same warehouse check, so the
      // first line raises before any row is touched.
      if MissingWarehouse(d) {
        return Some(WarehouseMissing);
      }
      PostLines(d);
      docs := docs[docId := d.(isProcessed := true)];
      err := None;
      ApplyDocMoves(l0, docId, 0, 0);
    }

    /** The line loop of apply_doc_stock_changes. */
    method PostLines(d: Doc)
      requires !MissingWarehouse(d)
      modifies this
      ensures (stock, ingredients) == PostItems(old(stock), old(ingredients), d, d.items)
      ensures warehouses == old(warehouses) && docs == old(docs)
      ensures nextDocId == old(nextDocId) && nextItemId == old(nextItemId)
    {
      var k := 0;
      while k < |d.items|
        invariant 0 <= k <= |d.items|
        invariant PostItems(stock, ingredients, d, d.items[k..]) == PostItems(old(stock), old(ingredients), d, d.items)
        invariant warehouses == old(warehouses) && docs == old(docs)
        invariant nextDocId == old(nextDocId) && nextItemId == old(nextItemId)
      {
        assert d.items[k..][1..] == d.items[k + 1..];
        PostLine(d, d.items[k]);
        k := k + 1;
      }
      assert d.items[|d.items|..] == [];
    }

    /** One line of apply_doc_stock_changes: the supply branch moves the
        cost before the row. */
    method PostLine(d: Doc, item: DocItem)
      requires !MissingWarehouse(d)
      modifies this
      ensures (stock, ingredients) == PostItem(old(stock), old(ingredients), d, item)
      ensures warehouses == old(warehouses) && docs == old(docs)
      ensures nextDocId == old(nextDocId) && nextItemId == old(nextItemId)
    {
      if d.docType == "supply" {
        ingredients := SupplyCost(stock, ingredients, item);
        stock := AddQty(stock, d.target.value, item.ingredientId, item.quantity);
      } else if d.docType == "return" {
        stock := AddQty(stock, d.target.value, item.ingredientId, item.quantity);
      } else if d.docType == "transfer" {
        stock := AddQty(stock, d.source.value, item.ingredientId, -item.quantity);
        stock := AddQty(stock, d.target.value, item.ingredientId, item.quantity);
      } else if Takes(d.docType) {
        stock := AddQty(stock, d.source.value, item.ingredientId, -item.quantity);
      }
    }

    /** process_movement: a new document numbered from the counters, posted
        at once. */
    method ProcessMovement(docType: string, moves: seq<Move>, source: Option<nat>, target: Option<nat>,
                           supplierId: Option<nat>, orderId: Option<nat>) returns (err: Option<StockError>)
      requires Valid()
      modifies this
      ensures Valid()
      ensures match ProcessMovementSpec(old(State()), docType, moves, source, target, supplierId, orderId)
        case Ok(l) => err == None && State() == l
        case Err(e) => err == Some(e) && State() == old(State())
    {
      if moves == [] {
        return None;
      }
      if MissingFor(docType, source, target) {
        return Some(WarehouseMissing);
      }
      err := PostNew(docType, moves, source, target, supplierId, orderId);
    }

    /** The document's creation and posting, once it has lines and its
        warehouses. */
    method PostNew(docType: string, moves: seq<Move>, source: Option<nat>, target: Option<nat>,
                   supplierId: Option<nat>, orderId: Option<nat>) returns (err: Option<StockError>)
      requires Valid() && moves != [] && !MissingFor(docType, source, target)
      modifies this
      ensures Valid()
      ensures match ProcessMovementSpec(old(State()), docType, moves, source, target, supplierId, orderId)
        case Ok(l) => err == None && State() == l
        case Err(e) => err == Some(e) && State() == old(State())
    {
      var items := NumberMoves(moves, nextItemId);
      ghost var l0 := State();
      var doc := Doc(docType, supplierId, source, target, items, false, orderId);
      var id := nextDocId;
      docs := docs[id := doc];
      nextDocId := nextDocId + 1;
      nextItemId := nextItemId + |moves|;
      assert State() == Staged(l0, doc, |moves|);
      StagedInv(l0, doc, |moves|);
      err := ApplyDocStockChanges(id);
    }

    /** The numbering loop: one document line per move, with consecutive
        line ids from firstId. */
    method NumberMoves(moves: seq<Move>, firstId: nat) returns (items: seq<DocItem>)
      ensures items == Numbered(moves, firstId)
    {
      items := [];
      var k := 0;
      while k < |moves|
        invariant 0 <= k <= |moves|
        invariant |items| == k
        invariant forall j | 0 <= j < k ::
          items[j] == DocItem(firstId + j, moves[j].ingredientId, moves[j].qty, moves[j].price)
      {
        items := items + [DocItem(firstId + k, moves[k].ingredientId, moves[k].qty, moves[k].price)];
        k := k + 1;
      }
    }

    /** process_inventory_check. */
    method ProcessInventoryCheck(docId: nat) returns (err: Option<StockError>)
      requires Valid()
      modifies this
      ensures Valid()
      ensures match InventoryCheckSpec(old(State()), docId)
        case Ok(l) => err == None && State() == l
        case Err(e) => err == Some(e) && State() == old(State())
    {
      if docId !in docs {
        return Some(DocNotFound);
      }
      var d := docs[docId];
      if d.isProcessed {
        return Some(AlreadyProcessed);
      }
      if !Given(d.source) {
        return Some(WarehouseMissing);
      }
      err := PostCount(docId, d, d.source.value);
    }

    /** The inventory check's two postings, once the document is known to
        be open and to name its warehouse. */
    method PostCount(docId: nat, d: Doc, wh: nat) returns (err: Option<StockError>)
      requires Valid() && docId in docs && docs[docId] == d && !d.isProcessed && d.source == Some(wh) && Given(d.source)
      modifies this
      ensures Valid()
      ensures err == None && InventoryCheckSpec(old(State()), docId) == Ok(State())
    {
      var surplus, shortage := CountPlan(stock, wh, d.items, ingredients);
      ghost var l0 := State();
      MovementPosts(l0, "supply", surplus, None, Some(wh), None, None);
      err := ProcessMovement("supply", surplus, None, Some(wh), None, None);
      ghost var l1 := State();
      MovementPosts(l1, "writeoff", shortage, Some(wh), None, None, None);
      err := ProcessMovement("writeoff", shortage, Some(wh), None, None, None);
      ghost var l2 := State();
      docs := docs[docId := d.(isProcessed := true)];
      assert State() == l2.(docs := l2.docs[docId := d.(isProcessed := true)]);
      MarkKeepsInv(l2, docId, d.(isProcessed := true));
      CheckSteps(l0, docId, l1, l2);
    }

    /** process_production. */
    method ProcessProduction(ingId: nat, qty: real, wh: nat) returns (err: Option<StockError>)
      requires Valid()
      modifies this
      ensures Valid()
      ensures match ProductionSpec(old(State()), ingId, qty, wh)
        case Ok(l) => err == None && State() == l
        case Err(e) => err == Some(e) && State() == old(State())
    {
      if qty <= 0.0 {
        return Some(BadQuantity);
      }
      if ingId !in ingredients || !ingredients[ingId].isSemiFinished {
        return Some(NotSemiFinished);
      }
      var recipe := ingredients[ingId].recipe;
      if recipe == [] {
        return Some(NoRecipe);
      }
      var moves, batch := RecipePlan(recipe, qty, ingredients);
      var unit := batch / qty;
      err := ProcessMovement("writeoff", moves, Some(wh), None, None, None);
      if err.Some? {
        return;
      }
      ProcessMovementMoves(State(), "supply", [Move(ingId, qty, unit)], None, Some(wh), None, None, 0, 0);
      err := ProcessMovement("supply", [Move(ingId, qty, unit)], None, Some(wh), None, None);
    }

    /** One document per warehouse group: deductions from, or returns to,
        the group's warehouse. */
    method PostGroupDocs(g: Groups, isReturn: bool, orderId: Option<nat>)
      requires Valid() && forall e | e in g :: e.0 != 0
      modifies this
      ensures Valid()
      ensures PostGroups(old(State()), g, isReturn, orderId) == Ok(State())
    {
      var k := 0;
      while k < |g|
        invariant 0 <= k <= |g|
        invariant Valid()
        invariant PostGroups(old(State()), g, isReturn, orderId) == PostGroups(State(), g[k..], isReturn, orderId)
      {
        assert g[k..][1..] == g[k + 1..] && g[k..][0] == g[k];
        assert g[k] in g;
        var wh, items := g[k].0, g[k].1;
        ghost var before := State();
        PostGroupMoves(before, wh, items, isReturn, orderId, 0, 0);
        var err;
        if isReturn {
          err := ProcessMovement("return", items, None, Some(wh), None, orderId);
        } else {
          err := ProcessMovement("deduction", items, Some(wh), None, None, orderId);
        }
        assert PostGroup(before, wh, items, isReturn, orderId) == Ok(State());
        k := k + 1;
      }
    }

    /** deduct_products_by_tech_card; the answer is the order's new
        "deducted" flag. */
    method DeductProductsByTechCard(cat: Catalog, o: Records.Order, lines: seq<OrderLine>) returns (deducted: bool)
      requires Valid()
      modifies this
      ensures Valid()
      ensures DeductSpec(old(State()), cat, o, lines) == Ok((State(), deducted))
    {
      if o.isInventoryDeducted || lines == [] {
        return true;
      }
      if warehouses == [] {
        return false;
      }
      assert HasKey(warehouses, warehouses[0].0);
      var p := OrderPlan(warehouses, cat, ingredients, o, lines);
      var g := GroupPlan(p);
      GroupOfKeeps(p, 0, 0);
      forall e | e in g ensures e.0 != 0 {
        var k :| 0 <= k < |p| && p[k].0 == e.0;
        assert p[k] in p;
      }
      PostGroupDocs(g, false, Some(o.id));
      deducted := true;
    }

    /** reverse_deduction; the answer is the order's new "deducted" flag. */
    method ReverseDeduction(cat: Catalog, o: Records.Order, lines: seq<OrderLine>) returns (deducted: bool)
      requires Valid()
      modifies this
      ensures Valid()
      ensures ReverseSpec(old(State()), cat, o, lines) == Ok((State(), deducted))
    {
      if !o.isInventoryDeducted || lines == [] {
        return false;
      }
      if warehouses == [] {
        return true;
      }
      assert HasKey(warehouses, warehouses[0].0);
      var p := OrderPlan(warehouses, cat, ingredients, o, lines);
      var g := GroupPlan(p);
      GroupOfKeeps(p, 0, 0);
      forall e | e in g ensures e.0 != 0 {
        var k :| 0 <= k < |p| && p[k].0 == e.0;
        assert p[k] in p;
      }
      PostGroupDocs(g, true, Some(o.id));
      deducted := false;
    }
  }
}
