/** Order creation: the line checks, the all-or-nothing creation of an
    order and its lines, and the sums over an order's lines. */
module Orders {
  import opened Records
  import opened Consistency

  /** The falsy JSON values an id or quantity can take here: absent, null or zero. */
  predicate Falsy(f: Option<int>) {
    f.None? || f.value == 0
  }

  /** The checks on one requested line, in their order: the product exists,
      it is in stock, the quantity is at least 1. The first failing check
      gives the error; no error means all three passed. */
  function CheckLine(catalog: map<int, Product>, productId: int, quantity: int): (r: Option<ApiError>)
    ensures r.None? <==> productId in catalog && catalog[productId].inStock && quantity >= 1
    ensures r == Some(ProductDoesNotExist) <==> productId !in catalog
    ensures r == Some(OutOfInventory) <==> productId in catalog && !catalog[productId].inStock
    ensures r == Some(InvalidQuantity) <==> productId in catalog && catalog[productId].inStock && quantity < 1
  {
    if productId !in catalog then Some(ProductDoesNotExist)
    else if !catalog[productId].inStock then Some(OutOfInventory)
    else if quantity < 1 then Some(InvalidQuantity)
    else None
  }

  /** One payload item: a falsy id or quantity is `missing-fields`, then the
      line checks; a passing item becomes the line it asks for. */
  function CheckItem(catalog: map<int, Product>, item: Item): (r: Result<OrderLine>)
    ensures Falsy(item.id) || Falsy(item.quantity) ==> r == Err(MissingFields)
    ensures !Falsy(item.id) && !Falsy(item.quantity) ==>
              match CheckLine(catalog, item.id.value, item.quantity.value)
              case Some(e) => r == Err(e)
              case None => r == Ok(OrderLine(item.id.value, item.quantity.value))
    ensures r.Ok? ==> r.value.product in catalog && r.value.quantity >= 1
  {
    if Falsy(item.id) || Falsy(item.quantity) then Err(MissingFields)
    else
      match CheckLine(catalog, item.id.value, item.quantity.value)
      case Some(e) => Err(e)
      case None => Ok(OrderLine(item.id.value, item.quantity.value))
  }

  /** The items of a multi-product order, checked left to right. Success
      means every item passed and gives one line per item, in payload order;
      failure gives the error of the first item that failed. */
  function ValidateItems(catalog: map<int, Product>, items: seq<Item>): (r: Result<seq<OrderLine>>)
    ensures r.Ok? <==> forall i | 0 <= i < |items| :: CheckItem(catalog, items[i]).Ok?
    ensures r.Ok? ==> (|r.value| == |items| &&
              forall i | 0 <= i < |items| :: r.value[i] == CheckItem(catalog, items[i]).value)
    ensures r.Err? ==> exists k | 0 <= k < |items| ::
              CheckItem(catalog, items[k]) == Err(r.error) &&
              forall j | 0 <= j < k :: CheckItem(catalog, items[j]).Ok?
    decreases |items|
  {
    if items == [] then Ok([])
    else
      var n := |items| - 1;
      assert forall i | 0 <= i < n :: items[..n][i] == items[i];
      match ValidateItems(catalog, items[..n])
      case Err(e) => Err(e)
      case Ok(ls) =>
        match CheckItem(catalog, items[n])
        case Err(e) => Err(e)
        case Ok(l) => Ok(ls + [l])
  }

  /** Once a prefix of the items fails, the whole list fails with the same error. */
  lemma {:induction false} ValidatePrefixFailure(catalog: map<int, Product>, items: seq<Item>, k: nat)
    requires k <= |items|
    requires ValidateItems(catalog, items[..k]).Err?
    ensures ValidateItems(catalog, items) == ValidateItems(catalog, items[..k])
    decreases |items| - k
  {
    if k < |items| {
      var n := |items| - 1;
      assert items[..n][..k] == items[..k];
      ValidatePrefixFailure(catalog, items[..n], k);
      assert ValidateItems(catalog, items[..n]) == ValidateItems(catalog, items[..k]);
    } else {
      assert items[..k] == items;
    }
  }

  /** Accepted lines name catalog products and ask for at least one unit. */
  lemma ValidatedLinesInCatalog(catalog: map<int, Product>, items: seq<Item>)
    requires ValidateItems(catalog, items).Ok?
    ensures LinesInCatalog(catalog, ValidateItems(catalog, items).value)
  {
  }

  /** The sum of price times quantity over the lines. */
  function SubTotal(catalog: map<int, Product>, ls: seq<OrderLine>): int
    requires LinesInCatalog(catalog, ls)
  {
    if ls == [] then 0
    else
      var n := |ls| - 1;
      SubTotal(catalog, ls[..n]) + catalog[ls[n].product].price * ls[n].quantity
  }

  /** The sum of quantity times product weight over the lines. */
  function TotalWeight(catalog: map<int, Product>, ls: seq<OrderLine>): int
    requires LinesInCatalog(catalog, ls)
  {
    if ls == [] then 0
    else
      var n := |ls| - 1;
      TotalWeight(catalog, ls[..n]) + ls[n].quantity * catalog[ls[n].product].weight
  }

  /** The `{id, quantity}` entries of the lines, one per line and in order. */
  function ProductRefs(ls: seq<OrderLine>): (refs: seq<ProductRef>)
    ensures |refs| == |ls|
    ensures forall i | 0 <= i < |ls| :: refs[i] == ProductRef(ls[i].product, ls[i].quantity)
  {
    if ls == [] then []
    else
      var n := |ls| - 1;
      ProductRefs(ls[..n]) + [ProductRef(ls[n].product, ls[n].quantity)]
  }

  /** The totals of a list of lines are the totals of any split of it added
      up: the running sums the service accumulates line by line do not depend
      on where the accumulation is cut. */
  lemma {:induction false} SumsAdditive(catalog: map<int, Product>, a: seq<OrderLine>, b: seq<OrderLine>)
    requires LinesInCatalog(catalog, a) && LinesInCatalog(catalog, b)
    ensures LinesInCatalog(catalog, a + b)
    ensures SubTotal(catalog, a + b) == SubTotal(catalog, a) + SubTotal(catalog, b)
    ensures TotalWeight(catalog, a + b) == TotalWeight(catalog, a) + TotalWeight(catalog, b)
  {
    if b == [] {
      assert a + b == a;
    } else {
      var n := |b| - 1;
      assert (a + b)[..|a + b| - 1] == a + b[..n];
      assert (a + b)[|a + b| - 1] == b[n];
      assert LinesInCatalog(catalog, b[..n]);
      SumsAdditive(catalog, a, b[..n]);
    }
  }

  /** A new order row, with the given lines, under the next order id. */
  function CreateOrder(s: Tables, ls: seq<OrderLine>): Step {
    var id := s.nextOrder;
    Step(s.(orders := s.orders[id := NewOrder], lines := s.lines[id := ls], nextOrder := id + 1), Created(id))
  }

  /** POST /order: validate every line first; create the order and its lines
      only when all of them pass. */
  function PostOrder(s: Tables, payload: OrderPayload): Step {
    match payload
    case SingleProduct(item) =>
      (match CheckItem(s.catalog, item)
       case Err(e) => Step(s, Failed(e))
       case Ok(l) => CreateOrder(s, [l]))
    case ManyProducts(items) =>
      (match ValidateItems(s.catalog, items)
       case Err(e) => Step(s, Failed(e))
       case Ok(ls) => CreateOrder(s, ls))
    case ManyNotAList => Step(s, Failed(InvalidFields))
  }

  /** Creation of a multi-product order is all-or-nothing: it fails, with the
      first failing item's error and no state change, exactly when some item
      fails; otherwise exactly one new order appears, with one line per item
      in payload order, and no other row changes. */
  lemma PostManyAllOrNothing(s: Tables, items: seq<Item>)
    requires Resolvable(s) && FreshCounters(s)
    ensures var r := PostOrder(s, ManyProducts(items));
      && (r.reply.Failed? <==> exists k | 0 <= k < |items| :: CheckItem(s.catalog, items[k]).Err?)
      && (r.reply.Failed? ==> (r.after == s &&
            exists k | 0 <= k < |items| ::
              CheckItem(s.catalog, items[k]) == Err(r.reply.error) &&
              forall j | 0 <= j < k :: CheckItem(s.catalog, items[j]).Ok?))
      && (!r.reply.Failed? ==>
            && r.reply.Created? && r.reply.orderId !in s.orders
            && r.after.orders.Keys == s.orders.Keys + {r.reply.orderId}
            && r.after.orders[r.reply.orderId] == NewOrder
            && (forall id | id in s.orders :: r.after.orders[id] == s.orders[id])
            && (forall id | id in s.lines :: r.after.lines[id] == s.lines[id])
            && |r.after.lines[r.reply.orderId]| == |items|
            && (forall i | 0 <= i < |items| ::
                  r.after.lines[r.reply.orderId][i] == OrderLine(items[i].id.value, items[i].quantity.value))
            && r.after.(orders := s.orders, lines := s.lines, nextOrder := s.nextOrder) == s)
  {
    var r := PostOrder(s, ManyProducts(items));
    var v := ValidateItems(s.catalog, items);
    if v.Ok? {
      forall i | 0 <= i < |items|
        ensures r.after.lines[r.reply.orderId][i] == OrderLine(items[i].id.value, items[i].quantity.value)
      {
        assert CheckItem(s.catalog, items[i]).Ok?;
      }
    }
  }

  /** A single-product order behaves as a list of that one product. */
  lemma SingleIsListOfOne(s: Tables, item: Item)
    ensures PostOrder(s, SingleProduct(item)) == PostOrder(s, ManyProducts([item]))
  {
    assert [item][..0] == [];
    assert [item][0] == item;
    var v := ValidateItems(s.catalog, [item]);
    match CheckItem(s.catalog, item)
    case Err(e) =>
      assert v == Err(e);
    case Ok(l) =>
      assert v == Ok([] + [l]);
      assert [] + [l] == [l];
  }

  /** A created order's lines satisfy the ledger's line invariant. */
  lemma PostOrderLinesInCatalog(s: Tables, payload: OrderPayload)
    requires PostOrder(s, payload).reply.Created?
    ensures LinesInCatalog(s.catalog, PostOrder(s, payload).after.lines[s.nextOrder])
  {
  }

  /** Adding an order with well-formed lines keeps the ledger consistent. */
  lemma CreateOrderConsistent(s: Tables, ls: seq<OrderLine>)
    requires Consistent(s)
    requires LinesInCatalog(s.catalog, ls)
    ensures Consistent(CreateOrder(s, ls).after)
  {
    var t := CreateOrder(s, ls).after;
    var id := s.nextOrder;
    assert id !in s.orders;
    assert forall j | j in s.orders :: t.orders[j] == s.orders[j];
    assert LinesComplete(t.orders.Keys, t.lines, t.catalog);
    assert OrderRefsResolve(t.orders, t.shipping, t.cards, t.transactions);
    assert Below(t.orders.Keys, t.nextOrder);
    assert JobsHoldLocks(t.queue, t.orders);
    assert SuccessIsPaid(t.orders, t.transactions);
    assert CacheTerminal(t.cache, t.orders);
  }

  /** POST /order keeps the ledger consistent. */
  lemma PostOrderConsistent(s: Tables, payload: OrderPayload)
    requires Consistent(s)
    ensures Consistent(PostOrder(s, payload).after)
  {
    if PostOrder(s, payload).reply.Created? {
      match payload
      case SingleProduct(item) =>
        CreateOrderConsistent(s, [CheckItem(s.catalog, item).value]);
      case ManyProducts(items) =>
        ValidatedLinesInCatalog(s.catalog, items);
        CreateOrderConsistent(s, ValidateItems(s.catalog, items).value);
    }
  }
}
