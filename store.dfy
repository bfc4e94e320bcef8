/** The ledger as the running service keeps it: one mutable table per
    entity, updated in place by the endpoints and by the payment worker.
    Every method is proved to do what the transition of the same name in
    Orders, Views, Requests or Payment says. The four entry points (POST,
    GET and PUT of an order, and the worker taking a job) also keep the
    ledger consistent; the steps they are made of ask only for what their
    transition asks. */
module Store {
  import opened Records
  import opened Consistency
  import opened Shipping
  import opened Orders
  import Views
  import Requests
  import Payment

  class Store {
    const catalog: map<int, Product>
    var orders: map<nat, Order>
    var lines: map<nat, seq<OrderLine>>
    var shipping: map<nat, ShippingInfo>
    var cards: map<nat, CreditCard>
    var transactions: map<string, Transaction>
    var errors: map<nat, ErrorRow>
    var cache: map<nat, OrderView>
    var queue: seq<Job>
    var nextOrder: nat
    var nextShipping: nat
    var nextCard: nat
    var nextError: nat

    /** The tables as one value. */
    ghost function State(): Tables
      reads this
    {
      Tables(catalog, orders, lines, shipping, cards, transactions, errors, cache, queue,
             nextOrder, nextShipping, nextCard, nextError)
    }

    ghost predicate Valid()
      reads this
    {
      Consistent(State())
    }

    /** An empty ledger over the given catalog. */
    constructor (catalog: map<int, Product>)
      ensures State() == EmptyTables(catalog) && Valid()
    {
      this.catalog := catalog;
      orders, lines, shipping, cards := map[], map[], map[], map[];
      transactions, errors, cache, queue := map[], map[], map[], [];
      nextOrder, nextShipping, nextCard, nextError := 1, 1, 1, 1;
      new;
      EmptyTablesConsistent(catalog);
    }

    // -------------------------------------------------------------------
    // POST /order

    /** The checks of a multi-product order, one item at a time, stopping at
        the first item that fails. */
    method CheckItems(items: seq<Item>) returns (r: Result<seq<OrderLine>>)
      ensures r == ValidateItems(catalog, items)
    {
      var ls: seq<OrderLine> := [];
      for i := 0 to |items|
        invariant ValidateItems(catalog, items[..i]) == Ok(ls)
      {
        assert items[..i + 1][..i] == items[..i];
        var c := CheckItem(catalog, items[i]);
        if c.Err? {
          assert ValidateItems(catalog, items[..i + 1]) == Err(c.error);
          ValidatePrefixFailure(catalog, items, i + 1);
          return Err(c.error);
        }
        ls := ls + [c.value];
      }
      assert items[..|items|] == items;
      r := Ok(ls);
    }

    /** A new order with the given lines, inserted one line at a time. */
    method CreateOrder(ls: seq<OrderLine>) returns (reply: Reply)
      modifies this
      ensures Step(State(), reply) == Orders.CreateOrder(old(State()), ls)
    {
      ghost var prior := State();
      var id := nextOrder;
      orders := orders[id := NewOrder];
      lines := lines[id := []];
      for i := 0 to |ls|
        modifies this`lines
        invariant lines == prior.lines[id := ls[..i]]
      {
        assert ls[..i + 1] == ls[..i] + [ls[i]];
        lines := lines[id := lines[id] + [ls[i]]];
      }
      assert ls[..|ls|] == ls;
      nextOrder := id + 1;
      reply := Created(id);
    }

    /** POST /order: check every line before creating anything. */
    method PostOrder(payload: OrderPayload) returns (reply: Reply)
      requires Valid()
      modifies this
      ensures Step(State(), reply) == Orders.PostOrder(old(State()), payload)
      ensures Valid()
    {
      Orders.PostOrderConsistent(State(), payload);
      var checked: Result<seq<OrderLine>>;
      match payload {
        case SingleProduct(item) =>
          var r := CheckItem(catalog, item);
          checked := if r.Ok? then Ok([r.value]) else Err(r.error);
        case ManyProducts(items) =>
          checked := CheckItems(items);
        case ManyNotAList =>
          checked := Err(InvalidFields);
      }
      if checked.Err? {
        reply := Failed(checked.error);
      } else {
        reply := CreateOrder(checked.value);
      }
    }

    // -------------------------------------------------------------------
    // GET /order/<id>

    /** The product entries, the total price and the total weight of an
        order's lines, built in one pass over them. */
    method LineSummary(ls: seq<OrderLine>) returns (products: seq<ProductRef>, total: int, weight: int)
      requires LinesInCatalog(catalog, ls)
      ensures products == ProductRefs(ls)
      ensures total == SubTotal(catalog, ls) && weight == TotalWeight(catalog, ls)
    {
      products, total, weight := [], 0, 0;
      for i := 0 to |ls|
        invariant LinesInCatalog(catalog, ls[..i])
        invariant products == ProductRefs(ls[..i])
        invariant total == SubTotal(catalog, ls[..i]) && weight == TotalWeight(catalog, ls[..i])
      {
        assert ls[..i + 1][..i] == ls[..i];
        products := products + [ProductRef(ls[i].product, ls[i].quantity)];
        total := total + catalog[ls[i].product].price * ls[i].quantity;
        weight := weight + ls[i].quantity * catalog[ls[i].product].weight;
      }
      assert ls[..|ls|] == ls;
    }

    /** `get_order`: the cached view, or the view assembled from the tables,
        cached when the payment succeeded. */
    method LoadOrder(id: nat) returns (reply: Reply)
      requires Resolvable(State())
      modifies this`cache
      ensures Step(State(), reply) == Views.GetOrder(old(State()), id)
    {
      if id in cache {
        return View(cache[id]);
      }
      if id !in orders {
        return Failed(OrderDoesNotExist);
      }
      ghost var prior := State();
      var o := orders[id];
      var products, total, weight := LineSummary(lines[id]);
      var info := if o.shippingInfo.Some? then Some(shipping[o.shippingInfo.value]) else None;
      var card := if o.creditCard.Some? then Some(cards[o.creditCard.value]) else None;
      var tv := NoTransaction;
      if o.transaction.Some? {
        var t := transactions[o.transaction.value];
        if t.error.None? {
          tv := TransactionView(o.transaction, t.success, t.amountCharged, None);
        } else {
          tv := TransactionView(None, t.success, t.amountCharged, Some(errors[t.error.value]));
        }
      }
      var v := OrderView(id, o.email, o.paid, products, total, ShippingPrice(weight), info, card, tv);
      assert v == Views.AssembleView(prior, id);
      if o.transaction.Some? && transactions[o.transaction.value].success {
        cache := cache[id := v];
      }
      reply := View(v);
    }

    /** GET /order/<id>. */
    method GetOrder(id: nat) returns (reply: Reply)
      requires Valid()
      modifies this`cache
      ensures Step(State(), reply) == Views.GetOrder(old(State()), id)
      ensures Valid()
    {
      ghost var prior := State();
      reply := LoadOrder(id);
      Views.GetOrderConsistent(prior, id);
    }

    // -------------------------------------------------------------------
    // PUT /order/<id>

    /** `update_shipping_order`: check the keys, store the row and the email,
        and answer with `get_order`. */
    method UpdateShippingOrder(id: nat, u: ShippingUpdate) returns (reply: Reply)
      requires Resolvable(State()) && id in orders
      modifies this
      ensures Step(State(), reply) == Requests.UpdateShipping(old(State()), id, u)
    {
      if !Requests.WellFormedUpdate(u) {
        return Failed(JsonNotValid);
      }
      var row := Requests.ShippingRow(u.shippingInformation.value);
      var o := orders[id];
      if row.None? {
        if o.shippingInfo.Some? {
          return Unhandled;
        }
        return Failed(InvalidFields);
      }
      ghost var prior := State();
      if o.shippingInfo.Some? {
        shipping := shipping[o.shippingInfo.value := row.value];
      } else {
        shipping := shipping[nextShipping := row.value];
        o := o.(shippingInfo := Some(nextShipping));
        nextShipping := nextShipping + 1;
      }
      orders := orders[id := o.(email := Requests.EmailColumn(u.email))];
      assert State() == Requests.SaveShipping(prior, id, row.value, Requests.EmailColumn(u.email));
      Requests.SaveShippingResolvable(prior, id, row.value, Requests.EmailColumn(u.email));
      reply := LoadOrder(id);
    }

    /** `update_credit_card`: lock the order and queue its job. */
    method UpdateCreditCard(id: nat, card: CardPayload) returns (reply: Reply)
      requires id in orders
      modifies this
      ensures Step(State(), reply) == Requests.UpdateCreditCard(old(State()), id, card)
    {
      orders := orders[id := orders[id].(pending := true)];
      queue := queue + [Job(id, card)];
      reply := Accepted;
    }

    /** PUT /order/<id>. */
    method PutOrder(id: nat, payload: PutPayload) returns (reply: Reply)
      requires Valid()
      modifies this
      ensures Step(State(), reply) == Requests.PutOrder(old(State()), id, payload)
      ensures Valid()
    {
      ghost var prior := State();
      if id !in orders {
        reply := Failed(OrderNotFound);
      } else if orders[id].pending {
        reply := Failed(OrderPending);
      } else if payload.order.Some? {
        reply := UpdateShippingOrder(id, payload.order.value);
      } else if payload.creditCard.Some? {
        reply := UpdateCreditCard(id, payload.creditCard.value);
      } else {
        reply := Failed(MissingFields);
      }
      Requests.PutOrderConsistent(prior, id, payload);
    }

    // -------------------------------------------------------------------
    // The payment worker

    /** `clear_order_lock`. */
    method ClearOrderLock(id: nat)
      requires id in orders
      modifies this
      ensures State() == Payment.ClearOrderLock(old(State()), id)
    {
      orders := orders[id := orders[id].(pending := false)];
    }

    /** `set_error`: add the error row, then relink the order's transaction
        (deleting the error row it referenced) or create a failed one, and
        release the lock. */
    method SetError(id: nat, name: string, code: string, amount: int, freshTx: string)
      requires Payment.TransactionResolves(State(), id)
      modifies this
      ensures State() == Payment.SetError(old(State()), id, name, code, amount, freshTx)
    {
      var e := nextError;
      var o := orders[id];
      var tid := if o.transaction.Some? then o.transaction.value else freshTx;
      var stale := if o.transaction.Some? then transactions[tid].error else None;
      var tx := if o.transaction.Some? then transactions[tid].(error := Some(e))
                else Transaction(false, amount, Some(e));
      errors := errors[e := ErrorRow(code, name)];
      nextError := e + 1;
      transactions := transactions[tid := tx];
      if stale.Some? {
        errors := errors - {stale.value};
      }
      orders := orders[id := o.(transaction := Some(tid), pending := false)];
    }

    /** The gateway's transaction becomes the order's transaction, and the order is paid. */
    method RecordCharge(id: nat, tx: Payment.GatewayTx)
      requires id in orders
      modifies this
      ensures State() == Payment.RecordCharge(old(State()), id, tx)
    {
      transactions := transactions[tx.id := Transaction(tx.success, tx.amountCharged, None)];
      orders := orders[id := orders[id].(transaction := Some(tx.id), paid := true)];
    }

    /** A new card row becomes the order's card. */
    method AttachCard(id: nat, cc: CreditCard)
      requires id in orders
      modifies this
      ensures State() == Payment.AttachCard(old(State()), id, cc)
    {
      cards := cards[nextCard := cc];
      orders := orders[id := orders[id].(creditCard := Some(nextCard))];
      nextCard := nextCard + 1;
    }

    /** The amount and the total weight the job computes from the lines. */
    method ChargeTotals(ls: seq<OrderLine>) returns (amount: int, weight: int)
      requires LinesInCatalog(catalog, ls)
      ensures amount == SubTotal(catalog, ls) && weight == TotalWeight(catalog, ls)
    {
      amount, weight := 0, 0;
      for i := 0 to |ls|
        invariant LinesInCatalog(catalog, ls[..i])
        invariant amount == SubTotal(catalog, ls[..i]) && weight == TotalWeight(catalog, ls[..i])
      {
        assert ls[..i + 1][..i] == ls[..i];
        amount := amount + catalog[ls[i].product].price * ls[i].quantity;
        weight := weight + ls[i].quantity * catalog[ls[i].product].weight;
      }
      assert ls[..|ls|] == ls;
    }

    /** `do_background_task` for a job taken off the queue: sum the lines,
        run the checks, then charge and book the gateway's answer. */
    method DoBackgroundTask(job: Job, gateway: Payment.Gateway, freshTx: string)
      returns (request: Option<Payment.PayRequest>, exit: Payment.Exit)
      requires Resolvable(State()) && job.orderId in orders
      modifies this
      ensures Payment.JobRun(State(), request, exit) == Payment.DoBackgroundTask(old(State()), job, gateway, freshTx)
    {
      var id := job.orderId;
      var amount, weight := ChargeTotals(lines[id]);
      var failed := Payment.Precondition(orders[id], job.card, |lines[id]|);
      if failed.Some? {
        SetError(id, failed.value.name, failed.value.code, amount, freshTx);
        return None, Payment.Recorded(failed.value);
      }
      request := Some(Payment.PayRequest(job.card, amount + ShippingPrice(weight)));
      match gateway
      case Unreachable =>
        exit := Payment.Crashed;
      case Declined(gwCode, gwName) =>
        ClearOrderLock(id);
        SetError(id, gwCode, gwName, amount, freshTx);
        exit := Payment.Recorded(ErrorRow(gwName, gwCode));
      case Approved(tx) =>
        if tx.id in transactions {
          return request, Payment.Crashed;
        }
        RecordCharge(id, tx);
        var row := Payment.CardRow(job.card);
        if row.None? {
          SetError(id, Payment.InvalidCardError.name, Payment.InvalidCardError.code, amount, freshTx);
          exit := Payment.Recorded(Payment.InvalidCardError);
        } else {
          AttachCard(id, row.value);
          ClearOrderLock(id);
          exit := Payment.Charged;
        }
    }

    /** The worker: take the head job off the queue and run it. */
    method RunNextJob(gateway: Payment.Gateway, freshTx: string)
      returns (request: Option<Payment.PayRequest>, exit: Payment.Exit)
      requires Valid() && freshTx !in transactions
      modifies this
      ensures Payment.JobRun(State(), request, exit) == Payment.RunNextJob(old(State()), gateway, freshTx)
      ensures Valid()
    {
      ghost var prior := State();
      Payment.RunNextJobConsistent(prior, gateway, freshTx);
      if queue == [] {
        return None, Payment.Idle;
      }
      var job := queue[0];
      PopConsistent(prior);
      queue := queue[1..];
      request, exit := DoBackgroundTask(job, gateway, freshTx);
    }
  }
}
