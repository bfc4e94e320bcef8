/** What holds of the ledger between requests: every reference resolves,
    auto-increment ids are fresh, every error row belongs to exactly one
    transaction, queued jobs hold their order's lock, and only terminal
    views are cached. Each part names only the tables it is about. */
module Consistency {
  import opened Records

  /** Every line names a catalog product and asks for at least one unit. */
  ghost predicate LinesInCatalog(catalog: map<int, Product>, ls: seq<OrderLine>) {
    forall i | 0 <= i < |ls| :: ls[i].product in catalog && ls[i].quantity >= 1
  }

  /** Each order has its lines, and those lines are well formed. */
  ghost predicate LinesComplete(orderIds: set<nat>, lines: map<nat, seq<OrderLine>>, catalog: map<int, Product>) {
    lines.Keys == orderIds && forall id | id in lines :: LinesInCatalog(catalog, lines[id])
  }

  /** Every shipping, card and transaction reference of an order names an existing row. */
  ghost predicate OrderRefsResolve(orders: map<nat, Order>, shipping: map<nat, ShippingInfo>,
                                   cards: map<nat, CreditCard>, transactions: map<string, Transaction>) {
    forall id | id in orders ::
      && (orders[id].shippingInfo.Some? ==> orders[id].shippingInfo.value in shipping)
      && (orders[id].creditCard.Some? ==> orders[id].creditCard.value in cards)
      && (orders[id].transaction.Some? ==> orders[id].transaction.value in transactions)
  }

  /** Every error reference of a transaction names an existing error row. */
  ghost predicate ErrorRefsResolve(transactions: map<string, Transaction>, errors: map<nat, ErrorRow>) {
    forall t | t in transactions && transactions[t].error.Some? :: transactions[t].error.value in errors
  }

  ghost predicate Resolvable(s: Tables) {
    && LinesComplete(s.orders.Keys, s.lines, s.catalog)
    && OrderRefsResolve(s.orders, s.shipping, s.cards, s.transactions)
    && ErrorRefsResolve(s.transactions, s.errors)
  }

  /** The next auto-increment id is larger than every id in use. */
  ghost predicate Below(ids: set<nat>, next: nat) {
    forall id | id in ids :: id < next
  }

  ghost predicate FreshCounters(s: Tables) {
    && Below(s.orders.Keys, s.nextOrder)
    && Below(s.shipping.Keys, s.nextShipping)
    && Below(s.cards.Keys, s.nextCard)
    && Below(s.errors.Keys, s.nextError)
  }

  /** Transaction 1 -- 0/1 Error, and no error row outlives its transaction's
      reference to it: every error row is the error of exactly one transaction. */
  ghost predicate ErrorsOwned(transactions: map<string, Transaction>, errors: map<nat, ErrorRow>) {
    && (forall t, u | t in transactions && u in transactions && t != u && transactions[t].error.Some? ::
          transactions[t].error != transactions[u].error)
    && (forall e | e in errors :: exists t | t in transactions :: transactions[t].error == Some(e))
  }

  /** Every queued job's order exists and is locked, and no order has two queued jobs. */
  ghost predicate JobsHoldLocks(queue: seq<Job>, orders: map<nat, Order>) {
    && (forall i | 0 <= i < |queue| :: queue[i].orderId in orders && orders[queue[i].orderId].pending)
    && (forall i, j | 0 <= i < j < |queue| :: queue[i].orderId != queue[j].orderId)
  }

  /** No queued job is for this order. */
  ghost predicate NotQueued(queue: seq<Job>, id: nat) {
    forall i | 0 <= i < |queue| :: queue[i].orderId != id
  }

  /** An order whose transaction succeeded is paid. */
  ghost predicate SuccessIsPaid(orders: map<nat, Order>, transactions: map<string, Transaction>) {
    forall id | id in orders && orders[id].transaction.Some? &&
                orders[id].transaction.value in transactions &&
                transactions[orders[id].transaction.value].success ::
      orders[id].paid
  }

  /** The cache holds only views of paid orders whose payment succeeded. */
  ghost predicate CacheTerminal(cache: map<nat, OrderView>, orders: map<nat, Order>) {
    forall id | id in cache ::
      && id in orders && orders[id].paid
      && cache[id].id == id && cache[id].paid
      && cache[id].transaction.TransactionView? && cache[id].transaction.success
  }

  ghost predicate Consistent(s: Tables) {
    && Resolvable(s)
    && FreshCounters(s)
    && ErrorsOwned(s.transactions, s.errors)
    && JobsHoldLocks(s.queue, s.orders)
    && SuccessIsPaid(s.orders, s.transactions)
    && CacheTerminal(s.cache, s.orders)
  }

  /** The empty ledger is consistent. */
  lemma EmptyTablesConsistent(catalog: map<int, Product>)
    ensures Consistent(EmptyTables(catalog))
  {
  }

  // Each lemma below is about one table-level change: one order row
  // replaced, a transaction pointed at a new error row, a transaction added.

  /** Replacing one order row whose references resolve in tables that only
      grew keeps every order reference resolvable. */
  lemma OrderUpdateRefs(orders: map<nat, Order>, shipping: map<nat, ShippingInfo>, cards: map<nat, CreditCard>,
                        txs: map<string, Transaction>, shipping2: map<nat, ShippingInfo>,
                        cards2: map<nat, CreditCard>, txs2: map<string, Transaction>, id: nat, o: Order)
    requires OrderRefsResolve(orders, shipping, cards, txs)
    requires shipping.Keys <= shipping2.Keys && cards.Keys <= cards2.Keys && txs.Keys <= txs2.Keys
    requires o.shippingInfo.Some? ==> o.shippingInfo.value in shipping2
    requires o.creditCard.Some? ==> o.creditCard.value in cards2
    requires o.transaction.Some? ==> o.transaction.value in txs2
    ensures OrderRefsResolve(orders[id := o], shipping2, cards2, txs2)
  {
  }

  /** Replacing one order row keeps every queued job's lock when the new row
      is locked or no job is queued for it. */
  lemma OrderUpdateLocks(queue: seq<Job>, orders: map<nat, Order>, id: nat, o: Order)
    requires JobsHoldLocks(queue, orders)
    requires o.pending || NotQueued(queue, id)
    ensures JobsHoldLocks(queue, orders[id := o])
  {
  }

  /** Replacing one order row, while no existing transaction changes its
      success, keeps paid every order whose transaction succeeded, provided
      the new row is paid if its own transaction succeeded. */
  lemma OrderUpdateSuccessPaid(orders: map<nat, Order>, txs: map<string, Transaction>,
                               txs2: map<string, Transaction>, id: nat, o: Order)
    requires SuccessIsPaid(orders, txs)
    requires forall j | j in orders && orders[j].transaction.Some? :: orders[j].transaction.value in txs
    requires forall u | u in txs :: u in txs2 && txs2[u].success == txs[u].success
    requires o.transaction.Some? && o.transaction.value in txs2 && txs2[o.transaction.value].success ==> o.paid
    ensures SuccessIsPaid(orders[id := o], txs2)
  {
    forall j | j in orders && j != id && orders[j].transaction.Some? &&
               txs2[orders[j].transaction.value].success
      ensures orders[j].paid
    {
      assert orders[j].transaction.value in txs;
    }
  }

  /** Replacing one order row keeps the cache terminal when a cached order stays paid. */
  lemma OrderUpdateCache(cache: map<nat, OrderView>, orders: map<nat, Order>, id: nat, o: Order)
    requires CacheTerminal(cache, orders)
    requires id in cache ==> o.paid
    ensures CacheTerminal(cache, orders[id := o])
  {
  }

  /** Pointing a transaction at a fresh error row and deleting the row it
      pointed at before leaves every error row the error of exactly one
      transaction, and every error reference resolvable. */
  lemma RelinkErrorsOwned(txs: map<string, Transaction>, errs: map<nat, ErrorRow>, tid: string, e: nat, row: ErrorRow)
    requires ErrorsOwned(txs, errs) && ErrorRefsResolve(txs, errs) && tid in txs && e !in errs
    ensures var prior := txs[tid];
      var errs2 := if prior.error.Some? then errs[e := row] - {prior.error.value} else errs[e := row];
      var txs2 := txs[tid := prior.(error := Some(e))];
      ErrorsOwned(txs2, errs2) && ErrorRefsResolve(txs2, errs2)
  {
    var prior := txs[tid];
    var errs2 := if prior.error.Some? then errs[e := row] - {prior.error.value} else errs[e := row];
    var txs2 := txs[tid := prior.(error := Some(e))];
    forall x | x in errs2
      ensures exists u | u in txs2 :: txs2[u].error == Some(x)
    {
      if x == e {
        assert txs2[tid].error == Some(x);
      } else {
        var u :| u in txs && txs[u].error == Some(x);
        assert u != tid;
        assert txs2[u].error == Some(x);
      }
    }
    forall u | u in txs2 && u != tid && txs2[u].error.Some?
      ensures txs2[u].error.value in errs2
    {
      assert txs[u].error != prior.error;
    }
  }

  /** Adding a transaction that references a fresh error row (or none) keeps
      every error row the error of exactly one transaction, and every error
      reference resolvable. */
  lemma AddTransactionErrorsOwned(txs: map<string, Transaction>, errs: map<nat, ErrorRow>, tid: string,
                                  tx: Transaction, row: ErrorRow, errs2: map<nat, ErrorRow>)
    requires ErrorsOwned(txs, errs) && ErrorRefsResolve(txs, errs) && tid !in txs
    requires tx.error.None? ==> errs2 == errs
    requires tx.error.Some? ==> tx.error.value !in errs && errs2 == errs[tx.error.value := row]
    ensures ErrorsOwned(txs[tid := tx], errs2) && ErrorRefsResolve(txs[tid := tx], errs2)
  {
    var txs2 := txs[tid := tx];
    forall x | x in errs2
      ensures exists u | u in txs2 :: txs2[u].error == Some(x)
    {
      if tx.error == Some(x) {
        assert txs2[tid].error == Some(x);
      } else {
        var u :| u in txs && txs[u].error == Some(x);
        assert txs2[u].error == Some(x);
      }
    }
  }

  /** Changing one order's email or lock, and nothing else, keeps the ledger
      consistent as long as no queued job loses its lock. */
  lemma OrderColumnsConsistent(s: Tables, id: nat, o: Order)
    requires Consistent(s) && id in s.orders
    requires o.(email := s.orders[id].email, pending := s.orders[id].pending) == s.orders[id]
    requires o.pending || NotQueued(s.queue, id)
    ensures Consistent(s.(orders := s.orders[id := o]))
  {
    assert s.orders[id := o].Keys == s.orders.Keys;
    OrderUpdateRefs(s.orders, s.shipping, s.cards, s.transactions, s.shipping, s.cards, s.transactions, id, o);
    OrderUpdateLocks(s.queue, s.orders, id, o);
    OrderUpdateSuccessPaid(s.orders, s.transactions, s.transactions, id, o);
    OrderUpdateCache(s.cache, s.orders, id, o);
  }

  /** Caching the view of a paid order, when the view shows that order as
      paid with a successful transaction, keeps the ledger consistent. */
  lemma CacheViewConsistent(s: Tables, id: nat, v: OrderView)
    requires Consistent(s) && id in s.orders && s.orders[id].paid
    requires v.id == id && v.paid && v.transaction.TransactionView? && v.transaction.success
    ensures Consistent(s.(cache := s.cache[id := v]))
  {
    assert CacheTerminal(s.cache[id := v], s.orders);
  }

  /** Taking the head job off the queue keeps the ledger consistent, and no
      job left in the queue is for that job's order. */
  lemma PopConsistent(s: Tables)
    requires Consistent(s) && s.queue != []
    ensures Consistent(s.(queue := s.queue[1..]))
    ensures NotQueued(s.queue[1..], s.queue[0].orderId)
  {
    var q := s.queue[1..];
    assert forall i | 0 <= i < |q| :: q[i] == s.queue[i + 1];
    assert JobsHoldLocks(q, s.orders);
  }
}
