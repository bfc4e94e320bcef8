/** GET /order/<id>: the order view assembled from the ledger, and the
    read-through cache that keeps the views of successfully paid orders. */
module Views {
  import opened Records
  import opened Consistency
  import opened Shipping
  import opened Orders

  /** The transaction part of an order's view: nothing without a transaction;
      otherwise its success and amount, with the error's code and name when
      one is attached and the transaction id only when none is. */
  function TransactionSummary(s: Tables, id: nat): (v: TransactionView)
    requires Resolvable(s) && id in s.orders
    ensures v.NoTransaction? <==> s.orders[id].transaction.None?
    ensures v.TransactionView? ==>
              var t := s.transactions[s.orders[id].transaction.value];
              && v.success == t.success && v.amountCharged == t.amountCharged
              && (v.error.None? <==> t.error.None?)
              && (v.error.Some? ==> v.error.value == s.errors[t.error.value])
              && (v.id.Some? <==> t.error.None?)
              && (v.id.Some? ==> v.id == s.orders[id].transaction)
  {
    var o := s.orders[id];
    if o.transaction.None? then NoTransaction
    else
      var t := s.transactions[o.transaction.value];
      if t.error.None? then TransactionView(o.transaction, t.success, t.amountCharged, None)
      else TransactionView(None, t.success, t.amountCharged, Some(s.errors[t.error.value]))
  }

  /** The view of an order assembled from the ledger: its own columns except
      the lock, one `{id, quantity}` entry per line in line order, the total
      price and the shipping price of the lines, and the shipping, card and
      transaction rows it references (empty when it references none). */
  function AssembleView(s: Tables, id: nat): (v: OrderView)
    requires Resolvable(s) && id in s.orders
    ensures v.id == id && v.email == s.orders[id].email && v.paid == s.orders[id].paid
    ensures |v.products| == |s.lines[id]|
    ensures forall i | 0 <= i < |v.products| ::
              v.products[i] == ProductRef(s.lines[id][i].product, s.lines[id][i].quantity)
    ensures v.totalPrice == SubTotal(s.catalog, s.lines[id])
    ensures v.shippingPrice == ShippingPrice(TotalWeight(s.catalog, s.lines[id]))
    ensures v.shippingInfo.Some? <==> s.orders[id].shippingInfo.Some?
    ensures v.shippingInfo.Some? ==> v.shippingInfo.value == s.shipping[s.orders[id].shippingInfo.value]
    ensures v.creditCard.Some? <==> s.orders[id].creditCard.Some?
    ensures v.creditCard.Some? ==> v.creditCard.value == s.cards[s.orders[id].creditCard.value]
    ensures v.transaction == TransactionSummary(s, id)
  {
    var o := s.orders[id];
    var ls := s.lines[id];
    OrderView(id, o.email, o.paid, ProductRefs(ls), SubTotal(s.catalog, ls),
              ShippingPrice(TotalWeight(s.catalog, ls)),
              if o.shippingInfo.Some? then Some(s.shipping[o.shippingInfo.value]) else None,
              if o.creditCard.Some? then Some(s.cards[o.creditCard.value]) else None,
              TransactionSummary(s, id))
  }

  /** The order has a transaction and it succeeded: its view may be cached. */
  predicate PaymentSucceeded(s: Tables, id: nat)
    requires Resolvable(s) && id in s.orders
  {
    s.orders[id].transaction.Some? && s.transactions[s.orders[id].transaction.value].success
  }

  /** GET /order/<id>: a cached view is answered as it is; otherwise an
      unknown order is `order-does-not-exist`, and a known one gets its
      assembled view, which is cached when its payment succeeded. */
  function GetOrder(s: Tables, id: nat): Step
    requires Resolvable(s)
  {
    if id in s.cache then Step(s, View(s.cache[id]))
    else if id !in s.orders then Step(s, Failed(OrderDoesNotExist))
    else
      var v := AssembleView(s, id);
      Step(s.(cache := if PaymentSucceeded(s, id) then s.cache[id := v] else s.cache), View(v))
  }

  /** A cache hit answers the cached view whatever the ledger now says, and
      changes nothing. */
  lemma CacheHitIsVerbatim(s: Tables, id: nat)
    requires Resolvable(s) && id in s.cache
    ensures GetOrder(s, id) == Step(s, View(s.cache[id]))
  {
  }

  /** A GET changes nothing but the cache; it fails only for an order that is
      neither cached nor in the ledger; it adds the view it answers to the
      cache exactly when the order is not cached yet and its payment
      succeeded, and never otherwise. */
  lemma GetOrderCachesOnlySuccess(s: Tables, id: nat)
    requires Resolvable(s)
    ensures var r := GetOrder(s, id);
      && r.after.(cache := s.cache) == s
      && (r.reply.Failed? <==> id !in s.cache && id !in s.orders)
      && (r.reply.Failed? ==> r.reply.error == OrderDoesNotExist)
      && (!r.reply.Failed? ==> r.reply.View?)
      && (id !in s.cache && id in s.orders ==> r.reply == View(AssembleView(s, id)))
      && (r.after.cache != s.cache <==> id !in s.cache && id in s.orders && PaymentSucceeded(s, id))
      && (r.after.cache != s.cache ==> r.after.cache == s.cache[id := r.reply.view])
  {
    var r := GetOrder(s, id);
    if id !in s.cache && id in s.orders && PaymentSucceeded(s, id) {
      assert id in r.after.cache;
    }
  }

  /** A view assembled for a successfully paid order is, field for field,
      what the next GET of that order answers. */
  lemma CachedViewRoundTrip(s: Tables, id: nat)
    requires Resolvable(s) && id in s.orders && id !in s.cache && PaymentSucceeded(s, id)
    ensures var r := GetOrder(s, id);
      r.reply.View? && Resolvable(r.after) && GetOrder(r.after, id) == Step(r.after, r.reply)
  {
  }

  /** A GET keeps the ledger consistent: only views of paid, successful
      orders enter the cache. */
  lemma GetOrderConsistent(s: Tables, id: nat)
    requires Consistent(s)
    ensures Consistent(GetOrder(s, id).after)
  {
    if id !in s.cache && id in s.orders && PaymentSucceeded(s, id) {
      var v := AssembleView(s, id);
      assert s.orders[id].paid;
      CacheViewConsistent(s, id, v);
    }
  }
}
