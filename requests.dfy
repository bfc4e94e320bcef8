/** PUT /order/<id>: the order-not-found and pending-lock checks, the
    shipping and email update, and the credit-card submission that locks
    the order and queues its payment job. */
module Requests {
  import opened Records
  import opened Consistency
  import opened Views

  /** Every shipping key is present (a null counts as present). */
  predicate HasShippingKeys(f: ShippingFields) {
    !f.address.Missing? && !f.city.Missing? && !f.province.Missing? &&
    !f.postalCode.Missing? && !f.country.Missing?
  }

  /** The ShippingInfo row the fields make, if the table's constraints allow
      one: no column may be null and the postal code has exactly 7 characters. */
  function ShippingRow(f: ShippingFields): (r: Option<ShippingInfo>)
    ensures r.Some? <==> f.address.Given? && f.city.Given? && f.province.Given? && f.postalCode.Given? &&
                         f.country.Given? && |f.postalCode.value| == 7
    ensures r.Some? ==> r.value == ShippingInfo(f.country.value, f.address.value, f.postalCode.value,
                                                f.city.value, f.province.value)
  {
    if f.address.Given? && f.city.Given? && f.province.Given? && f.postalCode.Given? &&
       f.country.Given? && |f.postalCode.value| == 7
    then Some(ShippingInfo(f.country.value, f.address.value, f.postalCode.value, f.city.value, f.province.value))
    else None
  }

  /** The email column a PUT sets: null clears it. */
  function EmailColumn(e: Field<string>): Option<string> {
    if e.Given? then Some(e.value) else None
  }

  /** The request names every key the update reads. */
  predicate WellFormedUpdate(u: ShippingUpdate) {
    u.shippingInformation.Some? && !u.email.Missing? && HasShippingKeys(u.shippingInformation.value)
  }

  /** The ledger a valid shipping update stores before answering: the
      order's own shipping row rewritten, or a new row under the next id when
      it has none, and the email column set. */
  function SaveShipping(s: Tables, id: nat, row: ShippingInfo, email: Option<string>): Tables
    requires id in s.orders
  {
    var o := s.orders[id];
    var sid := if o.shippingInfo.Some? then o.shippingInfo.value else s.nextShipping;
    s.(shipping := s.shipping[sid := row],
       nextShipping := if o.shippingInfo.Some? then s.nextShipping else s.nextShipping + 1,
       orders := s.orders[id := o.(shippingInfo := Some(sid), email := email)])
  }

  /** Storing a shipping update keeps the ledger resolvable. */
  lemma SaveShippingResolvable(s: Tables, id: nat, row: ShippingInfo, email: Option<string>)
    requires Resolvable(s) && id in s.orders
    ensures Resolvable(SaveShipping(s, id, row, email))
  {
    UpdateKeepsResolvable(s, SaveShipping(s, id, row, email), id);
  }

  /** The shipping and email update of an unlocked order. A missing key is
      `json-not-valid`. A constraint violation is not caught when the order
      already has a shipping row (a 500) and is `invalid-fields` when it has
      none; either way nothing changes. Otherwise the update is stored and
      the answer is what GET answers for the order. */
  function UpdateShipping(s: Tables, id: nat, u: ShippingUpdate): Step
    requires Resolvable(s) && id in s.orders
  {
    if !WellFormedUpdate(u) then Step(s, Failed(JsonNotValid))
    else
      match ShippingRow(u.shippingInformation.value)
      case None => if s.orders[id].shippingInfo.Some? then Step(s, Unhandled) else Step(s, Failed(InvalidFields))
      case Some(row) =>
        SaveShippingResolvable(s, id, row, EmailColumn(u.email));
        GetOrder(SaveShipping(s, id, row, EmailColumn(u.email)), id)
  }

  /** Rewriting an order's row so that its shipping reference names a row of
      a shipping table that only grew keeps the ledger resolvable. */
  lemma UpdateKeepsResolvable(s: Tables, t: Tables, id: nat)
    requires Resolvable(s) && id in s.orders
    requires t.(shipping := s.shipping, nextShipping := s.nextShipping, orders := s.orders) == s
    requires s.shipping.Keys <= t.shipping.Keys && id in t.orders
    requires t.orders == s.orders[id := t.orders[id]]
    requires t.orders[id].(shippingInfo := s.orders[id].shippingInfo, email := s.orders[id].email) == s.orders[id]
    requires t.orders[id].shippingInfo.Some? && t.orders[id].shippingInfo.value in t.shipping
    ensures Resolvable(t)
  {
    assert t.orders.Keys == s.orders.Keys;
    OrderUpdateRefs(s.orders, s.shipping, s.cards, s.transactions, t.shipping, t.cards, t.transactions,
                    id, t.orders[id]);
  }

  /** The credit-card submission: lock the order, queue one job with the card
      data as sent, and answer 202. */
  function UpdateCreditCard(s: Tables, id: nat, card: CardPayload): Step
    requires id in s.orders
  {
    Step(s.(orders := s.orders[id := s.orders[id].(pending := true)], queue := s.queue + [Job(id, card)]),
         Accepted)
  }

  /** PUT /order/<id>: an unknown order is `order-not-found`, a locked one
      `order-pending`; otherwise an "order" key is a shipping update, else a
      "credit_card" key a card submission, else `missing-fields`. */
  function PutOrder(s: Tables, id: nat, payload: PutPayload): Step
    requires Resolvable(s)
  {
    if id !in s.orders then Step(s, Failed(OrderNotFound))
    else if s.orders[id].pending then Step(s, Failed(OrderPending))
    else if payload.order.Some? then UpdateShipping(s, id, payload.order.value)
    else if payload.creditCard.Some? then UpdateCreditCard(s, id, payload.creditCard.value)
    else Step(s, Failed(MissingFields))
  }

  /** A PUT on an unknown order is `order-not-found`, one on a locked order
      `order-pending`, and one naming neither key `missing-fields`; none of
      them changes anything. */
  lemma PutRefusals(s: Tables, id: nat, payload: PutPayload)
    requires Resolvable(s)
    ensures id !in s.orders ==> PutOrder(s, id, payload) == Step(s, Failed(OrderNotFound))
    ensures id in s.orders && s.orders[id].pending ==> PutOrder(s, id, payload) == Step(s, Failed(OrderPending))
    ensures id in s.orders && !s.orders[id].pending && payload.order.None? && payload.creditCard.None? ==>
              PutOrder(s, id, payload) == Step(s, Failed(MissingFields))
  {
  }

  /** A PUT on a locked order is refused: while a payment job holds the lock,
      no request changes anything the job reads. */
  lemma PutOnPendingOrderIsRejected(s: Tables, id: nat, payload: PutPayload)
    requires Resolvable(s) && id in s.orders && s.orders[id].pending
    ensures PutOrder(s, id, payload) == Step(s, Failed(OrderPending))
  {
  }

  /** A card PUT on an unlocked order answers 202, locks the order, changes
      none of its other columns (paid, transaction and card included), queues
      exactly one job for it at the back of the queue, and changes nothing else. */
  lemma CardPutLocksAndEnqueues(s: Tables, id: nat, card: CardPayload)
    requires Resolvable(s) && id in s.orders && !s.orders[id].pending
    ensures var r := PutOrder(s, id, PutPayload(None, Some(card)));
      && r.reply == Accepted
      && r.after.orders[id].pending
      && r.after.orders[id].(pending := false) == s.orders[id]
      && r.after.queue == s.queue + [Job(id, card)]
      && |r.after.queue| == |s.queue| + 1
      && (forall j | j in s.orders && j != id :: r.after.orders[j] == s.orders[j])
      && r.after.(orders := s.orders, queue := s.queue) == s
  {
  }

  /** The error answers of a shipping update, each of which changes nothing:
      a missing key is `json-not-valid`; otherwise constraint violations are a
      500 when the order already has a shipping row and `invalid-fields` when
      it has none. Any other update answers with an order view. */
  lemma UpdateShippingErrors(s: Tables, id: nat, u: ShippingUpdate)
    requires Resolvable(s) && id in s.orders
    ensures var r := UpdateShipping(s, id, u);
      && (r.reply == Failed(JsonNotValid) <==> !WellFormedUpdate(u))
      && (r.reply == Unhandled <==>
            WellFormedUpdate(u) && s.orders[id].shippingInfo.Some? && ShippingRow(u.shippingInformation.value).None?)
      && (r.reply == Failed(InvalidFields) <==>
            WellFormedUpdate(u) && s.orders[id].shippingInfo.None? && ShippingRow(u.shippingInformation.value).None?)
      && (r.reply.Failed? || r.reply.Unhandled? ==> r.after == s)
      && (WellFormedUpdate(u) && ShippingRow(u.shippingInformation.value).Some? ==> r.reply.View?)
  {
    if WellFormedUpdate(u) && ShippingRow(u.shippingInformation.value).Some? {
      var row := ShippingRow(u.shippingInformation.value).value;
      SaveShippingResolvable(s, id, row, EmailColumn(u.email));
      GetOrderCachesOnlySuccess(SaveShipping(s, id, row, EmailColumn(u.email)), id);
    }
  }

  /** A stored shipping update changes only the order's own shipping row
      (rewritten in place, or added under the next, unused id when the order
      had none; every other row stays as it was) and the order's email, and no
      other order and no other table. */
  lemma SaveShippingTouchesOnlyOwnRow(s: Tables, id: nat, row: ShippingInfo, email: Option<string>)
    requires Below(s.shipping.Keys, s.nextShipping) && id in s.orders
    requires s.orders[id].shippingInfo.Some? ==> s.orders[id].shippingInfo.value in s.shipping
    ensures var t := SaveShipping(s, id, row, email);
      var sid := t.orders[id].shippingInfo;
      && sid.Some? && sid.value in t.shipping && t.shipping[sid.value] == row
      && (s.orders[id].shippingInfo.Some? ==> sid == s.orders[id].shippingInfo)
      && (s.orders[id].shippingInfo.None? ==> sid == Some(s.nextShipping) && s.nextShipping !in s.shipping)
      && t.shipping.Keys == s.shipping.Keys + {sid.value}
      && (forall k | k in s.shipping && Some(k) != sid :: t.shipping[k] == s.shipping[k])
    ensures var t := SaveShipping(s, id, row, email);
      && t.orders[id].email == email
      && t.orders[id].(shippingInfo := s.orders[id].shippingInfo, email := s.orders[id].email) == s.orders[id]
      && t.orders == s.orders[id := t.orders[id]]
      && t.(shipping := s.shipping, nextShipping := s.nextShipping, orders := s.orders) == s
  {
  }

  /** A valid shipping update stores `SaveShipping`'s ledger and answers what
      a GET of that ledger answers; only the cache may differ from it. */
  lemma UpdateShippingStoresThenAnswers(s: Tables, id: nat, u: ShippingUpdate)
    requires Resolvable(s) && id in s.orders
    requires WellFormedUpdate(u) && ShippingRow(u.shippingInformation.value).Some?
    ensures var t := SaveShipping(s, id, ShippingRow(u.shippingInformation.value).value, EmailColumn(u.email));
      var r := UpdateShipping(s, id, u);
      && r.after.(cache := t.cache) == t
      && r.reply == GetOrder(t, id).reply
  {
    var t := SaveShipping(s, id, ShippingRow(u.shippingInformation.value).value, EmailColumn(u.email));
    SaveShippingResolvable(s, id, ShippingRow(u.shippingInformation.value).value, EmailColumn(u.email));
    GetOrderCachesOnlySuccess(t, id);
  }

  /** A shipping update on an order whose view is cached stores the new
      values but answers the cached view, which still shows the old ones. */
  lemma ShippingUpdateOnCachedOrderAnswersStaleView(s: Tables, id: nat, u: ShippingUpdate)
    requires Resolvable(s) && id in s.orders && id in s.cache
    requires WellFormedUpdate(u) && ShippingRow(u.shippingInformation.value).Some?
    ensures UpdateShipping(s, id, u).reply == View(s.cache[id])
  {
  }

  // ---------------------------------------------------------------------
  // The shipping update as written

  /** The stored update as the source writes it: an order that already has a
      shipping row rewrites EVERY shipping row with the new values, because
      the update statement has no condition on the row id. */
  function SaveShippingAsWritten(s: Tables, id: nat, row: ShippingInfo, email: Option<string>): (t: Tables)
    requires id in s.orders
    ensures s.orders[id].shippingInfo.None? ==> t == SaveShipping(s, id, row, email)
  {
    var o := s.orders[id];
    var sid := if o.shippingInfo.Some? then o.shippingInfo.value else s.nextShipping;
    s.(shipping := if o.shippingInfo.Some? then map k | k in s.shipping :: row else s.shipping[sid := row],
       nextShipping := if o.shippingInfo.Some? then s.nextShipping else s.nextShipping + 1,
       orders := s.orders[id := o.(shippingInfo := Some(sid), email := email)])
  }

  /** Storing a shipping update as written keeps the ledger resolvable. */
  lemma SaveShippingAsWrittenResolvable(s: Tables, id: nat, row: ShippingInfo, email: Option<string>)
    requires Resolvable(s) && id in s.orders
    ensures Resolvable(SaveShippingAsWritten(s, id, row, email))
  {
    UpdateKeepsResolvable(s, SaveShippingAsWritten(s, id, row, email), id);
  }

  /** The shipping update of the source, using `SaveShippingAsWritten`. */
  function UpdateShippingAsWritten(s: Tables, id: nat, u: ShippingUpdate): Step
    requires Resolvable(s) && id in s.orders
  {
    if !WellFormedUpdate(u) then Step(s, Failed(JsonNotValid))
    else
      match ShippingRow(u.shippingInformation.value)
      case None => if s.orders[id].shippingInfo.Some? then Step(s, Unhandled) else Step(s, Failed(InvalidFields))
      case Some(row) =>
        SaveShippingAsWrittenResolvable(s, id, row, EmailColumn(u.email));
        GetOrder(SaveShippingAsWritten(s, id, row, EmailColumn(u.email)), id)
  }

  /** As written, updating an order that has a shipping row gives every
      shipping row of every order the new values. */
  lemma AsWrittenRewritesEveryRow(s: Tables, id: nat, row: ShippingInfo, email: Option<string>)
    requires id in s.orders && s.orders[id].shippingInfo.Some?
    ensures var t := SaveShippingAsWritten(s, id, row, email);
      t.shipping.Keys == s.shipping.Keys && forall k | k in t.shipping :: t.shipping[k] == row
  {
  }

  /** Two orders with their own shipping rows: updating the first one's
      address as written also rewrites the second order's row, while the
      corrected update leaves it alone. */
  lemma AsWrittenUpdateRewritesOtherOrders()
    ensures var a := ShippingInfo("Canada", "1 rue A", "G7H 2B1", "Chicoutimi", "QC");
      var b := ShippingInfo("Canada", "2 rue B", "H2X 1Y4", "Montreal", "QC");
      var s := EmptyTables(map[]).(
                 orders := map[1 := NewOrder.(shippingInfo := Some(1)), 2 := NewOrder.(shippingInfo := Some(2))],
                 lines := map[1 := [], 2 := []],
                 shipping := map[1 := a, 2 := b], nextOrder := 3, nextShipping := 3);
      var u := ShippingUpdate(Some(ShippingFields(Given("3 rue C"), Given("Saguenay"), Given("QC"),
                                                  Given("G7H 5K9"), Given("Canada"))), Given("a@b.ca"));
      && Resolvable(s)
      && UpdateShippingAsWritten(s, 1, u).after.shipping[2] != b
      && UpdateShipping(s, 1, u).after.shipping[2] == b
  {
    var a := ShippingInfo("Canada", "1 rue A", "G7H 2B1", "Chicoutimi", "QC");
    var b := ShippingInfo("Canada", "2 rue B", "H2X 1Y4", "Montreal", "QC");
    var s := EmptyTables(map[]).(
               orders := map[1 := NewOrder.(shippingInfo := Some(1)), 2 := NewOrder.(shippingInfo := Some(2))],
               lines := map[1 := [], 2 := []],
               shipping := map[1 := a, 2 := b], nextOrder := 3, nextShipping := 3);
    var f := ShippingFields(Given("3 rue C"), Given("Saguenay"), Given("QC"), Given("G7H 5K9"), Given("Canada"));
    assert |"G7H 5K9"| == 7;
    var row := ShippingRow(f).value;
    assert row.address == "3 rue C";
    assert s.orders.Keys == {1, 2};
    assert Resolvable(s);
    var email := EmailColumn(Given("a@b.ca"));
    var wrong := SaveShippingAsWritten(s, 1, row, email);
    var right := SaveShipping(s, 1, row, email);
    SaveShippingAsWrittenResolvable(s, 1, row, email);
    SaveShippingResolvable(s, 1, row, email);
    GetOrderCachesOnlySuccess(wrong, 1);
    GetOrderCachesOnlySuccess(right, 1);
    assert wrong.shipping[2] == row;
    assert right.shipping[2] == b;
  }

  // ---------------------------------------------------------------------
  // Consistency

  /** Queuing a job for an unlocked order while locking it keeps the ledger consistent. */
  lemma UpdateCreditCardConsistent(s: Tables, id: nat, card: CardPayload)
    requires Consistent(s) && id in s.orders && !s.orders[id].pending
    ensures Consistent(UpdateCreditCard(s, id, card).after)
  {
    var u := s.(orders := s.orders[id := s.orders[id].(pending := true)]);
    OrderColumnsConsistent(s, id, s.orders[id].(pending := true));
    var q := u.queue + [Job(id, card)];
    assert forall i | 0 <= i < |s.queue| :: s.queue[i].orderId != id;
    assert forall i | 0 <= i < |s.queue| :: q[i] == s.queue[i];
    assert JobsHoldLocks(q, u.orders);
  }

  /** Storing a shipping update keeps the ledger consistent. */
  lemma SaveShippingConsistent(s: Tables, id: nat, row: ShippingInfo, email: Option<string>)
    requires Consistent(s) && id in s.orders
    ensures Consistent(SaveShipping(s, id, row, email))
  {
    var t := SaveShipping(s, id, row, email);
    var o2 := t.orders[id];
    SaveShippingTouchesOnlyOwnRow(s, id, row, email);
    SaveShippingResolvable(s, id, row, email);
    assert t.orders == s.orders[id := o2];
    assert t.orders.Keys == s.orders.Keys;
    OrderUpdateRefs(s.orders, s.shipping, s.cards, s.transactions, t.shipping, t.cards, t.transactions, id, o2);
    OrderUpdateLocks(s.queue, s.orders, id, o2);
    OrderUpdateSuccessPaid(s.orders, s.transactions, t.transactions, id, o2);
    OrderUpdateCache(s.cache, s.orders, id, o2);
    assert Below(t.shipping.Keys, t.nextShipping);
  }

  /** Every PUT keeps the ledger consistent. */
  lemma PutOrderConsistent(s: Tables, id: nat, payload: PutPayload)
    requires Consistent(s)
    ensures Consistent(PutOrder(s, id, payload).after)
  {
    if id in s.orders && !s.orders[id].pending {
      if payload.order.Some? {
        var u := payload.order.value;
        if WellFormedUpdate(u) && ShippingRow(u.shippingInformation.value).Some? {
          var t := SaveShipping(s, id, ShippingRow(u.shippingInformation.value).value, EmailColumn(u.email));
          SaveShippingConsistent(s, id, ShippingRow(u.shippingInformation.value).value, EmailColumn(u.email));
          GetOrderConsistent(t, id);
          assert PutOrder(s, id, payload).after == GetOrder(t, id).after;
        }
      } else if payload.creditCard.Some? {
        UpdateCreditCardConsistent(s, id, payload.creditCard.value);
      }
    }
  }
}
