/** The payment job: its precondition checks, the charge request, the
    gateway's answer applied to the ledger, and `set_error`'s
    replace-don't-append rule. */
module Payment {
  import opened Records
  import opened Consistency
  import opened Shipping
  import opened Orders

  /** The transaction the gateway answers with on HTTP 200. */
  datatype GatewayTx = GatewayTx(id: string, success: bool, amountCharged: int)

  /** What the gateway call gives: a 200 with a transaction, any other status
      with an error code and name, or no answer (the call raises). */
  datatype Gateway = Approved(tx: GatewayTx) | Declined(code: string, name: string) | Unreachable

  /** The body sent to the gateway: the card data as submitted and the amount. */
  datatype PayRequest = PayRequest(card: CardPayload, amountCharged: int)

  /** How a job ends: an error recorded through `set_error`, a stored charge,
      or an exception that ends the job before any bookkeeping; `Idle` is the
      worker finding no job to run. */
  datatype Exit = Recorded(error: ErrorRow) | Charged | Crashed | Idle

  /** The ledger after a job, the gateway request it sent (if any) and how it ended. */
  datatype JobRun = JobRun(after: Tables, request: Option<PayRequest>, exit: Exit)

  /** The two card numbers the job lets through to the gateway. */
  const AcceptedNumbers: set<string> := {"4000 0000 0000 0002", "4242 4242 4242 4242"}

  // The errors the job records. `set_error` receives the slug as its `name`
  // argument and the message as its `code` argument, so the slug lands in the
  // row's `name` column and the message in its `code` column.
  const AlreadyPaidError := ErrorRow("La commande a déjà été payée", "already-paid")
  const MissingCardFieldsError := ErrorRow("Il manque des champs dans le json", "missing-fields")
  const MissingCustomerError := ErrorRow("Les informations du client sont nécessaire avant d'appliquer une carte de crédit", "missing-fields")
  const IncorrectNumberError := ErrorRow("Le numéro de carte est invalide", "incorrect-number")
  const NoProductsError := ErrorRow("Aucun produit dans la commande", "no-products")
  const InvalidCardError := ErrorRow("Les informations de la carte de crédit ne sont pas correctes", "invalid-fields")

  /** Every key the job reads is present in the card data (a null counts as present). */
  predicate HasCardKeys(c: CardPayload) {
    !c.name.Missing? && !c.number.Missing? && !c.expirationYear.Missing? &&
    !c.cvv.Missing? && !c.expirationMonth.Missing?
  }

  predicate NumberAccepted(c: CardPayload) {
    c.number.Given? && c.number.value in AcceptedNumbers
  }

  /** The job's checks before any charge, in their order: already paid, card
      keys missing, customer email or shipping missing, number not accepted,
      no lines. The result is the error of the first failing check; none
      means the charge goes ahead. */
  function Precondition(o: Order, card: CardPayload, lineCount: nat): (r: Option<ErrorRow>)
    ensures r.None? <==> !o.paid && HasCardKeys(card) && o.email.Some? && o.shippingInfo.Some? &&
                         NumberAccepted(card) && lineCount > 0
    ensures o.paid ==> r == Some(AlreadyPaidError)
    ensures !o.paid && !HasCardKeys(card) ==> r == Some(MissingCardFieldsError)
    ensures !o.paid && HasCardKeys(card) && (o.email.None? || o.shippingInfo.None?) ==>
              r == Some(MissingCustomerError)
    ensures !o.paid && HasCardKeys(card) && o.email.Some? && o.shippingInfo.Some? && !NumberAccepted(card) ==>
              r == Some(IncorrectNumberError)
    ensures r == Some(NoProductsError) <==>
              !o.paid && HasCardKeys(card) && o.email.Some? && o.shippingInfo.Some? &&
              NumberAccepted(card) && lineCount == 0
  {
    if o.paid then Some(AlreadyPaidError)
    else if !HasCardKeys(card) then Some(MissingCardFieldsError)
    else if o.email.None? || o.shippingInfo.None? then Some(MissingCustomerError)
    else if !NumberAccepted(card) then Some(IncorrectNumberError)
    else if lineCount == 0 then Some(NoProductsError)
    else None
  }

  /** The first four characters of a string (all of it when shorter). */
  function FirstFour(s: string): (r: string)
    ensures |r| == if |s| < 4 then |s| else 4
    ensures r <= s
  {
    s[..if |s| < 4 then |s| else 4]
  }

  /** The last four characters of a string (all of it when shorter). */
  function LastFour(s: string): (r: string)
    ensures |r| == if |s| < 4 then |s| else 4
    ensures r == s[|s| - |r|..]
  {
    s[|s| - (if |s| < 4 then |s| else 4)..]
  }

  /** The CreditCard row stored after a charge: the holder, the first and last
      four characters of the number and the expiry. Inserting it fails when a
      non-null column would get a null. */
  function CardRow(c: CardPayload): (r: Option<CreditCard>)
    ensures r.Some? <==> c.name.Given? && c.number.Given? && c.expirationMonth.Given? && c.expirationYear.Given?
    ensures r.Some? ==>
              && r.value.name == c.name.value
              && r.value.firstDigits == FirstFour(c.number.value)
              && r.value.lastDigits == LastFour(c.number.value)
              && r.value.expirationMonth == c.expirationMonth.value
              && r.value.expirationYear == c.expirationYear.value
  {
    if c.name.Given? && c.number.Given? && c.expirationMonth.Given? && c.expirationYear.Given? then
      Some(CreditCard(c.name.value, FirstFour(c.number.value), LastFour(c.number.value),
                      c.expirationMonth.value, c.expirationYear.value))
    else None
  }

  /** For an accepted number the stored card keeps exactly four characters at
      each end, which is less than the whole number; the cvv has no column. */
  lemma StoredCardHidesNumber(c: CardPayload)
    requires NumberAccepted(c) && CardRow(c).Some?
    ensures var cc := CardRow(c).value;
      && |cc.firstDigits| == 4 && |cc.lastDigits| == 4
      && cc.firstDigits == c.number.value[..4] && cc.lastDigits == c.number.value[15..]
      && |cc.firstDigits| + |cc.lastDigits| < |c.number.value|
  {
    assert |"4000 0000 0000 0002"| == 19 && |"4242 4242 4242 4242"| == 19;
  }

  /** The order exists and so does the transaction it references, if any. */
  ghost predicate TransactionResolves(s: Tables, id: nat) {
    id in s.orders && (s.orders[id].transaction.Some? ==> s.orders[id].transaction.value in s.transactions)
  }

  /** `clear_order_lock`: the order is no longer pending. */
  function ClearOrderLock(s: Tables, id: nat): Tables
    requires id in s.orders
  {
    s.(orders := s.orders[id := s.orders[id].(pending := false)])
  }

  /** `set_error`: a new error row; if the order has a transaction, that
      transaction now references the new error and the error it referenced
      before is deleted; otherwise a new failed transaction for `amount`
      references it. The order's lock is released either way. */
  function SetError(s: Tables, id: nat, name: string, code: string, amount: int, freshTx: string): Tables
    requires TransactionResolves(s, id)
  {
    var e := s.nextError;
    var o := s.orders[id];
    var tid := if o.transaction.Some? then o.transaction.value else freshTx;
    var prior := if o.transaction.Some? then s.transactions[tid].error else None;
    var tx := if o.transaction.Some? then s.transactions[tid].(error := Some(e))
              else Transaction(false, amount, Some(e));
    var added := s.errors[e := ErrorRow(code, name)];
    s.(errors := if prior.Some? then added - {prior.value} else added,
       nextError := e + 1,
       transactions := s.transactions[tid := tx],
       orders := s.orders[id := o.(transaction := Some(tid), pending := false)])
  }

  /** The gateway's transaction becomes the order's transaction, and the order is paid. */
  function RecordCharge(s: Tables, id: nat, tx: GatewayTx): Tables
    requires id in s.orders
  {
    s.(transactions := s.transactions[tx.id := Transaction(tx.success, tx.amountCharged, None)],
       orders := s.orders[id := s.orders[id].(transaction := Some(tx.id), paid := true)])
  }

  /** A new card row becomes the order's card. */
  function AttachCard(s: Tables, id: nat, cc: CreditCard): Tables
    requires id in s.orders
  {
    s.(cards := s.cards[s.nextCard := cc], nextCard := s.nextCard + 1,
       orders := s.orders[id := s.orders[id].(creditCard := Some(s.nextCard))])
  }

  /** `do_background_task` for one job. `gateway` is what the charge request
      would get back; it is consulted only when a request is sent. `freshTx`
      stands for the uuid a new failed transaction gets. */
  function DoBackgroundTask(s: Tables, job: Job, gateway: Gateway, freshTx: string): JobRun
    requires Resolvable(s) && job.orderId in s.orders
  {
    var id := job.orderId;
    var ls := s.lines[id];
    var amount := SubTotal(s.catalog, ls);
    match Precondition(s.orders[id], job.card, |ls|)
    case Some(err) => JobRun(SetError(s, id, err.name, err.code, amount, freshTx), None, Recorded(err))
    case None =>
      var request := Some(PayRequest(job.card, amount + ShippingPrice(TotalWeight(s.catalog, ls))));
      match gateway
      case Unreachable => JobRun(s, request, Crashed)
      case Declined(gwCode, gwName) =>
        JobRun(SetError(ClearOrderLock(s, id), id, gwCode, gwName, amount, freshTx), request,
               Recorded(ErrorRow(gwName, gwCode)))
      case Approved(tx) =>
        if tx.id in s.transactions then JobRun(s, request, Crashed)
        else
          var charged := RecordCharge(s, id, tx);
          match CardRow(job.card)
          case None =>
            JobRun(SetError(charged, id, InvalidCardError.name, InvalidCardError.code, amount, freshTx),
                   request, Recorded(InvalidCardError))
          case Some(cc) => JobRun(ClearOrderLock(AttachCard(charged, id, cc), id), request, Charged)
  }

  /** The worker takes the job at the head of the queue and runs it; with an
      empty queue it stays idle and nothing changes. */
  function RunNextJob(s: Tables, gateway: Gateway, freshTx: string): JobRun
    requires Resolvable(s) && (s.queue != [] ==> s.queue[0].orderId in s.orders)
  {
    if s.queue == [] then JobRun(s, None, Idle)
    else DoBackgroundTask(s.(queue := s.queue[1..]), s.queue[0], gateway, freshTx)
  }

  // ---------------------------------------------------------------------
  // set_error

  /** `set_error` adds one error row, under a fresh id. */
  lemma SetErrorAddsErrorRow(s: Tables, id: nat, name: string, code: string, amount: int, freshTx: string)
    requires TransactionResolves(s, id) && FreshCounters(s) && ErrorRefsResolve(s.transactions, s.errors)
    ensures var t := SetError(s, id, name, code, amount, freshTx);
      s.nextError !in s.errors && s.nextError in t.errors && t.errors[s.nextError] == ErrorRow(code, name)
  {
  }

  /** `set_error` unlocks the order, changes none of its other columns but the
      transaction, and touches no other order, line, shipping row, card,
      cache entry or job. */
  lemma SetErrorFrame(s: Tables, id: nat, name: string, code: string, amount: int, freshTx: string)
    requires TransactionResolves(s, id)
    ensures var t := SetError(s, id, name, code, amount, freshTx);
      var o := s.orders[id];
      && !t.orders[id].pending
      && t.orders[id].(pending := o.pending, transaction := o.transaction) == o
      && (forall j | j in s.orders && j != id :: t.orders[j] == s.orders[j])
      && t.orders.Keys == s.orders.Keys
      && t.lines == s.lines && t.shipping == s.shipping && t.cards == s.cards
      && t.cache == s.cache && t.queue == s.queue
  {
  }

  /** On an order with a transaction, `set_error` keeps that transaction's
      id, success and amount, points it at the new error and deletes the
      error row it pointed at before. */
  lemma SetErrorRelinks(s: Tables, id: nat, name: string, code: string, amount: int, freshTx: string)
    requires TransactionResolves(s, id) && FreshCounters(s) && s.orders[id].transaction.Some?
    ensures var t := SetError(s, id, name, code, amount, freshTx);
      var tid := s.orders[id].transaction.value;
      var prior := s.transactions[tid];
      && t.orders[id].transaction == Some(tid)
      && t.transactions.Keys == s.transactions.Keys
      && t.transactions[tid] == Transaction(prior.success, prior.amountCharged, Some(s.nextError))
      && (forall u | u in s.transactions && u != tid :: t.transactions[u] == s.transactions[u])
  {
  }

  /** The error row a relinked transaction referenced is gone, and no other row. */
  lemma SetErrorDeletesPrior(s: Tables, id: nat, name: string, code: string, amount: int, freshTx: string)
    requires TransactionResolves(s, id) && FreshCounters(s) && ErrorRefsResolve(s.transactions, s.errors)
    requires s.orders[id].transaction.Some?
    ensures var t := SetError(s, id, name, code, amount, freshTx);
      var prior := s.transactions[s.orders[id].transaction.value];
      && (prior.error.Some? ==> (prior.error.value !in t.errors &&
            t.errors.Keys == s.errors.Keys - {prior.error.value} + {s.nextError}))
      && (prior.error.None? ==> t.errors.Keys == s.errors.Keys + {s.nextError})
      && (forall k | k in t.errors && k != s.nextError :: t.errors[k] == s.errors[k])
  {
    var prior := s.transactions[s.orders[id].transaction.value];
    if prior.error.Some? {
      assert prior.error.value in s.errors;
      assert prior.error.value != s.nextError;
    }
  }

  /** On an order without a transaction, `set_error` creates a failed one for
      `amount` that references the new error. */
  lemma SetErrorCreatesTransaction(s: Tables, id: nat, name: string, code: string, amount: int, freshTx: string)
    requires TransactionResolves(s, id) && FreshCounters(s) && s.orders[id].transaction.None?
    ensures var t := SetError(s, id, name, code, amount, freshTx);
      && t.orders[id].transaction == Some(freshTx)
      && t.transactions == s.transactions[freshTx := Transaction(false, amount, Some(s.nextError))]
      && t.errors.Keys == s.errors.Keys + {s.nextError}
  {
  }

  /** `set_error` creates exactly one error row and never appends: an existing
      transaction keeps its id, success and amount and now references the
      new error, whose predecessor row is gone; without a transaction a new
      failed one for `amount` references it. Every other error row keeps its
      contents. The order ends unlocked with its other columns unchanged, and
      no other order, line, card, shipping row, cache entry or job changes. */
  lemma SetErrorReplaces(s: Tables, id: nat, name: string, code: string, amount: int, freshTx: string)
    requires TransactionResolves(s, id) && FreshCounters(s) && ErrorRefsResolve(s.transactions, s.errors)
    ensures var t := SetError(s, id, name, code, amount, freshTx);
      var e := s.nextError;
      var o := s.orders[id];
      && e !in s.errors && e in t.errors && t.errors[e] == ErrorRow(code, name)
      && !t.orders[id].pending
      && t.orders[id].(pending := o.pending, transaction := o.transaction) == o
      && (forall j | j in s.orders && j != id :: t.orders[j] == s.orders[j])
      && t.lines == s.lines && t.shipping == s.shipping && t.cards == s.cards
      && t.cache == s.cache && t.queue == s.queue
      && (o.transaction.Some? ==>
            var tid := o.transaction.value;
            var prior := s.transactions[tid];
            && t.orders[id].transaction == o.transaction
            && t.transactions[tid] == Transaction(prior.success, prior.amountCharged, Some(e))
            && (forall u | u in s.transactions && u != tid :: t.transactions[u] == s.transactions[u])
            && t.transactions.Keys == s.transactions.Keys
            && (prior.error.Some? ==> t.errors.Keys == s.errors.Keys - {prior.error.value} + {e})
            && (prior.error.None? ==> t.errors.Keys == s.errors.Keys + {e}))
      && (o.transaction.None? ==>
            && t.orders[id].transaction == Some(freshTx)
            && t.transactions == s.transactions[freshTx := Transaction(false, amount, Some(e))]
            && t.errors.Keys == s.errors.Keys + {e})
      && (forall k | k in t.errors && k != e :: k in s.errors && t.errors[k] == s.errors[k])
  {
    SetErrorAddsErrorRow(s, id, name, code, amount, freshTx);
    SetErrorFrame(s, id, name, code, amount, freshTx);
    if s.orders[id].transaction.Some? {
      SetErrorRelinks(s, id, name, code, amount, freshTx);
      SetErrorDeletesPrior(s, id, name, code, amount, freshTx);
    } else {
      SetErrorCreatesTransaction(s, id, name, code, amount, freshTx);
    }
  }

  /** Repeated failures do not pile up error rows: a failure on an order whose
      transaction already has an error leaves the number of error rows as it
      was, and any other failure adds exactly one. */
  lemma SetErrorErrorCount(s: Tables, id: nat, name: string, code: string, amount: int, freshTx: string)
    requires TransactionResolves(s, id) && FreshCounters(s) && ErrorRefsResolve(s.transactions, s.errors)
    ensures var t := SetError(s, id, name, code, amount, freshTx);
      var o := s.orders[id];
      if o.transaction.Some? && s.transactions[o.transaction.value].error.Some?
      then |t.errors| == |s.errors|
      else |t.errors| == |s.errors| + 1
  {
    var t := SetError(s, id, name, code, amount, freshTx);
    var e := s.nextError;
    assert e !in s.errors;
    var grown := s.errors[e := ErrorRow(code, name)];
    assert |grown| == |s.errors| + 1;
    var o := s.orders[id];
    if o.transaction.Some? && s.transactions[o.transaction.value].error.Some? {
      var prior := s.transactions[o.transaction.value].error.value;
      assert prior in grown && prior != e;
      assert t.errors == grown - {prior};
      assert grown.Keys == (grown - {prior}).Keys + {prior};
      assert |grown.Keys| == |(grown - {prior}).Keys| + 1;
    } else {
      assert t.errors == grown;
    }
  }

  /** Releasing a lock that no queued job holds keeps the ledger consistent. */
  lemma ClearOrderLockConsistent(s: Tables, id: nat)
    requires Consistent(s) && id in s.orders && NotQueued(s.queue, id)
    ensures Consistent(ClearOrderLock(s, id))
  {
    OrderColumnsConsistent(s, id, s.orders[id].(pending := false));
  }

  /** `set_error` on an order no queued job holds keeps the ledger consistent
      (when it creates a transaction, under an unused id): in particular every
      error row is still the error of exactly one transaction. */
  lemma SetErrorConsistent(s: Tables, id: nat, name: string, code: string, amount: int, freshTx: string)
    requires Consistent(s) && id in s.orders && NotQueued(s.queue, id)
    requires s.orders[id].transaction.None? ==> freshTx !in s.transactions
    ensures Consistent(SetError(s, id, name, code, amount, freshTx))
  {
    if s.orders[id].transaction.Some? {
      SetErrorRelinkConsistent(s, id, name, code, amount, freshTx);
    } else {
      SetErrorNewTransactionConsistent(s, id, name, code, amount, freshTx);
    }
  }

  /** `set_error` on an order with a transaction keeps the ledger consistent. */
  lemma SetErrorRelinkConsistent(s: Tables, id: nat, name: string, code: string, amount: int, freshTx: string)
    requires Consistent(s) && id in s.orders && s.orders[id].transaction.Some? && NotQueued(s.queue, id)
    ensures Consistent(SetError(s, id, name, code, amount, freshTx))
  {
    var t := SetError(s, id, name, code, amount, freshTx);
    var e := s.nextError;
    var o := s.orders[id];
    var tid := o.transaction.value;
    var row := ErrorRow(code, name);
    assert e !in s.errors;
    RelinkErrorsOwned(s.transactions, s.errors, tid, e, row);
    var o2 := o.(pending := false);
    assert t.orders == s.orders[id := o2];
    assert t.orders.Keys == s.orders.Keys;
    OrderUpdateRefs(s.orders, s.shipping, s.cards, s.transactions, t.shipping, t.cards, t.transactions, id, o2);
    OrderUpdateLocks(s.queue, s.orders, id, o2);
    OrderUpdateSuccessPaid(s.orders, s.transactions, t.transactions, id, o2);
    OrderUpdateCache(s.cache, s.orders, id, o2);
    assert Below(t.errors.Keys, t.nextError);
  }

  /** `set_error` on an order without a transaction keeps the ledger
      consistent when the new transaction's id is not in use. */
  lemma SetErrorNewTransactionConsistent(s: Tables, id: nat, name: string, code: string, amount: int, freshTx: string)
    requires Consistent(s) && id in s.orders && s.orders[id].transaction.None?
    requires freshTx !in s.transactions && NotQueued(s.queue, id)
    ensures Consistent(SetError(s, id, name, code, amount, freshTx))
  {
    var t := SetError(s, id, name, code, amount, freshTx);
    var e := s.nextError;
    var row := ErrorRow(code, name);
    assert e !in s.errors;
    AddTransactionErrorsOwned(s.transactions, s.errors, freshTx, Transaction(false, amount, Some(e)), row,
                              s.errors[e := row]);
    var o2 := s.orders[id].(transaction := Some(freshTx), pending := false);
    assert t.orders == s.orders[id := o2];
    assert t.orders.Keys == s.orders.Keys;
    OrderUpdateRefs(s.orders, s.shipping, s.cards, s.transactions, t.shipping, t.cards, t.transactions, id, o2);
    OrderUpdateLocks(s.queue, s.orders, id, o2);
    OrderUpdateSuccessPaid(s.orders, s.transactions, t.transactions, id, o2);
    OrderUpdateCache(s.cache, s.orders, id, o2);
    assert Below(t.errors.Keys, t.nextError);
  }

  // ---------------------------------------------------------------------
  // do_background_task

  /** A failed check records its error through `set_error` with the lines'
      subtotal as amount, sends nothing to the gateway (whatever it would
      have answered), and leaves the order's paid flag as it was. */
  lemma FailedCheckSkipsGateway(s: Tables, job: Job, gateway: Gateway, other: Gateway, freshTx: string)
    requires Resolvable(s) && FreshCounters(s) && job.orderId in s.orders
    requires Precondition(s.orders[job.orderId], job.card, |s.lines[job.orderId]|).Some?
    ensures var err := Precondition(s.orders[job.orderId], job.card, |s.lines[job.orderId]|).value;
      var r := DoBackgroundTask(s, job, gateway, freshTx);
      && r == DoBackgroundTask(s, job, other, freshTx)
      && r.request.None? && r.exit == Recorded(err)
      && r.after == SetError(s, job.orderId, err.name, err.code, SubTotal(s.catalog, s.lines[job.orderId]), freshTx)
      && r.after.errors[s.nextError] == err
      && r.after.orders[job.orderId].paid == s.orders[job.orderId].paid
      && !r.after.orders[job.orderId].pending
  {
    var err := Precondition(s.orders[job.orderId], job.card, |s.lines[job.orderId]|).value;
    SetErrorAddsErrorRow(s, job.orderId, err.name, err.code, SubTotal(s.catalog, s.lines[job.orderId]), freshTx);
    SetErrorFrame(s, job.orderId, err.name, err.code, SubTotal(s.catalog, s.lines[job.orderId]), freshTx);
  }

  /** A job that passes its checks sends the card data as submitted, with the
      lines' subtotal plus the shipping price of their total weight. */
  lemma ChargeRequestAmount(s: Tables, job: Job, gateway: Gateway, freshTx: string)
    requires Resolvable(s) && job.orderId in s.orders
    requires Precondition(s.orders[job.orderId], job.card, |s.lines[job.orderId]|).None?
    ensures var ls := s.lines[job.orderId];
      DoBackgroundTask(s, job, gateway, freshTx).request ==
        Some(PayRequest(job.card, SubTotal(s.catalog, ls) + ShippingPrice(TotalWeight(s.catalog, ls))))
  {
  }

  /** An approved charge whose card row can be stored: the gateway's
      transaction becomes the order's, with no error; the order is paid,
      references a new card row holding the name, the first and last four
      characters of the number and the expiry, and is unlocked; no error row
      changes. */
  lemma ChargeSucceeds(s: Tables, job: Job, tx: GatewayTx, freshTx: string)
    requires Resolvable(s) && job.orderId in s.orders && tx.id !in s.transactions
    requires Precondition(s.orders[job.orderId], job.card, |s.lines[job.orderId]|).None?
    requires CardRow(job.card).Some?
    ensures var r := DoBackgroundTask(s, job, Approved(tx), freshTx);
      var o := r.after.orders[job.orderId];
      && r.exit == Charged
      && o.paid && !o.pending
      && o.transaction == Some(tx.id)
      && r.after.transactions == s.transactions[tx.id := Transaction(tx.success, tx.amountCharged, None)]
      && o.creditCard == Some(s.nextCard)
      && r.after.cards == s.cards[s.nextCard := CardRow(job.card).value]
      && o.email == s.orders[job.orderId].email && o.shippingInfo == s.orders[job.orderId].shippingInfo
      && r.after.errors == s.errors
      && (forall j | j in s.orders && j != job.orderId :: r.after.orders[j] == s.orders[j])
  {
  }

  /** An approved charge whose card row cannot be stored (a null name, number
      or expiry): the order stays paid with the gateway's transaction, which
      now references an `invalid-fields` error, and is unlocked. */
  lemma ChargeWithUnstorableCard(s: Tables, job: Job, tx: GatewayTx, freshTx: string)
    requires Consistent(s) && job.orderId in s.orders && tx.id !in s.transactions
    requires Precondition(s.orders[job.orderId], job.card, |s.lines[job.orderId]|).None?
    requires CardRow(job.card).None?
    ensures var r := DoBackgroundTask(s, job, Approved(tx), freshTx);
      var o := r.after.orders[job.orderId];
      && r.exit == Recorded(InvalidCardError)
      && o.paid && !o.pending && o.transaction == Some(tx.id) && o.creditCard == s.orders[job.orderId].creditCard
      && r.after.transactions[tx.id] == Transaction(tx.success, tx.amountCharged, Some(s.nextError))
      && r.after.errors == s.errors[s.nextError := InvalidCardError]
  {
    var id := job.orderId;
    var charged := RecordCharge(s, id, tx);
    assert charged.errors == s.errors && charged.nextError == s.nextError;
    SetErrorAddsErrorRow(charged, id, InvalidCardError.name, InvalidCardError.code, 0, freshTx);
  }

  /** A declined charge records the gateway's error with the code and name
      columns swapped as `set_error` is called, leaves the order unpaid, and
      unlocks it. */
  lemma ChargeDeclined(s: Tables, job: Job, gwCode: string, gwName: string, freshTx: string)
    requires Resolvable(s) && FreshCounters(s) && job.orderId in s.orders
    requires Precondition(s.orders[job.orderId], job.card, |s.lines[job.orderId]|).None?
    ensures var r := DoBackgroundTask(s, job, Declined(gwCode, gwName), freshTx);
      var o := r.after.orders[job.orderId];
      && r.exit == Recorded(ErrorRow(gwName, gwCode))
      && r.after.errors[s.nextError] == ErrorRow(gwName, gwCode)
      && o.transaction.Some? && r.after.transactions[o.transaction.value].error == Some(s.nextError)
      && !o.paid && !o.pending
  {
    var id := job.orderId;
    var u := ClearOrderLock(s, id);
    SetErrorAddsErrorRow(u, id, gwCode, gwName, SubTotal(s.catalog, s.lines[id]), freshTx);
    SetErrorFrame(u, id, gwCode, gwName, SubTotal(s.catalog, s.lines[id]), freshTx);
  }

  /** A job ends without any bookkeeping exactly when its checks pass and the
      charge then raises (no answer, or a transaction id already in use); the
      ledger is then untouched and the order stays locked. Every other end
      unlocks the order. */
  lemma JobReleasesLock(s: Tables, job: Job, gateway: Gateway, freshTx: string)
    requires Resolvable(s) && job.orderId in s.orders
    ensures var r := DoBackgroundTask(s, job, gateway, freshTx);
      && (r.exit.Crashed? <==>
            Precondition(s.orders[job.orderId], job.card, |s.lines[job.orderId]|).None? &&
            (gateway.Unreachable? || (gateway.Approved? && gateway.tx.id in s.transactions)))
      && (r.exit.Crashed? ==> r.after == s)
      && !r.exit.Idle?
      && (!r.exit.Crashed? ==> job.orderId in r.after.orders && !r.after.orders[job.orderId].pending)
  {
    var id := job.orderId;
    var r := DoBackgroundTask(s, job, gateway, freshTx);
    if !r.exit.Crashed? {
      match Precondition(s.orders[id], job.card, |s.lines[id]|)
      case Some(err) =>
        SetErrorFrame(s, id, err.name, err.code, 0, freshTx);
      case None =>
        if gateway.Declined? {
          SetErrorFrame(ClearOrderLock(s, id), id, gateway.code, gateway.name, 0, freshTx);
        } else if CardRow(job.card).None? {
          SetErrorFrame(RecordCharge(s, id, gateway.tx), id, InvalidCardError.name, InvalidCardError.code, 0, freshTx);
        }
    }
  }

  /** A job that fails a check or is declined, on an order whose transaction
      already carries an error, replaces that error row: the number of error
      rows stays the same. */
  lemma FailedRetryKeepsErrorCount(s: Tables, job: Job, gateway: Gateway, freshTx: string)
    requires Resolvable(s) && FreshCounters(s) && job.orderId in s.orders
    requires s.orders[job.orderId].transaction.Some?
    requires s.transactions[s.orders[job.orderId].transaction.value].error.Some?
    requires !gateway.Approved?
    ensures var r := DoBackgroundTask(s, job, gateway, freshTx);
      r.exit.Recorded? ==> |r.after.errors| == |s.errors|
  {
    var id := job.orderId;
    var amount := SubTotal(s.catalog, s.lines[id]);
    match Precondition(s.orders[id], job.card, |s.lines[id]|)
    case Some(err) =>
      SetErrorErrorCount(s, id, err.name, err.code, amount, freshTx);
    case None =>
      if gateway.Declined? {
        SetErrorErrorCount(ClearOrderLock(s, id), id, gateway.code, gateway.name, amount, freshTx);
      }
  }

  /** An approved charge whose card cannot be stored is a failed job too, but
      its error goes on the gateway's new transaction, which has none yet: the
      old transaction keeps its error row and one more row is added. */
  lemma UnstorableCardAddsErrorRow(s: Tables, job: Job, tx: GatewayTx, freshTx: string)
    requires Resolvable(s) && FreshCounters(s) && job.orderId in s.orders && tx.id !in s.transactions
    requires Precondition(s.orders[job.orderId], job.card, |s.lines[job.orderId]|).None?
    requires CardRow(job.card).None?
    ensures var r := DoBackgroundTask(s, job, Approved(tx), freshTx);
      && r.exit == Recorded(InvalidCardError)
      && |r.after.errors| == |s.errors| + 1
      && s.errors.Keys <= r.after.errors.Keys
  {
    var id := job.orderId;
    var charged := RecordCharge(s, id, tx);
    SetErrorErrorCount(charged, id, InvalidCardError.name, InvalidCardError.code,
                       SubTotal(s.catalog, s.lines[id]), freshTx);
  }

  /** A successful charge after failed attempts replaces the order's
      transaction reference but deletes nothing: the failed transaction and
      its error row stay in the ledger, referenced by no order. */
  lemma RetrySuccessKeepsOldErrorRow(s: Tables, job: Job, tx: GatewayTx, freshTx: string)
    requires Resolvable(s) && job.orderId in s.orders && tx.id !in s.transactions
    requires Precondition(s.orders[job.orderId], job.card, |s.lines[job.orderId]|).None?
    requires CardRow(job.card).Some?
    requires s.orders[job.orderId].transaction.Some?
    ensures var prior := s.orders[job.orderId].transaction.value;
      var r := DoBackgroundTask(s, job, Approved(tx), freshTx);
      && prior in r.after.transactions && r.after.transactions[prior] == s.transactions[prior]
      && r.after.orders[job.orderId].transaction != Some(prior)
      && r.after.errors == s.errors
  {
  }

  /** Storing the gateway's transaction under an unused id keeps the ledger consistent. */
  lemma RecordChargeConsistent(s: Tables, id: nat, tx: GatewayTx)
    requires Consistent(s) && id in s.orders && tx.id !in s.transactions
    ensures Consistent(RecordCharge(s, id, tx))
  {
    var t := RecordCharge(s, id, tx);
    var o2 := s.orders[id].(transaction := Some(tx.id), paid := true);
    assert t.orders.Keys == s.orders.Keys;
    AddTransactionErrorsOwned(s.transactions, s.errors, tx.id, Transaction(tx.success, tx.amountCharged, None),
                              ErrorRow("", ""), s.errors);
    OrderUpdateRefs(s.orders, s.shipping, s.cards, s.transactions, t.shipping, t.cards, t.transactions, id, o2);
    OrderUpdateLocks(s.queue, s.orders, id, o2);
    OrderUpdateSuccessPaid(s.orders, s.transactions, t.transactions, id, o2);
    OrderUpdateCache(s.cache, s.orders, id, o2);
  }

  /** Attaching a new card row keeps the ledger consistent. */
  lemma AttachCardConsistent(s: Tables, id: nat, cc: CreditCard)
    requires Consistent(s) && id in s.orders
    ensures Consistent(AttachCard(s, id, cc))
  {
    var t := AttachCard(s, id, cc);
    var o2 := s.orders[id].(creditCard := Some(s.nextCard));
    assert t.orders.Keys == s.orders.Keys;
    OrderUpdateRefs(s.orders, s.shipping, s.cards, s.transactions, t.shipping, t.cards, t.transactions, id, o2);
    OrderUpdateLocks(s.queue, s.orders, id, o2);
    OrderUpdateSuccessPaid(s.orders, s.transactions, t.transactions, id, o2);
    OrderUpdateCache(s.cache, s.orders, id, o2);
    assert Below(t.cards.Keys, t.nextCard);
  }

  /** A job for an order no other queued job holds keeps the ledger
      consistent, whatever the gateway answers. */
  lemma DoBackgroundTaskConsistent(s: Tables, job: Job, gateway: Gateway, freshTx: string)
    requires Consistent(s) && job.orderId in s.orders && NotQueued(s.queue, job.orderId)
    requires freshTx !in s.transactions
    ensures Consistent(DoBackgroundTask(s, job, gateway, freshTx).after)
  {
    var id := job.orderId;
    var amount := SubTotal(s.catalog, s.lines[id]);
    match Precondition(s.orders[id], job.card, |s.lines[id]|)
    case Some(err) =>
      SetErrorConsistent(s, id, err.name, err.code, amount, freshTx);
    case None =>
      match gateway
      case Unreachable =>
      case Declined(gwCode, gwName) =>
        ClearOrderLockConsistent(s, id);
        SetErrorConsistent(ClearOrderLock(s, id), id, gwCode, gwName, amount, freshTx);
      case Approved(tx) =>
        if tx.id !in s.transactions {
          var charged := RecordCharge(s, id, tx);
          RecordChargeConsistent(s, id, tx);
          match CardRow(job.card)
          case None =>
            SetErrorRelinkConsistent(charged, id, InvalidCardError.name, InvalidCardError.code, amount, freshTx);
          case Some(cc) =>
            AttachCardConsistent(charged, id, cc);
            ClearOrderLockConsistent(AttachCard(charged, id, cc), id);
        }
  }

  /** The worker keeps the ledger consistent when the uuid it would give a
      new failed transaction is not in use. */
  lemma RunNextJobConsistent(s: Tables, gateway: Gateway, freshTx: string)
    requires Consistent(s) && freshTx !in s.transactions
    ensures s.queue != [] ==> s.queue[0].orderId in s.orders
    ensures Consistent(RunNextJob(s, gateway, freshTx).after)
  {
    if s.queue != [] {
      PopConsistent(s);
      DoBackgroundTaskConsistent(s.(queue := s.queue[1..]), s.queue[0], gateway, freshTx);
    }
  }
}
