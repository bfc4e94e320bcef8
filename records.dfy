/** The records of the order ledger (one table per entity), the request
    payloads the order endpoints accept, the order view they answer with,
    and the whole ledger as one value. */
module Records {

  datatype Option<+T> = None | Some(value: T)

  /** What a client sent under one key of a JSON object: no such key,
      an explicit null, or a value. */
  datatype Field<+T> = Missing | Null | Given(value: T)

  /** An error answer of the HTTP layer: its machine-readable code and status. */
  datatype ApiError = ApiError(code: string, status: int)

  datatype Result<+T> = Ok(value: T) | Err(error: ApiError)

  const ProductDoesNotExist := ApiError("product-does-not-exist", 404)
  const OutOfInventory := ApiError("out-of-inventory", 422)
  const InvalidQuantity := ApiError("invalid-quantity", 422)
  const MissingFields := ApiError("missing-fields", 422)
  const InvalidFields := ApiError("invalid-fields", 422)
  const JsonNotValid := ApiError("json-not-valid", 422)
  const OrderDoesNotExist := ApiError("order-does-not-exist", 404)
  const OrderNotFound := ApiError("order-not-found", 404)
  const OrderPending := ApiError("order-pending", 409)

  // ---------------------------------------------------------------------
  // Rows. Every table is a map from the row's id to the other columns.

  /** A catalog product; money is in whole units. */
  datatype Product = Product(name: string, kind: string, description: string, image: string,
                             height: int, weight: int, price: int, inStock: bool)

  /** One OrderProduct row of an order (the order is the key of the lines table). */
  datatype OrderLine = OrderLine(product: int, quantity: int)

  datatype ShippingInfo = ShippingInfo(country: string, address: string, postalCode: string,
                                       city: string, province: string)

  /** The stored card: never the whole number, never the cvv. */
  datatype CreditCard = CreditCard(name: string, firstDigits: string, lastDigits: string,
                                   expirationMonth: int, expirationYear: int)

  datatype Transaction = Transaction(success: bool, amountCharged: int, error: Option<nat>)

  datatype ErrorRow = ErrorRow(code: string, name: string)

  datatype Order = Order(shippingInfo: Option<nat>, email: Option<string>, paid: bool,
                         creditCard: Option<nat>, transaction: Option<string>, pending: bool)

  /** The row a new order starts as: every reference empty, neither paid nor pending. */
  const NewOrder := Order(None, None, false, None, None, false)

  // ---------------------------------------------------------------------
  // Request payloads.

  /** One requested product; `None` stands for an absent key or a null. */
  datatype Item = Item(id: Option<int>, quantity: Option<int>)

  /** The two shapes of an order-creation body: {"product": {...}} and
      {"products": [...]}; the last case is a "products" value that is not a list. */
  datatype OrderPayload = SingleProduct(item: Item) | ManyProducts(items: seq<Item>) | ManyNotAList

  datatype ShippingFields = ShippingFields(address: Field<string>, city: Field<string>,
                                           province: Field<string>, postalCode: Field<string>,
                                           country: Field<string>)

  /** The body under "order" of a PUT: `None` for an absent "shipping_information" key. */
  datatype ShippingUpdate = ShippingUpdate(shippingInformation: Option<ShippingFields>,
                                           email: Field<string>)

  datatype CardPayload = CardPayload(name: Field<string>, number: Field<string>,
                                     expirationYear: Field<int>, cvv: Field<string>,
                                     expirationMonth: Field<int>)

  /** A PUT body: the "order" and "credit_card" keys, either of which may be absent. */
  datatype PutPayload = PutPayload(order: Option<ShippingUpdate>, creditCard: Option<CardPayload>)

  /** A queued payment job: the order and the card data it was submitted with. */
  datatype Job = Job(orderId: nat, card: CardPayload)

  // ---------------------------------------------------------------------
  // The order view. It has no `pending` member.

  datatype ProductRef = ProductRef(id: int, quantity: int)

  /** The transaction part of a view: `{}` when there is none; otherwise its
      columns, where the id is shown only when no error is attached. */
  datatype TransactionView =
    | NoTransaction
    | TransactionView(id: Option<string>, success: bool, amountCharged: int, error: Option<ErrorRow>)

  datatype OrderView = OrderView(id: nat, email: Option<string>, paid: bool,
                                 products: seq<ProductRef>, totalPrice: int, shippingPrice: int,
                                 shippingInfo: Option<ShippingInfo>, creditCard: Option<CreditCard>,
                                 transaction: TransactionView)

  /** What an endpoint answers: a redirect to a new order, an order view,
      "202 Accepted", an error, or an uncaught exception (a 500). */
  datatype Reply = Created(orderId: nat) | View(view: OrderView) | Accepted | Failed(error: ApiError) | Unhandled

  // ---------------------------------------------------------------------
  // The ledger.

  /** Every table, the view cache (order id to view), the job queue, and the
      next value of each auto-increment id. The catalog is read-only here. */
  datatype Tables = Tables(
    catalog: map<int, Product>,
    orders: map<nat, Order>,
    lines: map<nat, seq<OrderLine>>,
    shipping: map<nat, ShippingInfo>,
    cards: map<nat, CreditCard>,
    transactions: map<string, Transaction>,
    errors: map<nat, ErrorRow>,
    cache: map<nat, OrderView>,
    queue: seq<Job>,
    nextOrder: nat, nextShipping: nat, nextCard: nat, nextError: nat)

  /** The ledger state after an endpoint call, and the endpoint's answer. */
  datatype Step = Step(after: Tables, reply: Reply)

  /** The empty ledger over a catalog. */
  function EmptyTables(catalog: map<int, Product>): Tables {
    Tables(catalog, map[], map[], map[], map[], map[], map[], map[], [], 1, 1, 1, 1)
  }
}
