/**
 * What a handler sends back and what it asks the outside world to do.
 * Every handler is a pure step from a store and a request to a `Step`.
 */
module Api {
  import opened Wrappers
  import opened Records

  datatype Status = Ok | BadRequest | Unauthorized | Forbidden | Conflict {
    /** The HTTP status code Express sends. */
    function Code(): int {
      match this
      case Ok => 200
      case BadRequest => 400
      case Unauthorized => 401
      case Forbidden => 403
      case Conflict => 409
    }
  }

  /** A joined report row: the order with plant fields flattened in. */
  datatype Row =
    | CustomerRow(order: Order, name: string, category: string, image: string)
    | SellerRow(order: Order, name: string)

  /** One chart bucket of /admin-stat. */
  datatype Bucket = Bucket(date: Day, totalOrders: nat, totalRevenue: int, totalQuantity: int)

  /** The single `$group` document over all orders. */
  datatype Totals = Totals(totalRevenue: int, totalOrders: nat)

  /** The /admin-stat payload; `totals` is absent when there are no orders. */
  datatype Summary = Summary(totalUsers: nat, totalPlants: nat, totals: Option<Totals>, chartData: seq<Bucket>)

  datatype Body =
    | Message(text: string)
    | UserRecord(user: User)
    | UserInserted
    | OrderInserted(id: ObjectId)
    | UpdateResult(matched: nat)
    | DeleteResult(deleted: nat)
    | UserList(users: seq<User>)
    | OrderRows(rows: seq<Row>)
    | Stats(summary: Summary)
    /** The client secret of the payment intent created for `amount` cents. */
    | ClientSecret(amount: int)

  /** `NoResponse` is a handler that returns without answering. */
  datatype Response = Reply(status: Status, body: Body) | NoResponse

  datatype MailBody = OrderConfirmation(orderId: ObjectId) | NewOrderAlert(customerName: string)

  /** Calls to outside services: a mail to send, or a payment intent to create. */
  datatype Effect =
    | Mail(to: Email, subject: string, message: MailBody)
    | Charge(amount: int, currency: string)

  datatype Step = Step(response: Response, next: Store, effects: seq<Effect>)

  const UNAUTHORIZED_TEXT := "unauthorized access"
  const FORBIDDEN_TEXT := "Forbidden access! Only Admin can action"
  const ALREADY_REQUESTED_TEXT := "You have already requested for become a seller. Wait some times 👍"
  const PLANT_NOT_FOUND_TEXT := "Plant Not Found"
  const DELIVERED_TEXT := "Cannot cancel once the product is Delivered!"
  const ORDER_PLACED := "Order Placed"
}
