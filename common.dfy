/** Shared vocabulary of the shop: identifiers, optional values and the
    error results every controller can return (an HTTP status with a reason). */
module Common {

  /** Database identifiers. ObjectIds of products, users, orders and cart lines
      are modelled as natural numbers. */
  type ProductId = nat
  type UserId = nat
  type ObjectId = nat

  datatype Option<T> = None | Some(value: T) {
    function GetOr(default: T): T {
      match this
      case Some(v) => v
      case None => default
    }
  }

  /** Why a request handler gave up; each reason maps to the HTTP status the
      controller sends with it. */
  datatype Failure =
    | MissingProductId          // 400 "Product ID is required"
    | InvalidQuantity           // 400 "Quantity must be at least 1" / "Valid quantity is required"
    | ProductNotFound           // 404
    | ProductUnavailable        // 400 "Product is not available"
    | InsufficientStock         // 400 "Only N items available in stock" / "Insufficient stock"
    | CartNotFound              // 404
    | ItemNotFound              // 404 "Item not found in cart"
    | EmptyOrder                // 400 "No order items provided"
    | MissingShippingOrPayment  // 400
    | SchemaValidation          // the document failed the Mongoose schema on create
    | OrderNotFound             // 404
    | NotAuthorized             // 401
    | NotCancellable            // 400 "Order cannot be cancelled at this stage"
    | InvalidStatus             // 400 "Invalid status"
    | InvalidReview             // 400, rejected by the review validator
    | AlreadyReviewed           // 400 "Product already reviewed"

  datatype Result<T> = Ok(value: T) | Err(failure: Failure)

  /** Multiplying by a positive number keeps the order. */
  lemma MulLeq(n: int, a: int, b: int)
    requires n > 0 && a <= b
    ensures n * a <= n * b
  {
    assert n * b - n * a == n * (b - a);
  }

  /** The user a request is made for, as the authentication layer resolved it. */
  datatype Actor = Actor(id: UserId, name: string, isAdmin: bool)
}
