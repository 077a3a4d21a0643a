/**
 * From an error to the HTTP response the server sends: the four per-family
 * handlers (`handleCartError`, `handleUserError`, `handleReviewError`,
 * `handleProductError`) and the generic `handleError` dispatch with its 503
 * fallback.
 */
module ErrorHandler {
  import opened Errors
  import opened Results

  /** `res.status(status).json(body)`. */
  datatype Response = Response(status: int, body: string)

  /** The branch of `handleError` that handles an error. */
  datatype Handler = CartHandler | UserHandler | ReviewHandler | ProductHandler | Fallback

  /** The response every per-family handler sends once its predicate holds. */
  function Respond(e: Error): Response
    requires IsDomainError(e)
  {
    Response(CustomCode(e), CustomMessage(e))
  }

  /** `handleCartError`: responds only to a cart error, with its own code and message. */
  function HandleCartError(e: Error): (r: Option<Response>)
    ensures r.Some? <==> IsCartError(e)
    ensures r.Some? ==> r.value.status == CustomCode(e) && r.value.body == CustomMessage(e)
  {
    if IsCartError(e) then Some(Respond(e)) else None
  }

  /** `handleProductError`: responds only to a product error, with its own code and message. */
  function HandleProductError(e: Error): (r: Option<Response>)
    ensures r.Some? <==> IsProductError(e)
    ensures r.Some? ==> r.value.status == CustomCode(e) && r.value.body == CustomMessage(e)
  {
    if IsProductError(e) then Some(Respond(e)) else None
  }

  /** `handleUserError`: responds only to a user error, with its own code and message. */
  function HandleUserError(e: Error): (r: Option<Response>)
    ensures r.Some? <==> IsUserError(e)
    ensures r.Some? ==> r.value.status == CustomCode(e) && r.value.body == CustomMessage(e)
  {
    if IsUserError(e) then Some(Respond(e)) else None
  }

  /** `handleReviewError`: responds only to a review error, with its own code and message. */
  function HandleReviewError(e: Error): (r: Option<Response>)
    ensures r.Some? <==> IsReviewError(e)
    ensures r.Some? ==> r.value.status == CustomCode(e) && r.value.body == CustomMessage(e)
  {
    if IsReviewError(e) then Some(Respond(e)) else None
  }

  /** The if/else chain of `handleError`: cart, then user, then review, then
      product, else the fallback. Because the families are disjoint, the branch
      taken is the error's own family, and exactly one branch is taken. */
  function Dispatch(e: Error): (h: Handler)
    ensures h == CartHandler <==> IsCartError(e)
    ensures h == UserHandler <==> IsUserError(e)
    ensures h == ReviewHandler <==> IsReviewError(e)
    ensures h == ProductHandler <==> IsProductError(e)
    ensures h == Fallback <==> e.Plain?
  {
    if IsCartError(e) then CartHandler
    else if IsUserError(e) then UserHandler
    else if IsReviewError(e) then ReviewHandler
    else if IsProductError(e) then ProductHandler
    else Fallback
  }

  /** `handleError`: a domain error is answered with its own customCode and
      customMessage; any other error with 503 and its message. */
  function HandleError(e: Error): (r: Response)
    ensures IsDomainError(e) ==> r.status == CustomCode(e) && r.body == CustomMessage(e)
    ensures !IsDomainError(e) ==> r == Response(503, e.message)
    ensures r.status == 503 <==> e.Plain?
  {
    match Dispatch(e)
    case CartHandler => HandleCartError(e).value
    case UserHandler => HandleUserError(e).value
    case ReviewHandler => HandleReviewError(e).value
    case ProductHandler => HandleProductError(e).value
    case Fallback => Response(503, Message(e))
  }
}
