/**
 * The error taxonomy of the server: the error classes of cartError.ts,
 * productError.ts, userError.ts and reviewError.ts, each with the constant
 * customCode and customMessage its constructor assigns, and the four
 * `isXError` predicates.
 */
module Errors {

  /** Every error a model operation can reject with. One constructor per error
      class of the four error files; `Plain` is a bare `new Error(message)`,
      which has no customCode. */
  datatype Error =
    // cartError.ts
    | CartNotFound
    | ProductInCart
    | ProductNotInCart
    | WrongUserCart
    | EmptyCart
    | CartAlreadyExists
    | NegativeQuantity
    // productError.ts
    | ProductNotFound
    | ProductAlreadyExists
    | ProductSold
    | EmptyProductStock
    | LowProductStock
    | InvalidQuantity
    | ArrivalDateIsInTheFuture
    | ChangeDateIsBeforeArrivalDate
    // userError.ts
    | UserNotFound
    | UserNotManager
    | UserNotCustomer
    | UserAlreadyExists
    | UserNotAdmin
    | UserIsAdmin
    | UnauthorizedUser
    | CannotDeleteOtherAdmin
    | CannotEditOtherAdmin
    | FutureBirthdate
    // reviewError.ts
    | ExistingReview
    | NoReviewProduct
    // `new Error(message)`
    | Plain(message: string)

  /** `isCartError`: an instance of one of the seven cart error classes. */
  predicate IsCartError(e: Error)
    ensures IsCartError(e) ==> !e.Plain?
  {
    || e.CartNotFound?
    || e.ProductInCart?
    || e.ProductNotInCart?
    || e.WrongUserCart?
    || e.EmptyCart?
    || e.CartAlreadyExists?
    || e.NegativeQuantity?
  }

  /** `isProductError`: an instance of one of the eight product error classes. */
  predicate IsProductError(e: Error)
    ensures IsProductError(e) ==> !e.Plain?
  {
    || e.ProductNotFound?
    || e.ProductAlreadyExists?
    || e.ProductSold?
    || e.EmptyProductStock?
    || e.LowProductStock?
    || e.InvalidQuantity?
    || e.ArrivalDateIsInTheFuture?
    || e.ChangeDateIsBeforeArrivalDate?
  }

  /** `isUserError`: an instance of one of the ten user error classes. */
  predicate IsUserError(e: Error)
    ensures IsUserError(e) ==> !e.Plain?
  {
    || e.UserNotFound?
    || e.UserNotManager?
    || e.UserNotCustomer?
    || e.UserAlreadyExists?
    || e.UserNotAdmin?
    || e.UserIsAdmin?
    || e.UnauthorizedUser?
    || e.CannotDeleteOtherAdmin?
    || e.CannotEditOtherAdmin?
    || e.FutureBirthdate?
  }

  /** `isReviewError`: an instance of one of the two review error classes. */
  predicate IsReviewError(e: Error)
    ensures IsReviewError(e) ==> !e.Plain?
  {
    e.ExistingReview? || e.NoReviewProduct?
  }

  /** An error that carries a customCode and a customMessage. */
  predicate IsDomainError(e: Error) {
    IsCartError(e) || IsProductError(e) || IsUserError(e) || IsReviewError(e)
  }

  /** The customCode the error's constructor assigns. Every one is an HTTP
      client-error status (4xx), and only the five statuses below occur. */
  function CustomCode(e: Error): (code: int)
    requires IsDomainError(e)
    ensures 400 <= code < 500
    ensures code in {400, 401, 403, 404, 409}
  {
    match e
    case CartNotFound => 404
    case ProductInCart => 409
    case ProductNotInCart => 404
    case WrongUserCart => 403
    case EmptyCart => 400
    case CartAlreadyExists => 400
    case NegativeQuantity => 409
    case ProductNotFound => 404
    case ProductAlreadyExists => 409
    case ProductSold => 409
    case EmptyProductStock => 409
    case LowProductStock => 409
    case InvalidQuantity => 400
    case ArrivalDateIsInTheFuture => 400
    case ChangeDateIsBeforeArrivalDate => 400
    case UserNotFound => 404
    case UserNotManager => 401
    case UserNotCustomer => 401
    case UserAlreadyExists => 409
    case UserNotAdmin => 401
    case UserIsAdmin => 401
    case UnauthorizedUser => 401
    case CannotDeleteOtherAdmin => 401
    case CannotEditOtherAdmin => 401
    case FutureBirthdate => 400
    case ExistingReview => 409
    case NoReviewProduct => 404
  }

  /** The customMessage the error's constructor assigns. */
  function CustomMessage(e: Error): string
    requires IsDomainError(e)
  {
    match e
    case CartNotFound => "Cart not found"
    case ProductInCart => "Product already in cart"
    case ProductNotInCart => "Product not in cart"
    case WrongUserCart => "Cart belongs to another user"
    case EmptyCart => "Cart is empty"
    case CartAlreadyExists => "The user already has a cart"
    case NegativeQuantity => "There is not enough availability for a product"
    case ProductNotFound => "Product not found"
    case ProductAlreadyExists => "The product already exists"
    case ProductSold => "Product already sold"
    case EmptyProductStock => "Product stock is empty"
    case LowProductStock => "Product stock cannot satisfy the requested quantity"
    case InvalidQuantity => "Quantity cannot be negative"
    case ArrivalDateIsInTheFuture => "Arrival date cannot be after the current date"
    case ChangeDateIsBeforeArrivalDate => "Change date cannot be before the arrival date"
    case UserNotFound => "The user does not exist"
    case UserNotManager => "This operation can be performed only by a manager"
    case UserNotCustomer => "This operation can be performed only by a customer"
    case UserAlreadyExists => "The username already exists"
    case UserNotAdmin => "This operation can be performed only by an admin"
    case UserIsAdmin => "Admins cannot be deleted"
    case UnauthorizedUser => "You cannot access the information of other users"
    case CannotDeleteOtherAdmin => "An admin cannot delete another admin"
    case CannotEditOtherAdmin => "An admin cannot edit another admin"
    case FutureBirthdate => "Birthdate is in the future"
    case ExistingReview => "You have already reviewed this product"
    case NoReviewProduct => "You have not reviewed this product"
  }

  /** `err.message`: the domain error classes call `super()` with no argument,
      so their message is empty; a plain error carries its own. */
  function Message(e: Error): string {
    if e.Plain? then e.message else ""
  }

  /** The customCode of every cart error class. */
  lemma CartErrorCodes()
    ensures CustomCode(CartNotFound) == 404
    ensures CustomCode(ProductInCart) == 409
    ensures CustomCode(ProductNotInCart) == 404
    ensures CustomCode(WrongUserCart) == 403
    ensures CustomCode(EmptyCart) == 400
    ensures CustomCode(CartAlreadyExists) == 400
    ensures CustomCode(NegativeQuantity) == 409
  {
  }

  /** The customCode of every product error class. */
  lemma ProductErrorCodes()
    ensures CustomCode(ProductNotFound) == 404
    ensures CustomCode(ProductAlreadyExists) == 409
    ensures CustomCode(ProductSold) == 409
    ensures CustomCode(EmptyProductStock) == 409
    ensures CustomCode(LowProductStock) == 409
    ensures CustomCode(InvalidQuantity) == 400
    ensures CustomCode(ArrivalDateIsInTheFuture) == 400
    ensures CustomCode(ChangeDateIsBeforeArrivalDate) == 400
  {
  }

  /** The customCode of every user error class. */
  lemma UserErrorCodes()
    ensures CustomCode(UserNotFound) == 404
    ensures CustomCode(UserAlreadyExists) == 409
    ensures CustomCode(UserNotManager) == 401
    ensures CustomCode(UserNotCustomer) == 401
    ensures CustomCode(UserNotAdmin) == 401
    ensures CustomCode(UserIsAdmin) == 401
    ensures CustomCode(UnauthorizedUser) == 401
    ensures CustomCode(CannotDeleteOtherAdmin) == 401
    ensures CustomCode(CannotEditOtherAdmin) == 401
    ensures CustomCode(FutureBirthdate) == 400
  {
  }

  /** The customCode of both review error classes. */
  lemma ReviewErrorCodes()
    ensures CustomCode(ExistingReview) == 409
    ensures CustomCode(NoReviewProduct) == 404
  {
  }

  /** No error class belongs to two families, and a plain error to none. */
  lemma FamiliesDisjoint(e: Error)
    ensures !(IsCartError(e) && IsProductError(e))
    ensures !(IsCartError(e) && IsUserError(e))
    ensures !(IsCartError(e) && IsReviewError(e))
    ensures !(IsProductError(e) && IsUserError(e))
    ensures !(IsProductError(e) && IsReviewError(e))
    ensures !(IsUserError(e) && IsReviewError(e))
    ensures e.Plain? <==> !IsDomainError(e)
  {
  }
}
