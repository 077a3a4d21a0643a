/**
 * reviewController.ts: the score check and the existence checks the
 * controller makes, against the products table through ProductDAO and
 * against the reviews through ReviewDAO, before each statement. `today` is
 * the date setReviewDate gives a new review.
 */
module ReviewService {
  import opened Errors
  import opened Results
  import opened Tables
  import opened ProductStore
  import opened ReviewStore

  /** addReview (reviewController.ts:25-40): the score in [1, 5], then the
      product, then no earlier review by the user, then the insert. */
  function AddReview(
    rs: seq<Review>, ps: seq<Product>, model: string, username: string,
    score: int, comment: string, today: string
  ): (s: Step<seq<Review>, ()>)
    ensures s.result.Err? ==> s.state == rs
  {
    if score < 1 || score > 5 then Step(rs, Err(Plain("Invalid score")))
    else match GetProductByModel(ps, model)
      case Err(e) => Step(rs, Err(e))
      case Ok(_) =>
        if UserHasReview(rs, model, username) then Step(rs, Err(ExistingReview))
        else Step(ReviewStore.AddReview(rs, Review(model, username, score, today, comment)), Ok(()))
  }

  /** getProductReviews (reviewController.ts:47-55). */
  function GetProductReviews(rs: seq<Review>, ps: seq<Product>, model: string): (r: Result<seq<Review>>)
    ensures r.Err? <==> GetProductByModel(ps, model).Err?
    ensures r.Err? ==> r.error == ProductNotFound
    ensures r.Ok? ==> forall x :: x in r.value <==> x in rs && x.model == model
  {
    match GetProductByModel(ps, model)
    case Err(e) => Err(e)
    case Ok(_) => Ok(GetReviews(rs, model))
  }

  /** deleteReview (reviewController.ts:63-74): the product, then the user's
      review, then the delete. */
  function DeleteReview(rs: seq<Review>, ps: seq<Product>, model: string, username: string): (s: Step<seq<Review>, ()>)
    ensures s.result.Err? ==> s.state == rs
  {
    match GetProductByModel(ps, model)
    case Err(e) => Step(rs, Err(e))
    case Ok(_) =>
      if !UserHasReview(rs, model, username) then Step(rs, Err(NoReviewProduct))
      else Step(DeleteUserReview(rs, model, username), Ok(()))
  }

  /** deleteReviewsOfProduct (reviewController.ts:83-91). */
  function DeleteReviewsOfProduct(rs: seq<Review>, ps: seq<Product>, model: string): (s: Step<seq<Review>, ()>)
    ensures s.result.Err? <==> GetProductByModel(ps, model).Err?
    ensures s.result.Err? ==> s == Step(rs, Err(ProductNotFound))
    ensures s.result.Ok? ==> forall x :: x in s.state <==> x in rs && x.model != model
  {
    match GetProductByModel(ps, model)
    case Err(e) => Step(rs, Err(e))
    case Ok(_) => Step(DeleteModelReviews(rs, model), Ok(()))
  }

  /** addReview stores a review exactly when the score is in range, the
      product exists and the user has not reviewed it yet; the stored review
      is the one given, dated today, and the pair is then counted once. A
      score out of range is refused whatever the tables hold. */
  lemma AddReviewSpec(
    rs: seq<Review>, ps: seq<Product>, model: string, username: string,
    score: int, comment: string, today: string)
    requires OneReviewEach(rs)
    ensures var s := AddReview(rs, ps, model, username, score, comment, today);
      && ((score < 1 || score > 5) ==> s.result == Err(Plain("Invalid score")))
      && (s.result.Ok? <==>
            && 1 <= score <= 5
            && GetProductByModel(ps, model).Ok?
            && forall i | 0 <= i < |rs| :: ReviewKey(rs[i]) != (model, username))
      && (s.result.Ok? ==>
            && OneReviewEach(s.state)
            && FindBy(s.state, ReviewKey, (model, username)) == Some(Review(model, username, score, today, comment))
            && UserHasReview(s.state, model, username))
  {
    HasReviewSpec(rs, model, username);
    var r := Review(model, username, score, today, comment);
    if 1 <= score <= 5 && GetProductByModel(ps, model).Ok? && !UserHasReview(rs, model, username) {
      AppendKeepsUnique(rs, ReviewKey, r);
      FindAppend(rs, ReviewKey, r, (model, username));
      CountAppend(rs, r, (model, username));
    }
  }

  /** A second review by the same user for the same model is refused with
      ExistingReviewError and the pair is still counted once. */
  lemma SecondReviewRefused(
    rs: seq<Review>, ps: seq<Product>, model: string, username: string,
    score: int, comment: string, today: string, score2: int, comment2: string)
    requires OneReviewEach(rs) && 1 <= score2 <= 5
    requires AddReview(rs, ps, model, username, score, comment, today).result.Ok?
    ensures var t := AddReview(rs, ps, model, username, score, comment, today).state;
      && AddReview(t, ps, model, username, score2, comment2, today) == Step(t, Err(ExistingReview))
      && UserHasReview(t, model, username)
  {
    AddReviewSpec(rs, ps, model, username, score, comment, today);
  }

  /** deleteReview succeeds exactly when the product exists and the user has
      reviewed it; it then removes that review only. */
  lemma DeleteReviewSpec(rs: seq<Review>, ps: seq<Product>, model: string, username: string, k: (string, string))
    requires OneReviewEach(rs)
    ensures var s := DeleteReview(rs, ps, model, username);
      && (s.result.Ok? <==>
            && GetProductByModel(ps, model).Ok?
            && exists i | 0 <= i < |rs| :: ReviewKey(rs[i]) == (model, username))
      && (GetProductByModel(ps, model).Ok? && s.result.Err? ==> s.result.error == NoReviewProduct)
      && (s.result.Ok? ==>
            && OneReviewEach(s.state)
            && !UserHasReview(s.state, model, username)
            && (k != (model, username) ==> Count(s.state, k) == Count(rs, k)))
  {
    HasReviewSpec(rs, model, username);
    RemoveKeepsUnique(rs, ReviewKey, (model, username));
    DeleteUserReviewCount(rs, model, username, (model, username));
    DeleteUserReviewCount(rs, model, username, k);
  }

  /** Deleting the reviews of a product keeps one review per pair. */
  lemma DeleteReviewsOfProductKeepsOne(rs: seq<Review>, ps: seq<Product>, model: string)
    requires OneReviewEach(rs)
    ensures OneReviewEach(DeleteReviewsOfProduct(rs, ps, model).state)
  {
    FilterKeepsUnique(rs, OtherModel(model), ReviewKey);
  }
}

/** The class ReviewController of reviewController.ts. */
module ReviewController {
  import opened Errors
  import opened Results
  import opened ProductStore
  import opened ReviewStore
  import opened UserStore
  import ReviewService
  import ProductDAO
  import ReviewDAO

  /** Each method makes the controller's checks and calls its DAOs, and is
      tied to the ReviewService function that describes it. The products
      table is only read. */
  class ReviewController {
    const dao: ReviewDAO.ReviewDAO
    const productDAO: ProductDAO.ProductDAO

    constructor(dao: ReviewDAO.ReviewDAO, productDAO: ProductDAO.ProductDAO)
      ensures this.dao == dao && this.productDAO == productDAO
    {
      this.dao := dao;
      this.productDAO := productDAO;
    }

    method AddReview(model: string, user: User, score: int, comment: string, today: string) returns (r: Result<()>)
      modifies dao
      ensures Step(dao.reviews, r)
           == ReviewService.AddReview(old(dao.reviews), productDAO.products, model, user.username, score, comment, today)
    {
      if score < 1 || score > 5 {
        return Err(Plain("Invalid score"));
      }
      var product := GetProductByModel(productDAO.products, model);
      if product.Err? {
        return Err(product.error);
      }
      var has := dao.UserHasReview(model, user.username);
      if has.value {
        return Err(ExistingReview);
      }
      var _ := dao.AddReview(Review(model, user.username, score, today, comment));
      r := Ok(());
    }

    method GetProductReviews(model: string) returns (r: Result<seq<Review>>)
      ensures r == ReviewService.GetProductReviews(dao.reviews, productDAO.products, model)
    {
      var product := GetProductByModel(productDAO.products, model);
      if product.Err? {
        return Err(product.error);
      }
      r := dao.GetReviews(model);
    }

    method DeleteReview(model: string, user: User) returns (r: Result<()>)
      modifies dao
      ensures Step(dao.reviews, r) == ReviewService.DeleteReview(old(dao.reviews), productDAO.products, model, user.username)
    {
      var product := GetProductByModel(productDAO.products, model);
      if product.Err? {
        return Err(product.error);
      }
      var has := dao.UserHasReview(model, user.username);
      if !has.value {
        return Err(NoReviewProduct);
      }
      var _ := dao.DeleteUserReview(model, user.username);
      r := Ok(());
    }

    method DeleteReviewsOfProduct(model: string) returns (r: Result<()>)
      modifies dao
      ensures Step(dao.reviews, r) == ReviewService.DeleteReviewsOfProduct(old(dao.reviews), productDAO.products, model)
    {
      var product := GetProductByModel(productDAO.products, model);
      if product.Err? {
        return Err(product.error);
      }
      var _ := dao.DeleteModelReviews(model);
      r := Ok(());
    }

    /** deleteAllReviews (reviewController.ts:97-104). */
    method DeleteAllReviews() returns (r: Result<()>)
      modifies dao
      ensures dao.reviews == [] && r == Ok(())
    {
      var _ := dao.DeleteAllReviews();
      r := Ok(());
    }
  }
}
