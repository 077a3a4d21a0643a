/**
 * reviewDAO.ts: the productreview table and the statements ReviewDAO runs
 * on it. The table declares no key of its own; a review is identified by
 * its (model, user) pair, which reviewController keeps unique.
 */
module ReviewStore {
  import opened Results
  import opened Tables

  /** A row of productreview: `INSERT INTO productreview VALUES(?,?,?,?,?)`. */
  datatype Review = Review(model: string, user: string, score: int, date: string, comment: string)

  /** The pair `WHERE model=? AND user=?` selects on. */
  function ReviewKey(r: Review): (string, string) { (r.model, r.user) }

  /** `WHERE model=?` */
  function OfModel(model: string): Review -> bool { (r: Review) => r.model == model }

  /** The rows `DELETE ... WHERE model=?` keeps. */
  function OtherModel(model: string): Review -> bool { (r: Review) => r.model != model }

  /** At most one review per (model, user). */
  ghost predicate OneReviewEach(rs: seq<Review>) {
    UniqueBy(rs, ReviewKey)
  }

  /** `SELECT COUNT(*) FROM productreview WHERE model=? AND user=?` */
  function Count(rs: seq<Review>, k: (string, string)): (n: nat)
    ensures n == 0 <==> FindBy(rs, ReviewKey, k).None?
    ensures n <= |rs|
  {
    if |rs| == 0 then 0
    else Count(rs[..|rs| - 1], k) + (if ReviewKey(rs[|rs| - 1]) == k then 1 else 0)
  }

  /** userHasReview (reviewDAO.ts:28-43): the count is exactly 1. */
  predicate UserHasReview(rs: seq<Review>, model: string, username: string)
    ensures UserHasReview(rs, model, username) ==> exists i | 0 <= i < |rs| :: ReviewKey(rs[i]) == (model, username)
  {
    Count(rs, (model, username)) == 1
  }

  /** addReview (reviewDAO.ts:12-26): the insert, which no constraint refuses. */
  function AddReview(rs: seq<Review>, r: Review): (t: seq<Review>)
    ensures |t| == |rs| + 1 && t[..|rs|] == rs && t[|rs|] == r
  {
    rs + [r]
  }

  /** getReviews (reviewDAO.ts:45-62). */
  function GetReviews(rs: seq<Review>, model: string): (r: seq<Review>)
    ensures forall x :: x in r <==> x in rs && x.model == model
  {
    Filter(rs, OfModel(model))
  }

  /** deleteUserReview (reviewDAO.ts:64-80). */
  function DeleteUserReview(rs: seq<Review>, model: string, username: string): (t: seq<Review>)
    ensures forall x :: x in t <==> x in rs && (x.model, x.user) != (model, username)
  {
    RemoveBy(rs, ReviewKey, (model, username))
  }

  /** deleteModelReviews (reviewDAO.ts:82-99). */
  function DeleteModelReviews(rs: seq<Review>, model: string): (t: seq<Review>)
    ensures forall x :: x in t <==> x in rs && x.model != model
  {
    Filter(rs, OtherModel(model))
  }

  /** With one review per pair, the count never exceeds 1. */
  lemma {:induction false} CountAtMostOne(rs: seq<Review>, k: (string, string))
    requires OneReviewEach(rs)
    ensures Count(rs, k) <= 1
  {
    if |rs| > 0 {
      var init := rs[..|rs| - 1];
      UniqueInit(rs, ReviewKey);
      CountAtMostOne(init, k);
      if ReviewKey(rs[|rs| - 1]) == k {
        forall i | 0 <= i < |init| ensures ReviewKey(init[i]) != k {
          assert init[i] == rs[i];
        }
      }
    }
  }

  /** With one review per pair, userHasReview holds exactly when the user
      has reviewed the model. */
  lemma HasReviewSpec(rs: seq<Review>, model: string, username: string)
    requires OneReviewEach(rs)
    ensures UserHasReview(rs, model, username) <==> exists i | 0 <= i < |rs| :: ReviewKey(rs[i]) == (model, username)
  {
    CountAtMostOne(rs, (model, username));
  }

  /** Count on a table with one more row. */
  lemma CountAppend(rs: seq<Review>, r: Review, k: (string, string))
    ensures Count(rs + [r], k) == Count(rs, k) + (if ReviewKey(r) == k then 1 else 0)
  {
    assert (rs + [r])[..|rs|] == rs;
  }

  /** deleteUserReview leaves no review for the pair and keeps every other
      pair's count. */
  lemma {:induction false} DeleteUserReviewCount(rs: seq<Review>, model: string, username: string, k: (string, string))
    ensures Count(DeleteUserReview(rs, model, username), k) == if k == (model, username) then 0 else Count(rs, k)
  {
    if |rs| > 0 {
      var init := rs[..|rs| - 1];
      var last := rs[|rs| - 1];
      DeleteUserReviewCount(init, model, username, k);
      if ReviewKey(last) != (model, username) {
        CountAppend(DeleteUserReview(init, model, username), last, k);
      } else {
        assert DeleteUserReview(rs, model, username) == DeleteUserReview(init, model, username);
      }
    }
  }
}

/** The class ReviewDAO of reviewDAO.ts, owning the productreview table. */
module ReviewDAO {
  import opened Results
  import opened Tables
  import opened ReviewStore

  /** Every method performs its statement on `reviews` and is tied to the
      ReviewStore function that describes it. */
  class ReviewDAO {
    var reviews: seq<Review>

    constructor()
      ensures reviews == []
    {
      reviews := [];
    }

    method AddReview(r: Review) returns (ok: Result<bool>)
      modifies this
      ensures reviews == ReviewStore.AddReview(old(reviews), r) && ok == Ok(true)
    {
      reviews := reviews + [r];
      ok := Ok(true);
    }

    /** userHasReview: counts the rows of the pair. */
    method UserHasReview(model: string, username: string) returns (has: Result<bool>)
      ensures has == Ok(ReviewStore.UserHasReview(reviews, model, username))
    {
      var n := 0;
      var i := 0;
      while i < |reviews|
        invariant 0 <= i <= |reviews|
        invariant n == Count(reviews[..i], (model, username))
      {
        assert reviews[..i + 1][..i] == reviews[..i];
        if reviews[i].model == model && reviews[i].user == username {
          n := n + 1;
        }
        i := i + 1;
      }
      assert reviews[..|reviews|] == reviews;
      has := Ok(n == 1);
    }

    method GetReviews(model: string) returns (r: Result<seq<Review>>)
      ensures r == Ok(ReviewStore.GetReviews(reviews, model))
    {
      r := Ok(Filter(reviews, OfModel(model)));
    }

    method DeleteUserReview(model: string, username: string) returns (ok: Result<bool>)
      modifies this
      ensures reviews == ReviewStore.DeleteUserReview(old(reviews), model, username) && ok == Ok(true)
    {
      reviews := RemoveBy(reviews, ReviewKey, (model, username));
      ok := Ok(true);
    }

    method DeleteModelReviews(model: string) returns (ok: Result<bool>)
      modifies this
      ensures reviews == ReviewStore.DeleteModelReviews(old(reviews), model) && ok == Ok(true)
    {
      reviews := Filter(reviews, OtherModel(model));
      ok := Ok(true);
    }

    method DeleteAllReviews() returns (ok: Result<bool>)
      modifies this
      ensures reviews == [] && ok == Ok(true)
    {
      reviews := [];
      ok := Ok(true);
    }
  }
}
