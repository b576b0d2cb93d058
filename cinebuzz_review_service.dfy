/** CineBuzz's `ReviewService.AddReviewAsync`: four checks, in order (movie
    id, null review or content, score, movie existence), each failing with
    its own message; a review that passes them is dated, attached to the
    movie and stored. The clock is the parameter `now`. */
module CineBuzzReviewService {
  import opened Wrappers
  import opened Tables
  import opened CineBuzzModels

  /** Why `AddReviewAsync` threw: one of the checks rejected the request
      (an `ArgumentException` with this message), or the save failed. */
  datatype AddReviewError = Rejected(message: string) | SaveFailed(StoreError)

  /** The message of the first check the request fails, or None when it
      passes all four. */
  function ReviewRejection(movies: seq<Movie>, movieId: int, review: Option<Review>): (r: Option<string>)
    ensures r == Some("Invalid movie ID.") <==> movieId < 0
    ensures r == Some("Review cannot be null.") <==>
      movieId >= 0 && (review.None? || review.value.content.None?)
    ensures r == Some("Invalid review score.") <==>
      && movieId >= 0 && review.Some? && review.value.content.Some?
      && (review.value.reviewScore < 1 || review.value.reviewScore > 5)
    ensures r == Some("Movie not found.") <==>
      && movieId >= 0 && review.Some? && review.value.content.Some?
      && 1 <= review.value.reviewScore <= 5
      && KeyAbsent(movies, MovieKey, movieId)
    ensures r.None? <==>
      && movieId >= 0 && review.Some? && review.value.content.Some?
      && 1 <= review.value.reviewScore <= 5
      && !KeyAbsent(movies, MovieKey, movieId)
  {
    if movieId < 0 then Some("Invalid movie ID.")
    else if review.None? || review.value.content.None? then Some("Review cannot be null.")
    else if review.value.reviewScore < 1 || review.value.reviewScore > 5 then Some("Invalid review score.")
    else if Find(movies, MovieKey, movieId).None? then Some("Movie not found.")
    else None
  }

  /** Movie id 0 passes the id check, and empty content passes the null
      check: only a negative id and a missing content are refused there. */
  lemma BoundaryInputsPassEarlyChecks(movies: seq<Movie>, review: Review)
    requires review.content == Some("")
    ensures ReviewRejection(movies, 0, Some(review)) != Some("Invalid movie ID.")
    ensures ReviewRejection(movies, 0, Some(review)) != Some("Review cannot be null.")
  {
  }

  class ReviewService {
    const db: CineBuzzDbContext

    constructor (context: CineBuzzDbContext)
      ensures db == context
    {
      db := context;
    }

    /** Validates and stores `review` for movie `movieId` at time `now`.
        A rejected request stores nothing; an accepted one is stored once,
        with its MovieId set to `movieId` and its ReviewDate to `now`, under
        its own id (or a generated one when that is 0). */
    method AddReviewAsync(movieId: int, review: Option<Review>, now: int) returns (r: Result<Review, AddReviewError>)
      requires db.Valid()
      modifies db`reviews
      ensures db.Valid()
      ensures db.movies == old(db.movies)
      ensures ReviewRejection(db.movies, movieId, review).Some? ==>
        && r == Failure(Rejected(ReviewRejection(db.movies, movieId, review).value))
        && db.reviews == old(db.reviews)
      ensures ReviewRejection(db.movies, movieId, review).None? &&
              ChooseKey(old(db.reviews), ReviewKey, review.value.reviewId).None? ==>
        r == Failure(SaveFailed(DuplicateKey)) && db.reviews == old(db.reviews)
      ensures ReviewRejection(db.movies, movieId, review).None? &&
              ChooseKey(old(db.reviews), ReviewKey, review.value.reviewId).Some? ==>
        && r.Success?
        && r.value == review.value.(movieId := movieId, reviewDate := now,
                                    reviewId := ChooseKey(old(db.reviews), ReviewKey, review.value.reviewId).value)
        && db.reviews == old(db.reviews) + [r.value]
        && Find(db.reviews, ReviewKey, r.value.reviewId) == Some(r.value)
    {
      if movieId < 0 {
        return Failure(Rejected("Invalid movie ID."));
      } else if review.None? || review.value.content.None? {
        return Failure(Rejected("Review cannot be null."));
      } else if review.value.reviewScore < 1 || review.value.reviewScore > 5 {
        return Failure(Rejected("Invalid review score."));
      }
      var movie := Find(db.movies, MovieKey, movieId);
      if movie.None? {
        return Failure(Rejected("Movie not found."));
      }
      var stored := review.value.(reviewDate := now);
      stored := stored.(movieId := movieId);
      var key := ChooseKey(db.reviews, ReviewKey, stored.reviewId);
      if key.None? {
        return Failure(SaveFailed(DuplicateKey));
      }
      stored := stored.(reviewId := key.value);
      AppendFind(db.reviews, ReviewKey, stored);
      AppendUnique(db.reviews, ReviewKey, stored);
      db.reviews := db.reviews + [stored];
      r := Success(stored);
    }
  }
}
