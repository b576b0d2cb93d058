/** MovieReviewApi's `MovieController`: list, add and delete movies. */
module MovieReviewMoviesController {
  import opened Wrappers
  import opened Tables
  import opened MovieReviewModels

  class MovieController {
    const context: MovieContext

    constructor (movieContext: MovieContext)
      ensures context == movieContext
    {
      context := movieContext;
    }

    /** Every stored movie, in store order. */
    function GetMovie(): (r: seq<Movie>)
      reads context
      ensures |r| == |context.movie| && forall i :: 0 <= i < |r| ==> r[i] == context.movie[i]
    {
      context.movie
    }

    /** Stores `movie` (under a generated id when its Id is 0) and answers
        Created with it; a lookup by its id then finds it with the same
        fields. An id already in use makes the save throw. */
    method PostMovie(movie: Movie) returns (response: Response<Movie>)
      requires context.Valid()
      modifies context`movie
      ensures context.Valid()
      ensures ChooseKey(old(context.movie), MovieKey, movie.id).None? ==>
        response == ServerError && context.movie == old(context.movie)
      ensures ChooseKey(old(context.movie), MovieKey, movie.id).Some? ==>
        && response == Created(movie.(id := ChooseKey(old(context.movie), MovieKey, movie.id).value))
        && context.movie == old(context.movie) + [response.value]
        && Find(context.movie, MovieKey, response.value.id) == Some(response.value)
    {
      var key := ChooseKey(context.movie, MovieKey, movie.id);
      if key.None? {
        return ServerError;
      }
      var stored := movie.(id := key.value);
      AppendFind(context.movie, MovieKey, stored);
      AppendUnique(context.movie, MovieKey, stored);
      context.movie := context.movie + [stored];
      response := Created(stored);
    }

    /** Removes movie `id` and answers NoContent; NotFound and no change
        when there is no such movie. */
    method DeleteMovie(id: int) returns (response: Response<Movie>)
      requires context.Valid()
      modifies context`movie
      ensures context.Valid()
      ensures KeyAbsent(old(context.movie), MovieKey, id) ==>
        response == NotFound("") && context.movie == old(context.movie)
      ensures !KeyAbsent(old(context.movie), MovieKey, id) ==>
        && response == NoContent
        && context.movie == RemoveAt(old(context.movie), IndexOf(old(context.movie), MovieKey, id).value)
      ensures KeyAbsent(context.movie, MovieKey, id)
      ensures forall k :: k != id ==> Find(context.movie, MovieKey, k) == old(Find(context.movie, MovieKey, k))
    {
      var found := IndexOf(context.movie, MovieKey, id);
      if found.None? {
        return NotFound("");
      }
      RemoveFind(context.movie, MovieKey, id, found.value);
      context.movie := RemoveAt(context.movie, found.value);
      response := NoContent;
    }
  }
}
