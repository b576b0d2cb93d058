/** CineBuzz's `MovieService`: list, add, remove and edit movies. Remove
    and edit answer false for an unknown id and change nothing; an edit
    replaces the title, the description and the whole genre list. */
module CineBuzzMovieService {
  import opened Wrappers
  import opened Tables
  import opened CineBuzzModels

  class MovieService {
    const db: CineBuzzDbContext

    constructor (context: CineBuzzDbContext)
      ensures db == context
    {
      db := context;
    }

    /** Every stored movie, in store order. */
    function GetAllMoviesAsync(): (r: seq<Movie>)
      reads db
      ensures |r| == |db.movies| && forall i :: 0 <= i < |r| ==> r[i] == db.movies[i]
    {
      db.movies
    }

    /** Stores `movie` (under a generated id when its MovieId is 0) and
        returns it; an id already in use makes the save fail. */
    method AddMovieAsync(movie: Movie) returns (r: Result<Movie, StoreError>)
      requires db.Valid()
      modifies db`movies
      ensures db.Valid()
      ensures ChooseKey(old(db.movies), MovieKey, movie.movieId).None? ==>
        r == Failure(DuplicateKey) && db.movies == old(db.movies)
      ensures ChooseKey(old(db.movies), MovieKey, movie.movieId).Some? ==>
        && r.Success?
        && r.value == movie.(movieId := ChooseKey(old(db.movies), MovieKey, movie.movieId).value)
        && db.movies == old(db.movies) + [r.value]
        && |db.movies| == |old(db.movies)| + 1
        && Find(db.movies, MovieKey, r.value.movieId) == Some(r.value)
    {
      var key := ChooseKey(db.movies, MovieKey, movie.movieId);
      if key.None? {
        return Failure(DuplicateKey);
      }
      var stored := movie.(movieId := key.value);
      AppendFind(db.movies, MovieKey, stored);
      AppendUnique(db.movies, MovieKey, stored);
      db.movies := db.movies + [stored];
      r := Success(stored);
    }

    /** Removes movie `movieId`: true when it existed, false (and no change)
        otherwise. */
    method RemoveMovieAsync(movieId: int) returns (removed: bool)
      requires db.Valid()
      modifies db`movies
      ensures db.Valid()
      ensures removed <==> !KeyAbsent(old(db.movies), MovieKey, movieId)
      ensures !removed ==> db.movies == old(db.movies)
      ensures removed ==> db.movies == RemoveAt(old(db.movies), IndexOf(old(db.movies), MovieKey, movieId).value)
      ensures KeyAbsent(db.movies, MovieKey, movieId)
    {
      var found := IndexOf(db.movies, MovieKey, movieId);
      if found.None? {
        return false;
      }
      RemoveFind(db.movies, MovieKey, movieId, found.value);
      db.movies := RemoveAt(db.movies, found.value);
      removed := true;
    }

    /** Gives movie `movieId` the title, description and genres of `movie`,
        keeping its id; false and no change for an unknown id. The genre
        list is cleared and refilled one genre at a time. */
    method EditMovieAsync(movieId: int, movie: Movie) returns (saved: bool)
      requires db.Valid()
      modifies db`movies
      ensures db.Valid()
      ensures KeyAbsent(old(db.movies), MovieKey, movieId) ==> !saved && db.movies == old(db.movies)
      ensures !KeyAbsent(old(db.movies), MovieKey, movieId) ==>
        var i := IndexOf(old(db.movies), MovieKey, movieId).value;
        db.movies == old(db.movies)[i := movie.(movieId := movieId)]
    {
      var found := IndexOf(db.movies, MovieKey, movieId);
      if found.None? {
        return false;
      }
      var i := found.value;
      var oldMovie := db.movies[i];
      var edited := oldMovie.(title := movie.title, description := movie.description);
      var genres: seq<string> := [];
      var j := 0;
      while j < |movie.genres|
        invariant 0 <= j <= |movie.genres|
        invariant genres == movie.genres[..j]
      {
        genres := genres + [movie.genres[j]];
        j := j + 1;
      }
      assert genres == movie.genres;
      edited := edited.(genres := genres);
      assert edited == movie.(movieId := movieId);
      ReplaceFind(db.movies, MovieKey, i, edited);
      db.movies := db.movies[i := edited];
      saved := edited != oldMovie;
    }
  }
}
