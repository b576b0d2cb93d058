/** CineBuzz's `RecentlyViewedMoviesService`: a queue of at most five
    movies, oldest first. A movie already in the queue is ignored (movies
    are equal when their MovieIds are); a new movie is enqueued at the
    back, after the oldest has been dequeued if the queue was full. */
module CineBuzzRecentlyViewed {
  import opened Tables
  import opened CineBuzzModels

  const MaxRecentlyViewed: nat := 5

  /** The queue after viewing `movie`. */
  function AfterViewing(queue: seq<Movie>, movie: Movie): (r: seq<Movie>)
    ensures !KeyAbsent(queue, MovieKey, movie.movieId) ==> r == queue
    ensures KeyAbsent(queue, MovieKey, movie.movieId) && |queue| < MaxRecentlyViewed ==> r == queue + [movie]
    ensures KeyAbsent(queue, MovieKey, movie.movieId) && |queue| >= MaxRecentlyViewed ==> r == queue[1..] + [movie]
  {
    if IndexOf(queue, MovieKey, movie.movieId).Some? then queue
    else if |queue| >= MaxRecentlyViewed then queue[1..] + [movie]
    else queue + [movie]
  }

  /** At most five movies, no two with the same MovieId. */
  ghost predicate QueueValid(queue: seq<Movie>)
  {
    |queue| <= MaxRecentlyViewed && UniqueKeys(queue, MovieKey)
  }

  /** Viewing a movie keeps the queue within five entries and free of
      duplicates, and afterwards the movie is in the queue. */
  lemma {:induction false} ViewingKeepsValid(queue: seq<Movie>, movie: Movie)
    requires QueueValid(queue)
    ensures QueueValid(AfterViewing(queue, movie))
    ensures !KeyAbsent(AfterViewing(queue, movie), MovieKey, movie.movieId)
  {
    var r := AfterViewing(queue, movie);
    if KeyAbsent(queue, MovieKey, movie.movieId) {
      var kept := if |queue| >= MaxRecentlyViewed then queue[1..] else queue;
      assert r == kept + [movie];
      assert r[|kept|] == movie;
      assert UniqueKeys(kept, MovieKey) && KeyAbsent(kept, MovieKey, movie.movieId) by {
        if |queue| >= MaxRecentlyViewed {
          forall i | 0 <= i < |kept| ensures kept[i] == queue[i + 1] { }
        }
      }
      AppendUnique(kept, MovieKey, movie);
    }
  }

  /** Viewing the same movie twice in a row changes nothing the second
      time. */
  lemma ViewingTwiceIsViewingOnce(queue: seq<Movie>, movie: Movie)
    requires QueueValid(queue)
    ensures AfterViewing(AfterViewing(queue, movie), movie) == AfterViewing(queue, movie)
  {
    ViewingKeepsValid(queue, movie);
  }

  /** The three movies a new service starts with, oldest first. */
  function InitialMovies(): (r: seq<Movie>)
    ensures QueueValid(r)
  {
    [ Movie(1, "Inception", "A mind-bending thriller about dreams within dreams.", []),
      Movie(2, "The Matrix", "A hacker discovers reality is a simulation.", []),
      Movie(3, "Interstellar", "A journey through space to save humanity.", []) ]
  }

  /** From the initial queue: a fourth movie is appended; a movie with
      MovieId 1 is ignored whatever its other fields; three new movies fill
      the queue to five and push movie 1 out, the newest last. */
  lemma {:induction false} InitialQueueScenario(m4: Movie, m5: Movie, m6: Movie, again: Movie)
    requires m4.movieId == 4 && m5.movieId == 5 && m6.movieId == 6 && again.movieId == 1
    ensures AfterViewing(InitialMovies(), m4) == InitialMovies() + [m4]
    ensures AfterViewing(InitialMovies(), again) == InitialMovies()
    ensures var r := AfterViewing(AfterViewing(AfterViewing(InitialMovies(), m4), m5), m6);
      && |r| == 5 && KeyAbsent(r, MovieKey, 1) && r[4] == m6
  {
    var q := InitialMovies();
    assert MovieKey(q[0]) == 1;
    var q4 := AfterViewing(q, m4);
    assert q4 == q + [m4];
    var q5 := AfterViewing(q4, m5);
    assert q5 == q4 + [m5];
    var q6 := AfterViewing(q5, m6);
    assert q6 == q5[1..] + [m6];
  }

  class RecentlyViewedMoviesService {
    var recentlyViewedMovies: seq<Movie>

    ghost predicate Valid()
      reads this
    {
      QueueValid(recentlyViewedMovies)
    }

    /** A new service holds movies 1, 2 and 3, in that order. */
    constructor ()
      ensures Valid()
      ensures recentlyViewedMovies == InitialMovies()
    {
      recentlyViewedMovies := [];
      recentlyViewedMovies := recentlyViewedMovies + [Movie(1, "Inception", "A mind-bending thriller about dreams within dreams.", [])];
      recentlyViewedMovies := recentlyViewedMovies + [Movie(2, "The Matrix", "A hacker discovers reality is a simulation.", [])];
      recentlyViewedMovies := recentlyViewedMovies + [Movie(3, "Interstellar", "A journey through space to save humanity.", [])];
    }

    /** Records that `movie` was viewed. */
    method AddMovieToRecentlyViewed(movie: Movie)
      requires Valid()
      modifies this
      ensures Valid()
      ensures recentlyViewedMovies == AfterViewing(old(recentlyViewedMovies), movie)
    {
      ViewingKeepsValid(recentlyViewedMovies, movie);
      if IndexOf(recentlyViewedMovies, MovieKey, movie.movieId).Some? {
        return;
      }
      if |recentlyViewedMovies| >= MaxRecentlyViewed {
        recentlyViewedMovies := recentlyViewedMovies[1..];
      }
      recentlyViewedMovies := recentlyViewedMovies + [movie];
    }

    /** The queue, oldest first; nothing changes. */
    method GetRecentlyViewedMovies() returns (movies: seq<Movie>)
      ensures |movies| == |recentlyViewedMovies|
      ensures forall i :: 0 <= i < |movies| ==> movies[i] == recentlyViewedMovies[i]
    {
      movies := recentlyViewedMovies;
    }
  }
}
