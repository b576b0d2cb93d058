/** MovieReviewApi's `TicketController`: all tickets, and the tickets of one
    movie, answered with NotFound when there are none. Neither action
    changes anything. */
module MovieReviewTicketsController {
  import opened MovieReviewModels

  /** The decimal digits of `n`, most significant first. */
  function NatToString(n: nat): (s: string)
    ensures |s| >= 1
    ensures forall i :: 0 <= i < |s| ==> '0' <= s[i] <= '9'
    decreases n
  {
    var digit := ['0' + (n % 10) as char];
    if n < 10 then digit else NatToString(n / 10) + digit
  }

  /** The number a string of decimal digits denotes, most significant
      digit first. */
  function DigitsValue(s: string): (v: int)
    ensures |s| == 0 ==> v == 0
    decreases |s|
  {
    if |s| == 0 then 0
    else DigitsValue(s[..|s| - 1]) * 10 + (s[|s| - 1] as int - '0' as int)
  }

  /** Reading back the digits `NatToString` writes gives the number. */
  lemma {:induction false} NatToStringValue(n: nat)
    ensures DigitsValue(NatToString(n)) == n
    decreases n
  {
    var digit := ['0' + (n % 10) as char];
    if n < 10 {
      assert NatToString(n) == digit;
    } else {
      var s := NatToString(n);
      assert s == NatToString(n / 10) + digit;
      assert s[..|s| - 1] == NatToString(n / 10);
      NatToStringValue(n / 10);
    }
  }

  /** `n` formatted as C# interpolation formats an `int`: its decimal digits,
      after a minus sign when negative. */
  function IntToString(n: int): (s: string)
    ensures n >= 0 ==> s == NatToString(n)
    ensures n < 0 ==> s == "-" + NatToString(-n)
  {
    if n >= 0 then NatToString(n) else "-" + NatToString(-n)
  }

  /** The tickets for movie `movieId`, in store order. */
  function TicketsForMovie(tickets: seq<Ticket>, movieId: int): (r: seq<Ticket>)
    ensures |r| <= |tickets|
    ensures forall t :: t in r <==> t in tickets && t.movieId == movieId
  {
    if |tickets| == 0 then []
    else
      var rest := TicketsForMovie(tickets[1..], movieId);
      assert tickets == [tickets[0]] + tickets[1..];
      if tickets[0].movieId == movieId then [tickets[0]] + rest else rest
  }

  /** The filter keeps store order: filtering two runs of tickets one after
      the other gives the two filtered runs one after the other. */
  lemma {:induction false} TicketsForMovieAppend(a: seq<Ticket>, b: seq<Ticket>, movieId: int)
    ensures TicketsForMovie(a + b, movieId) == TicketsForMovie(a, movieId) + TicketsForMovie(b, movieId)
  {
    if |a| > 0 {
      assert (a + b)[1..] == a[1..] + b;
      TicketsForMovieAppend(a[1..], b, movieId);
    } else {
      assert a + b == b;
    }
  }

  /** When every ticket is for the movie, all of them come back, in order. */
  lemma {:induction false} TicketsForMovieKeepsAll(tickets: seq<Ticket>, movieId: int)
    requires forall i :: 0 <= i < |tickets| ==> tickets[i].movieId == movieId
    ensures TicketsForMovie(tickets, movieId) == tickets
  {
    if |tickets| > 0 {
      TicketsForMovieKeepsAll(tickets[1..], movieId);
      assert tickets == [tickets[0]] + tickets[1..];
    }
  }

  class TicketController {
    const context: MovieContext

    constructor (movieContext: MovieContext)
      ensures context == movieContext
    {
      context := movieContext;
    }

    /** Every stored ticket, in store order. */
    function GetTickets(): (r: seq<Ticket>)
      reads context
      ensures |r| == |context.tickets| && forall i :: 0 <= i < |r| ==> r[i] == context.tickets[i]
    {
      context.tickets
    }

    /** The tickets for movie `movieId` in store order, or NotFound with
        "No tickets available for movie with ID {movieId}." exactly when
        there are none. */
    function GetTicketsByMovie(movieId: int): (r: Response<seq<Ticket>>)
      reads context
      ensures r.NotFound? <==> forall t :: t in context.tickets ==> t.movieId != movieId
      ensures r.NotFound? ==> r.message == "No tickets available for movie with ID " + IntToString(movieId) + "."
      ensures r.Ok? || r.NotFound?
      ensures r.Ok? ==> r.value == TicketsForMovie(context.tickets, movieId) && |r.value| > 0
    {
      var tickets := TicketsForMovie(context.tickets, movieId);
      if |tickets| == 0 then NotFound("No tickets available for movie with ID " + IntToString(movieId) + ".")
      else
        assert tickets[0] in tickets;
        Ok(tickets)
    }
  }
}
