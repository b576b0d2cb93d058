/** CineBuzz's `TicketService`: list, find, filter by movie, add, update
    and delete tickets. Queries change nothing; a missing ticket gives null
    (None) or, for delete, nothing at all. */
module CineBuzzTicketService {
  import opened Wrappers
  import opened Tables
  import opened CineBuzzModels

  /** The ticket's showing exists and shows movie `movieId`: `ticket.MovieTime
      != null && ticket.MovieTime.MovieId == movieId`, with the navigation
      property read as a lookup in the showings table. */
  predicate ShowsMovie(movieTimes: seq<MovieTime>, ticket: Ticket, movieId: int)
  {
    match Find(movieTimes, MovieTimeKey, ticket.movieTimeId)
    case None => false
    case Some(showing) => showing.movieId == movieId
  }

  /** The tickets for movie `movieId`, in store order. */
  function TicketsForMovie(tickets: seq<Ticket>, movieTimes: seq<MovieTime>, movieId: int): (r: seq<Ticket>)
    ensures |r| <= |tickets|
    ensures forall t :: t in r <==> t in tickets && ShowsMovie(movieTimes, t, movieId)
  {
    if |tickets| == 0 then []
    else
      var rest := TicketsForMovie(tickets[1..], movieTimes, movieId);
      assert tickets == [tickets[0]] + tickets[1..];
      if ShowsMovie(movieTimes, tickets[0], movieId) then [tickets[0]] + rest else rest
  }

  /** The filter keeps store order: filtering two runs of rows one after
      the other gives the two filtered runs one after the other. */
  lemma {:induction false} TicketsForMovieAppend(a: seq<Ticket>, b: seq<Ticket>, movieTimes: seq<MovieTime>, movieId: int)
    ensures TicketsForMovie(a + b, movieTimes, movieId)
         == TicketsForMovie(a, movieTimes, movieId) + TicketsForMovie(b, movieTimes, movieId)
  {
    if |a| > 0 {
      assert (a + b)[1..] == a[1..] + b;
      TicketsForMovieAppend(a[1..], b, movieTimes, movieId);
    } else {
      assert a + b == b;
    }
  }

  /** The ticket `UpdateTicketAsync` stores: the new Price, Quantity,
      Availability, SeatNumber and MovieTimeId under the old TicketId. */
  function UpdatedTicket(existing: Ticket, incoming: Ticket): (r: Ticket)
    ensures r == incoming.(ticketId := existing.ticketId)
  {
    existing.(price := incoming.price, quantity := incoming.quantity, availability := incoming.availability,
              seatNumber := incoming.seatNumber, movieTimeId := incoming.movieTimeId)
  }

  class TicketService {
    const db: CineBuzzDbContext

    constructor (context: CineBuzzDbContext)
      ensures db == context
    {
      db := context;
    }

    /** Every stored ticket, in store order. */
    function GetAllTicketsAsync(): (r: seq<Ticket>)
      reads db
      ensures |r| == |db.tickets| && forall i :: 0 <= i < |r| ==> r[i] == db.tickets[i]
    {
      db.tickets
    }

    /** The ticket with id `ticketId`, or None. */
    function GetTicketByIdAsync(ticketId: int): (r: Option<Ticket>)
      reads db
      ensures r.Some? ==> r.value.ticketId == ticketId && r.value in db.tickets
      ensures r.None? <==> forall t :: t in db.tickets ==> t.ticketId != ticketId
    {
      Find(db.tickets, TicketKey, ticketId)
    }

    /** Exactly the tickets whose showing exists and shows movie `movieId`. */
    function GetTicketsByMovieIdAsync(movieId: int): (r: seq<Ticket>)
      reads db
      ensures forall t :: t in r <==> t in db.tickets && ShowsMovie(db.movieTimes, t, movieId)
    {
      TicketsForMovie(db.tickets, db.movieTimes, movieId)
    }

    /** Stores `ticket` (under a generated id when its TicketId is 0) and
        returns it; an id already in use makes the save fail. */
    method AddTicketAsync(ticket: Ticket) returns (r: Result<Ticket, StoreError>)
      requires db.Valid()
      modifies db`tickets
      ensures db.Valid()
      ensures ChooseKey(old(db.tickets), TicketKey, ticket.ticketId).None? ==>
        r == Failure(DuplicateKey) && db.tickets == old(db.tickets)
      ensures ChooseKey(old(db.tickets), TicketKey, ticket.ticketId).Some? ==>
        && r.Success?
        && r.value == ticket.(ticketId := ChooseKey(old(db.tickets), TicketKey, ticket.ticketId).value)
        && db.tickets == old(db.tickets) + [r.value]
        && GetTicketByIdAsync(r.value.ticketId) == Some(r.value)
    {
      var key := ChooseKey(db.tickets, TicketKey, ticket.ticketId);
      if key.None? {
        return Failure(DuplicateKey);
      }
      var stored := ticket.(ticketId := key.value);
      AppendFind(db.tickets, TicketKey, stored);
      AppendUnique(db.tickets, TicketKey, stored);
      db.tickets := db.tickets + [stored];
      r := Success(stored);
    }

    /** Overwrites the named fields of ticket `ticketId` and returns it; None
        and no change when there is no such ticket. */
    method UpdateTicketAsync(ticketId: int, ticket: Ticket) returns (r: Option<Ticket>)
      requires db.Valid()
      modifies db`tickets
      ensures db.Valid()
      ensures KeyAbsent(old(db.tickets), TicketKey, ticketId) ==> r.None? && db.tickets == old(db.tickets)
      ensures !KeyAbsent(old(db.tickets), TicketKey, ticketId) ==>
        var i := IndexOf(old(db.tickets), TicketKey, ticketId).value;
        && r == Some(UpdatedTicket(old(db.tickets)[i], ticket))
        && db.tickets == old(db.tickets)[i := r.value]
      ensures r.Some? ==> GetTicketByIdAsync(ticketId) == r
      ensures forall k :: k != ticketId ==> GetTicketByIdAsync(k) == old(GetTicketByIdAsync(k))
    {
      var found := IndexOf(db.tickets, TicketKey, ticketId);
      if found.None? {
        return None;
      }
      var i := found.value;
      var existing := db.tickets[i];
      existing := existing.(price := ticket.price);
      existing := existing.(quantity := ticket.quantity);
      existing := existing.(availability := ticket.availability);
      existing := existing.(seatNumber := ticket.seatNumber);
      existing := existing.(movieTimeId := ticket.movieTimeId);
      ReplaceFind(db.tickets, TicketKey, i, existing);
      db.tickets := db.tickets[i := existing];
      r := Some(existing);
    }

    /** Deletes ticket `ticketId` if it exists; otherwise does nothing. */
    method DeleteTicketAsync(ticketId: int)
      requires db.Valid()
      modifies db`tickets
      ensures db.Valid()
      ensures KeyAbsent(old(db.tickets), TicketKey, ticketId) ==> db.tickets == old(db.tickets)
      ensures !KeyAbsent(old(db.tickets), TicketKey, ticketId) ==>
        db.tickets == RemoveAt(old(db.tickets), IndexOf(old(db.tickets), TicketKey, ticketId).value)
      ensures GetTicketByIdAsync(ticketId).None?
      ensures forall k :: k != ticketId ==> GetTicketByIdAsync(k) == old(GetTicketByIdAsync(k))
    {
      var found := IndexOf(db.tickets, TicketKey, ticketId);
      if found.Some? {
        RemoveFind(db.tickets, TicketKey, ticketId, found.value);
        db.tickets := RemoveAt(db.tickets, found.value);
      }
    }
  }
}
