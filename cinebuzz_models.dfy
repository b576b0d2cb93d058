/** The CineBuzz backend's entities and its Entity Framework context. Each
    `DbSet` is a table: the sequence of its rows in store order, keyed as
    the model classes declare. C# `double` prices and totals are only ever
    copied by the services, so they are `real` values no operation
    computes with. */
module CineBuzzModels {
  import opened Wrappers
  import opened Tables
  import opened CartLines

  datatype Movie = Movie(movieId: int, title: string, description: string, genres: seq<string>)

  /** A showing of a movie. */
  datatype MovieTime = MovieTime(movieTimeId: int, movieId: int, movieDateTime: int, location: string)

  datatype Ticket = Ticket(ticketId: int, movieTimeId: int, price: real, quantity: int, availability: bool, seatNumber: int)

  datatype Cart = Cart(cartId: int, total: real, userId: Option<int>, items: seq<CartItem>)

  datatype NotificationFrequency = Instant | Daily | Weekly

  datatype NotificationType = Promotion | Update | Alert

  datatype NotificationPreferences = NotificationPreferences(
    receiveEmailNotifications: bool,
    frequency: NotificationFrequency,
    preferredNotificationTypes: seq<NotificationType>)

  datatype User = User(
    id: int, email: string, username: string, firstName: string, lastName: string, password: string,
    notificationPreference: NotificationPreferences)

  datatype PaymentRequest = PaymentRequest(
    cartId: int, paymentRequestId: int, cardNumber: string, expirationDate: string,
    cardholderName: string, cvc: string)

  /** A review; `content` is None when the client sent a null content. */
  datatype Review = Review(
    reviewId: int, movieId: int, userId: int, content: Option<string>, reviewScore: int, reviewDate: int)

  function MovieKey(m: Movie): int { m.movieId }
  function MovieTimeKey(t: MovieTime): int { t.movieTimeId }
  function TicketKey(t: Ticket): int { t.ticketId }
  function CartKey(c: Cart): int { c.cartId }
  function UserKey(u: User): int { u.id }
  function PaymentRequestKey(p: PaymentRequest): int { p.paymentRequestId }
  function ReviewKey(r: Review): int { r.reviewId }

  /** A new cart: no lines, Total 0 and no user. */
  function EmptyCart(cartId: int): Cart
  {
    Cart(cartId, 0.0, None, [])
  }

  /** Unique cart ids, and well-formed lines in every cart. */
  ghost predicate CartsValid(carts: seq<Cart>)
  {
    && UniqueKeys(carts, CartKey)
    && forall i :: 0 <= i < |carts| ==> WellFormed(carts[i].items, carts[i].cartId)
  }

  /** `CineBuzzDbContext`: one sequence of rows per table. */
  class CineBuzzDbContext {
    var movies: seq<Movie>
    var movieTimes: seq<MovieTime>
    var tickets: seq<Ticket>
    var carts: seq<Cart>
    var users: seq<User>
    var paymentRequests: seq<PaymentRequest>
    var reviews: seq<Review>

    /** Primary keys are unique in every table, and each cart's lines belong
        to it with at most one line per ticket. */
    ghost predicate Valid()
      reads this
    {
      && UniqueKeys(movies, MovieKey)
      && UniqueKeys(movieTimes, MovieTimeKey)
      && UniqueKeys(tickets, TicketKey)
      && CartsValid(carts)
      && UniqueKeys(users, UserKey)
      && UniqueKeys(paymentRequests, PaymentRequestKey)
      && UniqueKeys(reviews, ReviewKey)
    }

    constructor ()
      ensures Valid()
      ensures movies == [] && movieTimes == [] && tickets == [] && carts == []
      ensures users == [] && paymentRequests == [] && reviews == []
    {
      movies, movieTimes, tickets, carts := [], [], [], [];
      users, paymentRequests, reviews := [], [], [];
    }
  }
}
