/** The MovieReviewApi backend's entities, its Entity Framework context
    `MovieContext`, and the answers its controllers give. Each `DbSet` is a
    table: the sequence of its rows in store order. `decimal` prices are
    whole numbers of cents. */
module MovieReviewModels {
  import opened Tables
  import opened CartLines

  datatype Movie = Movie(id: int, movieTitle: string, genre: string, rating: int)

  /** A ticket; `price` is in cents. */
  datatype Ticket = Ticket(ticketId: int, movieId: int, eventName: string, price: int)

  datatype Cart = Cart(cartId: int, cartItems: seq<CartItem>)

  /** `UserPreference`; `NoNotifications` is the enum's `None`. */
  datatype UserPreference = SMS | Email | Both | NoNotifications

  datatype User = User(
    id: int, email: string, username: string, firstName: string, lastName: string, password: string,
    notificationPreference: UserPreference)

  datatype PaymentRequest = PaymentRequest(
    cartId: int, cardNumber: string, expirationDate: string, cardholderName: string, cvc: string)

  /** What an action answers: 200 with a value, 201 with the created
      value, 204, 404 with a message ("" for a bare `NotFound()`), 400 with
      a message, or 500 for an exception the action does not catch. */
  datatype Response<+T> =
    | Ok(value: T)
    | Created(value: T)
    | NoContent
    | NotFound(message: string)
    | BadRequest(message: string)
    | ServerError

  function MovieKey(m: Movie): int { m.id }
  function TicketKey(t: Ticket): int { t.ticketId }
  function CartKey(c: Cart): int { c.cartId }
  function UserKey(u: User): int { u.id }

  /** Unique cart ids, and well-formed lines in every cart. */
  ghost predicate CartsValid(carts: seq<Cart>)
  {
    && UniqueKeys(carts, CartKey)
    && forall i :: 0 <= i < |carts| ==> WellFormed(carts[i].cartItems, carts[i].cartId)
  }

  /** `MovieContext`: the movie, ticket and cart tables; the cart lines are
      held inside their carts. */
  class MovieContext {
    var movie: seq<Movie>
    var tickets: seq<Ticket>
    var carts: seq<Cart>

    ghost predicate Valid()
      reads this
    {
      && UniqueKeys(movie, MovieKey)
      && UniqueKeys(tickets, TicketKey)
      && CartsValid(carts)
    }

    constructor ()
      ensures Valid()
      ensures movie == [] && tickets == [] && carts == []
    {
      movie, tickets, carts := [], [], [];
    }
  }
}
