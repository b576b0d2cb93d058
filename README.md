# Movie ticketing backends, modelled in Dafny

The repository holds two separate ASP.NET backends for one movie-ticket
site. They have different rules, and this project models each one on its
own.

* **CineBuzzApi** (`CineBuzz*` modules). Services over an Entity Framework
  context `CineBuzzDbContext`:
  * carts that are fetched or created on demand, with ticket lines;
  * tickets, filtered by movie through their showing (`MovieTime`);
  * movies, with a genre list that is replaced when a movie is edited;
  * users, payment requests, and reviews that pass a four-step check;
  * a queue of at most five recently viewed movies;
  * `PaymentRequestsController`, which checks a card with regular
    expressions and stores the request it accepts.
* **MovieReviewApi** (`MovieReview*` modules). Controllers that work
  directly on `MovieContext`:
  * a cart controller that answers NotFound instead of creating carts,
    and returns the cart total after a removal;
  * a payment controller that checks the cart and the card, charges the
    total and empties the cart;
  * an in-memory user list;
  * read-only ticket queries and a movie controller.

Shared modules:

* `Tables`: a database table is a sequence of rows in store order, plus a
  function that gives each row's primary key. The module defines once how
  lookups (`FindAsync`, `FirstOrDefault` on a key) and removals work, and
  how a save assigns keys. Key 0 asks the store for a new key, which is one
  more than the largest key in use and at least 1. An explicit key that is
  already in use makes the save throw.
* `CartLines`: the cart line "upsert" and "remove" that both cart variants
  perform in the same way. The line quantity uses C#'s 32-bit `+=`, which
  wraps around.
* `Primitives`: `char.IsWhiteSpace`, `string.IsNullOrWhiteSpace`,
  `string.Length` in UTF-16 code units, ASCII digits and 32-bit addition.

Every object whose state the source changes is a Dafny `class`:
* the two database contexts;
* the recently-viewed service;
* the user controller, which owns its list.

Services and controllers hold a `const` reference to their context. Each
method names in `modifies` exactly the tables it writes. Each method's
`ensures` states the new table in terms of the old one, and lemmas prove
what the source promises about those functions: invariants kept, lookups
after a change, idempotence and totals.

Arguments that the source reads from the system are passed in as
parameters:
* `now` stands for `DateTime.Now`;
* `tryParse` stands for `DateTime.TryParse`.

Times are whole numbers on one time line. CineBuzz `double` prices and
totals are `real` values that are only copied. MovieReviewApi `decimal`
prices are whole cents.

## Model

| member | source | states |
|---|---|---|
| Primitives.WrapAdd | CineBuzzAPI/Services/CartService.cs:70 | the quantity after `+=` equals the exact sum modulo 2^32, and equals the sum itself when that fits in an `int` |
| Primitives.DigitsAreNotBlank | CineBuzzAPI/Controllers/PaymentRequestsController.cs:25 | a non-empty string of digits is never null-or-white-space, so the blank test adds nothing to a digit test |
| CartLines.LineFor | Controllers/CartsController.cs:27 | the line found has the ticket id; there is none exactly when no line has it |
| CartLines.AddLine | CineBuzzAPI/Services/CartService.cs:54-71 | a ticket without a line gets exactly one line appended after the old ones; a ticket with a line keeps the count of lines |
| CartLines.RemoveLine | CineBuzzAPI/Services/CartService.cs:83-88 | without a line for the ticket nothing changes; with one, exactly one line goes |
| CartLines.AddLineEffect | CineBuzzAPI/Services/CartService.cs:54-71 | after an add, the ticket's line holds the old quantity plus `quantity` (or `quantity` for a new line); other tickets' lines are unchanged and stay in place; still at most one line per ticket |
| CartLines.RemoveLineEffect | Controllers/CartsController.cs:47-53 | after a remove no line for the ticket is left, other tickets' lines are unchanged, and the lines stay well formed |
| CartLines.RemoveLineIdempotent | CineBuzzAPI/Services/CartService.cs:83-92 | removing a ticket's line twice gives the same lines as removing it once |
| CartLines.UpsertAggregates | Controllers/CartsController.cs:27-29 | adding 2 and then 3 of one ticket gives one line of 5; another ticket is appended as a line of its own |
| CineBuzzCartService.CartsAfterGet | CineBuzzAPI/Services/CartService.cs:20-41 | a known id leaves the carts unchanged; no id or an unknown id appends one empty cart (no lines, Total 0, no user) under a key no cart had |
| CineBuzzCartService.CartPosition | CineBuzzAPI/Services/CartService.cs:25-31 | for a known id, the cart returned is the one with that id |
| CineBuzzCartService.GetKeepsValid | CineBuzzAPI/Services/CartService.cs:20-41 | get-or-create keeps cart ids unique and carts well formed, and a lookup by the returned cart's id finds it |
| CineBuzzCartService.AddKeepsValid | CineBuzzAPI/Services/CartService.cs:45-74 | adding a ticket keeps at most one line per ticket in every cart |
| CineBuzzCartService.RemoveKeepsValid | CineBuzzAPI/Services/CartService.cs:78-92 | removing a ticket keeps every cart well formed |
| CineBuzzCartService.RemoveTwiceIsRemoveOnce | CineBuzzAPI/Services/CartService.cs:78-92 | on an existing cart, two removals of one ticket leave the table as one removal does |
| CineBuzzCartService.EditsTouchOnlyLines | CineBuzzAPI/Services/CartService.cs:45-92 | add and remove change only the lines of the resolved cart: its id, Total and UserId stay, and every other cart is untouched |
| CineBuzzCartService.CartService.GetCartAsync | CineBuzzAPI/Services/CartService.cs:20-41 | the carts table becomes `CartsAfterGet`; the cart returned is the one at `CartPosition`, and a lookup by its id finds it |
| CineBuzzCartService.CartService.AddTicketToCartAsync | CineBuzzAPI/Services/CartService.cs:45-74 | an unknown ticket fails with "Ticket not found" after the cart was resolved (and maybe created) and adds no line; otherwise the resolved cart's lines are upserted and it is returned; tickets are untouched |
| CineBuzzCartService.CartService.RemoveTicketFromCartAsync | CineBuzzAPI/Services/CartService.cs:78-92 | the resolved cart loses its line for the ticket if it had one, and is returned; tickets are untouched |
| CineBuzzTicketService.TicketsForMovie | CineBuzzAPI/Services/TicketService.cs:35-42 | a ticket is in the result exactly when it is stored and its showing exists and shows the movie |
| CineBuzzTicketService.TicketsForMovieAppend | CineBuzzAPI/Services/TicketService.cs:38-41 | the filter keeps store order: it distributes over concatenation |
| CineBuzzTicketService.UpdatedTicket | CineBuzzAPI/Services/TicketService.cs:58-62 | the stored ticket has every field of the incoming ticket except TicketId, which is kept |
| CineBuzzTicketService.TicketService.GetAllTicketsAsync | CineBuzzAPI/Services/TicketService.cs:22-26 | every stored ticket, in store order |
| CineBuzzTicketService.TicketService.GetTicketByIdAsync | CineBuzzAPI/Services/TicketService.cs:29-33 | the ticket with that id, or None exactly when no stored ticket has it |
| CineBuzzTicketService.TicketService.GetTicketsByMovieIdAsync | CineBuzzAPI/Services/TicketService.cs:35-42 | exactly the stored tickets whose showing exists and shows the movie, in store order |
| CineBuzzTicketService.TicketService.AddTicketAsync | CineBuzzAPI/Services/TicketService.cs:44-49 | the ticket is appended under its key (or a generated one) and a lookup by that id then yields it; a key in use fails and stores nothing |
| CineBuzzTicketService.TicketService.UpdateTicketAsync | CineBuzzAPI/Services/TicketService.cs:52-66 | an unknown id gives None and no change; otherwise the ticket is overwritten in place with `UpdatedTicket` and returned, and no other lookup changes |
| CineBuzzTicketService.TicketService.DeleteTicketAsync | CineBuzzAPI/Services/TicketService.cs:69-77 | a present ticket is removed, an absent id changes nothing; afterwards no ticket has the id and other lookups are unchanged |
| CineBuzzMovieService.MovieService.GetAllMoviesAsync | CineBuzzAPI/Services/MovieService.cs:23-27 | every stored movie, in store order |
| CineBuzzMovieService.MovieService.AddMovieAsync | CineBuzzAPI/Services/MovieService.cs:30-35 | the movie is stored once (count grows by one), under its key or a generated one, and is then found by that id |
| CineBuzzMovieService.MovieService.RemoveMovieAsync | CineBuzzAPI/Services/MovieService.cs:38-46 | true exactly when the movie existed; false changes nothing; afterwards no movie has the id |
| CineBuzzMovieService.MovieService.EditMovieAsync | CineBuzzAPI/Services/MovieService.cs:48-75 | an unknown id gives false and no change; otherwise the movie becomes the new movie under the old id: new Title, new Description and exactly the new genres in order, built by the refill loop |
| CineBuzzUserService.UpdatedUser | CineBuzzAPI/Services/UserService.cs:50-54 | the stored user has the incoming Email, Username, FirstName, LastName and Password; Id and NotificationPreference are kept |
| CineBuzzUserService.UserService.GetAllUsersAsync | CineBuzzAPI/Services/UserService.cs:22-26 | every stored user, in store order |
| CineBuzzUserService.UserService.GetUserByIdAsync | CineBuzzAPI/Services/UserService.cs:29-33 | the user with that id, or None exactly when there is none |
| CineBuzzUserService.UserService.AddUserAsync | CineBuzzAPI/Services/UserService.cs:36-41 | the user is stored once (count grows by one) and is found by its id |
| CineBuzzUserService.UserService.UpdateUserAsync | CineBuzzAPI/Services/UserService.cs:44-58 | an unknown id gives None and no change; otherwise the user is overwritten in place with `UpdatedUser` and returned; other users are unchanged |
| CineBuzzUserService.UserService.DeleteUserAsync | CineBuzzAPI/Services/UserService.cs:61-69 | a present user is removed, an absent id is a silent no-op; other users are unchanged |
| CineBuzzPaymentRequestService.UpdatedRequest | CineBuzzAPI/Services/PaymentRequestService.cs:49-53 | the stored request has the incoming CardNumber, ExpirationDate, CardholderName, CVC and CartId under the old PaymentRequestId |
| CineBuzzPaymentRequestService.PaymentRequestService.GetAllPaymentRequestsAsync | CineBuzzAPI/Services/PaymentRequestService.cs:23-26 | every stored request, in store order |
| CineBuzzPaymentRequestService.PaymentRequestService.GetPaymentRequestByIdAsync | CineBuzzAPI/Services/PaymentRequestService.cs:29-32 | the request with that id, or None exactly when there is none |
| CineBuzzPaymentRequestService.PaymentRequestService.AddPaymentRequestAsync | CineBuzzAPI/Services/PaymentRequestService.cs:35-40 | the request is stored unchanged apart from a generated key, once, and is found by its id; nothing is validated |
| CineBuzzPaymentRequestService.PaymentRequestService.UpdatePaymentRequestAsync | CineBuzzAPI/Services/PaymentRequestService.cs:43-58 | an unknown id gives None and no change; otherwise the request is overwritten in place with `UpdatedRequest` and returned |
| CineBuzzPaymentRequestService.PaymentRequestService.DeletePaymentRequestAsync | CineBuzzAPI/Services/PaymentRequestService.cs:61-69 | a present request is removed, an absent id changes nothing; other requests are unchanged |
| CineBuzzReviewService.ReviewRejection | CineBuzzAPI/Services/ReviewService.cs:21-40 | each message holds exactly when its check fails and all earlier checks pass (negative id; null review or content; score outside 1..5; unknown movie); None exactly when all pass |
| CineBuzzReviewService.BoundaryInputsPassEarlyChecks | CineBuzzAPI/Services/ReviewService.cs:21-29 | movie id 0 passes the id check and empty content passes the null check |
| CineBuzzReviewService.ReviewService.AddReviewAsync | CineBuzzAPI/Services/ReviewService.cs:18-58 | a rejected review fails with the first check's message and stores nothing; an accepted one is stored once with MovieId set to the argument and ReviewDate to `now`, then returned |
| CineBuzzPaymentRequestsController.PaymentRejection | CineBuzzAPI/Controllers/PaymentRequestsController.cs:25-46 | each message holds exactly when its check fails and the earlier ones pass, in the order card, expiry, name, CVC; None exactly when all pass |
| CineBuzzPaymentRequestsController.CardNumberCheckMeans | CineBuzzAPI/Controllers/PaymentRequestsController.cs:25-28 | a card number passes exactly when it is 13 to 19 characters, all digits |
| CineBuzzPaymentRequestsController.ExpirationDateCheckMeans | CineBuzzAPI/Controllers/PaymentRequestsController.cs:31-34 | an expiration date passes exactly when it is two digits, a slash and two digits, with the month from 1 to 12; no date comparison |
| CineBuzzPaymentRequestsController.CvcCheckMeans | CineBuzzAPI/Controllers/PaymentRequestsController.cs:43-46 | a CVC passes exactly when it is three or four digits |
| CineBuzzPaymentRequestsController.AcceptedExactly | CineBuzzAPI/Controllers/PaymentRequestsController.cs:25-46 | a request is accepted exactly when all four fields have the forms above and the name is not blank |
| CineBuzzPaymentRequestsController.SampleRequests | CineBuzzAPI/Controllers/PaymentRequestsController.cs:25-46 | ("4111111111111111", "12/25", "John Doe", "123") is accepted; "abcd1234", "13/25", "" and "12" are each refused with their own message |
| CineBuzzPaymentRequestsController.PaymentRequestsController.ProcessPayment | CineBuzzAPI/Controllers/PaymentRequestsController.cs:22-61 | a refused request stores nothing and is answered BadRequest with the first failing message; an accepted one stores exactly one request with the same CartId, CardNumber, ExpirationDate, CardholderName and CVC under a generated id, answered Ok |
| CineBuzzRecentlyViewed.AfterViewing | CineBuzzAPI/Services/RecentlyViewedMovieService.cs:44-56 | a MovieId already queued leaves the queue unchanged; otherwise the movie is appended, after dropping the oldest entry when five are held |
| CineBuzzRecentlyViewed.ViewingKeepsValid | CineBuzzAPI/Services/RecentlyViewedMovieService.cs:44-56 | the queue never holds more than five movies or two with one MovieId, and the movie viewed is in it afterwards |
| CineBuzzRecentlyViewed.ViewingTwiceIsViewingOnce | CineBuzzAPI/Services/RecentlyViewedMovieService.cs:44-47 | viewing the same movie again changes nothing |
| CineBuzzRecentlyViewed.InitialMovies | CineBuzzAPI/Services/RecentlyViewedMovieService.cs:19-21 | the initial queue is within bounds and free of duplicates |
| CineBuzzRecentlyViewed.InitialQueueScenario | CineBuzzAPI/Services/RecentlyViewedMovieService.cs:16-56 | from movies 1, 2, 3: movie 4 is appended; another movie with MovieId 1 is ignored; 4, 5, 6 leave five movies, without movie 1, with 6 last |
| CineBuzzRecentlyViewed.RecentlyViewedMoviesService.constructor | CineBuzzAPI/Services/RecentlyViewedMovieService.cs:16-22 | a new service holds Inception, The Matrix and Interstellar (ids 1, 2, 3) in that order |
| CineBuzzRecentlyViewed.RecentlyViewedMoviesService.AddMovieToRecentlyViewed | CineBuzzAPI/Services/RecentlyViewedMovieService.cs:25-59 | the queue becomes `AfterViewing` of the old queue and stays within five distinct movies |
| CineBuzzRecentlyViewed.RecentlyViewedMoviesService.GetRecentlyViewedMovies | CineBuzzAPI/Services/RecentlyViewedMovieService.cs:62-65 | the queued movies, oldest first, with nothing changed |
| MovieReviewCartsController.LineAmount | Controllers/CartsController.cs:56 | a line costs its quantity times its ticket's price; None exactly when the ticket is missing |
| MovieReviewCartsController.CartTotal | Controllers/CartsController.cs:56 | the total is defined exactly when every line's ticket exists; no lines cost 0 |
| MovieReviewCartsController.CartTotalAppend | Controllers/CartsController.cs:56 | the total of two runs of lines is the sum of their totals |
| MovieReviewCartsController.TotalAfterRemove | Controllers/CartsController.cs:53-56 | removing a line takes exactly that line's amount off the total |
| MovieReviewCartsController.TotalWithoutMiddle | Controllers/CartsController.cs:53-56 | taking a line out from between two runs of lines takes its amount off the total |
| MovieReviewCartsController.SingleLineTotal | Controllers/CartsController.cs:56 | the total of one line is that line's amount |
| MovieReviewCartsController.SampleTotal | Controllers/PaymentController.cs:55 | two tickets at 15.00 and one at 10.00 total 40.00 |
| MovieReviewCartsController.CartController.AddTicketToCart | Controllers/CartsController.cs:16-33 | an unknown cart answers "Cart not found." before the ticket is looked up; an unknown ticket answers "Ticket not found."; neither changes anything; otherwise the cart's lines are upserted |
| MovieReviewCartsController.CartController.RemoveTicketFromCart | Controllers/CartsController.cs:35-59 | "Cart not found." and "Ticket not found in cart." change nothing; otherwise the line is removed and the answer is the cart with the total of its remaining lines |
| MovieReviewCartsController.CartController.GetCart | Controllers/CartsController.cs:61-81 | with an id, the cart with all its lines or "Cart not found." and no change; without one, exactly one new empty cart is stored and returned |
| MovieReviewPaymentController.PaymentRejection | Controllers/PaymentController.cs:22-52 | each message holds exactly when its check fails and the earlier ones pass, in the order cart, card, expiry, name, CVC; None exactly when all pass |
| MovieReviewPaymentController.CardNumberLengthOnly | Controllers/PaymentController.cs:32-35 | the card check is length only: sixteen letters pass although they are not digits |
| MovieReviewPaymentController.ShortCardNumberFails | Controllers/PaymentController.cs:32-35 | fifteen digits are refused as an invalid card number |
| MovieReviewPaymentController.CardNumberCountsCodeUnits | Controllers/PaymentController.cs:32-35 | the card length is `string.Length` in UTF-16 code units: an emoji (two units) and fourteen letters make sixteen and pass |
| MovieReviewPaymentController.CvcCountsCodeUnits | Controllers/PaymentController.cs:49-52 | the CVC length is counted in UTF-16 code units: an emoji and one letter pass, an emoji and three letters fail |
| Primitives.Utf16LengthOfBmp | Controllers/PaymentController.cs:32 | `string.Length` equals the number of characters when none lies outside the Basic Multilingual Plane |
| MovieReviewPaymentController.AcceptedExactly | Controllers/PaymentController.cs:22-52 | a payment is accepted exactly when the cart exists and has lines, the card is 16 UTF-16 code units long and not blank, the expiry parses to a time not before now, the name is not blank and the CVC is 3 code units long and not blank |
| MovieReviewPaymentController.PaymentController.ProcessPayment | Controllers/PaymentController.cs:19-70 | a refused payment changes nothing and answers the first failing message; an accepted one answers the total computed before clearing, and the cart remains with no lines |
| MovieReviewUsersController.MaxId | Controllers/UserController.cs:36 | the largest id: no user has more, and some user has it |
| MovieReviewUsersController.NextUserIdIsFresh | Controllers/UserController.cs:36-37 | a new id is larger than every id in the list (1 for an empty list), so ids stay unique after the append |
| MovieReviewUsersController.UpdatedUser | Controllers/UserController.cs:51-56 | the user keeps its id and takes every other field, NotificationPreference included, from the update |
| MovieReviewUsersController.UsersController.GetUsers | Controllers/UserController.cs:15-18 | every user, in creation order |
| MovieReviewUsersController.UsersController.GetUser | Controllers/UserController.cs:22-30 | the user with that id, or NotFound exactly when there is none |
| MovieReviewUsersController.UsersController.CreateUser | Controllers/UserController.cs:34-39 | the user gets 1 + the largest id (or 1) and is appended, larger than every earlier id, then found by `GetUser` |
| MovieReviewUsersController.UsersController.UpdateUser | Controllers/UserController.cs:43-59 | an absent id answers NotFound with no change; a present one is overwritten in its position with `UpdatedUser`, answering NoContent |
| MovieReviewUsersController.UsersController.DeleteUser | Controllers/UserController.cs:63-73 | an absent id answers NotFound with no change; a present one is removed, and `GetUser` then answers NotFound |
| MovieReviewTicketsController.TicketsForMovie | Controllers/TicketController.cs:28-31 | a ticket is in the result exactly when it is stored and its MovieId is the movie's |
| MovieReviewTicketsController.TicketsForMovieAppend | Controllers/TicketController.cs:28-31 | the filter keeps store order: it distributes over concatenation |
| MovieReviewTicketsController.TicketsForMovieKeepsAll | Controllers/TicketController.cs:28-31 | when every ticket is for the movie, all come back in store order |
| MovieReviewTicketsController.TicketController.GetTickets | Controllers/TicketController.cs:20-23 | every stored ticket, in store order |
| MovieReviewTicketsController.NatToStringValue | Controllers/TicketController.cs:35 | the digits written for the movie id in the NotFound message read back as that id |
| MovieReviewTicketsController.TicketController.GetTicketsByMovie | Controllers/TicketController.cs:26-39 | NotFound with "No tickets available for movie with ID {m}." exactly when no stored ticket is for movie m; otherwise Ok with the movie's tickets |
| MovieReviewMoviesController.MovieController.GetMovie | Controllers/MovieController.cs:20-23 | every stored movie, in store order |
| MovieReviewMoviesController.MovieController.PostMovie | Controllers/MovieController.cs:27-33 | the movie is stored and answered Created, and is then found by its id with the same fields |
| MovieReviewMoviesController.MovieController.DeleteMovie | Controllers/MovieController.cs:36-48 | an absent id answers NotFound with no change; a present one is removed, answering NoContent; other lookups are unchanged |

## Left out

- CineBuzzMovieService.MovieService.EditMovieAsync: the result for a found movie is not specified. `SaveChangesAsync() > 0` depends on Entity Framework change tracking; the model answers whether the stored movie differs.
- CineBuzzMovieService.MovieService.EditMovieAsync: aliasing is not modelled. When the caller passes the tracked movie itself, or a movie sharing its `Genres` list, clearing the stored list also empties the list being copied, so the source leaves the movie with no genres; the model, working on values, always stores the new movie's genres.
- Entity Framework behaviour beyond lookups, appends, removals and key assignment is not modelled. That covers cascade deletes, foreign-key checks, `CartItemId` keys, and navigation loading (`Include`), which is read as a lookup in the related table.
- A CineBuzz cart line's `Ticket` navigation property is not modelled: lines hold the ticket id only.
- Key generation is modelled as one more than the largest key in use. A real store's identity sequence may differ, but it also never reuses a key in use.
- Ids, scores and MovieReview prices in cents are unbounded integers; only the cart-line `+=` wraps around at 32 bits, and `decimal` overflow in totals is not modelled. CineBuzz `double` prices and cart totals are reals that are only copied, never computed with.
- In .NET regular expressions, `\d` matches every Unicode decimal digit and `$` also matches before a final newline. The model reads `\d` as ASCII `0`–`9` and `$` as the end of the string.
- A null string in a payment check is modelled as the empty string. `string.IsNullOrWhiteSpace` treats both alike, and every check rejects them first.
- `DateTime.Now` and `DateTime.TryParse` are the parameters `now` and `tryParse`. How dates are parsed and compared is not modelled.
- `ReviewService.DeleteReviewAsync`, `EditReviewAsync` and `GetReviewsAsync` are not modelled. The first two throw "not implemented", and the interface's `GetReviewsAsync` throws too.
- The `Review` model names its fields `MovieID` and `ReviewID`, while the service writes `MovieId`. The model follows the service's intent and sets the review's movie id.
- Async execution, concurrent requests, and the process-wide sharing of the user list are not modelled. Every operation is one atomic step, and the user list belongs to one controller object.
- A null movie passed to `AddMovieToRecentlyViewed`, and a null request body sent to any controller, are not modelled.
- HTTP routing, JSON serialisation and response wrappers are not modelled. Answers are the `Response` values of the model.
- No code reserves ticket inventory, so ticket `Quantity` and `Availability` never change in the model either.
