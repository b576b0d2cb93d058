/** MovieReviewApi's `CartController`: add a ticket to a cart, remove it,
    get or create a cart. Unlike CineBuzz's cart service it answers
    NotFound for an unknown cart, an unknown ticket and a ticket the cart
    lacks, creates a cart only when no id is given, and answers a removal
    with the total Σ quantity × price of the remaining lines. */
module MovieReviewCartsController {
  import opened Wrappers
  import opened Primitives
  import opened Tables
  import opened CartLines
  import opened MovieReviewModels

  /** What a cart line costs: its quantity times its ticket's price, or
      None when the ticket is missing (reading `item.Ticket.Price` would
      throw). */
  function LineAmount(item: CartItem, tickets: seq<Ticket>): (r: Option<int>)
    ensures r.None? <==> KeyAbsent(tickets, TicketKey, item.ticketId)
    ensures r.Some? ==> exists t :: t in tickets && t.ticketId == item.ticketId && r.value == item.quantity as int * t.price
  {
    match Find(tickets, TicketKey, item.ticketId)
    case None => None
    case Some(t) => Some(item.quantity as int * t.price)
  }

  /** `Sum(item => item.Quantity * item.Ticket.Price)` over `items`, or None
      when some line's ticket is missing. */
  function CartTotal(items: seq<CartItem>, tickets: seq<Ticket>): (r: Option<int>)
    ensures r.Some? <==> forall i :: 0 <= i < |items| ==> LineAmount(items[i], tickets).Some?
    ensures items == [] ==> r == Some(0)
  {
    if |items| == 0 then Some(0)
    else
      var amount := LineAmount(items[0], tickets);
      var rest := CartTotal(items[1..], tickets);
      assert forall i :: 1 <= i < |items| ==> items[i] == items[1..][i - 1];
      if amount.Some? && rest.Some? then Some(amount.value + rest.value) else None
  }

  /** The sum of two optional totals; None when either is. */
  function AddTotals(a: Option<int>, b: Option<int>): Option<int>
  {
    if a.Some? && b.Some? then Some(a.value + b.value) else None
  }

  /** The total of two runs of lines is the sum of their totals. */
  lemma {:induction false} CartTotalAppend(a: seq<CartItem>, b: seq<CartItem>, tickets: seq<Ticket>)
    ensures CartTotal(a + b, tickets) == AddTotals(CartTotal(a, tickets), CartTotal(b, tickets))
  {
    if |a| == 0 {
      assert a + b == b;
    } else {
      assert (a + b)[1..] == a[1..] + b;
      CartTotalAppend(a[1..], b, tickets);
    }
  }

  /** Removing line `i` takes exactly that line's amount off the total. */
  lemma {:induction false} TotalAfterRemove(items: seq<CartItem>, i: nat, tickets: seq<Ticket>)
    requires i < |items|
    requires CartTotal(items, tickets).Some?
    ensures LineAmount(items[i], tickets).Some?
    ensures CartTotal(RemoveAt(items, i), tickets)
         == Some(CartTotal(items, tickets).value - LineAmount(items[i], tickets).value)
  {
    assert items == items[..i] + ([items[i]] + items[i + 1..]);
    TotalWithoutMiddle(items[..i], items[i], items[i + 1..], tickets);
  }

  /** Taking a line out from between two runs takes its amount off the
      total. */
  lemma TotalWithoutMiddle(before: seq<CartItem>, item: CartItem, after: seq<CartItem>, tickets: seq<Ticket>)
    requires CartTotal(before + ([item] + after), tickets).Some?
    ensures LineAmount(item, tickets).Some?
    ensures CartTotal(before + after, tickets)
         == Some(CartTotal(before + ([item] + after), tickets).value - LineAmount(item, tickets).value)
  {
    CartTotalAppend(before, [item] + after, tickets);
    CartTotalAppend([item], after, tickets);
    SingleLineTotal(item, tickets);
    CartTotalAppend(before, after, tickets);
  }

  /** The total of one line is that line's amount. */
  lemma SingleLineTotal(item: CartItem, tickets: seq<Ticket>)
    ensures CartTotal([item], tickets) == LineAmount(item, tickets)
  {
    assert [item][1..] == [];
  }

  /** Two tickets at 15.00 and one at 10.00 cost 40.00. */
  lemma SampleTotal(cartId: int)
    ensures CartTotal([CartItem(cartId, 1, 2), CartItem(cartId, 2, 1)],
                      [Ticket(1, 1, "Movie 1", 1500), Ticket(2, 1, "Movie 2", 1000)]) == Some(4000)
  {
    var tickets := [Ticket(1, 1, "Movie 1", 1500), Ticket(2, 1, "Movie 2", 1000)];
    assert LineAmount(CartItem(cartId, 1, 2), tickets) == Some(3000);
    assert IndexOf(tickets, TicketKey, 2) == Some(1);
    assert LineAmount(CartItem(cartId, 2, 1), tickets) == Some(1000);
  }

  /** A cart and its total, the body of a successful removal. */
  datatype CartWithTotal = CartWithTotal(cart: Cart, total: int)

  class CartController {
    const context: MovieContext

    constructor (movieContext: MovieContext)
      ensures context == movieContext
    {
      context := movieContext;
    }

    /** Adds `quantity` of ticket `ticketId` to cart `cartId`: the cart must
        exist (checked first) and so must the ticket; the line for the
        ticket has its quantity raised, or a new line is appended. */
    method AddTicketToCart(cartId: int, ticketId: int, quantity: int32) returns (response: Response<string>)
      requires context.Valid()
      modifies context`carts
      ensures context.Valid()
      ensures KeyAbsent(old(context.carts), CartKey, cartId) ==>
        response == NotFound("Cart not found.") && context.carts == old(context.carts)
      ensures !KeyAbsent(old(context.carts), CartKey, cartId) && KeyAbsent(context.tickets, TicketKey, ticketId) ==>
        response == NotFound("Ticket not found.") && context.carts == old(context.carts)
      ensures !KeyAbsent(old(context.carts), CartKey, cartId) && !KeyAbsent(context.tickets, TicketKey, ticketId) ==>
        var i := IndexOf(old(context.carts), CartKey, cartId).value;
        var cart := old(context.carts)[i];
        && response == Ok("Ticket added to cart successfully.")
        && context.carts == old(context.carts)[i := cart.(cartItems := AddLine(cart.cartItems, cartId, ticketId, quantity))]
    {
      var found := IndexOf(context.carts, CartKey, cartId);
      if found.None? {
        return NotFound("Cart not found.");
      }
      var ticket := Find(context.tickets, TicketKey, ticketId);
      if ticket.None? {
        return NotFound("Ticket not found.");
      }
      var i := found.value;
      var cart := context.carts[i];
      AddLineEffect(cart.cartItems, cartId, ticketId, quantity);
      cart := cart.(cartItems := AddLine(cart.cartItems, cartId, ticketId, quantity));
      ReplaceFind(context.carts, CartKey, i, cart);
      context.carts := context.carts[i := cart];
      response := Ok("Ticket added to cart successfully.");
    }

    /** Removes the line for `ticketId` from cart `cartId` and answers with
        the cart and the total of its remaining lines. An unknown cart, or
        a cart without that ticket, is answered with NotFound and nothing
        changes; a remaining line whose ticket is missing makes the total
        throw after the removal has been saved. */
    method RemoveTicketFromCart(cartId: int, ticketId: int) returns (response: Response<CartWithTotal>)
      requires context.Valid()
      modifies context`carts
      ensures context.Valid()
      ensures KeyAbsent(old(context.carts), CartKey, cartId) ==>
        response == NotFound("Cart not found.") && context.carts == old(context.carts)
      ensures !KeyAbsent(old(context.carts), CartKey, cartId) ==>
        var i := IndexOf(old(context.carts), CartKey, cartId).value;
        var cart := old(context.carts)[i];
        var after := cart.(cartItems := RemoveLine(cart.cartItems, ticketId));
        && (LineFor(cart.cartItems, ticketId).None? ==>
              response == NotFound("Ticket not found in cart.") && context.carts == old(context.carts))
        && (LineFor(cart.cartItems, ticketId).Some? ==>
              && context.carts == old(context.carts)[i := after]
              && LineFor(after.cartItems, ticketId).None?
              && (CartTotal(after.cartItems, context.tickets).None? ==> response == ServerError)
              && (CartTotal(after.cartItems, context.tickets).Some? ==>
                    response == Ok(CartWithTotal(after, CartTotal(after.cartItems, context.tickets).value))))
    {
      var found := IndexOf(context.carts, CartKey, cartId);
      if found.None? {
        return NotFound("Cart not found.");
      }
      var i := found.value;
      var cart := context.carts[i];
      if LineFor(cart.cartItems, ticketId).None? {
        return NotFound("Ticket not found in cart.");
      }
      RemoveLineEffect(cart.cartItems, cartId, ticketId);
      cart := cart.(cartItems := RemoveLine(cart.cartItems, ticketId));
      ReplaceFind(context.carts, CartKey, i, cart);
      context.carts := context.carts[i := cart];
      var total := CartTotal(cart.cartItems, context.tickets);
      if total.None? {
        return ServerError;
      }
      response := Ok(CartWithTotal(cart, total.value));
    }

    /** With an id: the cart with that id, all its lines included, or
        NotFound; nothing changes either way. Without an id: a new empty
        cart under a generated id, stored and returned. */
    method GetCart(cartId: Option<int>) returns (response: Response<Cart>)
      requires context.Valid()
      modifies context`carts
      ensures context.Valid()
      ensures cartId.Some? ==> context.carts == old(context.carts)
      ensures cartId.Some? && KeyAbsent(old(context.carts), CartKey, cartId.value) ==>
        response == NotFound("Cart not found.")
      ensures cartId.Some? && !KeyAbsent(old(context.carts), CartKey, cartId.value) ==>
        response == Ok(old(context.carts)[IndexOf(old(context.carts), CartKey, cartId.value).value])
      ensures cartId.None? ==>
        && response.Ok?
        && response.value == Cart(NextKey(old(context.carts), CartKey), [])
        && KeyAbsent(old(context.carts), CartKey, response.value.cartId)
        && context.carts == old(context.carts) + [response.value]
    {
      if cartId.Some? {
        var cart := Find(context.carts, CartKey, cartId.value);
        if cart.None? {
          return NotFound("Cart not found.");
        }
        return Ok(cart.value);
      }
      var cart := Cart(NextKey(context.carts, CartKey), []);
      AppendUnique(context.carts, CartKey, cart);
      context.carts := context.carts + [cart];
      response := Ok(cart);
    }
  }
}
