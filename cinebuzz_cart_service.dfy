/** CineBuzz's `CartService`: get-or-create a cart, add a ticket to it,
    remove a ticket from it. An unknown cart id is answered with a new
    empty cart, removal of a ticket the cart lacks is a silent no-op, and
    neither add nor remove recomputes `Total` or touches the ticket. */
module CineBuzzCartService {
  import opened Wrappers
  import opened Primitives
  import opened Tables
  import opened CartLines
  import opened CineBuzzModels

  /** The carts table after `GetCartAsync(requested)`: unchanged when the
      id names a cart, otherwise with one new empty cart appended under a
      key no cart had. */
  function CartsAfterGet(carts: seq<Cart>, requested: Option<int>): (r: seq<Cart>)
    ensures requested.Some? && !KeyAbsent(carts, CartKey, requested.value) ==> r == carts
    ensures requested.None? || KeyAbsent(carts, CartKey, requested.value) ==>
      && |r| == |carts| + 1 && r[..|carts|] == carts
      && r[|carts|] == EmptyCart(r[|carts|].cartId)
      && KeyAbsent(carts, CartKey, r[|carts|].cartId)
  {
    if requested.Some? && IndexOf(carts, CartKey, requested.value).Some? then carts
    else carts + [EmptyCart(NextKey(carts, CartKey))]
  }

  /** Where the cart that `GetCartAsync(requested)` returns sits in
      `CartsAfterGet(carts, requested)`. */
  function CartPosition(carts: seq<Cart>, requested: Option<int>): (p: nat)
    ensures p < |CartsAfterGet(carts, requested)|
    ensures requested.Some? && !KeyAbsent(carts, CartKey, requested.value) ==>
      CartsAfterGet(carts, requested)[p].cartId == requested.value
  {
    if requested.None? then |carts|
    else match IndexOf(carts, CartKey, requested.value)
      case None => |carts|
      case Some(i) => i
  }

  /** The carts table after `AddTicketToCartAsync(cartId, ticketId,
      quantity)` on a known ticket. */
  function CartsAfterAdd(carts: seq<Cart>, cartId: int, ticketId: int, quantity: int32): seq<Cart>
  {
    var got := CartsAfterGet(carts, Some(cartId));
    var p := CartPosition(carts, Some(cartId));
    got[p := got[p].(items := AddLine(got[p].items, got[p].cartId, ticketId, quantity))]
  }

  /** The carts table after `RemoveTicketFromCartAsync(cartId, ticketId)`. */
  function CartsAfterRemove(carts: seq<Cart>, cartId: int, ticketId: int): seq<Cart>
  {
    var got := CartsAfterGet(carts, Some(cartId));
    var p := CartPosition(carts, Some(cartId));
    got[p := got[p].(items := RemoveLine(got[p].items, ticketId))]
  }

  /** Getting a cart keeps the table valid, and the cart returned is the one
      a lookup by its id finds. */
  lemma {:induction false} GetKeepsValid(carts: seq<Cart>, requested: Option<int>)
    requires CartsValid(carts)
    ensures CartsValid(CartsAfterGet(carts, requested))
    ensures var got := CartsAfterGet(carts, requested);
      IndexOf(got, CartKey, got[CartPosition(carts, requested)].cartId) == Some(CartPosition(carts, requested))
  {
    var got := CartsAfterGet(carts, requested);
    var p := CartPosition(carts, requested);
    if got != carts {
      AppendUnique(carts, CartKey, got[|carts|]);
      assert got == carts + [got[|carts|]];
    }
    IndexOfIs(got, CartKey, got[p].cartId, p);
  }

  /** Adding a ticket keeps every cart's lines well-formed. */
  lemma {:induction false} AddKeepsValid(carts: seq<Cart>, cartId: int, ticketId: int, quantity: int32)
    requires CartsValid(carts)
    ensures CartsValid(CartsAfterAdd(carts, cartId, ticketId, quantity))
  {
    GetKeepsValid(carts, Some(cartId));
    var got := CartsAfterGet(carts, Some(cartId));
    var p := CartPosition(carts, Some(cartId));
    AddLineEffect(got[p].items, got[p].cartId, ticketId, quantity);
  }

  /** Removing a ticket keeps every cart's lines well-formed. */
  lemma {:induction false} RemoveKeepsValid(carts: seq<Cart>, cartId: int, ticketId: int)
    requires CartsValid(carts)
    ensures CartsValid(CartsAfterRemove(carts, cartId, ticketId))
  {
    GetKeepsValid(carts, Some(cartId));
    var got := CartsAfterGet(carts, Some(cartId));
    var p := CartPosition(carts, Some(cartId));
    RemoveLineEffect(got[p].items, got[p].cartId, ticketId);
  }

  /** On a cart that exists, removing the same ticket twice leaves the table
      as removing it once. (On an unknown id every call creates a cart of
      its own.) */
  lemma {:induction false} RemoveTwiceIsRemoveOnce(carts: seq<Cart>, cartId: int, ticketId: int)
    requires CartsValid(carts)
    requires !KeyAbsent(carts, CartKey, cartId)
    ensures CartsAfterRemove(CartsAfterRemove(carts, cartId, ticketId), cartId, ticketId)
         == CartsAfterRemove(carts, cartId, ticketId)
  {
    var p := CartPosition(carts, Some(cartId));
    var once := CartsAfterRemove(carts, cartId, ticketId);
    RemoveLineIdempotent(carts[p].items, carts[p].cartId, ticketId);
    RemoveKeepsValid(carts, cartId, ticketId);
    assert once[p].cartId == cartId;
    IndexOfIs(once, CartKey, cartId, p);
  }

  /** An add or a remove changes only the lines of the cart it resolves:
      that cart keeps its id, `Total` and `UserId`, and every other cart is
      untouched. */
  lemma {:induction false} EditsTouchOnlyLines(carts: seq<Cart>, cartId: int, ticketId: int, quantity: int32)
    ensures var got := CartsAfterGet(carts, Some(cartId));
      var p := CartPosition(carts, Some(cartId));
      var added := CartsAfterAdd(carts, cartId, ticketId, quantity);
      var removed := CartsAfterRemove(carts, cartId, ticketId);
      && |added| == |got| && |removed| == |got|
      && added[p].cartId == got[p].cartId && added[p].total == got[p].total && added[p].userId == got[p].userId
      && removed[p].cartId == got[p].cartId && removed[p].total == got[p].total && removed[p].userId == got[p].userId
      && (forall j :: 0 <= j < |got| && j != p ==> added[j] == got[j] && removed[j] == got[j])
  {
  }

  class CartService {
    const db: CineBuzzDbContext

    constructor (context: CineBuzzDbContext)
      ensures db == context
    {
      db := context;
    }

    /** Returns the cart with id `cartId`, or creates, stores and returns a
        new empty one when no id is given or no cart has it. */
    method GetCartAsync(cartId: Option<int>) returns (cart: Cart)
      requires db.Valid()
      modifies db`carts
      ensures db.Valid()
      ensures db.carts == CartsAfterGet(old(db.carts), cartId)
      ensures cart == db.carts[CartPosition(old(db.carts), cartId)]
      ensures IndexOf(db.carts, CartKey, cart.cartId) == Some(CartPosition(old(db.carts), cartId))
    {
      GetKeepsValid(db.carts, cartId);
      var found: Option<Cart> := None;
      if cartId.Some? {
        found := Find(db.carts, CartKey, cartId.value);
      }
      if found.None? {
        cart := EmptyCart(NextKey(db.carts, CartKey));
        db.carts := db.carts + [cart];
      } else {
        cart := found.value;
      }
    }

    /** Adds `quantity` of ticket `ticketId` to the cart `GetCartAsync`
        resolves `cartId` to; fails with "Ticket not found" (after that
        cart has been resolved, and possibly created) for an unknown
        ticket. */
    method AddTicketToCartAsync(cartId: int, ticketId: int, quantity: int32) returns (r: Result<Cart, string>)
      requires db.Valid()
      modifies db`carts
      ensures db.Valid()
      ensures db.tickets == old(db.tickets)
      ensures KeyAbsent(db.tickets, TicketKey, ticketId) ==>
        r == Failure("Ticket not found") && db.carts == CartsAfterGet(old(db.carts), Some(cartId))
      ensures !KeyAbsent(db.tickets, TicketKey, ticketId) ==>
        && db.carts == CartsAfterAdd(old(db.carts), cartId, ticketId, quantity)
        && r == Success(db.carts[CartPosition(old(db.carts), Some(cartId))])
    {
      AddKeepsValid(db.carts, cartId, ticketId, quantity);
      ghost var p := CartPosition(db.carts, Some(cartId));
      var cart := GetCartAsync(Some(cartId));
      var ticket := Find(db.tickets, TicketKey, ticketId);
      if ticket.None? {
        return Failure("Ticket not found");
      }
      var i := IndexOf(db.carts, CartKey, cart.cartId).value;
      assert i == p;
      cart := cart.(items := AddLine(cart.items, cart.cartId, ticketId, quantity));
      db.carts := db.carts[i := cart];
      r := Success(cart);
    }

    /** Removes the cart's line for `ticketId`, if it has one, from the cart
        `GetCartAsync` resolves `cartId` to, and returns that cart. */
    method RemoveTicketFromCartAsync(cartId: int, ticketId: int) returns (cart: Cart)
      requires db.Valid()
      modifies db`carts
      ensures db.Valid()
      ensures db.tickets == old(db.tickets)
      ensures db.carts == CartsAfterRemove(old(db.carts), cartId, ticketId)
      ensures cart == db.carts[CartPosition(old(db.carts), Some(cartId))]
    {
      RemoveKeepsValid(db.carts, cartId, ticketId);
      ghost var p := CartPosition(db.carts, Some(cartId));
      cart := GetCartAsync(Some(cartId));
      if LineFor(cart.items, ticketId).Some? {
        var i := IndexOf(db.carts, CartKey, cart.cartId).value;
        assert i == p;
        cart := cart.(items := RemoveLine(cart.items, ticketId));
        db.carts := db.carts[i := cart];
      }
    }
  }
}
