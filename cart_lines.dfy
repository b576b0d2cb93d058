/** The lines of a shopping cart and the two edits both backends make to
    them: the upsert of `AddTicketToCart` (raise the quantity of the
    ticket's line, or append a line) and the removal of the ticket's line.
    Both backends find the line with `FirstOrDefault(i => i.TicketId ==
    ticketId)`, so the lines form a table keyed by ticket id. Neither edit
    looks at or changes the ticket itself. */
module CartLines {
  import opened Wrappers
  import opened Primitives
  import opened Tables

  /** One line of a cart: `quantity` tickets of `ticketId`. */
  datatype CartItem = CartItem(cartId: int, ticketId: int, quantity: int32)

  function LineTicket(item: CartItem): int
  {
    item.ticketId
  }

  /** The lines of cart `cartId`: each belongs to it, and no ticket has two
      lines. */
  ghost predicate WellFormed(items: seq<CartItem>, cartId: int)
  {
    && UniqueKeys(items, LineTicket)
    && forall i :: 0 <= i < |items| ==> items[i].cartId == cartId
  }

  /** The line for `ticketId`, if the cart has one. */
  function LineFor(items: seq<CartItem>, ticketId: int): (r: Option<CartItem>)
    ensures r.Some? ==> r.value.ticketId == ticketId
    ensures r.None? <==> forall i :: 0 <= i < |items| ==> items[i].ticketId != ticketId
  {
    Find(items, LineTicket, ticketId)
  }

  /** The upsert of `AddTicketToCart`: the first line for the ticket has its
      quantity raised by `quantity` (32-bit addition), otherwise a new line
      is appended. */
  function AddLine(items: seq<CartItem>, cartId: int, ticketId: int, quantity: int32): (r: seq<CartItem>)
    ensures LineFor(items, ticketId).None? ==> |r| == |items| + 1 && r[..|items|] == items
    ensures LineFor(items, ticketId).Some? ==> |r| == |items|
  {
    match IndexOf(items, LineTicket, ticketId)
    case None => items + [CartItem(cartId, ticketId, quantity)]
    case Some(i) => items[i := items[i].(quantity := WrapAdd(items[i].quantity, quantity))]
  }

  /** The removal of `RemoveTicketFromCart`: the first line for the ticket
      is dropped; without one, nothing changes. */
  function RemoveLine(items: seq<CartItem>, ticketId: int): (r: seq<CartItem>)
    ensures LineFor(items, ticketId).None? ==> r == items
    ensures LineFor(items, ticketId).Some? ==> |r| == |items| - 1
  {
    match IndexOf(items, LineTicket, ticketId)
    case None => items
    case Some(i) => RemoveAt(items, i)
  }

  /** After an add, the ticket's line holds the old quantity plus
      `quantity` (or just `quantity` for a new line), every other ticket's
      line is as it was and sits where it was, and a well-formed cart stays
      well-formed: still at most one line per ticket. */
  lemma {:induction false} AddLineEffect(items: seq<CartItem>, cartId: int, ticketId: int, quantity: int32)
    requires WellFormed(items, cartId)
    ensures var r := AddLine(items, cartId, ticketId, quantity);
      && WellFormed(r, cartId)
      && LineFor(r, ticketId) == Some(CartItem(cartId, ticketId,
           match LineFor(items, ticketId)
           case None => quantity
           case Some(line) => WrapAdd(line.quantity, quantity)))
      && (forall t :: t != ticketId ==> LineFor(r, t) == LineFor(items, t))
      && (forall j :: 0 <= j < |items| && items[j].ticketId != ticketId ==> r[j] == items[j])
  {
    var r := AddLine(items, cartId, ticketId, quantity);
    match IndexOf(items, LineTicket, ticketId)
    case None =>
      var line := CartItem(cartId, ticketId, quantity);
      assert r == items + [line];
      AppendFind(items, LineTicket, line);
      AppendUnique(items, LineTicket, line);
    case Some(i) =>
      var line := items[i].(quantity := WrapAdd(items[i].quantity, quantity));
      assert r == items[i := line];
      ReplaceFind(items, LineTicket, i, line);
  }

  /** After a remove from a well-formed cart no line for the ticket is
      left, every other ticket's line is as it was, and the cart stays
      well-formed. */
  lemma {:induction false} RemoveLineEffect(items: seq<CartItem>, cartId: int, ticketId: int)
    requires WellFormed(items, cartId)
    ensures var r := RemoveLine(items, ticketId);
      && WellFormed(r, cartId)
      && LineFor(r, ticketId).None?
      && (forall t :: t != ticketId ==> LineFor(r, t) == LineFor(items, t))
  {
    match IndexOf(items, LineTicket, ticketId)
    case None =>
    case Some(i) =>
      RemoveFind(items, LineTicket, ticketId, i);
  }

  /** Removing a ticket's line twice leaves the cart as removing it once. */
  lemma {:induction false} RemoveLineIdempotent(items: seq<CartItem>, cartId: int, ticketId: int)
    requires WellFormed(items, cartId)
    ensures RemoveLine(RemoveLine(items, ticketId), ticketId) == RemoveLine(items, ticketId)
  {
    RemoveLineEffect(items, cartId, ticketId);
  }

  /** Adding quantity 2 and then 3 of one ticket to an empty cart yields a
      single line of quantity 5; a second ticket gets a line of its own. */
  lemma UpsertAggregates(cartId: int, t: int, u: int)
    requires t != u
    ensures AddLine(AddLine([], cartId, t, 2), cartId, t, 3) == [CartItem(cartId, t, 5)]
    ensures AddLine([CartItem(cartId, t, 2)], cartId, u, 1) == [CartItem(cartId, t, 2), CartItem(cartId, u, 1)]
  {
    assert IndexOf([CartItem(cartId, t, 2)], LineTicket, t) == Some(0);
  }
}
