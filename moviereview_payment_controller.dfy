/** MovieReviewApi's `PaymentController.ProcessPayment`: the cart must
    exist and hold a line; then the card number, expiration date,
    cardholder name and CVC are checked in that order, the first failure
    deciding the BadRequest message; a payment that passes is charged the
    cart's total and the cart's lines are cleared. The clock is the
    parameter `now` and `DateTime.TryParse` the parameter `tryParse`, both
    reading dates as whole numbers on one time line. */
module MovieReviewPaymentController {
  import opened Wrappers
  import opened Primitives
  import opened Tables
  import opened CartLines
  import opened MovieReviewModels
  import opened MovieReviewCartsController

  /** The body of a successful payment. */
  datatype PaymentReceipt = PaymentReceipt(message: string, totalAmount: int)

  predicate CartFails(carts: seq<Cart>, cartId: int)
  {
    match Find(carts, CartKey, cartId)
    case None => true
    case Some(cart) => |cart.cartItems| == 0
  }

  predicate CardNumberFails(cardNumber: string)
  {
    IsBlank(cardNumber) || Utf16Length(cardNumber) != 16
  }

  predicate ExpirationDateFails(expirationDate: string, now: int, tryParse: string -> Option<int>)
  {
    IsBlank(expirationDate) || tryParse(expirationDate).None? || tryParse(expirationDate).value < now
  }

  predicate CardholderNameFails(cardholderName: string)
  {
    IsBlank(cardholderName)
  }

  predicate CvcFails(cvc: string)
  {
    IsBlank(cvc) || Utf16Length(cvc) != 3
  }

  /** The message of the first check the payment fails, or None when it
      passes all five. */
  function PaymentRejection(carts: seq<Cart>, request: PaymentRequest, now: int, tryParse: string -> Option<int>): (r: Option<string>)
    ensures r == Some("Cart is empty or does not exist.") <==> CartFails(carts, request.cartId)
    ensures r == Some("Invalid card number.") <==>
      !CartFails(carts, request.cartId) && CardNumberFails(request.cardNumber)
    ensures r == Some("Invalid or expired card.") <==>
      && !CartFails(carts, request.cartId) && !CardNumberFails(request.cardNumber)
      && ExpirationDateFails(request.expirationDate, now, tryParse)
    ensures r == Some("Cardholder name is required.") <==>
      && !CartFails(carts, request.cartId) && !CardNumberFails(request.cardNumber)
      && !ExpirationDateFails(request.expirationDate, now, tryParse)
      && CardholderNameFails(request.cardholderName)
    ensures r == Some("Invalid CVC.") <==>
      && !CartFails(carts, request.cartId) && !CardNumberFails(request.cardNumber)
      && !ExpirationDateFails(request.expirationDate, now, tryParse)
      && !CardholderNameFails(request.cardholderName) && CvcFails(request.cvc)
    ensures r.None? <==>
      && !CartFails(carts, request.cartId) && !CardNumberFails(request.cardNumber)
      && !ExpirationDateFails(request.expirationDate, now, tryParse)
      && !CardholderNameFails(request.cardholderName) && !CvcFails(request.cvc)
  {
    if CartFails(carts, request.cartId) then Some("Cart is empty or does not exist.")
    else if CardNumberFails(request.cardNumber) then Some("Invalid card number.")
    else if ExpirationDateFails(request.expirationDate, now, tryParse) then Some("Invalid or expired card.")
    else if CardholderNameFails(request.cardholderName) then Some("Cardholder name is required.")
    else if CvcFails(request.cvc) then Some("Invalid CVC.")
    else None
  }

  /** The card number check looks at the length only: sixteen letters
      pass although they are not digits. */
  lemma CardNumberLengthOnly()
    ensures !CardNumberFails("ABCDEFGHIJKLMNOP")
  {
    assert !IsWhiteSpace("ABCDEFGHIJKLMNOP"[0]);
    Utf16LengthOfBmp("ABCDEFGHIJKLMNOP");
  }

  /** Fifteen digits are one too few for a card number. */
  lemma ShortCardNumberFails()
    ensures CardNumberFails("411111111111111")
  {
    Utf16LengthOfBmp("411111111111111");
  }

  /** Lengths are counted in UTF-16 code units: an emoji followed by
      fourteen letters is a sixteen-unit card number and passes. */
  lemma CardNumberCountsCodeUnits()
    ensures !CardNumberFails("\U{1F600}ABCDEFGHIJKLMN")
  {
    assert !IsWhiteSpace("\U{1F600}ABCDEFGHIJKLMN"[0]);
    assert "\U{1F600}ABCDEFGHIJKLMN"[1..] == "ABCDEFGHIJKLMN";
    Utf16LengthOfBmp("ABCDEFGHIJKLMN");
  }

  /** An emoji and one letter make a three-unit CVC, which passes; an
      emoji and three letters make five units and fail. */
  lemma CvcCountsCodeUnits()
    ensures !CvcFails("\U{1F600}a")
    ensures CvcFails("\U{1F600}abc")
  {
    assert !IsWhiteSpace("\U{1F600}a"[0]);
    assert "\U{1F600}a"[1..] == "a";
    assert "\U{1F600}abc"[1..] == "abc";
    Utf16LengthOfBmp("abc");
  }

  /** A payment is accepted exactly when its cart exists and holds a line,
      the card number and the cardholder name are not blank, the card
      number has 16 UTF-16 code units, the expiration date parses to a time
      not before `now`, and the CVC is three code units not all white
      space. */
  lemma AcceptedExactly(carts: seq<Cart>, request: PaymentRequest, now: int, tryParse: string -> Option<int>)
    ensures PaymentRejection(carts, request, now, tryParse).None? <==>
      && !KeyAbsent(carts, CartKey, request.cartId)
      && |Find(carts, CartKey, request.cartId).value.cartItems| > 0
      && Utf16Length(request.cardNumber) == 16 && !IsBlank(request.cardNumber)
      && tryParse(request.expirationDate).Some? && tryParse(request.expirationDate).value >= now
      && !IsBlank(request.expirationDate)
      && !IsBlank(request.cardholderName)
      && Utf16Length(request.cvc) == 3 && !IsBlank(request.cvc)
  {
  }

  class PaymentController {
    const context: MovieContext

    constructor (movieContext: MovieContext)
      ensures context == movieContext
    {
      context := movieContext;
    }

    /** Checks the payment; a refused one changes nothing and is answered
        with BadRequest and the first failing check's message. An accepted
        one is answered with the total of the cart's lines, computed before
        they are cleared; the cart stays, with no lines. A line whose ticket
        is missing makes the total throw before anything changes. */
    method ProcessPayment(request: PaymentRequest, now: int, tryParse: string -> Option<int>)
      returns (response: Response<PaymentReceipt>)
      requires context.Valid()
      modifies context`carts
      ensures context.Valid()
      ensures PaymentRejection(old(context.carts), request, now, tryParse).Some? ==>
        && response == BadRequest(PaymentRejection(old(context.carts), request, now, tryParse).value)
        && context.carts == old(context.carts)
      ensures PaymentRejection(old(context.carts), request, now, tryParse).None? ==>
        var i := IndexOf(old(context.carts), CartKey, request.cartId).value;
        var total := CartTotal(old(context.carts)[i].cartItems, context.tickets);
        && (total.None? ==> response == ServerError && context.carts == old(context.carts))
        && (total.Some? ==>
              && response == Ok(PaymentReceipt("Payment successful!", total.value))
              && context.carts == old(context.carts)[i := old(context.carts)[i].(cartItems := [])])
    {
      var found := IndexOf(context.carts, CartKey, request.cartId);
      if found.None? || |context.carts[found.value].cartItems| == 0 {
        return BadRequest("Cart is empty or does not exist.");
      }
      if CardNumberFails(request.cardNumber) {
        return BadRequest("Invalid card number.");
      }
      if ExpirationDateFails(request.expirationDate, now, tryParse) {
        return BadRequest("Invalid or expired card.");
      }
      if CardholderNameFails(request.cardholderName) {
        return BadRequest("Cardholder name is required.");
      }
      if CvcFails(request.cvc) {
        return BadRequest("Invalid CVC.");
      }
      var i := found.value;
      var totalAmount := CartTotal(context.carts[i].cartItems, context.tickets);
      if totalAmount.None? {
        return ServerError;
      }
      var cart := context.carts[i].(cartItems := []);
      ReplaceFind(context.carts, CartKey, i, cart);
      context.carts := context.carts[i := cart];
      response := Ok(PaymentReceipt("Payment successful!", totalAmount.value));
    }
  }
}
