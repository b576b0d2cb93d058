/** CineBuzz's `PaymentRequestsController.ProcessPayment`: four field
    checks, in order (card number, expiration date, cardholder name, CVC),
    the first failing one deciding the BadRequest message; a request that
    passes them all is stored through `PaymentRequestService` and answered
    with Ok. The regular expressions are read over ASCII digits and with
    `$` as the end of the string. No Luhn check and no date comparison is
    made. */
module CineBuzzPaymentRequestsController {
  import opened Wrappers
  import opened Primitives
  import opened Tables
  import opened CineBuzzModels
  import opened CineBuzzPaymentRequestService

  /** The answer of the endpoint, with the `Message` it carries. */
  datatype Response = Ok(message: string) | BadRequest(message: string)

  /** `^\d+$`: one or more digits and nothing else. */
  predicate MatchesDigits(s: string)
  {
    |s| >= 1 && AllDigits(s)
  }

  /** `^(0[1-9]|1[0-2])\/\d{2}$`: a month 01..12, a slash, two digits. */
  predicate MatchesExpiry(s: string)
  {
    && |s| == 5
    && ((s[0] == '0' && '1' <= s[1] <= '9') || (s[0] == '1' && '0' <= s[1] <= '2'))
    && s[2] == '/'
    && IsDigit(s[3]) && IsDigit(s[4])
  }

  /** `^\d{3,4}$`: three or four digits and nothing else. */
  predicate MatchesCvc(s: string)
  {
    3 <= |s| <= 4 && AllDigits(s)
  }

  predicate CardNumberFails(cardNumber: string)
  {
    IsBlank(cardNumber) || |cardNumber| < 13 || |cardNumber| > 19 || !MatchesDigits(cardNumber)
  }

  predicate ExpirationDateFails(expirationDate: string)
  {
    IsBlank(expirationDate) || !MatchesExpiry(expirationDate)
  }

  predicate CardholderNameFails(cardholderName: string)
  {
    IsBlank(cardholderName)
  }

  predicate CvcFails(cvc: string)
  {
    IsBlank(cvc) || !MatchesCvc(cvc)
  }

  /** The message of the first check `request` fails, or None when it
      passes all four. */
  function PaymentRejection(request: PaymentRequest): (r: Option<string>)
    ensures r == Some("Invalid card number") <==> CardNumberFails(request.cardNumber)
    ensures r == Some("Invalid expiration date format") <==>
      !CardNumberFails(request.cardNumber) && ExpirationDateFails(request.expirationDate)
    ensures r == Some("Cardholder name is required") <==>
      && !CardNumberFails(request.cardNumber) && !ExpirationDateFails(request.expirationDate)
      && CardholderNameFails(request.cardholderName)
    ensures r == Some("Invalid CVC") <==>
      && !CardNumberFails(request.cardNumber) && !ExpirationDateFails(request.expirationDate)
      && !CardholderNameFails(request.cardholderName) && CvcFails(request.cvc)
    ensures r.None? <==>
      && !CardNumberFails(request.cardNumber) && !ExpirationDateFails(request.expirationDate)
      && !CardholderNameFails(request.cardholderName) && !CvcFails(request.cvc)
  {
    if CardNumberFails(request.cardNumber) then Some("Invalid card number")
    else if ExpirationDateFails(request.expirationDate) then Some("Invalid expiration date format")
    else if CardholderNameFails(request.cardholderName) then Some("Cardholder name is required")
    else if CvcFails(request.cvc) then Some("Invalid CVC")
    else None
  }

  /** The numeric value of the month field of an `MM/YY` string. */
  function Month(s: string): (m: int)
    requires |s| >= 2 && IsDigit(s[0]) && IsDigit(s[1])
    ensures 0 <= m <= 99
  {
    (s[0] as int - '0' as int) * 10 + (s[1] as int - '0' as int)
  }

  /** A card number passes exactly when it is 13 to 19 digits long: the
      blank test adds nothing to the length and digit tests. */
  lemma CardNumberCheckMeans(cardNumber: string)
    ensures !CardNumberFails(cardNumber) <==> 13 <= |cardNumber| <= 19 && AllDigits(cardNumber)
  {
    if 13 <= |cardNumber| <= 19 && AllDigits(cardNumber) {
      DigitsAreNotBlank(cardNumber);
    }
  }

  /** An expiration date passes exactly when it is two digits, a slash and
      two digits, the first two naming a month 1..12. */
  lemma ExpirationDateCheckMeans(expirationDate: string)
    ensures !ExpirationDateFails(expirationDate) <==>
      && |expirationDate| == 5
      && IsDigit(expirationDate[0]) && IsDigit(expirationDate[1]) && expirationDate[2] == '/'
      && IsDigit(expirationDate[3]) && IsDigit(expirationDate[4])
      && 1 <= Month(expirationDate) <= 12
  {
    var s := expirationDate;
    if |s| == 5 && IsDigit(s[0]) && IsDigit(s[1]) && s[2] == '/' && IsDigit(s[3]) && IsDigit(s[4]) {
      if 1 <= Month(s) <= 12 {
        assert MatchesExpiry(s);
        assert !IsWhiteSpace(s[0]);
      }
    }
  }

  /** A CVC passes exactly when it is three or four digits. */
  lemma CvcCheckMeans(cvc: string)
    ensures !CvcFails(cvc) <==> 3 <= |cvc| <= 4 && AllDigits(cvc)
  {
    if 3 <= |cvc| <= 4 && AllDigits(cvc) {
      DigitsAreNotBlank(cvc);
    }
  }

  /** A request is accepted exactly when its card number is 13 to 19
      digits, its expiration date is `MM/YY` with a month 1..12, its
      cardholder name holds a non-white-space character and its CVC is 3 or
      4 digits. */
  lemma AcceptedExactly(request: PaymentRequest)
    ensures PaymentRejection(request).None? <==>
      && 13 <= |request.cardNumber| <= 19 && AllDigits(request.cardNumber)
      && MatchesExpiry(request.expirationDate)
      && !IsBlank(request.cardholderName)
      && 3 <= |request.cvc| <= 4 && AllDigits(request.cvc)
  {
    CardNumberCheckMeans(request.cardNumber);
    CvcCheckMeans(request.cvc);
    if MatchesExpiry(request.expirationDate) {
      assert !IsWhiteSpace(request.expirationDate[2]);
    }
  }

  /** The sample requests: a well-formed one is accepted, and each field
      in turn, made invalid, is refused with its own message. */
  lemma SampleRequests(cartId: int, id: int)
    ensures PaymentRejection(PaymentRequest(cartId, id, "4111111111111111", "12/25", "John Doe", "123")).None?
    ensures PaymentRejection(PaymentRequest(cartId, id, "abcd1234", "12/25", "John Doe", "123"))
         == Some("Invalid card number")
    ensures PaymentRejection(PaymentRequest(cartId, id, "4111111111111111", "13/25", "John Doe", "123"))
         == Some("Invalid expiration date format")
    ensures PaymentRejection(PaymentRequest(cartId, id, "4111111111111111", "12/25", "", "123"))
         == Some("Cardholder name is required")
    ensures PaymentRejection(PaymentRequest(cartId, id, "4111111111111111", "12/25", "John Doe", "12"))
         == Some("Invalid CVC")
  {
    AcceptedExactly(PaymentRequest(cartId, id, "4111111111111111", "12/25", "John Doe", "123"));
    assert !IsWhiteSpace("John Doe"[0]);
    assert !IsDigit("abcd1234"[0]);
  }

  class PaymentRequestsController {
    const paymentRequestService: PaymentRequestService

    constructor (service: PaymentRequestService)
      ensures paymentRequestService == service
    {
      paymentRequestService := service;
    }

    /** Checks `request`; a refused request stores nothing and is answered
        with BadRequest and the first failing check's message; an accepted
        one is stored once, under a generated id, with the request's CartId,
        CardNumber, ExpirationDate, CardholderName and CVC. */
    method ProcessPayment(request: PaymentRequest) returns (response: Response)
      requires paymentRequestService.db.Valid()
      modifies paymentRequestService.db`paymentRequests
      ensures paymentRequestService.db.Valid()
      ensures PaymentRejection(request).Some? ==>
        && response == BadRequest(PaymentRejection(request).value)
        && paymentRequestService.db.paymentRequests == old(paymentRequestService.db.paymentRequests)
      ensures PaymentRejection(request).None? ==>
        && response == Ok("Payment processed successfully")
        && paymentRequestService.db.paymentRequests == old(paymentRequestService.db.paymentRequests) +
             [request.(paymentRequestId := NextKey(old(paymentRequestService.db.paymentRequests), PaymentRequestKey))]
    {
      if CardNumberFails(request.cardNumber) {
        return BadRequest("Invalid card number");
      }
      if ExpirationDateFails(request.expirationDate) {
        return BadRequest("Invalid expiration date format");
      }
      if CardholderNameFails(request.cardholderName) {
        return BadRequest("Cardholder name is required");
      }
      if CvcFails(request.cvc) {
        return BadRequest("Invalid CVC");
      }
      var paymentRequest := PaymentRequest(
        request.cartId, 0, request.cardNumber, request.expirationDate, request.cardholderName, request.cvc);
      var _ := paymentRequestService.AddPaymentRequestAsync(paymentRequest);
      response := Ok("Payment processed successfully");
    }
  }
}
