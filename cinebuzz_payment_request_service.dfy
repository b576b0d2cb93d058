/** CineBuzz's `PaymentRequestService`: list, find, add, update and delete
    payment requests. It validates nothing: every value is stored as
    given. */
module CineBuzzPaymentRequestService {
  import opened Wrappers
  import opened Tables
  import opened CineBuzzModels

  /** The request `UpdatePaymentRequestAsync` stores: the new CardNumber,
      ExpirationDate, CardholderName, CVC and CartId under the old
      PaymentRequestId. */
  function UpdatedRequest(existing: PaymentRequest, incoming: PaymentRequest): (r: PaymentRequest)
    ensures r == incoming.(paymentRequestId := existing.paymentRequestId)
  {
    existing.(cardNumber := incoming.cardNumber, expirationDate := incoming.expirationDate,
              cardholderName := incoming.cardholderName, cvc := incoming.cvc, cartId := incoming.cartId)
  }

  class PaymentRequestService {
    const db: CineBuzzDbContext

    constructor (context: CineBuzzDbContext)
      ensures db == context
    {
      db := context;
    }

    /** Every stored payment request, in store order. */
    function GetAllPaymentRequestsAsync(): (r: seq<PaymentRequest>)
      reads db
      ensures |r| == |db.paymentRequests| && forall i :: 0 <= i < |r| ==> r[i] == db.paymentRequests[i]
    {
      db.paymentRequests
    }

    /** The payment request with id `paymentRequestId`, or None. */
    function GetPaymentRequestByIdAsync(paymentRequestId: int): (r: Option<PaymentRequest>)
      reads db
      ensures r.Some? ==> r.value.paymentRequestId == paymentRequestId && r.value in db.paymentRequests
      ensures r.None? <==> forall p :: p in db.paymentRequests ==> p.paymentRequestId != paymentRequestId
    {
      Find(db.paymentRequests, PaymentRequestKey, paymentRequestId)
    }

    /** Stores `paymentRequest` as given (under a generated id when its
        PaymentRequestId is 0) and returns it; an id already in use makes
        the save fail. */
    method AddPaymentRequestAsync(paymentRequest: PaymentRequest) returns (r: Result<PaymentRequest, StoreError>)
      requires db.Valid()
      modifies db`paymentRequests
      ensures db.Valid()
      ensures ChooseKey(old(db.paymentRequests), PaymentRequestKey, paymentRequest.paymentRequestId).None? ==>
        r == Failure(DuplicateKey) && db.paymentRequests == old(db.paymentRequests)
      ensures ChooseKey(old(db.paymentRequests), PaymentRequestKey, paymentRequest.paymentRequestId).Some? ==>
        && r.Success?
        && r.value == paymentRequest.(paymentRequestId :=
             ChooseKey(old(db.paymentRequests), PaymentRequestKey, paymentRequest.paymentRequestId).value)
        && db.paymentRequests == old(db.paymentRequests) + [r.value]
        && |db.paymentRequests| == |old(db.paymentRequests)| + 1
        && GetPaymentRequestByIdAsync(r.value.paymentRequestId) == Some(r.value)
    {
      var key := ChooseKey(db.paymentRequests, PaymentRequestKey, paymentRequest.paymentRequestId);
      if key.None? {
        return Failure(DuplicateKey);
      }
      var stored := paymentRequest.(paymentRequestId := key.value);
      AppendFind(db.paymentRequests, PaymentRequestKey, stored);
      AppendUnique(db.paymentRequests, PaymentRequestKey, stored);
      db.paymentRequests := db.paymentRequests + [stored];
      r := Success(stored);
    }

    /** Overwrites the fields of request `paymentRequestId` and returns it;
        None and no change when there is no such request. */
    method UpdatePaymentRequestAsync(paymentRequestId: int, paymentRequest: PaymentRequest)
      returns (r: Option<PaymentRequest>)
      requires db.Valid()
      modifies db`paymentRequests
      ensures db.Valid()
      ensures KeyAbsent(old(db.paymentRequests), PaymentRequestKey, paymentRequestId) ==>
        r.None? && db.paymentRequests == old(db.paymentRequests)
      ensures !KeyAbsent(old(db.paymentRequests), PaymentRequestKey, paymentRequestId) ==>
        var i := IndexOf(old(db.paymentRequests), PaymentRequestKey, paymentRequestId).value;
        && r == Some(UpdatedRequest(old(db.paymentRequests)[i], paymentRequest))
        && db.paymentRequests == old(db.paymentRequests)[i := r.value]
      ensures r.Some? ==> GetPaymentRequestByIdAsync(paymentRequestId) == r
      ensures forall k :: k != paymentRequestId ==> GetPaymentRequestByIdAsync(k) == old(GetPaymentRequestByIdAsync(k))
    {
      var found := IndexOf(db.paymentRequests, PaymentRequestKey, paymentRequestId);
      if found.None? {
        return None;
      }
      var i := found.value;
      var existing := db.paymentRequests[i];
      existing := existing.(cardNumber := paymentRequest.cardNumber);
      existing := existing.(expirationDate := paymentRequest.expirationDate);
      existing := existing.(cardholderName := paymentRequest.cardholderName);
      existing := existing.(cvc := paymentRequest.cvc);
      existing := existing.(cartId := paymentRequest.cartId);
      ReplaceFind(db.paymentRequests, PaymentRequestKey, i, existing);
      db.paymentRequests := db.paymentRequests[i := existing];
      r := Some(existing);
    }

    /** Deletes request `paymentRequestId` if it exists; otherwise does
        nothing. */
    method DeletePaymentRequestAsync(paymentRequestId: int)
      requires db.Valid()
      modifies db`paymentRequests
      ensures db.Valid()
      ensures KeyAbsent(old(db.paymentRequests), PaymentRequestKey, paymentRequestId) ==>
        db.paymentRequests == old(db.paymentRequests)
      ensures !KeyAbsent(old(db.paymentRequests), PaymentRequestKey, paymentRequestId) ==>
        db.paymentRequests == RemoveAt(old(db.paymentRequests),
          IndexOf(old(db.paymentRequests), PaymentRequestKey, paymentRequestId).value)
      ensures GetPaymentRequestByIdAsync(paymentRequestId).None?
      ensures forall k :: k != paymentRequestId ==> GetPaymentRequestByIdAsync(k) == old(GetPaymentRequestByIdAsync(k))
    {
      var found := IndexOf(db.paymentRequests, PaymentRequestKey, paymentRequestId);
      if found.Some? {
        RemoveFind(db.paymentRequests, PaymentRequestKey, paymentRequestId, found.value);
        db.paymentRequests := RemoveAt(db.paymentRequests, found.value);
      }
    }
  }
}
