/** Types shared by every part of the orders service: identities, the order
    status enumeration, the error kinds the handlers raise, and the store's
    lookup by identity. */
module Common {

  /** A store identity (an ObjectId in its string form). */
  type Id = string

  /** The identity of an authenticated user, as carried by the session. */
  type UserId = string

  datatype Option<T> = None | Some(value: T)

  datatype Result<T, E> = Success(value: T) | Failure(error: E)

  /** The order status enumeration. Being a datatype, a status is always
      one of these five values. */
  datatype OrderStatus =
    | Created
    | AwaitingPayment
    | Complete
    | CanceledByUser
    | CanceledExpired

  /** The statuses that hold a ticket: everything except the two canceled ones. */
  predicate Reserving(status: OrderStatus)
  {
    status == Created || status == AwaitingPayment || status == Complete
  }

  /** What a handler can throw. */
  datatype Error =
    | NotFoundError     // the handler's own "not found" error
    | CastError         // an identity that is not an ObjectId reached the store
    | ValidationError   // a document broke its schema (required field, minimum)
    | DuplicateKeyError // an insert reused an identity already stored
    | VersionError      // an update matched no document at the expected version
    | TypeError         // a field of a missing value was read

  predicate IsHexDigit(c: char)
  {
    '0' <= c <= '9' || 'a' <= c <= 'f' || 'A' <= c <= 'F'
  }

  /** Whether a string can stand for an ObjectId: any twelve characters, or
      twenty-four hexadecimal digits. */
  predicate ValidObjectId(s: string)
  {
    |s| == 12 || (|s| == 24 && forall i :: 0 <= i < 24 ==> IsHexDigit(s[i]))
  }

  /** Looking a document up by identity: a malformed identity is a cast
      error, an absent one is "no document". */
  function FindById<T>(m: map<Id, T>, id: Id): (r: Result<Option<T>, Error>)
    ensures r.Failure? <==> !ValidObjectId(id)
    ensures r.Failure? ==> r.error == CastError
    ensures r.Success? ==> (r.value.Some? <==> id in m)
    ensures r.Success? && r.value.Some? ==> r.value.value == m[id]
  {
    if !ValidObjectId(id) then Failure(CastError)
    else if id in m then Success(Some(m[id]))
    else Success(None)
  }
}
