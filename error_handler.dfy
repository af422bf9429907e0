/** errorHandler (src/middleware/errorHandler.js): the Express error middleware
    that turns a failure into one JSON response. Its checks run in a fixed
    order: a Mongoose ValidationError, a CastError, a duplicate-key error
    (code 11000), then anything else. */
module ErrorHandler {
  import opened Json

  /** The parts of a thrown error the handler looks at: its name, its numeric
      code if it has one, the messages of its sub-errors (err.errors, in key
      order), the keys of err.keyValue, and its own message. */
  datatype Failure = Failure(
    name: string,
    code: Option<int>,
    errors: seq<string>,
    keyValue: seq<string>,
    message: string)

  /** A JSON response: the status, the error text and, for validation errors,
      the list of details. */
  datatype Reply = Reply(status: int, error: string, details: Option<seq<string>>)

  const DuplicateKey: int := 11000

  /** The category a failure falls in, in the order the handler tests them. */
  datatype Category = Invalid | BadId | Duplicate | Other

  function CategoryOf(f: Failure): Category
  {
    if f.name == "ValidationError" then Invalid
    else if f.name == "CastError" then BadId
    else if f.code == Some(DuplicateKey) then Duplicate
    else Other
  }

  /** `${field} already exists` for the first key of keyValue; with no key the
      template renders JavaScript's undefined. */
  function DuplicateMessage(keys: seq<string>): (m: string)
    ensures keys != [] ==> m == keys[0] + " already exists"
  {
    (if keys == [] then "undefined" else keys[0]) + " already exists"
  }

  function Normalize(f: Failure): (r: Reply)
    ensures r.status == 400 <==> CategoryOf(f) != Other
    ensures r.status == 500 <==> CategoryOf(f) == Other
    ensures r.details.Some? <==> CategoryOf(f) == Invalid
    ensures r.details.Some? ==> r.details.value == f.errors
    ensures CategoryOf(f) == Invalid ==> r.error == "Validation Error"
    ensures CategoryOf(f) == BadId ==> r.error == "Invalid ID format"
    ensures CategoryOf(f) == Duplicate ==> r.error == DuplicateMessage(f.keyValue)
    ensures CategoryOf(f) == Other ==> r.error == "Internal server error"
  {
    if f.name == "ValidationError" then Reply(400, "Validation Error", Some(f.errors))
    else if f.name == "CastError" then Reply(400, "Invalid ID format", None)
    else if f.code == Some(DuplicateKey) then Reply(400, DuplicateMessage(f.keyValue), None)
    else Reply(500, "Internal server error", None)
  }

  /** The response never depends on the failure's own message, so no raw
      message reaches the client. */
  lemma {:induction false} MessageNeverShown(f: Failure, m: string)
    ensures Normalize(f.(message := m)) == Normalize(f)
  {
  }

  /** The first matching check decides: a ValidationError keeps its details even
      when it also carries code 11000, and a CastError is reported as such
      whatever its code. */
  lemma {:induction false} FirstCheckWins(f: Failure)
    ensures f.name == "ValidationError" ==> Normalize(f) == Reply(400, "Validation Error", Some(f.errors))
    ensures f.name == "CastError" ==> Normalize(f) == Reply(400, "Invalid ID format", None)
  {
  }

  /** A duplicate-key error that is not one of the named kinds names its first key. */
  lemma {:induction false} DuplicateNamesFirstKey(f: Failure)
    requires f.name != "ValidationError" && f.name != "CastError"
    requires f.code == Some(DuplicateKey) && f.keyValue != []
    ensures Normalize(f) == Reply(400, f.keyValue[0] + " already exists", None)
  {
  }

  /** The code must be the number 11000 itself: any other code falls through to 500. */
  lemma {:induction false} OtherCodesAreInternal(f: Failure)
    requires f.name != "ValidationError" && f.name != "CastError" && f.code != Some(DuplicateKey)
    ensures Normalize(f) == Reply(500, "Internal server error", None)
  {
  }
}
