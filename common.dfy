/** Types shared by every resource: identifiers, the optional value of a
    request-body field, and the reply a route handler sends back. */
module Common {

  /** A document identifier (a MongoDB ObjectId, abstracted as a number). */
  type Id = nat

  /** The identity of the authenticated caller (`req.user._id`). */
  type UserId = nat

  /** A point in time in milliseconds, as `Date.now()` returns it. */
  type Time = int

  /** A field of a JSON request body: present with a value, or absent. */
  datatype Option<+T> = None | Some(value: T) {
    function GetOr(default: T): T {
      match this
      case Some(v) => v
      case None => default
    }
  }

  /** What a route handler answers: the document (201/200), the removal
      confirmation of a delete, 404 for a missed ownership lookup, or 500
      for every exception caught by the handler. */
  datatype Reply<+T> = Ok(value: T) | Removed | NotFound | ServerError

  /** A string that Mongoose's `required` validator accepts: present and
      not empty. */
  predicate Filled(s: string) {
    |s| > 0
  }
}
