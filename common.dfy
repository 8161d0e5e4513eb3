/**
 * Values shared by every service: the optional value that stands for a
 * nullable reference, and the outcome of a service call.
 */
module Common {

  /** A nullable value: `None` is C#'s `null`. */
  datatype Option<+T> = None | Some(value: T)

  /**
   * The kind of HTTP result a service method returns. `Ok` stands for every
   * success result of the source (`Ok`, `Created`, `NoContent`, 204);
   * `ServerError` is the 500 a `catch` block answers when saving fails.
   */
  datatype Response = Ok | NotFound | BadRequest | Unauthorized | ServerError

  /** The identity of a user, as issued by the identity provider. */
  type UserId = string

  /** A string is null or empty (`IsNullOrEmpty`). */
  predicate IsNullOrEmpty(s: Option<string>)
  {
    s.None? || s.value == ""
  }
}
