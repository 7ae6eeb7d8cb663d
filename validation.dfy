/**
 * What the forms need of their schema library and of their submit handlers:
 * a validation issue is a field path with a message, a parse either yields
 * the checked data or the issues, and a failed submit shows a message taken
 * from whatever was thrown.
 *
 * The library runs every field's checks and collects all their issues; an
 * object-level refinement runs as well unless a field failed with a type
 * error (an enum or number that could not be read), which stops the object.
 */
module Validation {
  import opened Js

  datatype Message =
    | Custom(text: string)                                 // a message written in the schema
    | TooSmall(minimum: int)                               // the default message of `.min(n)` on a number
    | TooBig(maximum: int)                                 // the default message of `.max(n)` on a number
    | InvalidEnumValue(options: seq<string>, received: string)
    | NotANumber                                           // `z.coerce.number()` on text that reads as NaN

  datatype Issue = Issue(path: string, message: Message)

  /** The outcome of `safeParse`: the checked data, or every issue found. */
  datatype Parsed<T> = Valid(data: T) | Invalid(issues: seq<Issue>)

  /** `[issue]` when a check fails, nothing when it passes. */
  function Check(ok: bool, issue: Issue): (issues: seq<Issue>)
    ensures ok <==> issues == []
    ensures !ok ==> issues == [issue]
  {
    if ok then [] else [issue]
  }

  /**
   * Issues that stop the object: a value of the wrong type (an enum option
   * outside the list, a number that reads as NaN). Its refinement is then
   * skipped; after any other issue it still runs.
   */
  predicate Aborts(m: Message)
  {
    m.InvalidEnumValue? || m.NotANumber?
  }

  /** Some issue of `issues` stops the object. */
  predicate AnyAborts(issues: seq<Issue>)
  {
    exists k :: 0 <= k < |issues| && Aborts(issues[k].message)
  }

  // ---------------------------------------------------------------------
  // Submit failures

  /**
   * An error value: what a submit handler catches, or the `error` that
   * `signUp` returns. It is an `Error` object, or any other value, which may
   * carry a `message` property.
   */
  datatype ErrorValue = ErrorInstance(message: string) | OtherValue(messageProperty: Option<string>)

  /** `error instanceof Error ? error.message : "An error occurred"`. */
  function CaughtMessage(t: ErrorValue): (m: string)
    ensures t.ErrorInstance? ==> m == t.message
    ensures t.OtherValue? ==> m == "An error occurred"
  {
    match t
    case ErrorInstance(message) => message
    case OtherValue(_) => "An error occurred"
  }

  /** `error.message` read off whatever was thrown; a value without that property shows no banner. */
  function MessageProperty(t: ErrorValue): (m: Option<string>)
    ensures t.ErrorInstance? ==> m == Some(t.message)
    ensures t.OtherValue? ==> m == t.messageProperty
  {
    match t
    case ErrorInstance(message) => Some(message)
    case OtherValue(property) => property
  }

  /**
   * What pressing submit did: the schema refused the form (the handler never
   * ran), the handler returned because nobody is signed in, or the payload was
   * handed to the insert.
   */
  datatype Submission<P> = Rejected(issues: seq<Issue>) | SignedOut | Sent(payload: P)

  /** The answer to a page's select query: it failed (and was logged), or it returned data, possibly null. */
  datatype Fetch<T> = Failed | Rows(data: Option<seq<T>>)

  /** `data || []`. */
  function RowsOrEmpty<T>(data: Option<seq<T>>): (rows: seq<T>)
    ensures data.Some? ==> rows == data.value
    ensures data.None? ==> rows == []
  {
    if data.Some? then data.value else []
  }
}
