/** Shared vocabulary of the bot: optional values, results, subscription tiers,
    conversation entries and the JavaScript truthiness rules the source relies on. */
module Common {

  datatype Option<+T> = None | Some(value: T)

  datatype Result<+R, +E> = Success(value: R) | Failure(error: E)

  /** The calendar day as `new Date().toDateString()` renders it; only equality matters. */
  type Day = string

  /** Subscription tier, the strings 'FREE' and 'PREMIUM' of the source. */
  datatype Tier = Free | Premium

  datatype Role = User | Assistant

  /** One entry of a conversation history: `{ role, content }`. */
  datatype Message = Message(role: Role, content: string)

  /** A nullable string is truthy in JavaScript when present and non-empty. */
  predicate Truthy(o: Option<string>)
  {
    o.Some? && o.value != ""
  }

  /** `o || d` for a nullable string `o`. */
  function OrElse(o: Option<string>, d: string): (r: string)
    ensures Truthy(o) ==> r == o.value
    ensures !Truthy(o) ==> r == d
  {
    if Truthy(o) then o.value else d
  }

  /** `o || null` for a nullable string `o`: the empty string becomes null. */
  function OrNull(o: Option<string>): (r: Option<string>)
    ensures r.Some? <==> Truthy(o)
    ensures r.Some? ==> r == o
  {
    if Truthy(o) then o else None
  }

  /** `s.startsWith(p)`. */
  predicate StartsWith(s: string, p: string)
  {
    |p| <= |s| && s[..|p|] == p
  }
}
