/** Small value types shared by every module of the bot model. */
module Common {

  /** A JavaScript value that may be `undefined`/`null`. */
  datatype Option<+T> = None | Some(value: T)

  /** The completion of an async call: a value, or a thrown (rejected) error. */
  datatype Outcome<+T> = Normal(value: T) | Thrown

  /** The `Response` objects the handlers build: `new Response("OK")` is 200. */
  datatype Response = Response(status: int)

  const OK := Response(200)
  const ServerError := Response(500)

  type ChatId = int
  type MessageId = int

  /** JavaScript truthiness of an optional string: `undefined`, `null` and `""` are falsy. */
  predicate Truthy(s: Option<string>) {
    s.Some? && s.value != ""
  }

  /** JavaScript truthiness of an optional number id: `undefined` and `0` are falsy. */
  predicate TruthyId(n: Option<int>) {
    n.Some? && n.value != 0
  }
}
