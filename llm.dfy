/**
 * The language-model call and the JSON parser, both outside the model. A model
 * call is an oracle: the k-th call of a request, given the text placed in the
 * prompt, either answers with some text or fails (an exception from the client,
 * a blocked response, a timeout). `json.loads` is an arbitrary partial function.
 */
module Llm {
  import opened Wrappers
  import Json

  datatype Reply = Answer(text: string) | CallFailed

  /** `oracle(k, payload)`: the reply to the k-th call whose prompt carries `payload`. */
  type Oracle = (nat, string) -> Reply

  /** `json.loads`: `None` stands for a `JSONDecodeError`. */
  type Parser = string -> Option<Json.Value>

  /** `json.dumps` / `json.dump`. */
  type Serializer = Json.Value -> string

  /** How a route reads one model call: the call raised, `json.loads` raised, or a value. */
  datatype Outcome = CallError | ParseError | Parsed(value: Json.Value)

  /** The reply text is cleaned by `clean` and handed to `json.loads`. */
  function Decode(reply: Reply, parse: Parser, clean: string -> string): (o: Outcome)
    ensures o.CallError? <==> reply.CallFailed?
    ensures reply.Answer? ==> (o.ParseError? <==> parse(clean(reply.text)).None?)
  {
    match reply
    case CallFailed => CallError
    case Answer(t) =>
      match parse(clean(t))
      case None => ParseError
      case Some(v) => Parsed(v)
  }

  /** A route's model calls as it reads them: call c with `payload` in the prompt. */
  type Ask = (nat, string) -> Outcome

  function Asking(oracle: Oracle, parse: Parser, clean: string -> string): Ask
  {
    (c: nat, payload: string) => Decode(oracle(c, payload), parse, clean)
  }
}
