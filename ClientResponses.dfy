/**
 * What the two provider clients share around a model call: the request
 * they send, an abstract view of the HTTP exchange that follows, and the
 * rules they use to read it (`response.ok`, `x || default` on optional
 * fields, the status error message and the "Failed to generate prompt: "
 * wrapper of their `catch` blocks).
 */
module ClientResponses {
  import opened Maybe
  import opened Strings

  /** A thrown JavaScript error: its `name` and its `message`. */
  datatype JsError = JsError(name: string, message: string)

  /** The body of a response: parsed JSON (with its `error?.message`), or a parse failure. */
  datatype Payload<Body> =
    | Parsed(body: Body, errorMessage: Option<string>)
    | Unparsed(error: JsError)

  /** A model call: `fetch` itself throws, or a response with a status code arrives. */
  datatype Exchange<Body> =
    | FetchFailed(error: JsError)
    | Responded(status: nat, payload: Payload<Body>)

  /** The request a client sends: model, system prompt, user message, `max_tokens` and `temperature` in tenths. */
  datatype ApiRequest = ApiRequest(model: string, system: string, user: string, maxTokens: nat, temperatureTenths: nat)

  /** `max_tokens` of both clients. */
  const MaxTokens: nat := 4000

  /** `temperature: 0.7`, in tenths. */
  const TemperatureTenths: nat := 7

  /** The `name` of an error built with `new Error(...)`. */
  const ErrorName: string := "Error"

  /** What the `catch` blocks put in front of the message of an error they re-throw. */
  const WrapPrefix: string := "Failed to generate prompt: "

  /** The message of a status error whose body names none. */
  const UnknownError: string := "Unknown error"

  /** The text between the status code and the message of a status error. */
  const StatusSeparator: string := " - "

  /** `response.ok`: a 2xx status. */
  predicate IsOk(status: nat) {
    200 <= status <= 299
  }

  /** The response has a success status and a body that parsed. */
  predicate Delivered<Body>(exchange: Exchange<Body>) {
    exchange.Responded? && IsOk(exchange.status) && exchange.payload.Parsed?
  }

  /** A JavaScript truthiness test on an optional string: present and not empty. */
  predicate Truthy(s: Option<string>) {
    s.Some? && s.value != ""
  }

  /** `counter || fallback` on an optional count: an absent count and a count of 0 both give the fallback. */
  function Counter(c: Option<nat>, fallback: nat): (r: nat)
    ensures r == fallback || (c.Some? && r == c.value && r != 0)
  {
    if c.Some? && c.value != 0 then c.value else fallback
  }

  /** A count of 0 is indistinguishable from a missing one. */
  lemma CounterZeroIsAbsent(fallback: nat)
    ensures Counter(Some(0), fallback) == Counter(None, fallback) == fallback
  {
  }

  /** A present, non-zero count is returned as it is, whatever the fallback. */
  lemma CounterTruthy(n: nat, fallback: nat)
    requires n != 0
    ensures Counter(Some(n), fallback) == n
  {
  }

  /** With 0 as the fallback, the truthiness test gives back the count itself, or 0 when there is none. */
  lemma CounterZeroFallback(c: Option<nat>)
    ensures Counter(c, 0) == (if c.Some? then c.value else 0)
  {
  }

  /** `errorData.error?.message` of a body; a body that did not parse is read as `{}`. */
  function ErrorMessageOf<Body>(p: Payload<Body>): Option<string> {
    if p.Parsed? then p.errorMessage else None
  }

  /** `` `${head}${status} - ${message || 'Unknown error'}` ``. */
  function StatusMessage(head: string, status: nat, message: Option<string>): string {
    head + NatToString(status) + StatusSeparator + (if Truthy(message) then message.value else UnknownError)
  }

  /** A status error names the status code, and the body's message or "Unknown error". */
  lemma StatusMessageParts(head: string, status: nat, message: Option<string>)
    ensures IsPrefix(head + NatToString(status) + StatusSeparator, StatusMessage(head, status, message))
    ensures Truthy(message) ==> IsSuffix(message.value, StatusMessage(head, status, message))
    ensures !Truthy(message) ==> IsSuffix(UnknownError, StatusMessage(head, status, message))
  {
    var pre := head + NatToString(status) + StatusSeparator;
    var msg := if Truthy(message) then message.value else UnknownError;
    assert StatusMessage(head, status, message) == pre + msg;
    assert (pre + msg)[..|pre|] == pre;
    assert (pre + msg)[|pre + msg| - |msg|..] == msg;
  }

  /** `` `Failed to generate prompt: ${error.message}` ``. */
  function Wrap(e: JsError): (r: string)
    ensures IsPrefix(WrapPrefix, r) && IsSuffix(e.message, r)
  {
    assert (WrapPrefix + e.message)[..|WrapPrefix|] == WrapPrefix;
    WrapPrefix + e.message
  }
}
