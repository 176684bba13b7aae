/**
 * `generatePrompt` of src/services/anthropicClient.js: a key check, one
 * request, staged checks on the response, and a `catch` that classifies
 * what was thrown. The network call is the `exchange` parameter.
 */
module AnthropicClient {
  import opened Maybe
  import opened Strings
  import opened ClientTemplates
  import opened ClientPrompts
  import opened ClientResponses

  /** The parts of a Messages API reply the client reads: `content[0].text` and the usage counters. */
  datatype MessagesBody = MessagesBody(text: Option<string>, inputTokens: Option<nat>, outputTokens: Option<nat>)

  /** The model the request names. */
  const RequestModel: string := "claude-3-sonnet-20240229"

  /** The model the metadata reports. */
  const MetadataModel: string := "claude-3-sonnet"

  /** Thrown, unwrapped, when no key is configured. */
  const KeyMissing: string := "Anthropic API key not found." + " Please check your environment variables."

  /** The start of the message of a status error. */
  const StatusHead: string := "API Error: "

  /** The message of a reply without text. */
  const InvalidFormat: string := "Invalid response format from Anthropic API"

  /** The message a connection failure is reported with. */
  const ConnectionMessage: string :=
    "Unable to connect to Anthropic API."
    + " This is likely due to CORS restrictions when calling external APIs directly from the browser."
    + " Consider using a backend proxy server for production use."

  /** The message `fetch` throws when it cannot reach the server. */
  const FetchFailure: string := "Failed to fetch"

  /** The `catch` block: a failed fetch or a `TypeError` is a connection failure, anything else is wrapped. */
  function Classify(e: JsError): (r: string)
    ensures r == ConnectionMessage || r == Wrap(e)
  {
    if e.message == FetchFailure || e.name == "TypeError" then ConnectionMessage else Wrap(e)
  }

  /** A wrapped message is never the connection message, so the classification is exact. */
  lemma ClassifyExact(e: JsError)
    ensures Classify(e) == ConnectionMessage <==> e.message == FetchFailure || e.name == "TypeError"
  {
    assert Wrap(e)[0] == WrapPrefix[0] == 'F';
    assert ConnectionMessage[0] == 'U';
  }

  /** The error the client builds for a non-OK status is wrapped, never taken for a connection failure. */
  lemma StatusErrorWrapped(status: nat, message: Option<string>)
    ensures Classify(JsError(ErrorName, StatusMessage(StatusHead, status, message)))
         == WrapPrefix + StatusMessage(StatusHead, status, message)
  {
    StatusMessageParts(StatusHead, status, message);
    assert StatusMessage(StatusHead, status, message)[0] == StatusHead[0] == 'A';
  }

  /** The key error does not start like a wrapped error: it is thrown before the `try`. */
  lemma KeyErrorUnwrapped()
    ensures !IsPrefix(WrapPrefix, KeyMissing) && KeyMissing != ConnectionMessage
  {
    assert KeyMissing[0] == 'A';
  }

  class Client {
    /** `import.meta.env.VITE_ANTHROPIC_API_KEY`; `None` when unset. */
    const apiKey: Option<string>
    const texts: ClientTexts

    constructor(apiKey: Option<string>)
      ensures this.apiKey == apiKey && texts == StandardClientTexts
    {
      this.apiKey := apiKey;
      texts := StandardClientTexts;
    }

    /**
     * `generatePrompt(userIdea, promptType = 'comprehensive', focusArea = 'general')`,
     * with the model call as a leading parameter. `request` is the
     * request sent (`None` when the key check stops the call first) and
     * `result` the prompt with its metadata, or the message of the error
     * the caller sees.
     */
    method GeneratePrompt(exchange: Exchange<MessagesBody>, idea: string, promptType: string := "comprehensive", focusArea: string := "general")
      returns (request: Option<ApiRequest>, result: Result<GeneratedPrompt, string>)
      ensures !Truthy(apiKey) ==> request == None && result == Err(KeyMissing)
      ensures Truthy(apiKey) ==>
                request == Some(ApiRequest(RequestModel, BuildSystemPrompt(texts, promptType, focusArea),
                                           BuildUserPrompt(texts, idea, promptType, focusArea), MaxTokens, TemperatureTenths))
      ensures Truthy(apiKey) && exchange.FetchFailed? ==> result == Err(Classify(exchange.error))
      ensures Truthy(apiKey) && exchange.Responded? && !IsOk(exchange.status) ==>
                result == Err(WrapPrefix + StatusMessage(StatusHead, exchange.status, ErrorMessageOf(exchange.payload)))
      ensures Truthy(apiKey) && exchange.Responded? && IsOk(exchange.status) && exchange.payload.Unparsed? ==>
                result == Err(Classify(exchange.payload.error))
      ensures Truthy(apiKey) && Delivered(exchange) && !Truthy(exchange.payload.body.text) ==>
                result == Err(WrapPrefix + InvalidFormat)
      ensures Truthy(apiKey) && Delivered(exchange) && Truthy(exchange.payload.body.text) ==>
                var body := exchange.payload.body;
                var text := body.text.value;
                result == Ok(GeneratedPrompt(text, PromptMetadata(
                  MetadataModel, promptType, focusArea, |text|,
                  Counter(body.outputTokens, EstimateTokens(|text|)),
                  Counter(body.inputTokens, 0), Counter(body.outputTokens, 0))))
      ensures result.Ok? ==> request.Some? && result.value.prompt != "" && result.value.metadata.estimatedTokens > 0
      ensures result.Err? && request.Some? ==> result.error == ConnectionMessage || IsPrefix(WrapPrefix, result.error)
    {
      if !Truthy(apiKey) {
        return None, Err(KeyMissing);
      }
      var system := BuildSystemPrompt(texts, promptType, focusArea);
      var user := BuildUserPrompt(texts, idea, promptType, focusArea);
      request := Some(ApiRequest(RequestModel, system, user, MaxTokens, TemperatureTenths));
      var thrown: JsError;
      match exchange {
        case FetchFailed(e) =>
          thrown := e;
        case Responded(status, payload) =>
          if !IsOk(status) {
            thrown := JsError(ErrorName, StatusMessage(StatusHead, status, ErrorMessageOf(payload)));
            StatusErrorWrapped(status, ErrorMessageOf(payload));
          } else if payload.Unparsed? {
            thrown := payload.error;
          } else if !Truthy(payload.body.text) {
            thrown := JsError(ErrorName, InvalidFormat);
          } else {
            var body := payload.body;
            var text := body.text.value;
            var metadata := PromptMetadata(
              MetadataModel, promptType, focusArea, |text|,
              Counter(body.outputTokens, EstimateTokens(|text|)),
              Counter(body.inputTokens, 0), Counter(body.outputTokens, 0));
            return request, Ok(GeneratedPrompt(text, metadata));
          }
      }
      result := Err(Classify(thrown));
    }
  }
}
