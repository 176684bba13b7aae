/**
 * `generatePrompt` of src/services/openaiClient.js: a key check, one
 * request, staged checks on the response, and a `catch` that wraps
 * whatever was thrown. The network call is the `exchange` parameter.
 */
module OpenAIClient {
  import opened Maybe
  import opened Strings
  import opened ClientTemplates
  import opened ClientPrompts
  import opened ClientResponses

  /** The parts of a Chat Completions reply the client reads: `choices[0].message.content` and the usage counters. */
  datatype ChatBody = ChatBody(
    content: Option<string>,
    promptTokens: Option<nat>,
    completionTokens: Option<nat>,
    totalTokens: Option<nat>)

  /** The model the request names and the metadata reports. */
  const Model: string := "gpt-4o"

  /** Thrown, unwrapped, when no key is configured. */
  const KeyMissing: string := "OpenAI API key not found." + " Please check your environment variables."

  /** The start of the message of a status error. */
  const StatusHead: string := "OpenAI API Error: "

  /** The message of a reply without content. */
  const InvalidFormat: string := "Invalid response format from OpenAI API"

  /** The key error does not start like a wrapped error: it is thrown before the `try`. */
  lemma KeyErrorUnwrapped()
    ensures !IsPrefix(WrapPrefix, KeyMissing)
  {
    assert KeyMissing[0] == 'O';
  }

  class Client {
    /** `import.meta.env.VITE_OPENAI_API_KEY`; `None` when unset. */
    const apiKey: Option<string>
    const texts: ClientTexts

    constructor(apiKey: Option<string>)
      ensures this.apiKey == apiKey && texts == StandardClientTexts
    {
      this.apiKey := apiKey;
      texts := StandardClientTexts;
    }

    /**
     * `generatePrompt(userIdea, promptType = 'comprehensive', focusArea = 'general')`,
     * with the model call as a leading parameter. `request` is the
     * request sent (`None` when the key check stops the call first) and
     * `result` the prompt with its metadata, or the message of the error
     * the caller sees. Unlike the Anthropic client, a connection failure
     * is wrapped like every other error.
     */
    method GeneratePrompt(exchange: Exchange<ChatBody>, idea: string, promptType: string := "comprehensive", focusArea: string := "general")
      returns (request: Option<ApiRequest>, result: Result<GeneratedPrompt, string>)
      ensures !Truthy(apiKey) ==> request == None && result == Err(KeyMissing)
      ensures Truthy(apiKey) ==>
                request == Some(ApiRequest(Model, BuildSystemPrompt(texts, promptType, focusArea),
                                           BuildUserPrompt(texts, idea, promptType, focusArea), MaxTokens, TemperatureTenths))
      ensures Truthy(apiKey) && exchange.FetchFailed? ==> result == Err(Wrap(exchange.error))
      ensures Truthy(apiKey) && exchange.Responded? && !IsOk(exchange.status) ==>
                result == Err(WrapPrefix + StatusMessage(StatusHead, exchange.status, ErrorMessageOf(exchange.payload)))
      ensures Truthy(apiKey) && exchange.Responded? && IsOk(exchange.status) && exchange.payload.Unparsed? ==>
                result == Err(Wrap(exchange.payload.error))
      ensures Truthy(apiKey) && Delivered(exchange) && !Truthy(exchange.payload.body.content) ==>
                result == Err(WrapPrefix + InvalidFormat)
      ensures Truthy(apiKey) && Delivered(exchange) && Truthy(exchange.payload.body.content) ==>
                var body := exchange.payload.body;
                var content := body.content.value;
                result == Ok(GeneratedPrompt(content, PromptMetadata(
                  Model, promptType, focusArea, |content|,
                  Counter(body.totalTokens, EstimateTokens(|content|)),
                  Counter(body.promptTokens, 0), Counter(body.completionTokens, 0))))
      ensures result.Ok? ==> request.Some? && result.value.prompt != "" && result.value.metadata.estimatedTokens > 0
      ensures result.Err? && request.Some? ==> IsPrefix(WrapPrefix, result.error)
    {
      if !Truthy(apiKey) {
        return None, Err(KeyMissing);
      }
      var system := BuildSystemPrompt(texts, promptType, focusArea);
      var user := BuildUserPrompt(texts, idea, promptType, focusArea);
      request := Some(ApiRequest(Model, system, user, MaxTokens, TemperatureTenths));
      var thrown: JsError;
      match exchange {
        case FetchFailed(e) =>
          thrown := e;
        case Responded(status, payload) =>
          if !IsOk(status) {
            thrown := JsError(ErrorName, StatusMessage(StatusHead, status, ErrorMessageOf(payload)));
          } else if payload.Unparsed? {
            thrown := payload.error;
          } else if !Truthy(payload.body.content) {
            thrown := JsError(ErrorName, InvalidFormat);
          } else {
            var body := payload.body;
            var content := body.content.value;
            var metadata := PromptMetadata(
              Model, promptType, focusArea, |content|,
              Counter(body.totalTokens, EstimateTokens(|content|)),
              Counter(body.promptTokens, 0), Counter(body.completionTokens, 0));
            return request, Ok(GeneratedPrompt(content, metadata));
          }
      }
      result := Err(Wrap(thrown));
    }
  }
}
