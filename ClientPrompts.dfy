/**
 * The request texts and the offline fallback of the two provider clients:
 * `buildSystemPrompt`, `buildUserPrompt` and `generateFallbackPrompt`, which
 * src/services/anthropicClient.js and src/services/openaiClient.js define
 * identically.
 */
module ClientPrompts {
  import opened Strings
  import opened FocusAreas
  import opened ClientTemplates

  /** The metadata a client attaches to a prompt (the timestamp is not modelled). */
  datatype PromptMetadata = PromptMetadata(
    model: string,
    promptType: string,
    focusArea: string,
    promptLength: nat,
    estimatedTokens: nat,
    inputTokens: nat,
    outputTokens: nat)

  /** What a client hands back: the prompt and its metadata. */
  datatype GeneratedPrompt = GeneratedPrompt(prompt: string, metadata: PromptMetadata)

  /** The model name the fallback reports. */
  const FallbackModel: string := "fallback-template"

  /** The instruction stored under a focus area. */
  function FocusInstruction(ct: ClientTexts, f: Focus): string {
    match f
    case General => ct.generalInstruction
    case Coding => ct.codingInstruction
    case Design => ct.designInstruction
    case Architecture => ct.architectureInstruction
    case Debugging => ct.debuggingInstruction
  }

  /** The instruction that follows the base text: per focus area for a focused request, one sentence otherwise. */
  function SystemInstruction(ct: ClientTexts, promptType: string, focusArea: string): string {
    if promptType == "focused" then FocusInstruction(ct, FocusOf(focusArea)) else ct.comprehensiveInstruction
  }

  /** `buildSystemPrompt(promptType, focusArea)`. */
  function BuildSystemPrompt(ct: ClientTexts, promptType: string, focusArea: string): (r: string)
    ensures IsPrefix(ct.baseSystem + Sep, r)
  {
    ct.baseSystem + Sep + SystemInstruction(ct, promptType, focusArea)
  }

  /** A focused request for one of the five areas carries that area's instruction. */
  lemma FocusedSystemPrompt(ct: ClientTexts, focusArea: string, f: Focus)
    requires focusArea == FocusName(f)
    ensures BuildSystemPrompt(ct, "focused", focusArea) == ct.baseSystem + Sep + FocusInstruction(ct, f)
  {
    FocusOfName(f);
  }

  /** A focused request for any other area carries the general instruction. */
  lemma UnknownFocusSystemPrompt(ct: ClientTexts, focusArea: string)
    requires focusArea !in FocusNames
    ensures BuildSystemPrompt(ct, "focused", focusArea) == ct.baseSystem + Sep + ct.generalInstruction
  {
    FocusOfUnknown(focusArea);
  }

  /** Any request that is not focused carries the comprehensive sentence, whatever its focus area. */
  lemma UnfocusedSystemPrompt(ct: ClientTexts, promptType: string, focusArea: string)
    requires promptType != "focused"
    ensures BuildSystemPrompt(ct, promptType, focusArea) == ct.baseSystem + Sep + ct.comprehensiveInstruction
  {
  }

  /** The line that closes the requirements: fixed for a comprehensive request, naming the area otherwise. */
  function TypeLine(ct: ClientTexts, promptType: string, focusArea: string): string {
    if promptType == "comprehensive" then ct.comprehensiveLine
    else ct.focusedLineHead + focusArea + ct.focusedLineTail
  }

  /** `buildUserPrompt(userIdea, promptType, focusArea)`. */
  function BuildUserPrompt(ct: ClientTexts, idea: string, promptType: string, focusArea: string): (r: string)
    ensures IsPrefix(ct.requestHead + promptType + ct.requestTypeTail, r)
    ensures IsSuffix(ct.requestTail, r)
  {
    ct.requestHead + promptType + ct.requestTypeTail + ct.quote + idea + ct.quote + ct.requirements
      + TypeLine(ct, promptType, focusArea) + ct.requestTail
  }

  /** The user message quotes the idea verbatim. */
  lemma UserPromptQuotesIdea(ct: ClientTexts, idea: string, promptType: string, focusArea: string)
    ensures Contains(BuildUserPrompt(ct, idea, promptType, focusArea), ct.quote + idea + ct.quote)
  {
    var pre := ct.requestHead + promptType + ct.requestTypeTail;
    var post := ct.requirements + TypeLine(ct, promptType, focusArea) + ct.requestTail;
    ContainsMiddle(pre, ct.quote + idea + ct.quote, post);
    assert pre + (ct.quote + idea + ct.quote) + post == BuildUserPrompt(ct, idea, promptType, focusArea);
  }

  /** The user message carries the line its prompt type selects. */
  lemma UserPromptTypeLine(ct: ClientTexts, idea: string, promptType: string, focusArea: string)
    ensures promptType == "comprehensive" ==> Contains(BuildUserPrompt(ct, idea, promptType, focusArea), ct.comprehensiveLine)
    ensures promptType != "comprehensive" ==>
              Contains(BuildUserPrompt(ct, idea, promptType, focusArea), ct.focusedLineHead + focusArea + ct.focusedLineTail)
  {
    var pre := ct.requestHead + promptType + ct.requestTypeTail + ct.quote + idea + ct.quote + ct.requirements;
    ContainsMiddle(pre, TypeLine(ct, promptType, focusArea), ct.requestTail);
  }

  /** A comprehensive user message does not depend on the focus area. */
  lemma ComprehensiveUserPromptIgnoresFocus(ct: ClientTexts, idea: string, a1: string, a2: string)
    ensures BuildUserPrompt(ct, idea, "comprehensive", a1) == BuildUserPrompt(ct, idea, "comprehensive", a2)
  {
  }

  /**
   * The two builders test the prompt type differently: the system prompt
   * asks for a focused prompt only for "focused", the user message asks for
   * a comprehensive one only for "comprehensive". Any other type gets the
   * comprehensive system sentence and the focused user line.
   */
  lemma PromptTypeTestsDisagree(ct: ClientTexts, idea: string, promptType: string, focusArea: string)
    requires promptType != "focused" && promptType != "comprehensive"
    ensures BuildSystemPrompt(ct, promptType, focusArea) == BuildSystemPrompt(ct, "comprehensive", focusArea)
    ensures Contains(BuildUserPrompt(ct, idea, promptType, focusArea), ct.focusedLineHead + focusArea + ct.focusedLineTail)
  {
    UserPromptTypeLine(ct, idea, promptType, focusArea);
  }

  /** The focused fallback template stored under a focus area. */
  function FocusedFallback(ct: ClientTexts, f: Focus): Template {
    match f
    case General => ct.generalFallback
    case Coding => ct.codingFallback
    case Design => ct.designFallback
    case Architecture => ct.architectureFallback
    case Debugging => ct.debuggingFallback
  }

  /** `promptType === 'comprehensive' ? comprehensive : focused[focusArea] || focused.general`. */
  function FallbackTemplate(ct: ClientTexts, promptType: string, focusArea: string): Template {
    if promptType == "comprehensive" then ct.comprehensiveFallback else FocusedFallback(ct, FocusOf(focusArea))
  }

  /** A template with the idea put after its task label. */
  function FillTemplate(ct: ClientTexts, t: Template, idea: string): (r: string)
    ensures IsPrefix(t.intro + ct.taskLabel, r)
    ensures IsSuffix(t.outro, r)
  {
    t.intro + ct.taskLabel + idea + t.outro
  }

  /** `generateFallbackPrompt(userIdea, promptType, focusArea)`: a template and metadata without a model call. */
  function GenerateFallbackPrompt(ct: ClientTexts, idea: string, promptType: string, focusArea: string): (r: GeneratedPrompt)
    ensures r.metadata.model == FallbackModel
    ensures r.metadata.promptType == promptType && r.metadata.focusArea == focusArea
    ensures r.metadata.promptLength == |r.prompt|
    ensures 4 * r.metadata.estimatedTokens >= |r.prompt| && 4 * r.metadata.estimatedTokens < |r.prompt| + 4
    ensures r.metadata.inputTokens == 0 && r.metadata.outputTokens == 0
  {
    var prompt := FillTemplate(ct, FallbackTemplate(ct, promptType, focusArea), idea);
    GeneratedPrompt(prompt, PromptMetadata(FallbackModel, promptType, focusArea, |prompt|, EstimateTokens(|prompt|), 0, 0))
  }

  /** Every fallback prompt states the idea after the task label. */
  lemma FallbackQuotesIdea(ct: ClientTexts, idea: string, promptType: string, focusArea: string)
    ensures Contains(GenerateFallbackPrompt(ct, idea, promptType, focusArea).prompt, ct.taskLabel + idea)
  {
    var t := FallbackTemplate(ct, promptType, focusArea);
    ContainsMiddle(t.intro, ct.taskLabel + idea, t.outro);
    assert t.intro + (ct.taskLabel + idea) + t.outro == FillTemplate(ct, t, idea);
  }

  /** The fallback uses the comprehensive template exactly for "comprehensive", whatever the focus area. */
  lemma ComprehensiveFallback(ct: ClientTexts, idea: string, focusArea: string)
    ensures GenerateFallbackPrompt(ct, idea, "comprehensive", focusArea).prompt == FillTemplate(ct, ct.comprehensiveFallback, idea)
  {
  }

  /** Any other type uses the focused template of the area, the general one for an unknown area. */
  lemma FocusedFallbackChoice(ct: ClientTexts, idea: string, promptType: string, focusArea: string)
    requires promptType != "comprehensive"
    ensures focusArea !in FocusNames ==>
              GenerateFallbackPrompt(ct, idea, promptType, focusArea).prompt == FillTemplate(ct, ct.generalFallback, idea)
    ensures forall f: Focus :: focusArea == FocusName(f) ==>
              GenerateFallbackPrompt(ct, idea, promptType, focusArea).prompt == FillTemplate(ct, FocusedFallback(ct, f), idea)
  {
    if focusArea !in FocusNames {
      FocusOfUnknown(focusArea);
    }
    forall f: Focus | focusArea == FocusName(f)
      ensures FocusOf(focusArea) == f
    {
      FocusOfName(f);
    }
  }
}
