/**
 * The prompt assembly of src/services/promptGenerator.js.
 *
 * A generated prompt is a list of blocks, each rendered to text, joined by
 * blank lines (`Assemble`). `ComprehensiveLayout` and `FocusedLayout` say
 * which blocks each generator emits and in what order; the class
 * `Generator` holds the tables the JavaScript constructor builds, and its
 * methods grow the prompt with `+=` exactly as the JavaScript does, each
 * proved to produce the assembly of its layout.
 */
module PromptGenerator {
  import opened Strings
  import opened Seqs
  import opened PromptTemplates
  import opened PromptAnalysis
  import opened PromptSections
  import opened FocusAreas

  // ---------------------------------------------------------------------
  // Prompt layouts
  // ---------------------------------------------------------------------

  /** The blocks a generated prompt is made of, each rendered to one piece of text. */
  datatype Block =
    | Title(idea: string)
    | IdentityBlock
    | CommunicationBlock
    | ToolUsageBlock
    | CodeDevelopmentBlock
    | ProblemSolvingBlock
    | DomainsBlock(domains: seq<string>)
    | WebDevelopmentBlock
    | AiAutomationBlock
    | ComplexityBlock(complexity: string)
    | TechnologyBlock(technologies: seq<string>)
    | SafetyEthicsBlock
    | TaskBlock(idea: string)
    | RoleBlock(focusArea: string)
    | FocusedTaskBlock(idea: string)

  /** The text of one block. */
  function Render(texts: Texts, table: seq<DomainInfo>, b: Block): string {
    match b
    case Title(idea) => texts.titleHead + idea + texts.titleTail
    case IdentityBlock => texts.identity
    case CommunicationBlock => texts.communication
    case ToolUsageBlock => texts.toolUsage
    case CodeDevelopmentBlock => texts.codeDevelopment
    case ProblemSolvingBlock => texts.problemSolving
    case DomainsBlock(domains) => DomainSections(texts, table, domains)
    case WebDevelopmentBlock => texts.webDevelopment
    case AiAutomationBlock => texts.aiAutomation
    case ComplexityBlock(complexity) => ComplexityGuidelines(texts, complexity)
    case TechnologyBlock(technologies) => TechnologyInstructions(texts, technologies)
    case SafetyEthicsBlock => texts.safetyEthics
    case TaskBlock(idea) => texts.taskHeading + texts.userRequest + idea + texts.taskTail
    case RoleBlock(focusArea) => RoleText(texts, focusArea)
    case FocusedTaskBlock(idea) => texts.focusedTaskHead + idea + texts.focusedTaskTail
  }

  /** The texts of a layout's blocks, in order. */
  function RenderAll(texts: Texts, table: seq<DomainInfo>, layout: seq<Block>): (r: seq<string>)
    ensures |r| == |layout|
  {
    if layout == [] then [] else [Render(texts, table, layout[0])] + RenderAll(texts, table, layout[1..])
  }

  /** Rendering one more block appends its text. */
  lemma {:induction false} RenderAllSnoc(texts: Texts, table: seq<DomainInfo>, layout: seq<Block>, b: Block)
    ensures RenderAll(texts, table, layout + [b]) == RenderAll(texts, table, layout) + [Render(texts, table, b)]
    decreases |layout|
  {
    if layout != [] {
      assert (layout + [b])[1..] == layout[1..] + [b];
      RenderAllSnoc(texts, table, layout[1..], b);
    }
  }

  /** The `k`-th text is the text of the `k`-th block. */
  lemma {:induction false} RenderAllAt(texts: Texts, table: seq<DomainInfo>, layout: seq<Block>, k: nat)
    requires k < |layout|
    ensures RenderAll(texts, table, layout)[k] == Render(texts, table, layout[k])
    decreases k
  {
    if k > 0 {
      RenderAllAt(texts, table, layout[1..], k - 1);
    }
  }

  /** Rendering a concatenation of layouts concatenates their texts. */
  lemma {:induction false} RenderAllAppend(texts: Texts, table: seq<DomainInfo>, a: seq<Block>, b: seq<Block>)
    ensures RenderAll(texts, table, a + b) == RenderAll(texts, table, a) + RenderAll(texts, table, b)
    decreases |a|
  {
    if a == [] {
      assert a + b == b;
    } else {
      assert (a + b)[1..] == a[1..] + b;
      RenderAllAppend(texts, table, a[1..], b);
    }
  }

  /** A prompt is its blocks' texts separated by blank lines. */
  function Assemble(texts: Texts, table: seq<DomainInfo>, layout: seq<Block>): string {
    Join(RenderAll(texts, table, layout), Sep)
  }

  /** Appending a block appends a blank line and the block's text. */
  lemma AssembleSnoc(texts: Texts, table: seq<DomainInfo>, layout: seq<Block>, b: Block)
    requires layout != []
    ensures Assemble(texts, table, layout + [b]) == Assemble(texts, table, layout) + Sep + Render(texts, table, b)
  {
    RenderAllSnoc(texts, table, layout, b);
    JoinSnoc(RenderAll(texts, table, layout), Render(texts, table, b), Sep);
  }

  /** The prompt of a layout starts with the prompt of any non-empty prefix of it. */
  lemma AssembleStartsWith(texts: Texts, table: seq<DomainInfo>, layout: seq<Block>, k: nat)
    requires 0 < k <= |layout|
    ensures IsPrefix(Assemble(texts, table, layout[..k]), Assemble(texts, table, layout))
  {
    if k < |layout| {
      var head := layout[..k];
      var tail := layout[k..];
      assert layout == head + tail;
      RenderAllAppend(texts, table, head, tail);
      JoinAppend(RenderAll(texts, table, head), RenderAll(texts, table, tail), Sep);
      var h := Assemble(texts, table, head);
      assert Assemble(texts, table, layout) == h + (Sep + Assemble(texts, table, tail));
      assert (h + (Sep + Assemble(texts, table, tail)))[..|h|] == h;
    } else {
      assert layout[..k] == layout;
    }
  }

  /** The prompt of a layout ends with the text of its last block. */
  lemma AssembleEndsWith(texts: Texts, table: seq<DomainInfo>, layout: seq<Block>)
    requires layout != []
    ensures IsSuffix(Render(texts, table, layout[|layout| - 1]), Assemble(texts, table, layout))
  {
    RenderAllAt(texts, table, layout, |layout| - 1);
    JoinEndsWithLast(RenderAll(texts, table, layout), Sep);
  }

  /** The text of every block of a layout occurs in its prompt. */
  lemma AssembleContains(texts: Texts, table: seq<DomainInfo>, layout: seq<Block>, k: nat)
    requires k < |layout|
    ensures Contains(Assemble(texts, table, layout), Render(texts, table, layout[k]))
  {
    RenderAllAt(texts, table, layout, k);
    JoinContainsEach(RenderAll(texts, table, layout), Sep, k);
  }

  /** The text of every block of a layout occurs in its prompt. */
  lemma AssembleContainsBlock(texts: Texts, table: seq<DomainInfo>, layout: seq<Block>, b: Block, text: string)
    requires b in layout && text == Render(texts, table, b)
    ensures Contains(Assemble(texts, table, layout), text)
  {
    var k :| 0 <= k < |layout| && layout[k] == b;
    AssembleContains(texts, table, layout, k);
  }

  /** A block that is present only when its condition holds. */
  function OptionalBlock(present: bool, b: Block): seq<Block> {
    if present then [b] else []
  }

  /** Appending an optional block changes the prompt only when the block is present. */
  lemma AssembleOptional(texts: Texts, table: seq<DomainInfo>, layout: seq<Block>, present: bool, b: Block)
    requires layout != []
    ensures Assemble(texts, table, layout + OptionalBlock(present, b)) ==
      if present then Assemble(texts, table, layout) + Sep + Render(texts, table, b) else Assemble(texts, table, layout)
  {
    if present {
      AssembleSnoc(texts, table, layout, b);
    } else {
      assert layout + OptionalBlock(present, b) == layout;
    }
  }

  /** `if (present) prompt += '\n\n' + text`: one conditional step of a generator. */
  function AppendIf(prompt: string, present: bool, text: string): string {
    if present then prompt + (Sep + text) else prompt
  }

  /** A conditional step on an assembled prompt assembles the layout with the optional block. */
  lemma AppendAssembles(texts: Texts, table: seq<DomainInfo>, layout: seq<Block>, prompt: string,
                        present: bool, b: Block, text: string)
    requires layout != []
    requires prompt == Assemble(texts, table, layout)
    requires text == Render(texts, table, b)
    ensures AppendIf(prompt, present, text) == Assemble(texts, table, layout + OptionalBlock(present, b))
  {
    AssembleOptional(texts, table, layout, present, b);
    if present {
      ConcatAssoc(prompt, Sep, text);
    }
  }

  /** The six blocks every comprehensive prompt opens with. */
  function Opening(idea: string): seq<Block> {
    [Title(idea), IdentityBlock, CommunicationBlock, ToolUsageBlock, CodeDevelopmentBlock, ProblemSolvingBlock]
  }

  /** The condition under which the AI and automation block is added. */
  predicate WantsAiBlock(idea: string, analysis: Analysis) {
    "data-science" in analysis.domains || Contains(Lower(idea), "ai")
  }

  /** The opening blocks and the three optional blocks that may follow them. */
  function ComprehensiveHead(idea: string, analysis: Analysis): seq<Block> {
    Opening(idea)
      + OptionalBlock(analysis.domains != [], DomainsBlock(analysis.domains))
      + OptionalBlock("web-development" in analysis.domains, WebDevelopmentBlock)
      + OptionalBlock(WantsAiBlock(idea, analysis), AiAutomationBlock)
  }

  /** The blocks of the comprehensive prompt, in order, with the optional ones present when their condition holds. */
  function ComprehensiveLayout(idea: string, analysis: Analysis): seq<Block> {
    ComprehensiveHead(idea, analysis)
      + [ComplexityBlock(analysis.complexity)]
      + OptionalBlock(analysis.technologies != [], TechnologyBlock(analysis.technologies))
      + [SafetyEthicsBlock]
      + [TaskBlock(idea)]
  }

  /** `slice(0, 2)`: at most the first two entries. */
  function FirstTwo(domains: seq<string>): (r: seq<string>)
    ensures |r| == if |domains| < 2 then |domains| else 2
    ensures r == domains[..|r|]
  {
    if |domains| <= 2 then domains else domains[..2]
  }

  /** The blocks of the focused prompt: role, sections of the first two domains, task. */
  function FocusedLayout(idea: string, analysis: Analysis, focusArea: string): seq<Block> {
    [RoleBlock(focusArea)]
      + OptionalBlock(analysis.domains != [], DomainsBlock(FirstTwo(analysis.domains)))
      + [FocusedTaskBlock(idea)]
  }

  /** The metadata attached to a locally generated prompt (the timestamp is not modelled). */
  datatype Metadata =
    | ComprehensiveMetadata(domains: seq<string>, complexity: string, technologies: seq<string>,
                            promptLength: nat, estimatedTokens: nat)
    | FocusedMetadata(focusArea: string, promptLength: nat, estimatedTokens: nat)

  /** What both generators return. */
  datatype Generated = Generated(prompt: string, analysis: Analysis, metadata: Metadata)

  /** The opening text written as one template literal is the join of the six opening blocks. */
  lemma OpeningText(texts: Texts, table: seq<DomainInfo>, idea: string)
    ensures Assemble(texts, table, Opening(idea)) ==
      texts.titleHead + idea + texts.titleTail + Sep + texts.identity + Sep + texts.communication + Sep + texts.toolUsage
        + Sep + texts.codeDevelopment + Sep + texts.problemSolving
  {
    var o := Opening(idea);
    assert Assemble(texts, table, o[..1]) == texts.titleHead + idea + texts.titleTail;
    AssembleSnoc(texts, table, o[..1], o[1]);
    assert o[..2] == o[..1] + [o[1]];
    AssembleSnoc(texts, table, o[..2], o[2]);
    assert o[..3] == o[..2] + [o[2]];
    AssembleSnoc(texts, table, o[..3], o[3]);
    assert o[..4] == o[..3] + [o[3]];
    AssembleSnoc(texts, table, o[..4], o[4]);
    assert o[..5] == o[..4] + [o[4]];
    AssembleSnoc(texts, table, o[..5], o[5]);
    assert o == o[..5] + [o[5]];
  }

  /** The first part of the comprehensive prompt as `generateComprehensivePrompt` grows it. */
  function ComprehensiveHeadText(texts: Texts, table: seq<DomainInfo>, idea: string, analysis: Analysis): string {
    var opening := texts.titleHead + idea + texts.titleTail + Sep + texts.identity + Sep + texts.communication
      + Sep + texts.toolUsage + Sep + texts.codeDevelopment + Sep + texts.problemSolving;
    var withDomains := AppendIf(opening, analysis.domains != [], DomainSections(texts, table, analysis.domains));
    var withWeb := AppendIf(withDomains, "web-development" in analysis.domains, texts.webDevelopment);
    AppendIf(withWeb, WantsAiBlock(idea, analysis), texts.aiAutomation)
  }

  /**
   * The comprehensive prompt as `generateComprehensivePrompt` grows it: the
   * opening template, then one conditional append per block.
   */
  function ComprehensiveText(texts: Texts, table: seq<DomainInfo>, idea: string, analysis: Analysis): string {
    var withComplexity :=
      AppendIf(ComprehensiveHeadText(texts, table, idea, analysis), true, ComplexityGuidelines(texts, analysis.complexity));
    var withTechnologies :=
      AppendIf(withComplexity, analysis.technologies != [], TechnologyInstructions(texts, analysis.technologies));
    var withSafety := AppendIf(withTechnologies, true, texts.safetyEthics);
    AppendIf(withSafety, true, texts.taskHeading + texts.userRequest + idea + texts.taskTail)
  }

  /** The first part of the comprehensive prompt is the assembly of the first part of its layout. */
  lemma ComprehensiveHeadAssembles(texts: Texts, table: seq<DomainInfo>, idea: string, analysis: Analysis)
    ensures ComprehensiveHead(idea, analysis) != []
    ensures ComprehensiveHeadText(texts, table, idea, analysis) == Assemble(texts, table, ComprehensiveHead(idea, analysis))
  {
    var l0 := Opening(idea);
    OpeningText(texts, table, idea);
    var p0 := Assemble(texts, table, l0);
    var p1 := AppendIf(p0, analysis.domains != [], DomainSections(texts, table, analysis.domains));
    AppendAssembles(texts, table, l0, p0, analysis.domains != [], DomainsBlock(analysis.domains),
      DomainSections(texts, table, analysis.domains));
    var l1 := l0 + OptionalBlock(analysis.domains != [], DomainsBlock(analysis.domains));
    var p2 := AppendIf(p1, "web-development" in analysis.domains, texts.webDevelopment);
    AppendAssembles(texts, table, l1, p1, "web-development" in analysis.domains, WebDevelopmentBlock,
      texts.webDevelopment);
    var l2 := l1 + OptionalBlock("web-development" in analysis.domains, WebDevelopmentBlock);
    AppendAssembles(texts, table, l2, p2, WantsAiBlock(idea, analysis), AiAutomationBlock, texts.aiAutomation);
  }

  /** Growing the comprehensive prompt step by step yields the assembly of its layout. */
  lemma ComprehensiveTextAssembles(texts: Texts, table: seq<DomainInfo>, idea: string, analysis: Analysis)
    ensures ComprehensiveText(texts, table, idea, analysis) == Assemble(texts, table, ComprehensiveLayout(idea, analysis))
  {
    ComprehensiveHeadAssembles(texts, table, idea, analysis);
    var l3 := ComprehensiveHead(idea, analysis);
    var p3 := ComprehensiveHeadText(texts, table, idea, analysis);
    var p4 := AppendIf(p3, true, ComplexityGuidelines(texts, analysis.complexity));
    AppendAssembles(texts, table, l3, p3, true, ComplexityBlock(analysis.complexity),
      ComplexityGuidelines(texts, analysis.complexity));
    var l4 := l3 + [ComplexityBlock(analysis.complexity)];
    var p5 := AppendIf(p4, analysis.technologies != [], TechnologyInstructions(texts, analysis.technologies));
    AppendAssembles(texts, table, l4, p4, analysis.technologies != [], TechnologyBlock(analysis.technologies),
      TechnologyInstructions(texts, analysis.technologies));
    var l5 := l4 + OptionalBlock(analysis.technologies != [], TechnologyBlock(analysis.technologies));
    var p6 := AppendIf(p5, true, texts.safetyEthics);
    AppendAssembles(texts, table, l5, p5, true, SafetyEthicsBlock, texts.safetyEthics);
    var l6 := l5 + [SafetyEthicsBlock];
    AppendAssembles(texts, table, l6, p6, true, TaskBlock(idea),
      texts.taskHeading + texts.userRequest + idea + texts.taskTail);
  }

  /**
   * The focused prompt as `generateFocusedPrompt` grows it: the role text,
   * then the sections of the first two domains when there are any, then the task.
   */
  function FocusedText(texts: Texts, table: seq<DomainInfo>, idea: string, analysis: Analysis, focusArea: string): string {
    var withDomains :=
      AppendIf(RoleText(texts, focusArea), analysis.domains != [], DomainSections(texts, table, FirstTwo(analysis.domains)));
    AppendIf(withDomains, true, texts.focusedTaskHead + idea + texts.focusedTaskTail)
  }

  /** Growing the focused prompt step by step yields the assembly of its layout. */
  lemma FocusedTextAssembles(texts: Texts, table: seq<DomainInfo>, idea: string, analysis: Analysis, focusArea: string)
    ensures FocusedText(texts, table, idea, analysis, focusArea) ==
      Assemble(texts, table, FocusedLayout(idea, analysis, focusArea))
  {
    var l0 := [RoleBlock(focusArea)];
    var p0 := RoleText(texts, focusArea);
    assert p0 == Assemble(texts, table, l0);
    AppendAssembles(texts, table, l0, p0, analysis.domains != [], DomainsBlock(FirstTwo(analysis.domains)),
      DomainSections(texts, table, FirstTwo(analysis.domains)));
    var l1 := l0 + OptionalBlock(analysis.domains != [], DomainsBlock(FirstTwo(analysis.domains)));
    var p1 := AppendIf(p0, analysis.domains != [], DomainSections(texts, table, FirstTwo(analysis.domains)));
    AppendAssembles(texts, table, l1, p1, true, FocusedTaskBlock(idea),
      texts.focusedTaskHead + idea + texts.focusedTaskTail);
  }

  /** Whether a block is a complexity block. */
  predicate IsComplexityBlock(b: Block) {
    b.ComplexityBlock?
  }

  /**
   * The comprehensive layout opens with the six fixed blocks and closes with
   * the complexity block, the technology block when there are technologies,
   * the safety block and the task block.
   */
  lemma ComprehensiveLayoutEnds(idea: string, analysis: Analysis)
    ensures ComprehensiveLayout(idea, analysis) ==
      ComprehensiveHead(idea, analysis) + [ComplexityBlock(analysis.complexity)]
        + OptionalBlock(analysis.technologies != [], TechnologyBlock(analysis.technologies))
        + [SafetyEthicsBlock, TaskBlock(idea)]
    ensures |ComprehensiveLayout(idea, analysis)| >= 9
    ensures ComprehensiveLayout(idea, analysis)[..6] == Opening(idea)
    ensures ComprehensiveLayout(idea, analysis)[|ComprehensiveLayout(idea, analysis)| - 2] == SafetyEthicsBlock
    ensures ComprehensiveLayout(idea, analysis)[|ComprehensiveLayout(idea, analysis)| - 1] == TaskBlock(idea)
  {
    var head := ComprehensiveHead(idea, analysis);
    var tail := [ComplexityBlock(analysis.complexity)]
        + OptionalBlock(analysis.technologies != [], TechnologyBlock(analysis.technologies));
    assert ComprehensiveLayout(idea, analysis) == head + tail + [SafetyEthicsBlock] + [TaskBlock(idea)];
    assert head[..6] == Opening(idea);
  }

  /** The comprehensive layout holds exactly one complexity block, placed before the safety and task blocks. */
  lemma ComprehensiveComplexityOnce(idea: string, analysis: Analysis)
    ensures |Filter(ComprehensiveLayout(idea, analysis), IsComplexityBlock)| == 1
    ensures ComplexityBlock(analysis.complexity) in ComprehensiveLayout(idea, analysis)[..|ComprehensiveLayout(idea, analysis)| - 2]
  {
    var head := ComprehensiveHead(idea, analysis);
    var complexity := [ComplexityBlock(analysis.complexity)];
    var tech := OptionalBlock(analysis.technologies != [], TechnologyBlock(analysis.technologies));
    var layout := ComprehensiveLayout(idea, analysis);
    ComprehensiveLayoutEnds(idea, analysis);
    assert layout == head + complexity + tech + [SafetyEthicsBlock, TaskBlock(idea)];
    assert layout[..|layout| - 2] == head + complexity + tech;
    forall i | 0 <= i < |head| ensures !IsComplexityBlock(head[i]) {
      assert head[i] in head;
    }
    FilterKeepsNone(head, IsComplexityBlock);
    FilterKeepsNone(tech, IsComplexityBlock);
    FilterAppend(head, complexity, IsComplexityBlock);
    FilterAppend(head + complexity, tech, IsComplexityBlock);
    FilterAppend(head + complexity + tech, [SafetyEthicsBlock, TaskBlock(idea)], IsComplexityBlock);
  }

  /**
   * The sections block of the comprehensive layout is present exactly when
   * domains were detected, the web block exactly when web development is one.
   */
  lemma ComprehensiveDomainBlocks(idea: string, analysis: Analysis)
    ensures DomainsBlock(analysis.domains) in ComprehensiveLayout(idea, analysis) <==> analysis.domains != []
    ensures WebDevelopmentBlock in ComprehensiveLayout(idea, analysis) <==> "web-development" in analysis.domains
  {
    ComprehensiveLayoutEnds(idea, analysis);
  }

  /**
   * The AI block of the comprehensive layout is present exactly when its
   * condition holds, the technology block exactly when technologies were found.
   */
  lemma ComprehensiveAiAndTechnologyBlocks(idea: string, analysis: Analysis)
    ensures AiAutomationBlock in ComprehensiveLayout(idea, analysis) <==> WantsAiBlock(idea, analysis)
    ensures TechnologyBlock(analysis.technologies) in ComprehensiveLayout(idea, analysis) <==> analysis.technologies != []
  {
    ComprehensiveLayoutEnds(idea, analysis);
  }

  /** The task block quotes the idea after the user-request label. */
  lemma TaskTextQuotesIdea(texts: Texts, idea: string)
    ensures Contains(texts.taskHeading + texts.userRequest + idea + texts.taskTail, texts.userRequest + idea)
  {
    ContainsMiddle(texts.taskHeading, texts.userRequest + idea, texts.taskTail);
    ConcatAssoc(texts.taskHeading, texts.userRequest, idea);
  }

  /** A prompt whose layout opens like the comprehensive one and ends with its task block. */
  lemma FramedPrompt(texts: Texts, table: seq<DomainInfo>, layout: seq<Block>, idea: string)
    requires |layout| >= 6 && layout[..6] == Opening(idea) && layout[|layout| - 1] == TaskBlock(idea)
    ensures IsPrefix(texts.titleHead + idea + texts.titleTail + Sep + texts.identity + Sep + texts.communication
      + Sep + texts.toolUsage + Sep + texts.codeDevelopment + Sep + texts.problemSolving,
      Assemble(texts, table, layout))
    ensures IsSuffix(texts.taskHeading + texts.userRequest + idea + texts.taskTail, Assemble(texts, table, layout))
    ensures Contains(Assemble(texts, table, layout), texts.userRequest + idea)
  {
    AssembleStartsWith(texts, table, layout, 6);
    OpeningText(texts, table, idea);
    AssembleEndsWith(texts, table, layout);
    var task := texts.taskHeading + texts.userRequest + idea + texts.taskTail;
    assert TaskBlock(idea) in layout;
    AssembleContainsBlock(texts, table, layout, TaskBlock(idea), task);
    TaskTextQuotesIdea(texts, idea);
    ContainsTransitive(Assemble(texts, table, layout), task, texts.userRequest + idea);
  }

  /**
   * The comprehensive prompt opens with the title line embedding the idea and
   * the five fixed templates, and closes with the task block, which quotes
   * the idea after the user-request label.
   */
  lemma ComprehensivePromptFrame(texts: Texts, table: seq<DomainInfo>, idea: string, analysis: Analysis)
    ensures IsPrefix(texts.titleHead + idea + texts.titleTail + Sep + texts.identity + Sep + texts.communication
      + Sep + texts.toolUsage + Sep + texts.codeDevelopment + Sep + texts.problemSolving,
      Assemble(texts, table, ComprehensiveLayout(idea, analysis)))
    ensures IsSuffix(texts.taskHeading + texts.userRequest + idea + texts.taskTail,
      Assemble(texts, table, ComprehensiveLayout(idea, analysis)))
    ensures Contains(Assemble(texts, table, ComprehensiveLayout(idea, analysis)), texts.userRequest + idea)
  {
    ComprehensiveLayoutEnds(idea, analysis);
    FramedPrompt(texts, table, ComprehensiveLayout(idea, analysis), idea);
  }

  /** The prompt of a layout holding the complexity and safety blocks carries their texts. */
  lemma PromptHasFixedBlocks(texts: Texts, table: seq<DomainInfo>, layout: seq<Block>, complexity: string)
    requires ComplexityBlock(complexity) in layout && SafetyEthicsBlock in layout
    ensures Contains(Assemble(texts, table, layout), ComplexityGuidelines(texts, complexity))
    ensures Contains(Assemble(texts, table, layout), texts.safetyEthics)
  {
    AssembleContainsBlock(texts, table, layout, ComplexityBlock(complexity), ComplexityGuidelines(texts, complexity));
    AssembleContainsBlock(texts, table, layout, SafetyEthicsBlock, texts.safetyEthics);
  }

  /** The prompt of a layout carries the web and AI templates when it holds their blocks. */
  lemma PromptHasOptionalTemplates(texts: Texts, table: seq<DomainInfo>, layout: seq<Block>, web: bool, ai: bool)
    requires WebDevelopmentBlock in layout <==> web
    requires AiAutomationBlock in layout <==> ai
    ensures web ==> Contains(Assemble(texts, table, layout), texts.webDevelopment)
    ensures ai ==> Contains(Assemble(texts, table, layout), texts.aiAutomation)
  {
    if web {
      AssembleContainsBlock(texts, table, layout, WebDevelopmentBlock, texts.webDevelopment);
    }
    if ai {
      AssembleContainsBlock(texts, table, layout, AiAutomationBlock, texts.aiAutomation);
    }
  }

  /** The prompt of a layout holding a sections block carries the section of each of its domains. */
  lemma PromptHasSections(texts: Texts, table: seq<DomainInfo>, layout: seq<Block>, domains: seq<string>, k: nat)
    requires DomainsBlock(domains) in layout && k < |domains|
    ensures Contains(Assemble(texts, table, layout), DomainSection(texts, table, domains[k]))
  {
    AssembleContainsBlock(texts, table, layout, DomainsBlock(domains), DomainSections(texts, table, domains));
    DomainSectionsContainEach(texts, table, domains, k);
    ContainsTransitive(Assemble(texts, table, layout), DomainSections(texts, table, domains),
      DomainSection(texts, table, domains[k]));
  }

  /** The prompt of a layout holding a technology block lists the technologies. */
  lemma PromptHasTechnologies(texts: Texts, table: seq<DomainInfo>, layout: seq<Block>, technologies: seq<string>)
    requires TechnologyBlock(technologies) in layout && technologies != []
    ensures Contains(Assemble(texts, table, layout), Join(technologies, ", "))
  {
    AssembleContainsBlock(texts, table, layout, TechnologyBlock(technologies), TechnologyInstructions(texts, technologies));
    TechnologyInstructionsList(texts, technologies);
    ContainsTransitive(Assemble(texts, table, layout), TechnologyInstructions(texts, technologies), Join(technologies, ", "));
  }

  /**
   * The comprehensive prompt carries the guidelines of the detected
   * complexity and the safety template, the web and AI templates when their
   * conditions hold, the detected technologies and a section for every
   * detected domain.
   */
  lemma ComprehensivePromptBlocks(texts: Texts, table: seq<DomainInfo>, idea: string, analysis: Analysis)
    ensures Contains(Assemble(texts, table, ComprehensiveLayout(idea, analysis)), ComplexityGuidelines(texts, analysis.complexity))
    ensures Contains(Assemble(texts, table, ComprehensiveLayout(idea, analysis)), texts.safetyEthics)
    ensures "web-development" in analysis.domains ==>
      Contains(Assemble(texts, table, ComprehensiveLayout(idea, analysis)), texts.webDevelopment)
    ensures WantsAiBlock(idea, analysis) ==>
      Contains(Assemble(texts, table, ComprehensiveLayout(idea, analysis)), texts.aiAutomation)
    ensures analysis.technologies != [] ==>
      Contains(Assemble(texts, table, ComprehensiveLayout(idea, analysis)), Join(analysis.technologies, ", "))
    ensures forall k :: 0 <= k < |analysis.domains| ==>
      Contains(Assemble(texts, table, ComprehensiveLayout(idea, analysis)), DomainSection(texts, table, analysis.domains[k]))
  {
    var layout := ComprehensiveLayout(idea, analysis);
    ComprehensiveComplexityOnce(idea, analysis);
    ComprehensiveDomainBlocks(idea, analysis);
    ComprehensiveAiAndTechnologyBlocks(idea, analysis);
    ComprehensiveLayoutEnds(idea, analysis);
    assert layout[|layout| - 2] in layout;
    PromptHasFixedBlocks(texts, table, layout, analysis.complexity);
    PromptHasOptionalTemplates(texts, table, layout, "web-development" in analysis.domains, WantsAiBlock(idea, analysis));
    if analysis.technologies != [] {
      PromptHasTechnologies(texts, table, layout, analysis.technologies);
    }
    forall k | 0 <= k < |analysis.domains|
      ensures Contains(Assemble(texts, table, layout), DomainSection(texts, table, analysis.domains[k]))
    {
      PromptHasSections(texts, table, layout, analysis.domains, k);
    }
  }

  /**
   * The focused layout is the role block, the sections block when domains
   * were detected, and the task block; the sections block covers at most the
   * first two detected domains, in order.
   */
  lemma FocusedLayoutShape(idea: string, analysis: Analysis, focusArea: string)
    ensures |FocusedLayout(idea, analysis, focusArea)| == if analysis.domains != [] then 3 else 2
    ensures FocusedLayout(idea, analysis, focusArea)[0] == RoleBlock(focusArea)
    ensures FocusedLayout(idea, analysis, focusArea)[|FocusedLayout(idea, analysis, focusArea)| - 1] == FocusedTaskBlock(idea)
    ensures analysis.domains != [] ==>
      FocusedLayout(idea, analysis, focusArea)[1] == DomainsBlock(FirstTwo(analysis.domains))
    ensures forall b :: b in FocusedLayout(idea, analysis, focusArea) && b.DomainsBlock? ==>
      1 <= |b.domains| <= 2 && b.domains == analysis.domains[..|b.domains|]
  {
  }

  /** The prompt of a layout opens with the text of its first block. */
  lemma AssembleStartsWithFirst(texts: Texts, table: seq<DomainInfo>, layout: seq<Block>, text: string)
    requires layout != [] && text == Render(texts, table, layout[0])
    ensures IsPrefix(text, Assemble(texts, table, layout))
  {
    AssembleStartsWith(texts, table, layout, 1);
    assert layout[..1] == [layout[0]];
  }

  /** A prompt whose layout is shaped like the focused one. */
  lemma FocusedShapedPrompt(texts: Texts, table: seq<DomainInfo>, layout: seq<Block>, idea: string,
                            domains: seq<string>, focusArea: string)
    requires |layout| >= 2 && layout[0] == RoleBlock(focusArea) && layout[|layout| - 1] == FocusedTaskBlock(idea)
    requires domains != [] ==> layout[1] == DomainsBlock(FirstTwo(domains))
    ensures IsPrefix(RoleText(texts, focusArea), Assemble(texts, table, layout))
    ensures IsSuffix(texts.focusedTaskHead + idea + texts.focusedTaskTail, Assemble(texts, table, layout))
    ensures forall k :: 0 <= k < |domains| && k < 2 ==>
      Contains(Assemble(texts, table, layout), DomainSection(texts, table, domains[k]))
  {
    AssembleStartsWithFirst(texts, table, layout, RoleText(texts, focusArea));
    AssembleEndsWith(texts, table, layout);
    forall k | 0 <= k < |domains| && k < 2
      ensures Contains(Assemble(texts, table, layout), DomainSection(texts, table, domains[k]))
    {
      var shown := FirstTwo(domains);
      assert layout[1] in layout;
      assert shown[k] == domains[k];
      PromptHasSections(texts, table, layout, shown, k);
    }
  }

  /**
   * The focused prompt opens with the role text of the focus area (the
   * identity text for an area without its own), carries the sections of the
   * first two detected domains and closes with the task line naming the idea.
   */
  lemma FocusedPromptText(texts: Texts, table: seq<DomainInfo>, idea: string, analysis: Analysis, focusArea: string)
    ensures IsPrefix(RoleText(texts, focusArea), Assemble(texts, table, FocusedLayout(idea, analysis, focusArea)))
    ensures focusArea !in FocusNames ==>
      IsPrefix(texts.identity, Assemble(texts, table, FocusedLayout(idea, analysis, focusArea)))
    ensures IsSuffix(texts.focusedTaskHead + idea + texts.focusedTaskTail,
      Assemble(texts, table, FocusedLayout(idea, analysis, focusArea)))
    ensures forall k :: 0 <= k < |analysis.domains| && k < 2 ==>
      Contains(Assemble(texts, table, FocusedLayout(idea, analysis, focusArea)), DomainSection(texts, table, analysis.domains[k]))
  {
    FocusedLayoutShape(idea, analysis, focusArea);
    if focusArea !in FocusNames {
      FocusOfUnknown(focusArea);
    }
    FocusedShapedPrompt(texts, table, FocusedLayout(idea, analysis, focusArea), idea, analysis.domains, focusArea);
  }

  // ---------------------------------------------------------------------
  // The generator
  // ---------------------------------------------------------------------

  /**
   * `class PromptGenerator`: the constructor sets up the template texts and
   * the domain table `domainSpecificPrompts`; nothing changes them afterwards.
   */
  class Generator {
    const texts: Texts
    const domainTable: seq<DomainInfo>

    constructor()
      ensures texts == StandardTexts && domainTable == StandardDomainTable
    {
      texts := StandardTexts;
      domainTable := StandardDomainTable;
    }

    /**
     * `analyzeUserInput`: lower-case the idea once, push each detected domain
     * in table order, then settle the complexity, then filter the technologies.
     */
    method AnalyzeUserInput(idea: string) returns (analysis: Analysis)
      ensures analysis == Analyze(domainTable, idea)
    {
      var keywords := Lower(idea);
      var domains: seq<string> := [];
      if AnyIn(keywords, WebKeywords) {
        domains := domains + ["web-development"];
      }
      ghost var web := TagIf(keywords, WebKeywords, "web-development");
      assert domains == web;
      if AnyIn(keywords, MobileKeywords) {
        domains := domains + ["mobile-development"];
      }
      ghost var mobile := TagIf(keywords, MobileKeywords, "mobile-development");
      assert domains == web + mobile;
      if AnyIn(keywords, BackendKeywords) {
        domains := domains + ["backend-development"];
      }
      ghost var backend := TagIf(keywords, BackendKeywords, "backend-development");
      assert domains == web + mobile + backend;
      if AnyIn(keywords, DataKeywords) {
        domains := domains + ["data-science"];
      }
      ghost var data := TagIf(keywords, DataKeywords, "data-science");
      assert domains == web + mobile + backend + data;
      if AnyIn(keywords, DevopsKeywords) {
        domains := domains + ["devops"];
      }
      ghost var devops := TagIf(keywords, DevopsKeywords, "devops");
      assert domains == web + mobile + backend + data + devops;
      ConcatRightNested(web, mobile, backend, data, devops);

      var complexity := "medium";
      if AnyIn(keywords, HighIndicators) {
        complexity := "high";
      } else if AnyIn(keywords, SimpleIndicators) {
        complexity := "low";
      }
      assert complexity == ComplexityOf(keywords);

      var technologies := MatchingTechnologies(domainTable, keywords);
      analysis := Analysis(domains, complexity, technologies, []);
    }

    /**
     * `generateComprehensivePrompt`: the opening template, then each optional
     * block under its condition, the complexity block, the optional technology
     * block, the safety block and the task block, each after a blank line.
     */
    method GenerateComprehensivePrompt(idea: string) returns (result: Generated)
      ensures result.analysis == Analyze(domainTable, idea)
      ensures result.prompt == Assemble(texts, domainTable, ComprehensiveLayout(idea, result.analysis))
      ensures result.metadata == ComprehensiveMetadata(result.analysis.domains, result.analysis.complexity,
        result.analysis.technologies, |result.prompt|, EstimateTokens(|result.prompt|))
    {
      var analysis := AnalyzeUserInput(idea);

      var prompt := texts.titleHead + idea + texts.titleTail + Sep + texts.identity + Sep + texts.communication
        + Sep + texts.toolUsage + Sep + texts.codeDevelopment + Sep + texts.problemSolving;

      ghost var before := prompt;
      if analysis.domains != [] {
        prompt := prompt + (Sep + DomainSections(texts, domainTable, analysis.domains));
      }
      assert prompt == AppendIf(before, analysis.domains != [], DomainSections(texts, domainTable, analysis.domains));

      before := prompt;
      if "web-development" in analysis.domains {
        prompt := prompt + (Sep + texts.webDevelopment);
      }
      assert prompt == AppendIf(before, "web-development" in analysis.domains, texts.webDevelopment);

      before := prompt;
      if "data-science" in analysis.domains || Contains(Lower(idea), "ai") {
        prompt := prompt + (Sep + texts.aiAutomation);
      }
      assert prompt == AppendIf(before, WantsAiBlock(idea, analysis), texts.aiAutomation);

      before := prompt;
      prompt := prompt + (Sep + ComplexityGuidelines(texts, analysis.complexity));
      assert prompt == AppendIf(before, true, ComplexityGuidelines(texts, analysis.complexity));

      before := prompt;
      if analysis.technologies != [] {
        prompt := prompt + (Sep + TechnologyInstructions(texts, analysis.technologies));
      }
      assert prompt == AppendIf(before, analysis.technologies != [], TechnologyInstructions(texts, analysis.technologies));

      before := prompt;
      prompt := prompt + (Sep + texts.safetyEthics);
      assert prompt == AppendIf(before, true, texts.safetyEthics);

      before := prompt;
      prompt := prompt + (Sep + (texts.taskHeading + texts.userRequest + idea + texts.taskTail));
      assert prompt == AppendIf(before, true, texts.taskHeading + texts.userRequest + idea + texts.taskTail);
      ComprehensiveTextAssembles(texts, domainTable, idea, analysis);

      result := Generated(prompt, analysis,
        ComprehensiveMetadata(analysis.domains, analysis.complexity, analysis.technologies,
                              |prompt|, EstimateTokens(|prompt|)));
    }

    /**
     * `generateFocusedPrompt`: the role text for the focus area, the sections
     * of at most the first two detected domains, and the short task block.
     */
    method GenerateFocusedPrompt(idea: string, focusArea: string := "general") returns (result: Generated)
      ensures result.analysis == Analyze(domainTable, idea)
      ensures result.prompt == Assemble(texts, domainTable, FocusedLayout(idea, result.analysis, focusArea))
      ensures result.metadata == FocusedMetadata(focusArea, |result.prompt|, EstimateTokens(|result.prompt|))
    {
      var analysis := AnalyzeUserInput(idea);

      var prompt := RoleText(texts, focusArea);
      ghost var before := prompt;
      if analysis.domains != [] {
        prompt := prompt + (Sep + DomainSections(texts, domainTable, FirstTwo(analysis.domains)));
      }
      assert prompt == AppendIf(before, analysis.domains != [], DomainSections(texts, domainTable, FirstTwo(analysis.domains)));

      before := prompt;
      prompt := prompt + (Sep + (texts.focusedTaskHead + idea + texts.focusedTaskTail));
      assert prompt == AppendIf(before, true, texts.focusedTaskHead + idea + texts.focusedTaskTail);
      FocusedTextAssembles(texts, domainTable, idea, analysis, focusArea);

      result := Generated(prompt, analysis, FocusedMetadata(focusArea, |prompt|, EstimateTokens(|prompt|)));
    }
  }
}
