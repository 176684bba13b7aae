# AI prompt generator: a verified model of its prompt logic

This project models the logic of a small React application. Users type an idea and get back an AI system prompt for it. The model covers four pieces:

- **The local prompt generator** (`src/services/promptGenerator.js`). It analyses an idea for the following:
  - the domains it mentions (web, mobile, backend, data science, devops);
  - a complexity tier (low, medium or high);
  - the technologies it names.

  It then grows a comprehensive or a focused prompt from fixed text blocks, one conditional `+=` at a time.
- **The two provider clients** (`src/services/anthropicClient.js` and `src/services/openaiClient.js`).
  - Both build a system prompt and a user message for a model call.
  - Both check the key, read the reply and classify failures.
  - Both offer an offline fallback prompt.
  - Their prompt builders and fallback templates are word for word the same, so they are modelled once.
- **The catalogue page** (`src/pages/Home.jsx:12-27`). It computes three things:
  - the category filter list;
  - the tools that match the search box and the selected category;
  - the summary counts.

## Modules

- `Maybe`: the `Option` and `Result` types.
- `Strings`: the JavaScript string operations the code relies on:
  - ASCII `toLowerCase`;
  - `includes`, as a scan (`Contains`), proved equal to the positional definition of a substring;
  - `join`;
  - decimal rendering of a number;
  - `Math.ceil(n / 4)`.
- `Seqs`: `filter`, subsequences, duplicate-freedom, and the first-occurrence de-duplication of `[...new Set(xs)]`.
- `FocusAreas`: the five focus-area keys and the `table[key] || table.general` lookup that every focus table uses.
- `PromptTemplates`, `PromptAnalysis`, `PromptSections` and `PromptGenerator`: the local generator.
  - The text fragments live in a `Texts` record, so every proof holds for any wording.
  - The analysis is written as a specification function, `Analyze`.
  - A prompt is specified as the blank-line join of a list of `Block`s (`Assemble`).
  - The `Generator` class's methods follow the source's step-by-step code. They are proved to produce `Analyze` and `Assemble` of the right layout.
- `ClientTemplates`, `ClientPrompts`, `ClientResponses`, `AnthropicClient` and `OpenAIClient`: the provider clients.
  - A model call is an `Exchange` value: either `fetch` throws, or a status code arrives with a parsed or unparsable body.
  - `GeneratePrompt` takes the `Exchange` first, so that the source's default arguments (`promptType = 'comprehensive'`, `focusArea = 'general'`) can stay defaults.
  - `GeneratePrompt` returns two values: the request it sends (or none), and either the prompt with its metadata or the message of the error the caller sees.
- `Home`: the catalogue computations.

## Model

| member | source | states |
|---|---|---|
| FocusAreas.FocusOfName | src/services/promptGenerator.js:336 | looking up one of the five keys selects the entry stored under that key |
| FocusAreas.FocusOfUnknown | src/services/promptGenerator.js:336 | any string that is not one of the five keys selects the general entry |
| FocusAreas.FocusOfSpec | src/services/anthropicClient.js:97 | the lookup selects the entry named by the string, or the general entry when no entry has that name |
| PromptAnalysis.Tags | src/services/promptGenerator.js:99-125 | the tag column of the domain table, entry by entry |
| PromptAnalysis.StandardTags | src/services/promptGenerator.js:99-125 | the table's tags are the five domain tags, in order |
| PromptAnalysis.DomainInfoOf | src/services/promptGenerator.js:179-180 | a tag finds an entry iff it is one of the table's tags, and the entry found carries that tag |
| PromptAnalysis.DetectedDomainsFilter | src/services/promptGenerator.js:139-153 | the five sequential `push` tests equal a filter of the five tags by "one of the tag's keywords occurs" |
| PromptAnalysis.DomainsOrderedDistinct | src/services/promptGenerator.js:139-153 | the domains are a duplicate-free subsequence of the five tags in their fixed order |
| PromptAnalysis.DomainPresentIff | src/services/promptGenerator.js:130-153 | a tag is among the domains iff it is one of the five and one of its keywords occurs in the lower-cased idea |
| PromptAnalysis.ComplexityTiers | src/services/promptGenerator.js:133-163 | the tier is high iff a high indicator occurs; low iff none does but a simple one does; medium otherwise |
| PromptAnalysis.TechnologiesExact | src/services/promptGenerator.js:166-171 | the technologies are a subsequence of the flattened table; a name is kept iff its lower-cased form occurs in the idea, and it is kept as often as the table lists it |
| PromptAnalysis.StandardNoEmptyNames | src/services/promptGenerator.js:99-125 | no framework or tool of the table has an empty name |
| PromptAnalysis.DockerTwiceInTable | src/services/promptGenerator.js:112-121 | "Docker" is listed twice in the flattened table |
| PromptAnalysis.DockerListedTwice | src/services/promptGenerator.js:166-171 | an idea that mentions docker gets "Docker" twice in its technologies, because nothing de-duplicates them |
| PromptAnalysis.NoDomainInEmpty | src/services/promptGenerator.js:139-153 | the empty idea gets no domain |
| PromptAnalysis.MediumForEmpty | src/services/promptGenerator.js:133-163 | the empty idea is of medium complexity |
| PromptAnalysis.NoTechnologyInEmpty | src/services/promptGenerator.js:166-171 | with no empty technology name, the empty idea names no technology |
| PromptAnalysis.EmptyIdea | src/services/promptGenerator.js:130-171 | the analysis of the empty idea is no domains, "medium", no technologies |
| PromptSections.ReplaceFirstDashSpec | src/services/promptGenerator.js:182 | `replace('-', ' ')` keeps the length and turns only the first dash into a space |
| PromptSections.UpperWordStartsSpec | src/services/promptGenerator.js:182 | the scan upper-cases exactly the word characters that no word character precedes |
| PromptSections.TitleCaseSpec | src/services/promptGenerator.js:182 | `replace(/\b\w/g, toUpperCase)` keeps the length and upper-cases exactly the characters that start a word |
| PromptSections.DomainTitleTwoWords | src/services/promptGenerator.js:182 | a tag of two lower-case words joined by a dash becomes the two words, space-separated, each with its first letter upper-cased |
| PromptSections.WebDevelopmentTitle | src/services/promptGenerator.js:182 | the heading of the "web-development" tag reads "Web Development" |
| PromptSections.DomainSectionSpec | src/services/promptGenerator.js:178-195 | a tag outside the table gives "", a tag in it gives a section opening with "## <Title> Expertise" that lists its frameworks and tools |
| PromptSections.SectionsOf | src/services/promptGenerator.js:178 | `domains.map(...)`: one section per domain, in input order |
| PromptSections.DomainSectionsSnoc | src/services/promptGenerator.js:178-196 | one more domain appends a blank line and its section |
| PromptSections.DomainSectionsHeading | src/services/promptGenerator.js:182 | the sections start with the heading of the first domain |
| PromptSections.DomainSectionsContainEach | src/services/promptGenerator.js:177-196 | every domain's section occurs in the joined text |
| PromptSections.GuidelinesFollowComplexity | src/services/promptGenerator.js:200-226 | the guidelines chosen for an analysed idea are the high, low or medium text, following the tier |
| PromptSections.TechnologyInstructionsEmpty | src/services/promptGenerator.js:229-230 | the technology block is empty iff the list is empty |
| PromptSections.TechnologyInstructionsList | src/services/promptGenerator.js:232-234 | a non-empty block names the technologies joined by ", " |
| PromptSections.RoleText | src/services/promptGenerator.js:328-336 | "coding", "design", "architecture" and "debugging" each select their own role text; every other string, "general" included, selects the identity text |
| PromptGenerator.RenderAllAt | src/services/promptGenerator.js:248-308 | the k-th rendered text is the text of the k-th block |
| PromptGenerator.AssembleSnoc | src/services/promptGenerator.js:262 | `prompt += '\n\n' + text` appends a block to the assembled layout |
| PromptGenerator.AssembleStartsWith | src/services/promptGenerator.js:248-308 | a prompt starts with the assembly of any first part of its layout |
| PromptGenerator.AssembleEndsWith | src/services/promptGenerator.js:287-308 | a prompt ends with the text of its last block |
| PromptGenerator.AssembleContainsBlock | src/services/promptGenerator.js:248-308 | the text of every block in the layout occurs in the prompt |
| PromptGenerator.AssembleOptional | src/services/promptGenerator.js:261-263 | an optional block changes the prompt only when present |
| PromptGenerator.AppendAssembles | src/services/promptGenerator.js:261-263 | a conditional `+=` on an assembled prompt assembles the layout with the optional block |
| PromptGenerator.FirstTwo | src/services/promptGenerator.js:339 | `slice(0, 2)` is the first two domains, or all when fewer |
| PromptGenerator.OpeningText | src/services/promptGenerator.js:248-258 | the opening template literal is the join of the title and the five fixed blocks |
| PromptGenerator.ComprehensiveHeadAssembles | src/services/promptGenerator.js:248-273 | the opening and the three conditional appends give the assembly of the first part of the layout |
| PromptGenerator.ComprehensiveTextAssembles | src/services/promptGenerator.js:248-308 | the whole chain of appends gives the assembly of the comprehensive layout |
| PromptGenerator.FocusedTextAssembles | src/services/promptGenerator.js:336-344 | the focused chain of appends gives the assembly of the focused layout |
| PromptGenerator.ComprehensiveLayoutEnds | src/services/promptGenerator.js:248-308 | the layout opens with the title and the five fixed blocks, and closes with the complexity block, the technology block when present, the safety block and the task block |
| PromptGenerator.ComprehensiveComplexityOnce | src/services/promptGenerator.js:275-285 | exactly one complexity block, placed before the safety block |
| PromptGenerator.ComprehensiveDomainBlocks | src/services/promptGenerator.js:260-268 | the domain sections are present iff there are domains; the web block is present iff web-development was detected |
| PromptGenerator.ComprehensiveAiAndTechnologyBlocks | src/services/promptGenerator.js:270-281 | the AI block is present iff data-science was detected or the idea contains "ai"; the technology block is present iff there are technologies |
| PromptGenerator.ComprehensivePromptFrame | src/services/promptGenerator.js:248-308 | the prompt starts with the title line and the five fixed texts, ends with the task text, and contains "**User Request:** " followed by the idea |
| PromptGenerator.ComprehensivePromptBlocks | src/services/promptGenerator.js:260-285 | the prompt contains the guidelines, the safety text, each domain section, the technology list, and the web and AI texts when their conditions hold |
| PromptGenerator.FocusedLayoutShape | src/services/promptGenerator.js:336-342 | a role block, the sections of at most the first two domains (only when there are domains), then the task block |
| PromptGenerator.FocusedPromptText | src/services/promptGenerator.js:328-344 | the prompt starts with the role text (the identity text for an unknown area), ends with "## Task: " + idea and the closing, and contains the sections of the first two domains |
| PromptGenerator.Generator.constructor | src/services/promptGenerator.js:5-126 | the generator holds the standard fragments and domain table |
| PromptGenerator.Generator.AnalyzeUserInput | src/services/promptGenerator.js:129-174 | the pushes and reassignments compute `Analyze` |
| PromptGenerator.Generator.GenerateComprehensivePrompt | src/services/promptGenerator.js:245-322 | the prompt is the assembly of the comprehensive layout for the idea's analysis; the metadata echoes the analysis, the prompt length and ceil(length/4) |
| PromptGenerator.Generator.GenerateFocusedPrompt | src/services/promptGenerator.js:325-356 | the focus area defaults to "general"; the prompt is the assembly of the focused layout; the metadata is the focus area, the prompt length and ceil(length/4) |
| ClientPrompts.BuildSystemPrompt | src/services/anthropicClient.js:75-101 | the system prompt always starts with the base text and a blank line |
| ClientPrompts.FocusedSystemPrompt | src/services/anthropicClient.js:88-97 | a focused request for one of the five areas carries that area's instruction |
| ClientPrompts.UnknownFocusSystemPrompt | src/services/anthropicClient.js:97 | a focused request for an unknown area carries the general instruction |
| ClientPrompts.UnfocusedSystemPrompt | src/services/anthropicClient.js:100 | every type other than "focused" carries the comprehensive sentence |
| ClientPrompts.BuildUserPrompt | src/services/anthropicClient.js:103-124 | the user message starts by naming the prompt type and ends with the closing paragraph |
| ClientPrompts.UserPromptQuotesIdea | src/services/anthropicClient.js:106 | the user message contains the idea between double quotes |
| ClientPrompts.UserPromptTypeLine | src/services/anthropicClient.js:116-119 | "comprehensive" gets the comprehensive line; any other type gets the focused line naming the area |
| ClientPrompts.ComprehensiveUserPromptIgnoresFocus | src/services/anthropicClient.js:116-119 | a comprehensive user message does not depend on the focus area |
| ClientPrompts.PromptTypeTestsDisagree | src/services/anthropicClient.js:88-119 | a type that is neither "focused" nor "comprehensive" gets the comprehensive system sentence but the focused user line |
| ClientPrompts.FillTemplate | src/services/anthropicClient.js:157-240 | a filled template starts with its intro and "Task: ", and ends with its outro |
| ClientPrompts.GenerateFallbackPrompt | src/services/anthropicClient.js:247-259 | the fallback metadata is the following: model "fallback-template"; the type and area echoed; the prompt length; ceil(length/4); 0 input and 0 output tokens |
| ClientPrompts.FallbackQuotesIdea | src/services/anthropicClient.js:157-240 | every fallback prompt contains "Task: " followed by the idea |
| ClientPrompts.ComprehensiveFallback | src/services/anthropicClient.js:243-244 | the comprehensive type uses the comprehensive template, whatever the area |
| ClientPrompts.FocusedFallbackChoice | src/services/anthropicClient.js:243-245 | any other type uses the area's focused template, or the general one for an unknown area |
| ClientResponses.Counter | src/services/anthropicClient.js:57-59 | `count \|\| fallback` gives the fallback, or a non-zero count |
| ClientResponses.CounterZeroIsAbsent | src/services/anthropicClient.js:57-59 | a count of 0 behaves like a missing count |
| ClientResponses.CounterTruthy | src/services/anthropicClient.js:58 | a present non-zero count is returned as it is, whatever the fallback |
| ClientResponses.CounterZeroFallback | src/services/anthropicClient.js:58-59 | with fallback 0, the result is the count, or 0 when it is missing |
| ClientResponses.StatusMessageParts | src/services/anthropicClient.js:39-42 | a status error names the status code, then the body's message or "Unknown error" |
| ClientResponses.Wrap | src/services/anthropicClient.js:70 | a re-thrown error starts with "Failed to generate prompt: " and ends with the original message |
| AnthropicClient.Classify | src/services/anthropicClient.js:63-71 | a caught error becomes either the connection message or the wrapped message |
| AnthropicClient.ClassifyExact | src/services/anthropicClient.js:67-71 | the connection message is chosen iff the message is "Failed to fetch" or the name is "TypeError" |
| AnthropicClient.StatusErrorWrapped | src/services/anthropicClient.js:39-71 | a status error reaches the caller wrapped, never as the connection message |
| AnthropicClient.KeyErrorUnwrapped | src/services/anthropicClient.js:10-12 | the missing-key error is not wrapped and is not the connection message |
| AnthropicClient.Client.constructor | src/services/anthropicClient.js:4-7 | the client holds the given key and the standard texts |
| AnthropicClient.Client.GeneratePrompt | src/services/anthropicClient.js:9-73 | the type defaults to "comprehensive" and the area to "general". No key: no request and the unwrapped key error. Otherwise it sends the model, system prompt, user message, 4000 tokens and temperature 0.7, and the failures are as follows: fetch failure, wrapped status error, unparsable body, invalid format when the text is missing or empty. Success gives the text with its length, `output_tokens` or ceil(length/4) as estimate, and the counters defaulting to 0. Every failure after the request is the connection message or starts with "Failed to generate prompt: " |
| OpenAIClient.KeyErrorUnwrapped | src/services/openaiClient.js:10-12 | the missing-key error is not wrapped |
| OpenAIClient.Client.constructor | src/services/openaiClient.js:4-7 | the client holds the given key and the standard texts |
| OpenAIClient.Client.GeneratePrompt | src/services/openaiClient.js:9-71 | the same defaults, and like the Anthropic client, with three differences: "OpenAI API Error: " status messages; `total_tokens`, `prompt_tokens` and `completion_tokens`; and no connection classification, so every failure after the request starts with "Failed to generate prompt: " |
| Home.Categories | src/pages/Home.jsx:12 | the category list starts with "All" |
| Home.CategoriesSpec | src/pages/Home.jsx:12 | after "All" come every tool category and nothing else, each once, in order of first appearance |
| Home.CategoriesNoDup | src/pages/Home.jsx:12 | the whole list is duplicate-free iff no tool's category is "All" |
| Home.FilteredToolsSpec | src/pages/Home.jsx:14-20 | the filtered tools are a subsequence of the catalogue; a tool is kept iff its name, description or company contains the term (case-insensitively) and the category is "All" or its own |
| Home.FilteredToolsMultiplicity | src/pages/Home.jsx:14-20 | a kept tool is kept as often as it is listed |
| Home.EmptySearchShowsAll | src/pages/Home.jsx:14-20 | an empty term with "All" keeps the whole catalogue |
| Home.UnusedCategoryShowsNothing | src/pages/Home.jsx:18 | a category no tool has keeps nothing |
| Home.ComputeStats | src/pages/Home.jsx:22-27 | `totalTools` is the catalogue size, and the other three counts do not exceed it |
| Home.StatsCountsCategories | src/pages/Home.jsx:26 | `categories` is the number of distinct tool categories |
| Home.StatsCountsFlags | src/pages/Home.jsx:24-25 | `withPrompts` and `withTools` count the tools whose flag is set |

## Behaviour of the code worth knowing

- The complexity tiers use only the keywords at `src/services/promptGenerator.js:156-157`.
- Technologies are not de-duplicated: an idea that mentions docker gets "Docker" twice (`PromptAnalysis.DockerListedTwice`).
- Technology names are returned as the table writes them, such as "PostgreSQL", not lower-cased.

## Left out

- Network I/O is not modelled.
  - Both `fetch` calls, `response.json()`, the HTTP headers and the `testConnection` methods are left out (`src/services/anthropicClient.js:127-152`).
  - A model call is the `exchange` parameter instead. The request is returned as a value.
- The API keys come from `import.meta.env`. They are a constructor parameter instead.
- The `generatedAt` timestamps are left out because they depend on the clock.
- The `weight` numbers in the template table are left out. Nothing reads them.
- The `console.error` logging of both clients is left out.
- No multi-provider orchestrator or retry policy is modelled, because the code has none: each client makes one call, and its failure goes straight to the caller. Neither client is called by the local generator's page.
- Lowering handles ASCII letters only. Full Unicode `toLowerCase` is not modelled.
- String length counts characters, not UTF-16 code units.
- The model reads JSON fields as strings and non-negative numbers. A reply field of another JSON type is not modelled: a number in `content[0].text`, a negative count.
- A key that matches a name inherited by every object (such as `constructor`) is not modelled. Every table lookup treats such a key as unknown.
- Unused fields of the catalogue records are left out: `id`, `features`, `color` and `icon`.
- The React state and rendering of the page are left out.
- The remaining code of these files is not part of this model: `src/components/PromptGenerator.jsx`, `src/pages/ToolDetail.jsx`, `src/pages/PromptDetail.jsx`, `src/components/Layout.jsx`, `src/App.jsx`, `src/context/AIToolsContext.jsx` and `vite.config.js`.
- PromptSections.TechnologyInstructionsEmpty: it assumes the technology heading is not empty, which holds for the fragment the generator uses.
- PromptSections.DomainSectionSpec: it assumes the section heading is not empty, which holds for the fragment the generator uses.
