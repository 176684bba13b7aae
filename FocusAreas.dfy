/**
 * The focus areas a caller may ask for. Every table keyed by focus area in
 * src/services/promptGenerator.js, src/services/anthropicClient.js and
 * src/services/openaiClient.js has the same five keys, and every lookup
 * falls back to the "general" entry for a key the table does not have.
 */
module FocusAreas {

  /** The five keys of the focus-area tables. */
  datatype Focus = General | Coding | Design | Architecture | Debugging

  /** The key a focus area is stored under. */
  function FocusName(f: Focus): string {
    match f
    case General => "general"
    case Coding => "coding"
    case Design => "design"
    case Architecture => "architecture"
    case Debugging => "debugging"
  }

  /** The five keys. */
  const FocusNames: seq<string> := ["general", "coding", "design", "architecture", "debugging"]

  /** `table[focusArea] || table.general`: the entry a key selects, "general" for any other key. */
  function FocusOf(focusArea: string): Focus {
    if focusArea == "coding" then Coding
    else if focusArea == "design" then Design
    else if focusArea == "architecture" then Architecture
    else if focusArea == "debugging" then Debugging
    else General
  }

  /** Looking up a key finds the entry stored under it. */
  lemma FocusOfName(f: Focus)
    ensures FocusOf(FocusName(f)) == f
  {
  }

  /** A string that is not one of the five keys selects the general entry. */
  lemma FocusOfUnknown(focusArea: string)
    requires focusArea !in FocusNames
    ensures FocusOf(focusArea) == General
  {
  }

  /** The lookup selects the entry whose key is the string, or the general entry when there is none. */
  lemma FocusOfSpec(focusArea: string)
    ensures FocusName(FocusOf(focusArea)) == focusArea || (FocusOf(focusArea) == General && focusArea !in FocusNames)
  {
  }
}
