/**
 * The section builders of src/services/promptGenerator.js:
 * `generateDomainSections` with its heading text (first dash to a space,
 * then every word capitalised), `generateComplexityGuidelines`,
 * `generateTechnologyInstructions`, and the role texts of the focused prompt.
 */
module PromptSections {
  import opened Maybe
  import opened Strings
  import opened Seqs
  import opened PromptTemplates
  import opened PromptAnalysis
  import opened FocusAreas

  /** `s.replace('-', ' ')`: a string pattern replaces its first occurrence only. */
  function ReplaceFirstDash(s: string): string {
    if s == [] then []
    else if s[0] == '-' then " " + s[1..]
    else [s[0]] + ReplaceFirstDash(s[1..])
  }

  /** Only the first dash becomes a space; a string without a dash is unchanged. */
  lemma {:induction false} ReplaceFirstDashSpec(s: string)
    ensures |ReplaceFirstDash(s)| == |s|
    ensures '-' !in s ==> ReplaceFirstDash(s) == s
    ensures '-' in s ==>
      ReplaceFirstDash(s) == s[..FirstIndex(s, '-')] + " " + s[FirstIndex(s, '-') + 1..]
    decreases |s|
  {
    if s != [] && s[0] != '-' {
      ReplaceFirstDashSpec(s[1..]);
      assert s == [s[0]] + s[1..];
      if '-' in s {
        var i := FirstIndex(s[1..], '-');
        assert FirstIndex(s, '-') == i + 1;
        assert s[..i + 1] == [s[0]] + s[1..][..i];
        assert s[i + 2..] == s[1..][i + 1..];
      }
    }
  }

  /** The regular-expression class `\w`: ASCII letters, digits and underscore. */
  predicate IsWordChar(c: char) {
    'a' <= c <= 'z' || 'A' <= c <= 'Z' || '0' <= c <= '9' || c == '_'
  }

  /** Whether position `i` of `s` starts a word, i.e. `\b\w` matches there. */
  predicate StartsWord(s: string, i: int)
    requires 0 <= i < |s|
  {
    IsWordChar(s[i]) && (i == 0 || !IsWordChar(s[i - 1]))
  }

  /** Whether the character before position `i` is a word character; `atStart` stands for position -1. */
  predicate WordBefore(s: string, i: int, atStart: bool)
    requires 0 <= i <= |s|
  {
    if i == 0 then atStart else IsWordChar(s[i - 1])
  }

  /**
   * The left-to-right scan behind `replace(/\b\w/g, l => l.toUpperCase())`;
   * `afterWord` says whether the character before `s` was a word character.
   */
  function UpperWordStarts(s: string, afterWord: bool): string {
    if s == [] then []
    else
      [if IsWordChar(s[0]) && !afterWord then UpperChar(s[0]) else s[0]]
        + UpperWordStarts(s[1..], IsWordChar(s[0]))
  }

  /** The scan upper-cases exactly the word characters not preceded by a word character. */
  lemma {:induction false} UpperWordStartsSpec(s: string, afterWord: bool)
    ensures |UpperWordStarts(s, afterWord)| == |s|
    ensures forall i :: 0 <= i < |s| ==>
      UpperWordStarts(s, afterWord)[i] ==
        (if IsWordChar(s[i]) && !WordBefore(s, i, afterWord) then UpperChar(s[i]) else s[i])
    decreases |s|
  {
    if s != [] {
      UpperWordStartsSpec(s[1..], IsWordChar(s[0]));
      assert forall i :: 1 <= i < |s| ==>
        s[1..][i - 1] == s[i] && UpperWordStarts(s, afterWord)[i] == UpperWordStarts(s[1..], IsWordChar(s[0]))[i - 1] &&
        WordBefore(s[1..], i - 1, IsWordChar(s[0])) == WordBefore(s, i, afterWord);
    }
  }

  /** `replace(/\b\w/g, l => l.toUpperCase())`: capitalise the first character of every word. */
  function TitleCase(s: string): string {
    UpperWordStarts(s, false)
  }

  /** Title case keeps the length and upper-cases exactly the characters that start a word. */
  lemma TitleCaseSpec(s: string)
    ensures |TitleCase(s)| == |s|
    ensures forall i :: 0 <= i < |s| ==> TitleCase(s)[i] == if StartsWord(s, i) then UpperChar(s[i]) else s[i]
  {
    UpperWordStartsSpec(s, false);
    assert forall i :: 0 <= i < |s| ==> StartsWord(s, i) == (IsWordChar(s[i]) && !WordBefore(s, i, false));
  }

  /** The heading text of a domain section: first dash to a space, then title case. */
  function DomainTitle(tag: string): string {
    TitleCase(ReplaceFirstDash(tag))
  }

  /** A dash after a dash-free start is the one replaced. */
  lemma {:induction false} ReplaceDashAfter(a: string, b: string)
    requires '-' !in a
    ensures ReplaceFirstDash(a + "-" + b) == a + " " + b
    decreases |a|
  {
    if a != [] {
      assert (a + "-" + b)[1..] == a[1..] + "-" + b;
      ReplaceDashAfter(a[1..], b);
    }
  }

  /** A lower-case word: a non-empty run of letters `a` to `z`. */
  predicate LowerWord(w: string) {
    w != [] && forall i :: 0 <= i < |w| ==> 'a' <= w[i] <= 'z'
  }

  /** Title case of two lower-case words capitalises the first letter of each and nothing else. */
  lemma TitleCaseTwoWords(a: string, b: string)
    requires LowerWord(a) && LowerWord(b)
    ensures TitleCase(a + " " + b) == [UpperChar(a[0])] + a[1..] + " " + [UpperChar(b[0])] + b[1..]
  {
    var s := a + " " + b;
    var t := [UpperChar(a[0])] + a[1..] + " " + [UpperChar(b[0])] + b[1..];
    TitleCaseSpec(s);
    forall i | 0 <= i < |s|
      ensures TitleCase(s)[i] == t[i]
    {
      if i < |a| {
        assert s[i] == a[i] && t[i] == (if i == 0 then UpperChar(a[0]) else a[i]);
        assert i > 0 ==> s[i - 1] == a[i - 1];
      } else if i == |a| {
        assert s[i] == ' ' && t[i] == ' ';
      } else {
        var k := i - |a| - 1;
        assert s[i] == b[k] && t[i] == (if k == 0 then UpperChar(b[0]) else b[k]);
        assert s[i - 1] == (if k == 0 then ' ' else b[k - 1]);
      }
    }
  }

  /** The heading of a tag made of two lower-case words joined by a dash capitalises both words. */
  lemma DomainTitleTwoWords(a: string, b: string)
    requires LowerWord(a) && LowerWord(b)
    ensures DomainTitle(a + "-" + b) == [UpperChar(a[0])] + a[1..] + " " + [UpperChar(b[0])] + b[1..]
  {
    ReplaceDashAfter(a, b);
    TitleCaseTwoWords(a, b);
  }

  /** The heading of the web tag reads "Web Development". */
  lemma WebDevelopmentTitle()
    ensures DomainTitle("web-development") == "Web Development"
  {
    var a, b := "web", "development";
    assert LowerWord(a);
    assert LowerWord(b);
    DomainTitleTwoWords(a, b);
    assert a + "-" + b == "web-development";
    assert [UpperChar(a[0])] + a[1..] + " " + [UpperChar(b[0])] + b[1..] == "Web Development";
  }

  /** One entry of `generateDomainSections`: "" for a tag outside the table. */
  function DomainSection(texts: Texts, table: seq<DomainInfo>, tag: string): string {
    match DomainInfoOf(table, tag)
    case None => ""
    case Some(info) =>
      texts.sectionHead + DomainTitle(tag) + texts.sectionTitleTail
        + (texts.sectionFrameworks + Join(info.frameworks, ", ") + texts.sectionTools + Join(info.tools, ", ")
           + texts.sectionFocus + info.focus + texts.sectionPractices)
  }

  /**
   * A tag outside the table contributes the empty string; a tag in it gets a
   * section opening with "## <Title> Expertise" and listing the tag's
   * frameworks and tools.
   */
  lemma DomainSectionSpec(texts: Texts, table: seq<DomainInfo>, tag: string)
    requires texts.sectionHead != ""
    ensures DomainSection(texts, table, tag) == "" <==> tag !in Tags(table)
    ensures tag in Tags(table) ==>
      IsPrefix(texts.sectionHead + DomainTitle(tag) + texts.sectionTitleTail, DomainSection(texts, table, tag))
    ensures tag in Tags(table) ==>
      Contains(DomainSection(texts, table, tag), texts.sectionFrameworks + Join(DomainInfoOf(table, tag).value.frameworks, ", ")
        + texts.sectionTools + Join(DomainInfoOf(table, tag).value.tools, ", "))
  {
    if tag in Tags(table) {
      var info := DomainInfoOf(table, tag).value;
      var heading := texts.sectionHead + DomainTitle(tag) + texts.sectionTitleTail;
      var lists := texts.sectionFrameworks + Join(info.frameworks, ", ") + texts.sectionTools + Join(info.tools, ", ");
      var rest := texts.sectionFocus + info.focus + texts.sectionPractices;
      assert DomainSection(texts, table, tag) == heading + (lists + rest) == heading + lists + rest;
      assert (heading + (lists + rest))[..|heading|] == heading;
      ContainsMiddle(heading, lists, rest);
    }
  }

  /** `domains.map(...)`: one section per tag, in order. */
  function SectionsOf(texts: Texts, table: seq<DomainInfo>, domains: seq<string>): (r: seq<string>)
    ensures |r| == |domains|
    ensures forall i :: 0 <= i < |domains| ==> r[i] == DomainSection(texts, table, domains[i])
  {
    if domains == [] then [] else [DomainSection(texts, table, domains[0])] + SectionsOf(texts, table, domains[1..])
  }

  /** `generateDomainSections`: the sections joined by a blank line. */
  function DomainSections(texts: Texts, table: seq<DomainInfo>, domains: seq<string>): string {
    Join(SectionsOf(texts, table, domains), Sep)
  }

  /** Sections come out in input order: one more tag appends a separator and its section. */
  lemma DomainSectionsSnoc(texts: Texts, table: seq<DomainInfo>, domains: seq<string>, tag: string)
    requires domains != []
    ensures DomainSections(texts, table, domains + [tag]) == DomainSections(texts, table, domains) + Sep + DomainSection(texts, table, tag)
  {
    assert SectionsOf(texts, table, domains + [tag]) == SectionsOf(texts, table, domains) + [DomainSection(texts, table, tag)];
    JoinSnoc(SectionsOf(texts, table, domains), DomainSection(texts, table, tag), Sep);
  }

  /** The sections start with the heading of the first tag when the table knows it. */
  lemma DomainSectionsHeading(texts: Texts, table: seq<DomainInfo>, domains: seq<string>)
    requires texts.sectionHead != ""
    requires domains != [] && domains[0] in Tags(table)
    ensures IsPrefix(texts.sectionHead + DomainTitle(domains[0]) + texts.sectionTitleTail, DomainSections(texts, table, domains))
  {
    JoinStartsWithFirst(SectionsOf(texts, table, domains), Sep);
    DomainSectionSpec(texts, table, domains[0]);
  }

  /** Each tag's section occurs in the joined sections. */
  lemma DomainSectionsContainEach(texts: Texts, table: seq<DomainInfo>, domains: seq<string>, k: nat)
    requires k < |domains|
    ensures Contains(DomainSections(texts, table, domains), DomainSection(texts, table, domains[k]))
  {
    JoinContainsEach(SectionsOf(texts, table, domains), Sep, k);
  }

  /** `generateComplexityGuidelines`: the tier's text, the medium text for any other value. */
  function ComplexityGuidelines(texts: Texts, complexity: string): string {
    if complexity == "low" then texts.lowComplexity
    else if complexity == "high" then texts.highComplexity
    else texts.mediumComplexity
  }

  /**
   * The guidelines chosen for an analysed idea follow the detected tier:
   * the fallback to the medium text is reached only by "medium" itself.
   */
  lemma GuidelinesFollowComplexity(texts: Texts, table: seq<DomainInfo>, idea: string)
    ensures ComplexityGuidelines(texts, Analyze(table, idea).complexity) ==
      if AnyIn(Lower(idea), HighIndicators) then texts.highComplexity
      else if AnyIn(Lower(idea), SimpleIndicators) then texts.lowComplexity
      else texts.mediumComplexity
  {
    ComplexityTiers(table, idea);
  }

  /** `generateTechnologyInstructions`: the empty string for no technologies. */
  function TechnologyInstructions(texts: Texts, technologies: seq<string>): string {
    if technologies == [] then ""
    else texts.technologyHead + Join(technologies, ", ") + texts.technologyNotes
  }

  /** The technology block is empty exactly when there are no technologies. */
  lemma TechnologyInstructionsEmpty(texts: Texts, technologies: seq<string>)
    requires texts.technologyHead != ""
    ensures TechnologyInstructions(texts, technologies) == "" <==> technologies == []
  {
  }

  /** A non-empty technology block lists the technologies, comma-separated. */
  lemma TechnologyInstructionsList(texts: Texts, technologies: seq<string>)
    requires technologies != []
    ensures Contains(TechnologyInstructions(texts, technologies), Join(technologies, ", "))
  {
    ContainsMiddle(texts.technologyHead, Join(technologies, ", "), texts.technologyNotes);
  }

  /**
   * `focusedTemplates[focusArea] || focusedTemplates.general`: each of the
   * four specialised keys selects its own role text, and every other string,
   * "general" included, the identity text.
   */
  function RoleText(texts: Texts, focusArea: string): (r: string)
    ensures focusArea == "coding" ==> r == texts.codingIntro + texts.codeDevelopment
    ensures focusArea == "design" ==> r == texts.designRole
    ensures focusArea == "architecture" ==> r == texts.architectureRole
    ensures focusArea == "debugging" ==> r == texts.debuggingRole
    ensures focusArea !in ["coding", "design", "architecture", "debugging"] ==> r == texts.identity
  {
    match FocusOf(focusArea)
    case General => texts.identity
    case Coding => texts.codingIntro + texts.codeDevelopment
    case Design => texts.designRole
    case Architecture => texts.architectureRole
    case Debugging => texts.debuggingRole
  }
}
