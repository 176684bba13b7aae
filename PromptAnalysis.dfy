/**
 * The keyword classifier of src/services/promptGenerator.js: the domain
 * table built by the generator's constructor, and what `analyzeUserInput`
 * computes from a lower-cased idea, stated as functions over that table.
 * The step-by-step method itself is `PromptGenerator.Generator.AnalyzeUserInput`.
 */
module PromptAnalysis {
  import opened Maybe
  import opened Strings
  import opened Seqs

  // ---------------------------------------------------------------------
  // Constant tables
  // ---------------------------------------------------------------------

  /** One entry of `domainSpecificPrompts`: its key and its value. */
  datatype DomainInfo = DomainInfo(tag: string, frameworks: seq<string>, tools: seq<string>, focus: string)

  /** The domain tags `analyzeUserInput` tests, in the order it tests them. */
  const DomainTags: seq<string> :=
    ["web-development", "mobile-development", "backend-development", "data-science", "devops"]

  /** `domainSpecificPrompts` as the generator's constructor builds it, in insertion order. */
  const StandardDomainTable: seq<DomainInfo> := [
    DomainInfo("web-development",
               ["React", "Vue", "Angular", "Next.js", "Svelte"],
               ["Vite", "Webpack", "Tailwind CSS", "TypeScript"],
               "responsive design, performance optimization, accessibility"),
    DomainInfo("mobile-development",
               ["React Native", "Flutter", "Ionic"],
               ["Expo", "Android Studio", "Xcode"],
               "cross-platform compatibility, native performance, user experience"),
    DomainInfo("backend-development",
               ["Node.js", "Express", "FastAPI", "Django"],
               ["Docker", "PostgreSQL", "Redis", "MongoDB"],
               "scalability, security, API design, database optimization"),
    DomainInfo("data-science",
               ["Python", "Pandas", "NumPy", "TensorFlow"],
               ["Jupyter", "Matplotlib", "Scikit-learn"],
               "data analysis, machine learning, visualization, statistical modeling"),
    DomainInfo("devops",
               ["Kubernetes", "Docker", "Terraform"],
               ["AWS", "GitHub Actions", "Jenkins"],
               "automation, deployment, monitoring, infrastructure as code")]

  /** The keys of a domain table, in order. */
  function Tags(table: seq<DomainInfo>): (r: seq<string>)
    ensures |r| == |table|
    ensures forall k :: 0 <= k < |table| ==> r[k] == table[k].tag
  {
    if table == [] then [] else [table[0].tag] + Tags(table[1..])
  }

  /** The standard table has exactly the tags the analysis tests, in the same order. */
  lemma StandardTags()
    ensures Tags(StandardDomainTable) == DomainTags
  {
  }

  /** `domainSpecificPrompts[tag]` for an own key: the entry with that key, if any. */
  function DomainInfoOf(table: seq<DomainInfo>, tag: string): (r: Option<DomainInfo>)
    ensures r.Some? <==> tag in Tags(table)
    ensures r.Some? ==> r.value in table && r.value.tag == tag
  {
    if table == [] then None
    else if table[0].tag == tag then Some(table[0])
    else
      assert Tags(table) == [table[0].tag] + Tags(table[1..]);
      DomainInfoOf(table[1..], tag)
  }

  /** Frameworks then tools of each entry, in order (`flatMap`). */
  function TechnologiesOf(table: seq<DomainInfo>): seq<string> {
    if table == [] then [] else table[0].frameworks + table[0].tools + TechnologiesOf(table[1..])
  }

  /** The keywords of the first test of `analyzeUserInput`, for "web-development". */
  const WebKeywords: seq<string> := ["website", "web", "frontend"]

  /** The keywords of the second test, for "mobile-development". */
  const MobileKeywords: seq<string> := ["mobile", "app", "ios", "android"]

  /** The keywords of the third test, for "backend-development". */
  const BackendKeywords: seq<string> := ["api", "backend", "server", "database"]

  /** The keywords of the fourth test, for "data-science". */
  const DataKeywords: seq<string> := ["data", "analysis", "ml", "ai"]

  /** The keywords of the fifth test, for "devops". */
  const DevopsKeywords: seq<string> := ["deploy", "cloud", "infrastructure"]

  /** The keywords whose presence adds a domain tag to the analysis; none for any other tag. */
  function DomainKeywords(tag: string): seq<string> {
    if tag == "web-development" then WebKeywords
    else if tag == "mobile-development" then MobileKeywords
    else if tag == "backend-development" then BackendKeywords
    else if tag == "data-science" then DataKeywords
    else if tag == "devops" then DevopsKeywords
    else []
  }

  /** `complexityIndicators`: any of these makes the complexity "high". */
  const HighIndicators: seq<string> := ["complex", "advanced", "enterprise", "scalable", "distributed"]

  /** `simpleIndicators`: any of these makes the complexity "low", unless a high one is present. */
  const SimpleIndicators: seq<string> := ["simple", "basic", "quick", "prototype"]

  // ---------------------------------------------------------------------
  // Classification
  // ---------------------------------------------------------------------

  /** The result of `analyzeUserInput`; `requirements` is always empty. */
  datatype Analysis = Analysis(
    domains: seq<string>,
    complexity: string,
    technologies: seq<string>,
    requirements: seq<string>)

  /** `words.some(w => keywords.includes(w))`. */
  predicate AnyIn(keywords: string, words: seq<string>) {
    exists i :: 0 <= i < |words| && Contains(keywords, words[i])
  }

  /** Whether one of the tag's keywords occurs in the lowered idea. */
  predicate DomainDetected(keywords: string, tag: string) {
    AnyIn(keywords, DomainKeywords(tag))
  }

  /** The tag as a one-element list when one of the keywords occurs, else nothing. */
  function TagIf(keywords: string, words: seq<string>, tag: string): seq<string> {
    if AnyIn(keywords, words) then [tag] else []
  }

  /** The five domain tests of `analyzeUserInput`, in order, each pushing its tag. */
  function DetectedDomains(keywords: string): seq<string> {
    TagIf(keywords, WebKeywords, "web-development")
      + (TagIf(keywords, MobileKeywords, "mobile-development")
      + (TagIf(keywords, BackendKeywords, "backend-development")
      + (TagIf(keywords, DataKeywords, "data-science")
      + TagIf(keywords, DevopsKeywords, "devops"))))
  }

  /** Whether a technology's lowered name occurs in the lowered idea. */
  predicate Mentions(keywords: string, technology: string) {
    Contains(keywords, Lower(technology))
  }

  /** The flattened technology table filtered by mention. */
  function MatchingTechnologies(table: seq<DomainInfo>, keywords: string): seq<string> {
    Filter(TechnologiesOf(table), t => Mentions(keywords, t))
  }

  /** The complexity tier: high indicators take precedence over simple ones. */
  function ComplexityOf(keywords: string): string {
    if AnyIn(keywords, HighIndicators) then "high"
    else if AnyIn(keywords, SimpleIndicators) then "low"
    else "medium"
  }

  /** What `analyzeUserInput` computes for a generator holding `table`. */
  function Analyze(table: seq<DomainInfo>, idea: string): Analysis {
    var keywords := Lower(idea);
    Analysis(DetectedDomains(keywords), ComplexityOf(keywords), MatchingTechnologies(table, keywords), [])
  }

  // ---------------------------------------------------------------------
  // Properties of the analysis
  // ---------------------------------------------------------------------

  /** The five domain tags are pairwise different. */
  lemma DomainTagsNoDup()
    ensures NoDup(DomainTags)
  {
  }

  /** One step of the domain filter, for a tag with its keyword list. */
  lemma DetectFilterStep(keywords: string, tags: seq<string>, words: seq<string>)
    requires tags != [] && DomainKeywords(tags[0]) == words
    ensures Filter(tags, tag => DomainDetected(keywords, tag)) ==
      TagIf(keywords, words, tags[0]) + Filter(tags[1..], tag => DomainDetected(keywords, tag))
  {
    FilterStep(tags, tag => DomainDetected(keywords, tag));
  }

  /**
   * The five tests amount to filtering the tag list by keyword detection:
   * tags come out in table order, each present iff one of its keywords occurs.
   */
  lemma DetectedDomainsFilter(keywords: string)
    ensures DetectedDomains(keywords) == Filter(DomainTags, tag => DomainDetected(keywords, tag))
  {
    var p := tag => DomainDetected(keywords, tag);
    var t := DomainTags;
    DetectFilterStep(keywords, t, WebKeywords);
    DetectFilterStep(keywords, t[1..], MobileKeywords);
    DetectFilterStep(keywords, t[2..], BackendKeywords);
    DetectFilterStep(keywords, t[3..], DataKeywords);
    DetectFilterStep(keywords, t[4..], DevopsKeywords);
    assert t[1..][1..] == t[2..] && t[2..][1..] == t[3..] && t[3..][1..] == t[4..] && t[4..][1..] == [];
    assert Filter(t[4..], p) == TagIf(keywords, DevopsKeywords, "devops");
  }

  /** The detected domains keep table order and never repeat a tag. */
  lemma DomainsOrderedDistinct(table: seq<DomainInfo>, idea: string)
    ensures IsSubsequence(Analyze(table, idea).domains, DomainTags)
    ensures NoDup(Analyze(table, idea).domains)
  {
    DetectedDomainsFilter(Lower(idea));
    FilterIsSubsequence(DomainTags, tag => DomainDetected(Lower(idea), tag));
    DomainTagsNoDup();
    SubsequenceNoDup(Analyze(table, idea).domains, DomainTags);
  }

  /** A tag is detected iff it is in the table and one of its keywords occurs in the lowered idea. */
  lemma DomainPresentIff(table: seq<DomainInfo>, idea: string, tag: string)
    ensures tag in Analyze(table, idea).domains <==>
      tag in DomainTags && exists i :: 0 <= i < |DomainKeywords(tag)| && Contains(Lower(idea), DomainKeywords(tag)[i])
  {
    DetectedDomainsFilter(Lower(idea));
    FilterMembers(DomainTags, t => DomainDetected(Lower(idea), t), tag);
  }

  /**
   * The three complexity tiers: "high" exactly when a high indicator occurs,
   * "low" exactly when a simple indicator occurs and no high one does, and
   * "medium" otherwise; nothing else is ever produced.
   */
  lemma ComplexityTiers(table: seq<DomainInfo>, idea: string)
    ensures Analyze(table, idea).complexity in ["low", "medium", "high"]
    ensures Analyze(table, idea).complexity == "high" <==> AnyIn(Lower(idea), HighIndicators)
    ensures Analyze(table, idea).complexity == "low" <==>
      !AnyIn(Lower(idea), HighIndicators) && AnyIn(Lower(idea), SimpleIndicators)
    ensures Analyze(table, idea).complexity == "medium" <==>
      !AnyIn(Lower(idea), HighIndicators) && !AnyIn(Lower(idea), SimpleIndicators)
  {
  }

  /** The detected technologies are the table entries mentioned in the idea, in table order, with every copy kept. */
  lemma TechnologiesExact(table: seq<DomainInfo>, idea: string, t: string)
    ensures IsSubsequence(Analyze(table, idea).technologies, TechnologiesOf(table))
    ensures t in Analyze(table, idea).technologies <==> t in TechnologiesOf(table) && Contains(Lower(idea), Lower(t))
    ensures multiset(Analyze(table, idea).technologies)[t] ==
      if Contains(Lower(idea), Lower(t)) then multiset(TechnologiesOf(table))[t] else 0
  {
    var p := tech => Mentions(Lower(idea), tech);
    FilterIsSubsequence(TechnologiesOf(table), p);
    FilterMembers(TechnologiesOf(table), p, t);
    FilterMultiplicity(TechnologiesOf(table), p, t);
  }

  /** No entry of the table lists the empty string as a framework or tool. */
  predicate NoEmptyNames(infos: seq<DomainInfo>) {
    forall k :: 0 <= k < |infos| ==> "" !in infos[k].frameworks && "" !in infos[k].tools
  }

  /** The standard table names no framework or tool by the empty string. */
  lemma StandardNoEmptyNames()
    ensures NoEmptyNames(StandardDomainTable)
  {
  }

  /** The empty string is not a name in the flattened technology table. */
  lemma {:induction false} NoEmptyTechnology(infos: seq<DomainInfo>)
    requires NoEmptyNames(infos)
    ensures "" !in TechnologiesOf(infos)
    decreases |infos|
  {
    if infos != [] {
      NoEmptyTechnology(infos[1..]);
    }
  }

  /** The flattened table as the concatenation of its entries' lists. */
  lemma TechnologiesOfStep(infos: seq<DomainInfo>)
    requires infos != []
    ensures multiset(TechnologiesOf(infos)) ==
      multiset(infos[0].frameworks) + multiset(infos[0].tools) + multiset(TechnologiesOf(infos[1..]))
  {
  }

  /** The data-science and devops entries name "Docker" once (as a devops framework). */
  lemma DockerInLastTwo()
    ensures multiset(TechnologiesOf(StandardDomainTable[3..]))["Docker"] >= 1
  {
    var t3, t4 := StandardDomainTable[3..], StandardDomainTable[4..];
    assert multiset(TechnologiesOf(t4))["Docker"] >= 1 by {
      TechnologiesOfStep(t4);
      assert t4[0].frameworks[1] == "Docker";
    }
    TechnologiesOfStep(t3);
    assert t3[1..] == t4;
  }

  /** "Docker" is both a backend tool and a devops framework, so the flattened table holds it twice. */
  lemma DockerTwiceInTable()
    ensures multiset(TechnologiesOf(StandardDomainTable))["Docker"] >= 2
  {
    var t1, t2 := StandardDomainTable[1..], StandardDomainTable[2..];
    assert multiset(TechnologiesOf(t2))["Docker"] >= 2 by {
      DockerInLastTwo();
      TechnologiesOfStep(t2);
      assert t2[1..] == StandardDomainTable[3..];
      assert t2[0].tools[0] == "Docker";
    }
    assert multiset(TechnologiesOf(t1))["Docker"] >= 2 by {
      TechnologiesOfStep(t1);
      assert t1[1..] == t2;
    }
    TechnologiesOfStep(StandardDomainTable);
    assert StandardDomainTable[1..] == t1;
  }

  /** An idea that names Docker lists it at least twice: the technologies are not de-duplicated. */
  lemma DockerListedTwice(idea: string)
    requires Contains(Lower(idea), "docker")
    ensures multiset(Analyze(StandardDomainTable, idea).technologies)["Docker"] >= 2
  {
    assert Lower("Docker") == "docker";
    DockerTwiceInTable();
    TechnologiesExact(StandardDomainTable, idea, "Docker");
  }

  /** No domain keyword occurs in the empty string. */
  lemma NoDomainInEmpty(keywords: string)
    requires keywords == []
    ensures DetectedDomains(keywords) == []
  {
    forall w | w in WebKeywords + MobileKeywords + BackendKeywords + DataKeywords + DevopsKeywords
      ensures !Contains(keywords, w)
    {
      EmptyContainsOnlyEmpty(w);
    }
  }

  /** No complexity indicator occurs in the empty string. */
  lemma MediumForEmpty(keywords: string)
    requires keywords == []
    ensures ComplexityOf(keywords) == "medium"
  {
    forall w | w in HighIndicators || w in SimpleIndicators ensures !Contains(keywords, w) {
      EmptyContainsOnlyEmpty(w);
    }
  }

  /** No technology name occurs in the empty string. */
  lemma NoTechnologyInEmpty(table: seq<DomainInfo>, keywords: string)
    requires NoEmptyNames(table)
    requires keywords == []
    ensures MatchingTechnologies(table, keywords) == []
  {
    NoEmptyTechnology(table);
    forall t | t in TechnologiesOf(table) ensures !Mentions(keywords, t) {
      EmptyContainsOnlyEmpty(Lower(t));
    }
    FilterKeepsNone(TechnologiesOf(table), t => Mentions(keywords, t));
  }

  /** The empty idea detects no domain and no technology, and has medium complexity. */
  lemma EmptyIdea(idea: string)
    requires |idea| == 0
    ensures Analyze(StandardDomainTable, idea) == Analysis([], "medium", [], [])
  {
    NoDomainInEmpty(Lower(idea));
    MediumForEmpty(Lower(idea));
    StandardNoEmptyNames();
    NoTechnologyInEmpty(StandardDomainTable, Lower(idea));
  }
}
