/**
 * The catalogue computations of the home page (src/pages/Home.jsx:12-27):
 * the category list offered as filters, the tools matching the search box
 * and the selected category, and the summary counts. The two inputs that
 * React state holds, the search term and the selected category, are
 * parameters.
 */
module Home {
  import opened Strings
  import opened Seqs

  /** The category entry that selects every tool. */
  const All: string := "All"

  /** The fields of a catalogue entry that the page reads. */
  datatype Tool = Tool(
    name: string,
    description: string,
    company: string,
    category: string,
    hasPrompt: bool,
    hasTools: bool)

  /** `aiTools.map(tool => tool.category)`. */
  function CategoryColumn(tools: seq<Tool>): (r: seq<string>)
    ensures |r| == |tools|
    ensures forall i :: 0 <= i < |tools| ==> r[i] == tools[i].category
  {
    seq(|tools|, i requires 0 <= i < |tools| => tools[i].category)
  }

  /** `['All', ...new Set(aiTools.map(tool => tool.category))]`. */
  function Categories(tools: seq<Tool>): (r: seq<string>)
    ensures |r| >= 1 && r[0] == All
  {
    [All] + Distinct(CategoryColumn(tools))
  }

  /**
   * After "All", the category list names every category of the catalogue,
   * nothing else, each once, in the order the categories first appear.
   */
  lemma CategoriesSpec(tools: seq<Tool>)
    ensures forall i :: 0 <= i < |tools| ==> tools[i].category in Categories(tools)[1..]
    ensures forall c :: c in Categories(tools)[1..] ==> exists i :: 0 <= i < |tools| && tools[i].category == c
    ensures NoDup(Categories(tools)[1..])
    ensures forall i, j :: 1 <= i < j < |Categories(tools)| ==>
              FirstIndex(CategoryColumn(tools), Categories(tools)[i]) < FirstIndex(CategoryColumn(tools), Categories(tools)[j])
  {
    var column := CategoryColumn(tools);
    var rest := Distinct(column);
    assert Categories(tools)[1..] == rest;
    forall c | c in rest
      ensures exists i :: 0 <= i < |tools| && tools[i].category == c
    {
      var k :| 0 <= k < |column| && column[k] == c;
      assert tools[k].category == c;
    }
    DistinctFirstOccurrenceOrder(column);
    forall i, j | 1 <= i < j < |Categories(tools)|
      ensures FirstIndex(column, Categories(tools)[i]) < FirstIndex(column, Categories(tools)[j])
    {
      assert Categories(tools)[i] == rest[i - 1] && Categories(tools)[j] == rest[j - 1];
    }
  }

  /** The whole list is free of duplicates exactly when no tool's category is "All". */
  lemma CategoriesNoDup(tools: seq<Tool>)
    ensures NoDup(Categories(tools)) <==> forall i :: 0 <= i < |tools| ==> tools[i].category != All
  {
    var column := CategoryColumn(tools);
    var rest := Distinct(column);
    CategoriesSpec(tools);
    if forall i :: 0 <= i < |tools| ==> tools[i].category != All {
      forall i, j | 0 <= i < j < |Categories(tools)|
        ensures Categories(tools)[i] != Categories(tools)[j]
      {
        assert Categories(tools)[j] == rest[j - 1];
        if i == 0 {
          var k :| 0 <= k < |tools| && tools[k].category == rest[j - 1];
        } else {
          assert Categories(tools)[i] == rest[i - 1];
        }
      }
    } else {
      var k :| 0 <= k < |tools| && tools[k].category == All;
      assert column[k] == All;
      var j :| 0 <= j < |rest| && rest[j] == All;
      assert Categories(tools)[0] == Categories(tools)[j + 1];
    }
  }

  /** The search test: the lowered term occurs in the lowered name, description or company. */
  predicate MatchesSearch(term: string, t: Tool) {
    var needle := Lower(term);
    Contains(Lower(t.name), needle) || Contains(Lower(t.description), needle) || Contains(Lower(t.company), needle)
  }

  /** The category test: "All", or the tool's own category. */
  predicate MatchesCategory(selected: string, t: Tool) {
    selected == All || t.category == selected
  }

  /** `aiTools.filter(...)` with the two tests of the page. */
  function FilteredTools(tools: seq<Tool>, term: string, selected: string): (r: seq<Tool>)
    ensures |r| <= |tools|
  {
    Filter(tools, t => MatchesSearch(term, t) && MatchesCategory(selected, t))
  }

  /** The filtered list keeps the catalogue order, and keeps a tool exactly when it passes both tests. */
  lemma FilteredToolsSpec(tools: seq<Tool>, term: string, selected: string)
    ensures IsSubsequence(FilteredTools(tools, term, selected), tools)
    ensures forall t :: t in FilteredTools(tools, term, selected) <==>
              t in tools && MatchesSearch(term, t) && MatchesCategory(selected, t)
  {
    var p := t => MatchesSearch(term, t) && MatchesCategory(selected, t);
    FilterIsSubsequence(tools, p);
    forall t ensures t in Filter(tools, p) <==> t in tools && p(t) {
      FilterMembers(tools, p, t);
    }
  }

  /** A tool that passes both tests is kept as often as it is listed; any other is dropped. */
  lemma FilteredToolsMultiplicity(tools: seq<Tool>, term: string, selected: string, t: Tool)
    ensures multiset(FilteredTools(tools, term, selected))[t] ==
              if MatchesSearch(term, t) && MatchesCategory(selected, t) then multiset(tools)[t] else 0
  {
    FilterMultiplicity(tools, t => MatchesSearch(term, t) && MatchesCategory(selected, t), t);
  }

  /** An empty search box with "All" selected shows the whole catalogue. */
  lemma EmptySearchShowsAll(tools: seq<Tool>)
    ensures FilteredTools(tools, "", All) == tools
  {
    forall i | 0 <= i < |tools|
      ensures MatchesSearch("", tools[i])
    {
      ContainsEmpty(Lower(tools[i].name));
    }
    FilterKeepsAll(tools, t => MatchesSearch("", t) && MatchesCategory(All, t));
  }

  /** A category no tool has shows nothing. */
  lemma UnusedCategoryShowsNothing(tools: seq<Tool>, term: string, selected: string)
    requires selected != All
    requires forall i :: 0 <= i < |tools| ==> tools[i].category != selected
    ensures FilteredTools(tools, term, selected) == []
  {
    FilterKeepsNone(tools, t => MatchesSearch(term, t) && MatchesCategory(selected, t));
  }

  /** The summary counts of the page. */
  datatype Stats = Stats(totalTools: nat, withPrompts: nat, withTools: nat, categories: nat)

  /** `stats`: the catalogue size, the tools with a prompt and with tools, and the categories other than "All". */
  function ComputeStats(tools: seq<Tool>): (s: Stats)
    ensures s.totalTools == |tools|
    ensures s.withPrompts <= s.totalTools && s.withTools <= s.totalTools
    ensures s.categories <= s.totalTools
  {
    Stats(|tools|, |Filter(tools, (t: Tool) => t.hasPrompt)|, |Filter(tools, (t: Tool) => t.hasTools)|, |Categories(tools)| - 1)
  }

  /** `stats.categories` is the number of distinct categories in the catalogue. */
  lemma StatsCountsCategories(tools: seq<Tool>)
    ensures ComputeStats(tools).categories == |set i | 0 <= i < |tools| :: tools[i].category|
  {
    var column := CategoryColumn(tools);
    DistinctCardinality(column);
    assert Elements(column) == set i | 0 <= i < |tools| :: tools[i].category;
  }

  /** `withPrompts` and `withTools` count the tools whose flag is set. */
  lemma StatsCountsFlags(tools: seq<Tool>)
    ensures ComputeStats(tools).withPrompts == |Positions(tools, (t: Tool) => t.hasPrompt)|
    ensures ComputeStats(tools).withTools == |Positions(tools, (t: Tool) => t.hasTools)|
  {
    FilterCount(tools, (t: Tool) => t.hasPrompt);
    FilterCount(tools, (t: Tool) => t.hasTools);
  }
}
