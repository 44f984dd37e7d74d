/** A user's saved charts page: the charts shown for the search term.
    Deleting a chart refetches the list, so the page keeps no list state of
    its own. */
module UserChartsPage {
  import opened Common
  import opened ChartController

  /** The search box: the term occurs in the title, or in the description
      when there is one (an empty description is falsy), ignoring case. */
  predicate Matches(c: ChartDoc, term: string) {
    ContainsIgnoreCase(c.title, term) || (c.description != "" && ContainsIgnoreCase(c.description, term))
  }

  function Shown(term: string): ChartDoc -> bool {
    (c: ChartDoc) => Matches(c, term)
  }

  /** `filteredCharts`. */
  function FilteredCharts(charts: seq<ChartDoc>, term: string): (r: seq<ChartDoc>)
    ensures |r| <= |charts|
  {
    Filter(charts, Shown(term))
  }

  /** A chart is shown exactly when its title or its description matches,
      and the shown charts keep the list's order. */
  lemma FilteredChartsMembers(charts: seq<ChartDoc>, term: string)
    ensures forall c :: c in FilteredCharts(charts, term) <==> c in charts && Matches(c, term)
    ensures IsSubsequence(FilteredCharts(charts, term), charts)
  {
    FilterMembers(charts, Shown(term));
    FilterIsSubsequence(charts, Shown(term));
  }

  /** A chart without a description is found only by its title. */
  lemma UndescribedByTitleOnly(c: ChartDoc, term: string)
    requires c.description == ""
    ensures Matches(c, term) <==> ContainsIgnoreCase(c.title, term)
  {
  }

  /** With no search term every chart is shown. */
  lemma EmptyTermShowsAll(charts: seq<ChartDoc>)
    ensures FilteredCharts(charts, "") == charts
  {
    forall c | c in charts
      ensures Shown("")(c)
    {
      ContainsIgnoreCaseEmpty(c.title);
    }
    FilterKeepsAll(charts, Shown(""));
  }

  /** Narrowing the search never shows more: a chart matching a longer
      term also matches any of its prefixes. */
  lemma LongerTermShowsFewer(charts: seq<ChartDoc>, term: string, more: string)
    ensures forall c :: c in FilteredCharts(charts, term + more) ==> c in FilteredCharts(charts, term)
  {
    FilterMembers(charts, Shown(term + more));
    FilterMembers(charts, Shown(term));
    forall c | Matches(c, term + more)
      ensures Matches(c, term)
    {
      if ContainsIgnoreCase(c.title, term + more) {
        PrefixContained(c.title, term, more);
      } else {
        PrefixContained(c.description, term, more);
      }
    }
  }

  /** A text containing `term + more` (ignoring case) contains `term`. */
  lemma PrefixContained(s: string, term: string, more: string)
    requires ContainsIgnoreCase(s, term + more)
    ensures ContainsIgnoreCase(s, term)
  {
    var ls, lt, lm := Lower(s), Lower(term), Lower(term + more);
    assert lm[..|lt|] == lt;
    var i :| 0 <= i <= |ls| && OccursAt(ls, lm, i);
    assert ls[i..i + |lt|] == ls[i..i + |lm|][..|lt|];
    assert OccursAt(ls, lt, i);
  }
}
