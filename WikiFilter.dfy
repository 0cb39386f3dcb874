/** The wiki page's article filter (src/pages/core/wiki/Wiki.tsx:160-168):
    a category selection and a case-insensitive search over the title and
    the description. */
module WikiFilter {
  import opened Basics

  /** An article of the wiki page's list; its image and date are not
      modelled. */
  datatype Article = Article(id: int, title: string, description: string, categoryId: int)

  predicate MatchesCategory(selected: Option<int>, a: Article) {
    selected.None? || a.categoryId == selected.value
  }

  predicate MatchesSearch(query: string, a: Article) {
    query == "" || Contains(Lower(a.title), Lower(query)) || Contains(Lower(a.description), Lower(query))
  }

  predicate Keep(selected: Option<int>, query: string, a: Article) {
    MatchesCategory(selected, a) && MatchesSearch(query, a)
  }

  /** `filteredEntries`. */
  function FilteredEntries(entries: seq<Article>, selected: Option<int>, query: string): (r: seq<Article>)
    ensures |r| <= |entries|
    ensures forall a | a in r :: a in entries && Keep(selected, query, a)
  {
    Filter(entries, a => Keep(selected, query, a))
  }

  /** An article is kept iff it matches both the category and the search,
      and the kept articles keep their order. */
  lemma FilteredExactly(entries: seq<Article>, selected: Option<int>, query: string)
    ensures forall a :: a in FilteredEntries(entries, selected, query) <==> a in entries && Keep(selected, query, a)
    ensures IsSubsequence(FilteredEntries(entries, selected, query), entries)
  {
    var keep := a => Keep(selected, query, a);
    FilterIsSubsequence(entries, keep);
    forall a ensures a in Filter(entries, keep) <==> a in entries && keep(a) {
      FilterMembership(entries, keep, a);
    }
  }

  /** No category and an empty query show every article. */
  lemma NoFilterKeepsAll(entries: seq<Article>)
    ensures FilteredEntries(entries, None, "") == entries
  {
    FilterKeepsAll(entries, a => Keep(None, "", a));
  }

  /** With a category selected, only that category's articles are shown. */
  lemma SelectedCategoryOnly(entries: seq<Article>, category: int, query: string)
    ensures forall a | a in FilteredEntries(entries, Some(category), query) :: a.categoryId == category
  {
  }

  /** A non-empty query matches regardless of letter case: an article whose
      title holds the query in any mix of cases is kept when no category is
      selected. */
  lemma SearchIgnoresCase(entries: seq<Article>, a: Article, query: string)
    requires a in entries && query != ""
    requires Contains(Lower(a.title), Lower(query))
    ensures a in FilteredEntries(entries, None, query)
  {
    FilterMembership(entries, x => Keep(None, query, x), a);
  }
}
