/** The related-entries carousel
    (src/pages/core/wiki/components/RelatedEntriesCarousel.tsx): the
    entries are shown four at a time, and the arrows step through the pages
    with wrap-around. */
module Carousel {
  import opened Basics
  import WikiService

  const ItemsPerPage := 4

  /** `Math.ceil(n / 4)`. */
  function TotalPages(n: nat): (t: nat)
    ensures 4 * t >= n
    ensures t > 0 ==> 4 * (t - 1) < n
    ensures t == 0 <==> n == 0
  {
    (n + ItemsPerPage - 1) / ItemsPerPage
  }

  /** `handleNext`'s updater; `None` stands for the NaN that `% 0` gives. */
  function Next(index: nat, totalPages: nat): (r: Option<nat>)
    ensures r.Some? <==> totalPages > 0
    ensures r.Some? ==> r.value < totalPages
    ensures r.Some? && index + 1 < totalPages ==> r.value == index + 1
    ensures r.Some? && index + 1 == totalPages ==> r.value == 0
  {
    if totalPages == 0 then None else Some((index + 1) % totalPages)
  }

  /** `handlePrev`'s updater. */
  function Prev(index: nat, totalPages: nat): (r: Option<nat>)
    ensures r.Some? <==> totalPages > 0
    ensures r.Some? ==> r.value < totalPages
    ensures r.Some? && 0 < index <= totalPages ==> r.value == index - 1
    ensures r.Some? && index == 0 ==> r.value == totalPages - 1
  {
    if totalPages == 0 then None else Some((index - 1 + totalPages) % totalPages)
  }

  /** Next then previous, or previous then next, come back to the page
      they started from. */
  lemma NextPrevRoundTrip(index: nat, totalPages: nat)
    requires index < totalPages
    ensures Prev(Next(index, totalPages).value, totalPages) == Some(index)
    ensures Next(Prev(index, totalPages).value, totalPages) == Some(index)
  {
  }

  /** `Array.prototype.slice` for non-negative bounds: both are clamped to
      the length, and a start past the end gives the empty list. */
  function Slice<T>(s: seq<T>, start: nat, end: nat): (r: seq<T>)
    ensures |r| <= |s|
    ensures start <= end <= |s| ==> r == s[start..end]
  {
    var lo := if start <= |s| then start else |s|;
    var hi := if end <= |s| then end else |s|;
    if lo <= hi then s[lo..hi] else []
  }

  /** `visibleEntries`: page `index` of the list. */
  function Visible<T>(entries: seq<T>, index: nat): (v: seq<T>)
    ensures |v| <= ItemsPerPage
    ensures index < TotalPages(|entries|) ==>
      v != [] && v == entries[4 * index .. if 4 * index + 4 <= |entries| then 4 * index + 4 else |entries|]
    ensures index >= TotalPages(|entries|) ==> v == []
  {
    Slice(entries, index * ItemsPerPage, (index + 1) * ItemsPerPage)
  }

  /** Pages 0, 1, ..., k-1 one after the other. */
  function Pages<T>(entries: seq<T>, k: nat): seq<T> {
    if k == 0 then [] else Pages(entries, k - 1) + Visible(entries, k - 1)
  }

  /** The first k pages are the first 4k entries. */
  lemma {:induction false} PagesArePrefix<T>(entries: seq<T>, k: nat)
    requires k <= TotalPages(|entries|)
    ensures Pages(entries, k) == entries[..if 4 * k <= |entries| then 4 * k else |entries|]
  {
    if k > 0 {
      PagesArePrefix(entries, k - 1);
      var a := 4 * (k - 1);
      var b := if 4 * k <= |entries| then 4 * k else |entries|;
      assert entries[..a] + entries[a..b] == entries[..b];
    }
  }

  /** Stepping through every page shows every entry once, in order. */
  lemma PagesCoverEntries<T>(entries: seq<T>)
    ensures Pages(entries, TotalPages(|entries|)) == entries
  {
    PagesArePrefix(entries, TotalPages(|entries|));
    assert entries[..|entries|] == entries;
  }

  /** The list the carousel works on: `data?.data || []`. */
  function Entries(response: Option<Option<seq<WikiService.WikiEntry>>>): (r: seq<WikiService.WikiEntry>)
    ensures response.Some? && response.value.Some? ==> r == response.value.value
    ensures response.None? || response.value.None? ==> r == []
  {
    if response.Some? && response.value.Some? then response.value.value else []
  }

  /** The query is enabled iff both ids are non-empty strings. */
  function QueryEnabled(categoryId: string, currentEntryId: string): (r: bool)
    ensures r <==> categoryId != [] && currentEntryId != []
  {
    categoryId != "" && currentEntryId != ""
  }

  /** What the component renders: the spinner, nothing, or the visible
      entries with the arrows (when there is more than one page) and the
      "index+1 / totalPages" label. */
  datatype View<T> =
    | Spinner
    | Nothing
    | Shown(visible: seq<T>, arrows: bool, shownPage: nat, totalPages: nat)

  function Render<T>(isLoading: bool, entries: seq<T>, index: nat): (v: View<T>)
    ensures isLoading ==> v == Spinner
    ensures !isLoading && entries == [] ==> v == Nothing
    ensures v.Shown? ==>
      && entries != []
      && (v.arrows <==> |entries| > ItemsPerPage)
      && v.shownPage == index + 1
      && |v.visible| <= ItemsPerPage
    ensures !isLoading && entries != [] ==>
      v == Shown(Visible(entries, index), TotalPages(|entries|) > 1, index + 1, TotalPages(|entries|))
  {
    if isLoading then Spinner
    else if entries == [] then Nothing
    else
      var total := TotalPages(|entries|);
      Shown(Visible(entries, index), total > 1, index + 1, total)
  }
}
