/** The related-entries request of the wiki service
    (src/pages/core/wiki/services/wikiService.ts:67-87): it asks the server
    for entries of a category and drops the entry being viewed from what
    comes back, reassigning the response's `data` in place. */
module WikiService {
  import opened Basics

  /** A wiki entry (src/pages/core/wiki/interfaces/WikiEntry.ts); the
      embedded category record is not modelled. */
  datatype WikiEntry = WikiEntry(
    id: string, title: string, description: string, categoryId: string,
    image: string, createdAt: string, isDeleted: bool)

  /** The fields of the API envelope the filter can see; `data` is the only
      one it writes. */
  class ApiResponse {
    var isSuccess: Option<bool>
    var message: Option<string>
    var data: Option<seq<WikiEntry>>

    constructor (isSuccess: Option<bool>, message: Option<string>, data: Option<seq<WikiEntry>>)
      ensures this.isSuccess == isSuccess && this.message == message && this.data == data
    {
      this.isSuccess := isSuccess;
      this.message := message;
      this.data := data;
    }
  }

  /** The query string sent to `/wikientry/get-entries-by-category`: the
      category and the limit, never the current entry's id. */
  datatype RelatedRequest = RelatedRequest(categoryId: string, limit: int)

  predicate NotCurrent(currentEntryId: string, e: WikiEntry) {
    e.id != currentEntryId
  }

  /** The new value of `response.data`: an absent list stays absent, a
      present one (even empty) loses every entry with the current id. */
  function Related(data: Option<seq<WikiEntry>>, currentEntryId: string): (r: Option<seq<WikiEntry>>)
    ensures r.None? <==> data.None?
    ensures r.Some? ==>
      && |r.value| <= |data.value|
      && (forall e | e in r.value :: e in data.value && e.id != currentEntryId)
  {
    match data
    case None => None
    case Some(entries) => Some(Filter(entries, e => NotCurrent(currentEntryId, e)))
  }

  /** No entry with the current id survives, and every other entry does,
      in the order received. */
  lemma RelatedExcludesExactlyCurrent(entries: seq<WikiEntry>, currentEntryId: string)
    ensures var r := Related(Some(entries), currentEntryId).value;
      && (forall e :: e in r <==> e in entries && e.id != currentEntryId)
      && IsSubsequence(r, entries)
  {
    var keep := e => NotCurrent(currentEntryId, e);
    FilterIsSubsequence(entries, keep);
    forall e ensures e in Filter(entries, keep) <==> e in entries && e.id != currentEntryId {
      FilterMembership(entries, keep, e);
    }
  }

  /** A list that does not contain the current entry comes back unchanged. */
  lemma RelatedWithoutCurrentUnchanged(entries: seq<WikiEntry>, currentEntryId: string)
    requires forall e | e in entries :: e.id != currentEntryId
    ensures Related(Some(entries), currentEntryId) == Some(entries)
  {
    FilterKeepsAll(entries, e => NotCurrent(currentEntryId, e));
  }

  /** `getRelatedWikiEntries` once the server has answered with `response`:
      it returns the request it sent (the limit defaults to 10) and filters
      `response.data` in place, leaving the other fields alone. */
  method GetRelatedWikiEntries(categoryId: string, currentEntryId: string, limit: Option<int>, response: ApiResponse)
    returns (request: RelatedRequest)
    modifies response`data
    ensures request == RelatedRequest(categoryId, limit.GetOr(10))
    ensures response.data == Related(old(response.data), currentEntryId)
    ensures response.isSuccess == old(response.isSuccess) && response.message == old(response.message)
  {
    request := RelatedRequest(categoryId, limit.GetOr(10));
    if response.data.Some? {
      response.data := Some(Filter(response.data.value, e => NotCurrent(currentEntryId, e)));
    }
  }
}
