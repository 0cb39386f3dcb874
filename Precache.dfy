/** The hooks that ask the service worker to cache wiki pages
    (src/hooks/useWikiPrecache.ts): they build a URL list and hand it to
    `precacheWikiContent`. An effect runs when its dependency changes; the
    functions here give what one run sends. */
module Precache {
  import opened Basics
  import ServiceWorker
  import SwRegistration

  /** An entry id, a number or a string in the source. Numbers are taken to
      be integers. */
  datatype Id = NumId(n: int) | StrId(s: string)

  /** The id as a template literal writes it. */
  function IdText(id: Id): string {
    match id
    case NumId(n) => IntToString(n)
    case StrId(s) => s
  }

  function PageUrl(id: Id): string {
    "/wiki/" + IdText(id)
  }

  /** The URL list of `useWikiPrecache` (useWikiPrecache.ts:5-18); `None` when
      the effect returns early. */
  function WikiPrecacheUrls(entries: Option<seq<Id>>): (r: Option<seq<string>>)
    ensures r.None? <==> entries.None? || entries.value == []
    ensures r.Some? ==>
      var ids := entries.value;
      && |r.value| == |ids| + 2
      && (forall i | 0 <= i < |ids| :: r.value[i] == PageUrl(ids[i]))
      && r.value[|ids|..] == ["/api/wiki/entries", "/api/categories"]
  {
    match entries
    case None => None
    case Some(ids) =>
      if ids == [] then None
      else Some(seq(|ids|, i requires 0 <= i < |ids| => PageUrl(ids[i])) + ["/api/wiki/entries", "/api/categories"])
  }

  /** What one run of `useWikiPrecache` posts to the worker. */
  function UseWikiPrecache(entries: Option<seq<Id>>, supported: bool, hasController: bool): (effects: seq<SwRegistration.Effect>)
    ensures |effects| <= 1
    ensures |effects| == 1 <==> supported && hasController && entries.Some? && entries.value != []
  {
    match WikiPrecacheUrls(entries)
    case None => []
    case Some(urls) => SwRegistration.PrecacheWikiContent(supported, hasController, urls)
  }

  /** `!entryId`: undefined, the empty string and the number 0 are falsy. */
  predicate Falsy(id: Option<Id>) {
    id == None || id == Some(StrId("")) || id == Some(NumId(0))
  }

  /** The URL list of `useWikiEntryPrecache` (useWikiPrecache.ts:20-31). */
  function EntryPrecacheUrls(id: Option<Id>): (r: Option<seq<string>>)
    ensures r.None? <==> Falsy(id)
    ensures r.Some? ==> r.value == [PageUrl(id.value), "/api/wiki/entries/" + IdText(id.value)]
  {
    if Falsy(id) then None
    else Some([PageUrl(id.value), "/api/wiki/entries/" + IdText(id.value)])
  }

  /** Ids are not deduplicated: a repeated id gives a repeated page URL, so
      the list sent for [3, 3] has the same page twice. */
  lemma RepeatedIdsRepeatUrls()
    ensures WikiPrecacheUrls(Some([NumId(3), NumId(3)])) ==
      Some(["/wiki/3", "/wiki/3", "/api/wiki/entries", "/api/categories"])
  {
    var r := WikiPrecacheUrls(Some([NumId(3), NumId(3)]));
    assert IntToString(3) == "3";
    assert PageUrl(NumId(3)) == "/wiki/3";
    assert r.value[0] == "/wiki/3" && r.value[1] == "/wiki/3";
    assert r.value[2] == "/api/wiki/entries" && r.value[3] == "/api/categories";
    assert |r.value| == 4;
    assert r.value == ["/wiki/3", "/wiki/3", "/api/wiki/entries", "/api/categories"];
  }

  /** A positive numeric id and the string with its digits give the same
      URLs; zero differs, because the number 0 is falsy and the string "0"
      is not. */
  lemma NumberAndStringIdsAgree(n: nat)
    ensures n > 0 ==> EntryPrecacheUrls(Some(NumId(n))) == EntryPrecacheUrls(Some(StrId(NatToString(n))))
    ensures EntryPrecacheUrls(Some(NumId(0))) == None
    ensures EntryPrecacheUrls(Some(StrId("0"))) == Some(["/wiki/0", "/api/wiki/entries/0"])
  {
    assert NatToString(n) != "";
    assert !Falsy(Some(StrId("0")));
    assert PageUrl(StrId("0")) == "/wiki/0";
    assert "/api/wiki/entries/" + IdText(StrId("0")) == "/api/wiki/entries/0";
  }

  /** The list is delivered unchanged: the worker receives a `CACHE_URLS`
      message carrying exactly the URLs the hook built. */
  lemma PostedMessageCarriesUrls(ids: seq<Id>)
    requires ids != []
    ensures UseWikiPrecache(Some(ids), true, true) ==
      [SwRegistration.Post(ServiceWorker.Data("CACHE_URLS", WikiPrecacheUrls(Some(ids))))]
  {
  }

  /** A navigation to a precached page is classified into the runtime cache,
      not into the wiki cache that `CACHE_URLS` fills. */
  lemma PageNavigationUsesRuntimeCache()
    ensures ServiceWorker.Classify(ServiceWorker.Request("GET", "https://nestelia.example/wiki/7", "https:", "/wiki/7", "document", "navigate"))
      == ServiceWorker.Handle(ServiceWorker.RuntimeCache, ServiceWorker.NetworkFirst)
    ensures WikiPrecacheUrls(Some([NumId(7)])).value[0] == "/wiki/7"
  {
    var p := "/wiki/7";
    forall e | e in ServiceWorker.ImageExtensions + ServiceWorker.AssetExtensions
      ensures !EndsWith(Lower(p), "." + e)
    {
      assert Lower(p)[|p| - 1] == '7';
    }
    NotContains(p, "/api/wiki", 1, 2);
    NotContains(p, "/api/entries", 1, 2);
    NotContains(p, "/api/categories", 1, 2);
    NotContains(p, "/api/", 1, 2);
    assert IntToString(7) == "7";
  }
}
