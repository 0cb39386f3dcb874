# nestelia frontend core, modelled in Dafny

nestelia is a React content-management frontend. It has a wiki, a blog, news,
categories, a chatbot and an authenticated dashboard. This project models
the parts of it whose behaviour can be stated precisely, and proves what
they promise:

- **Offline layer.**
  - The service worker (`public/service-worker.js`): request classification, the three caching strategies, install, activate and the message handler. Cache Storage is modelled as a map of maps.
  - The page-side registration helpers (`src/utils/serviceWorkerRegistration.ts`).
  - The hooks that ask the worker to precache wiki pages (`src/hooks/useWikiPrecache.ts`).
- **Chatbot.**
  - The server-sent-event query (`chatbotService.ts`). Its closure is a class whose callbacks follow a pure step function.
  - The chat window's message list (`Chatbot.tsx`).
  - The chatbot zod schemas, over parsed JSON values.
- **Wiki.**
  - The numbered pagination (`WikiPagination.tsx`). `renderPageButtons` is a loop method proved against a specification function.
  - The related-entries request and carousel.
  - The wiki page's category/search filter.
- **Categories.**
  - The form modal: its field handlers, the schema it picks, the error map it builds, and the form data it submits.
  - The list page: its search, result-count line and form handlers.
- **Form schemas.** The category, wiki-entry, post, news and login schemas, as the list of zod issues each input produces.
- **Session and layout.**
  - The zustand auth store.
  - The route-guard hook and the three guard components.
  - The sidebar context.

Every module imports `Basics`. It holds Option, ASCII lower-casing, substring search, decimal rendering and a sequence filter with its membership and order lemmas.

## Model

| member | source | states |
|---|---|---|
| ServiceWorker.ClassifyIsFirstMatch | public/service-worker.js:93-136 | the fetch handler's if-chain is a first-match over the rule table (bypass, image, static asset, wiki API, API, navigation) falling back to stale-while-revalidate on the runtime cache |
| ServiceWorker.Classify | public/service-worker.js:93-136 | a request is bypassed exactly when it is not a GET or not http(s); every handled route names a current cache, and cache-first is used only for images and static assets |
| ServiceWorker.BypassExactly | public/service-worker.js:97-103 | a request is left to the browser exactly when it is not a GET or its protocol does not start with "http" |
| ServiceWorker.RoutesUseCurrentCaches | public/service-worker.js:2-11 | every cache the handler routes to is one of the four current-generation caches that activation keeps |
| ServiceWorker.WikiEntryApiGoesToWikiCache | public/service-worker.js:118-123 | substring matching routes /api/wikientry/... to the wiki cache, network-first |
| ServiceWorker.CategoryListPathHasNoExtension | public/service-worker.js:105-116 | the category list path has none of the image or asset extensions |
| ServiceWorker.CategoryListPathMarkers | public/service-worker.js:118-128 | the category list path contains "/api/" but none of the three wiki markers |
| ServiceWorker.CategoryApiGoesToRuntimeCache | public/service-worker.js:125-128 | /api/category/list-categories falls to the generic API rule (runtime cache, network-first) |
| ServiceWorker.ImageUnderWikiApiGoesToImages | public/service-worker.js:105-108 | the image rule wins over the wiki rule: an image under /api/wiki is served cache-first from the image cache |
| ServiceWorker.Opened | public/service-worker.js:41 | `caches.open` adds the cache, empty, when missing, and every existing cache keeps its contents |
| ServiceWorker.Worker.constructor | public/service-worker.js:1-11 | the worker starts with the given caches, an empty fetch log, no skipWaiting call and no claimed clients |
| ServiceWorker.Worker.Open | public/service-worker.js:41 | opening a cache makes the cache map `Opened(old, name)` |
| ServiceWorker.Worker.Put | public/service-worker.js:51 | a put replaces one key of one cache and nothing else |
| ServiceWorker.Worker.Fetch | public/service-worker.js:49 | a fetch appends its URL to the fetch log and returns the network's outcome |
| ServiceWorker.ServeOnlyStoresOkAtKey | public/service-worker.js:40-91 | whatever the strategy, only the entry for the request URL can change, and only to a 200 response the network gave |
| ServiceWorker.OfflineServesCached | public/service-worker.js:40-91 | offline, each of the three strategies answers with the cached entry when there is one and stores nothing |
| ServiceWorker.NoAnswerOnlyOfflineMiss | public/service-worker.js:40-91 | a strategy fails to answer with a response exactly when the fetch fails and nothing is cached; only stale-while-revalidate then gives undefined, the other two reject |
| ServiceWorker.OnlineAnswers | public/service-worker.js:40-91 | online, network-first and any cache miss answer with the network response; cache-first and stale-while-revalidate answer a hit from the cache |
| ServiceWorker.Worker.CacheFirst | public/service-worker.js:40-57 | a hit answers from the cache without fetching; a miss fetches, stores only a 200 and answers with any response, and rejects when the fetch fails; answer and cache are `Serve(CacheFirst, ...)` |
| ServiceWorker.Worker.NetworkFirst | public/service-worker.js:59-75 | always fetches; any response is returned and only a 200 stored; offline, the stored entry is returned if there is one, else the promise rejects; answer and cache are `Serve(NetworkFirst, ...)` |
| ServiceWorker.Worker.StaleWhileRevalidate | public/service-worker.js:77-91 | answers with the stored entry if any, else the network's response, else undefined; the revalidation overwrites the entry only on a 200; answer and cache are `Serve(StaleWhileRevalidate, ...)` |
| ServiceWorker.Worker.OnFetch | public/service-worker.js:93-136 | responds exactly when the request is not bypassed; a bypassed request touches nothing; a handled one answers, changes its route's cache and fetches exactly as `Serve` gives for the strategy and cache `Classify` picks, and leaves every other cache as it was |
| ServiceWorker.Worker.AddAll | public/service-worker.js:17 | fetches every URL; stores all the responses only when every fetch gives a status in 200-299 other than 206 and no URL repeats, otherwise stores nothing; other caches and other keys are unchanged |
| ServiceWorker.Worker.Install | public/service-worker.js:13-21 | precaches "/", "/index.html" and "/manifest.json" into the app-shell cache and calls skipWaiting only when that precache succeeds; other caches and the shell cache's other keys are unchanged |
| ServiceWorker.Worker.Activate | public/service-worker.js:23-38 | deletes exactly the caches whose names are not current, keeps the others' contents, and claims the clients |
| ServiceWorker.Worker.OnMessage | public/service-worker.js:138-149 | SKIP_WAITING calls skipWaiting; CACHE_URLS opens the wiki cache and adds the URLs all-or-nothing, keeping the other caches and the wiki cache's other keys; any other message changes nothing |
| ServiceWorker.CacheFirstMissThenHit | public/service-worker.js:40-57 | a 200 miss is stored, and the next request is a hit that does not fetch |
| ServiceWorker.NetworkFirstOffline | public/service-worker.js:68-74 | offline, network-first serves a stored entry and rejects without one |
| ServiceWorker.NetworkFirstKeepsEntryOnError | public/service-worker.js:62-67 | a non-200 response is returned but not stored, so the old entry survives |
| ServiceWorker.StaleWhileRevalidateServesStale | public/service-worker.js:77-91 | a stored entry is served whatever the network does; without one a failed fetch yields undefined |
| ServiceWorker.ActivateDeletesOldGeneration | public/service-worker.js:23-38 | activation over an older "nestelia-v0" cache leaves exactly the four current caches |
| SwRegistration.OctetPatternIsByte | src/utils/serviceWorkerRegistration.ts:12 | the octet alternatives accept exactly one to three decimal digits worth at most 255 |
| SwRegistration.SplitDots | src/utils/serviceWorkerRegistration.ts:11-13 | splitting at dots yields at least one piece |
| SwRegistration.JoinSplit | src/utils/serviceWorkerRegistration.ts:11-13 | joining the pieces of a split with dots gives back the host name |
| SwRegistration.SplitJoin | src/utils/serviceWorkerRegistration.ts:11-13 | splitting dot-free pieces joined with dots gives back the pieces |
| SwRegistration.LoopbackIff | src/utils/serviceWorkerRegistration.ts:8-14 | "127.a.b.c" with dot-free a, b, c is a loopback host exactly when a, b and c are decimal bytes |
| SwRegistration.IsLocalhost | src/utils/serviceWorkerRegistration.ts:8-14 | a local host other than "localhost" and "[::1]" is "127." followed by three dot-separated decimal bytes |
| SwRegistration.LoopbackIsThreeOctets | src/utils/serviceWorkerRegistration.ts:8-14 | every loopback host is "127" followed by three decimal bytes |
| SwRegistration.LoopbackAddress | src/utils/serviceWorkerRegistration.ts:8-14 | 127.0.0.1 counts as localhost |
| SwRegistration.LoopbackLeadingZeros | src/utils/serviceWorkerRegistration.ts:12 | octets with leading zeros (127.001.255.9) are accepted |
| SwRegistration.LoopbackOctetOver255 | src/utils/serviceWorkerRegistration.ts:12 | an octet of 256 is refused |
| SwRegistration.Register | src/utils/serviceWorkerRegistration.ts:16-41 | nothing without service-worker support; on localhost, [::1] or a 127.x.x.x host the script is checked and never registered directly, elsewhere it is registered directly and not checked; the online and offline listeners come last |
| SwRegistration.OnConnectivity | src/utils/serviceWorkerRegistration.ts:33-39 | the online (offline) event calls onOnline (onOffline) exactly when it is configured |
| SwRegistration.OnStateChange | src/utils/serviceWorkerRegistration.ts:47-63 | an installed worker calls onUpdate when a controller exists and onSuccess when none does, each only if configured; other states call nothing |
| SwRegistration.CheckValidServiceWorker | src/utils/serviceWorkerRegistration.ts:75-99 | a 404 or a present non-javascript content type unregisters and reloads; a failed fetch only logs; otherwise the script is registered |
| SwRegistration.MissingContentTypeRegisters | src/utils/serviceWorkerRegistration.ts:80-84 | a 200 without a content type registers the script |
| SwRegistration.PrecacheWikiContent | src/utils/serviceWorkerRegistration.ts:113-120 | a CACHE_URLS message with the URLs is posted exactly when there is support and a controlling worker |
| SwRegistration.Unregister | src/utils/serviceWorkerRegistration.ts:101-111 | one unregistration once ready exactly with support, nothing without |
| SwRegistration.CheckForUpdates | src/utils/serviceWorkerRegistration.ts:122-128 | one update request once ready exactly with support, nothing without |
| SwRegistration.NoSupportNoEffects | src/utils/serviceWorkerRegistration.ts:17 | without service-worker support register, unregister, checkForUpdates and precacheWikiContent do nothing; with it the first three always act |
| Precache.WikiPrecacheUrls | src/hooks/useWikiPrecache.ts:5-18 | no list for missing or empty entries; otherwise one /wiki/id per entry in order, then the two API list URLs |
| Precache.UseWikiPrecache | src/hooks/useWikiPrecache.ts:5-18 | a message is posted exactly when there are entries, support and a controller |
| Precache.EntryPrecacheUrls | src/hooks/useWikiPrecache.ts:20-31 | nothing for a falsy id (undefined, "", 0); otherwise the page URL and the entry API URL |
| Precache.RepeatedIdsRepeatUrls | src/hooks/useWikiPrecache.ts:9 | repeated ids are not deduplicated |
| Precache.NumberAndStringIdsAgree | src/hooks/useWikiPrecache.ts:20-31 | a positive number and its digit string give the same URLs; the number 0 is skipped, the string "0" is not |
| Precache.PostedMessageCarriesUrls | src/hooks/useWikiPrecache.ts:16 | the worker receives exactly the URL list the hook built |
| Precache.PageNavigationUsesRuntimeCache | public/service-worker.js:130-133 | navigating to a precached /wiki/id page is served from the runtime cache, not the wiki cache that CACHE_URLS fills |
| ChatStream.Settle | src/pages/core/bot/services/chatbotService.ts:15 | a promise settles once: later resolve/reject calls are ignored |
| ChatStream.ToRelevant | src/pages/core/bot/services/chatbotService.ts:51-57 | a chunks event yields one relevant chunk per raw chunk, with its index, its fields and similarity 1/(1+distance) |
| ChatStream.SimilarityBounds | src/pages/core/bot/services/chatbotService.ts:55 | a non-negative distance gives a similarity in (0, 1] that decreases as the distance grows |
| ChatStream.ErrorMessage | src/pages/core/bot/services/chatbotService.ts:99 | the rejection message is never empty: the server's message, or "Error del servidor" when it is missing or empty |
| ChatStream.OpenError | src/pages/core/bot/services/chatbotService.ts:31-41 | opening fails exactly when the response is not ok or not text/event-stream; a non-ok response reports "HTTP status: body" |
| ChatStream.ReplayAnswer | src/pages/core/bot/services/chatbotService.ts:64-75 | the answer is the token contents in arrival order, and the onStream callback receives the same contents one by one |
| ChatStream.ReplayText | src/pages/core/bot/services/chatbotService.ts:64-75 | replaying events appends the token contents to the accumulated answer |
| ChatStream.ReplayStreamed | src/pages/core/bot/services/chatbotService.ts:64-75 | with an onStream callback, replaying events passes it each token content in order; without one nothing is recorded |
| ChatStream.Step | src/pages/core/bot/services/chatbotService.ts:43-109 | a token's content is appended to the answer and, when a callback is given, passed to it; done and error complete the stream; done resolves with the answer, chunks and time (possibly undefined), error rejects with its message; an error with `null` data completes and aborts but leaves the outcome alone, as do other events and a settled promise |
| ChatStream.Close | src/pages/core/bot/services/chatbotService.ts:111-124 | a close after completion changes nothing; before it, a pending promise resolves with the partial answer |
| ChatStream.TransportError | src/pages/core/bot/services/chatbotService.ts:126-135 | a transport error after completion changes nothing; before it, a pending promise rejects with the error; the answer is kept |
| ChatStream.Replay | src/pages/core/bot/services/chatbotService.ts:43-109 | over any sequence of messages a settled outcome stays and a completed stream stays complete; without done or error the outcome does not change, and without those or a `null` error the completion flag does not change |
| ChatStream.SettledStaysSettled | src/pages/core/bot/services/chatbotService.ts:87-131 | once settled, no later message, close or error changes the outcome |
| ChatStream.CompleteIffFinished | src/pages/core/bot/services/chatbotService.ts:84-108 | isComplete holds exactly after a done or error event; unless an error event carried `null` data, the promise is then settled |
| ChatStream.TimeOnlyFromDone | src/pages/core/bot/services/chatbotService.ts:83 | only a done event sets the processing time |
| ChatStream.ReplayChunks | src/pages/core/bot/services/chatbotService.ts:48-58 | the chunk list is the one from the last chunks event: it is replaced, not extended |
| ChatStream.DoneResolves | src/pages/core/bot/services/chatbotService.ts:77-92 | a stream ending in done resolves with the concatenated tokens, the last chunk list and the reported time |
| ChatStream.CloseBeforeDoneResolvesPartial | src/pages/core/bot/services/chatbotService.ts:111-124 | a stream closed before any done or error event resolves with the partial answer and time 0 |
| ChatStream.PendingWhileUnfinished | src/pages/core/bot/services/chatbotService.ts:43-109 | without a done or error event the promise stays pending |
| ChatStream.ReplaySplit | src/pages/core/bot/services/chatbotService.ts:43-109 | replaying two message sequences one after the other is replaying their concatenation |
| ChatStream.ServerErrorRejects | src/pages/core/bot/services/chatbotService.ts:94-100 | an error event completes, aborts and rejects with the server's or the default message, keeping answer and chunks |
| ChatStream.AfterCompletion | src/pages/core/bot/services/chatbotService.ts:111-135 | after completion close and transport errors change nothing; before, a transport error aborts and rejects with the error |
| ChatStream.NeutralEvents | src/pages/core/bot/services/chatbotService.ts:60-62 | start, unknown and malformed events change nothing |
| ChatStream.NullErrorHangs | src/pages/core/bot/services/chatbotService.ts:95-108 | after an error event with `null` data the session is complete and aborted with the promise still pending, and neither close nor a transport error can settle it |
| ChatStream.StepIntended | src/pages/core/bot/services/chatbotService.ts:95-100 | the corrected handler treats `null` error data like an error without a message, so a pending promise is rejected with "Error del servidor"; every other event is handled as written |
| ChatStream.IntendedCompleteImpliesSettled | src/pages/core/bot/services/chatbotService.ts:84-108 | with the corrected handler, completion happens exactly after a done or error event and always comes with a settled promise |
| ChatStream.Query.constructor | src/pages/core/bot/Chatbot.tsx:73-78 | the query object holds the question, maxResults and useModelVps it is given |
| ChatStream.StreamSession.constructor | src/pages/core/bot/services/chatbotService.ts:6-21 | the caller's query has maxResults overwritten with 5 and its other fields kept; the closure state starts empty and pending |
| ChatStream.StreamSession.Resolve | src/pages/core/bot/services/chatbotService.ts:87-91 | resolve settles only a pending promise |
| ChatStream.StreamSession.Reject | src/pages/core/bot/services/chatbotService.ts:99 | reject settles only a pending promise |
| ChatStream.StreamSession.OnMessage | src/pages/core/bot/services/chatbotService.ts:43-109 | the in-place message callback follows `Step` |
| ChatStream.StreamSession.OnClose | src/pages/core/bot/services/chatbotService.ts:111-124 | the in-place close callback follows `Close` |
| ChatStream.StreamSession.OnError | src/pages/core/bot/services/chatbotService.ts:126-135 | the in-place error callback follows `TransportError` and rethrows the error |
| ChatStream.TokensThenDone | src/pages/core/bot/services/chatbotService.ts:64-92 | two tokens then done resolve with their concatenation; a late close does not change it |
| Chatbot.AppendChunk | src/pages/core/bot/Chatbot.tsx:79-85 | a streamed chunk is appended to the bot message with that id and to no other |
| Chatbot.Complete | src/pages/core/bot/Chatbot.tsx:88-98 | on success the bot message's text becomes the full answer and it stops streaming; the others are untouched |
| Chatbot.FailWith | src/pages/core/bot/Chatbot.tsx:108-120 | on failure the messages before the fallback are exactly those without the bot id, in order and with their multiplicity, and the fallback message is last |
| Chatbot.AppendAllConcat | src/pages/core/bot/Chatbot.tsx:79-85 | streaming chunks in turn appends their concatenation to the bot message and leaves the others alone |
| Chatbot.StreamedTokensConcat | src/pages/core/bot/services/chatbotService.ts:64-75 | the contents handed to the callback concatenate to the accumulated answer |
| Chatbot.ChatWindow.constructor | src/pages/core/bot/Chatbot.tsx:18-21 | the window starts with no messages, not loading and no streaming id |
| Chatbot.ChatWindow.Submit | src/pages/core/bot/Chatbot.tsx:44-78 | a submission while loading does nothing; otherwise the question and an empty streaming bot message are appended and the query is sent with useModelVps false |
| Chatbot.ChatWindow.OnChunk | src/pages/core/bot/Chatbot.tsx:79-85 | the streaming callback applies `AppendChunk` |
| Chatbot.ChatWindow.Settle | src/pages/core/bot/Chatbot.tsx:86-124 | success applies `Complete`, failure `FailWith`; either way loading ends and the streaming id is cleared |
| Chatbot.Exchange | src/pages/core/bot/Chatbot.tsx:44-125 | a streamed exchange ends with the history, the question and the bot's full answer, no longer streaming |
| Chatbot.FailedExchange | src/pages/core/bot/Chatbot.tsx:105-120 | a failed exchange ends with the history, the question and exactly one fallback message |
| Chatbot.FilterDrops | src/pages/core/bot/Chatbot.tsx:109 | filtering out the bot id removes just the trailing bot message |
| Chatbot.NullErrorBlocksChat | src/pages/core/bot/Chatbot.tsx:44-124 | after an error event with `null` data the promise stays pending, so the bot message keeps streaming, the window stays loading and the next submission is ignored |
| ChatbotSchema.ParseQuery | src/pages/core/bot/schemas/chatbot.schema.ts:3-6 | a query is valid exactly when the question has 1 to 500 characters and maxResults is a positive safe integer; the parsed query holds that question and that number |
| ChatbotSchema.QueryRoundTrip | src/pages/core/bot/schemas/chatbot.schema.ts:3-6 | every in-bounds query survives serialisation |
| ChatbotSchema.MaxResultsMustBePositiveInt | src/pages/core/bot/schemas/chatbot.schema.ts:5 | a fractional or non-positive maxResults is rejected |
| ChatbotSchema.ParseSender | src/pages/core/bot/schemas/chatbot.schema.ts:30 | the sender is exactly "user" or "bot" |
| ChatbotSchema.ParseMessage | src/pages/core/bot/schemas/chatbot.schema.ts:27-33 | a value parses exactly when it is an object with string id and text, a valid sender, a valid date and isStreaming a boolean or absent; the message then carries those values |
| ChatbotSchema.MessageRoundTrip | src/pages/core/bot/schemas/chatbot.schema.ts:27-33 | every message survives serialisation, with or without isStreaming |
| ChatbotSchema.RequiredFields | src/pages/core/bot/schemas/chatbot.schema.ts:27-33 | dropping id, text, sender or timestamp invalidates a message; dropping isStreaming does not |
| ChatbotSchema.ParseChunk | src/pages/core/bot/schemas/chatbot.schema.ts:10-16 | a chunk is valid exactly when its five fields have their types |
| ChatbotSchema.ParseChunks | src/pages/core/bot/schemas/chatbot.schema.ts:20 | an array is valid exactly when every element is, and parses element by element |
| ChatbotSchema.ParseQueryResponse | src/pages/core/bot/schemas/chatbot.schema.ts:18-22 | a value parses exactly when it is an object with a string answer, a number time and an array whose every item is a chunk; the response carries the answer, the parsed chunks and the time |
| ChatbotSchema.ChunkRoundTrip | src/pages/core/bot/schemas/chatbot.schema.ts:10-16 | every chunk survives serialisation |
| ChatbotSchema.QueryResponseRoundTrip | src/pages/core/bot/schemas/chatbot.schema.ts:18-22 | every response survives serialisation |
| Pagination.Range | src/pages/core/wiki/components/WikiPagination.tsx:31-32 | the window half-width is 1 below 768 pixels and 2 otherwise, including when there is no window |
| Pagination.RenderPageButtons | src/pages/core/wiki/components/WikiPagination.tsx:26-93 | the pushed list is first page, leading ellipsis, the window around the current page, trailing ellipsis and last page, as `Buttons` defines |
| Pagination.Buttons | src/pages/core/wiki/components/WikiPagination.tsx:26-93 | every numbered button is the first page, the last page or a page within `range` of the current one |
| Pagination.ButtonsSortedInBounds | src/pages/core/wiki/components/WikiPagination.tsx:26-93 | page numbers strictly increase (no duplicates) and lie in 1..totalPages |
| Pagination.ButtonsCover | src/pages/core/wiki/components/WikiPagination.tsx:26-93 | the first page, the last page and every page within range of the current one have a button |
| Pagination.LeadingEllipsisExactly | src/pages/core/wiki/components/WikiPagination.tsx:34-51 | the leading ellipsis appears exactly when current > range + 2, which is exactly when page 2 has no button |
| Pagination.TrailingEllipsisExactly | src/pages/core/wiki/components/WikiPagination.tsx:73-90 | the trailing ellipsis appears exactly when current < total - range - 1, which is exactly when page total-1 has no button |
| Pagination.ButtonsCount | src/pages/core/wiki/components/WikiPagination.tsx:53-71 | at most 2·range+3 numbered buttons (2·range+1 in the window), and 2·range+5 items in all |
| Pagination.Render | src/pages/core/wiki/components/WikiPagination.tsx:17-131 | nothing for one page or fewer; otherwise the page list is `Buttons` for the viewport's range, previous is disabled on page 1 and next on the last page, and the summary shows (page-1)·size+1 to min(page·size, total) of total |
| Pagination.ArrowsStayInRange | src/pages/core/wiki/components/WikiPagination.tsx:103-121 | an enabled arrow requests a page within 1..totalPages |
| WikiService.ApiResponse.constructor | src/pages/core/wiki/services/wikiService.ts:71 | the response envelope holds the fields it is given |
| WikiService.Related | src/pages/core/wiki/services/wikiService.ts:82-85 | absent data stays absent; present data keeps only entries from the list whose id differs from the current one |
| WikiService.RelatedExcludesExactlyCurrent | src/pages/core/wiki/services/wikiService.ts:84 | an entry survives exactly when it was received and is not the current one, in the order received |
| WikiService.RelatedWithoutCurrentUnchanged | src/pages/core/wiki/services/wikiService.ts:84 | a list without the current entry comes back unchanged |
| WikiService.GetRelatedWikiEntries | src/pages/core/wiki/services/wikiService.ts:67-87 | the request carries the category and the limit (default 10); `data` is filtered in place and the other fields are untouched |
| Carousel.TotalPages | src/pages/core/wiki/components/RelatedEntriesCarousel.tsx:31 | the page count is the ceiling of n/4, zero exactly for no entries |
| Carousel.Next | src/pages/core/wiki/components/RelatedEntriesCarousel.tsx:33-35 | next advances one page and wraps from the last to the first; with no pages the index becomes NaN |
| Carousel.Prev | src/pages/core/wiki/components/RelatedEntriesCarousel.tsx:37-39 | previous goes back one page and wraps from the first to the last; with no pages the index becomes NaN |
| Carousel.NextPrevRoundTrip | src/pages/core/wiki/components/RelatedEntriesCarousel.tsx:33-39 | next and previous undo each other |
| Carousel.Slice | src/pages/core/wiki/components/RelatedEntriesCarousel.tsx:59-62 | slice clamps its bounds and equals the sub-sequence when they are in range |
| Carousel.Visible | src/pages/core/wiki/components/RelatedEntriesCarousel.tsx:59-62 | a page shows at most four entries: the page's entries when it exists, none past the end |
| Carousel.PagesArePrefix | src/pages/core/wiki/components/RelatedEntriesCarousel.tsx:59-62 | the first k pages together are the first 4k entries |
| Carousel.PagesCoverEntries | src/pages/core/wiki/components/RelatedEntriesCarousel.tsx:30-62 | stepping through all pages shows every entry once, in order |
| Carousel.Entries | src/pages/core/wiki/components/RelatedEntriesCarousel.tsx:29 | the list is the response's data, or empty when there is no response or no data |
| Carousel.QueryEnabled | src/pages/core/wiki/components/RelatedEntriesCarousel.tsx:26 | the query runs exactly when both ids are non-empty |
| Carousel.Render | src/pages/core/wiki/components/RelatedEntriesCarousel.tsx:45-84 | spinner while loading, nothing without entries, otherwise page `index` of the entries (at most four), arrows exactly when there is more than one page, and the label index+1 of the page count |
| WikiFilter.FilteredEntries | src/pages/core/wiki/Wiki.tsx:160-168 | the result keeps only listed articles that match both filters |
| WikiFilter.FilteredExactly | src/pages/core/wiki/Wiki.tsx:160-168 | an article is shown exactly when it matches the category and the search, in list order |
| WikiFilter.NoFilterKeepsAll | src/pages/core/wiki/Wiki.tsx:162-164 | no category and an empty query show every article |
| WikiFilter.SelectedCategoryOnly | src/pages/core/wiki/Wiki.tsx:161-162 | with a category selected only its articles are shown |
| WikiFilter.SearchIgnoresCase | src/pages/core/wiki/Wiki.tsx:163-166 | the search ignores ASCII letter case |
| Zod.Check | src/pages/core/categories/schemas/categorySchema.ts:10-31 | a check reports its one issue on its path exactly when it fails |
| Zod.MinLength | src/pages/core/categories/schemas/categorySchema.ts:13 | `.min(n)` reports exactly when the string is shorter than n |
| Zod.MaxLength | src/pages/core/categories/schemas/categorySchema.ts:14 | `.max(n)` reports exactly when the string is longer than n |
| Zod.FileChecks | src/pages/core/categories/schemas/categorySchema.ts:24-30 | a non-File gets only the instanceof issue; a File gets one issue per failed refinement; no issue exactly for an accepted File |
| Zod.Optional | src/pages/core/categories/schemas/categorySchema.ts:54 | undefined passes without running the inner checks |
| Zod.Parse | src/pages/core/categories/components/CategoryFormModal.tsx:105 | parse succeeds exactly when there are no issues, and otherwise throws them all |
| CategorySchema.NameIssues | src/pages/core/categories/schemas/categorySchema.ts:11-15 | no issue exactly for 2 to 50 letters, digits, "_" or "-" |
| CategorySchema.DisplayNameIssues | src/pages/core/categories/schemas/categorySchema.ts:16-19 | no issue exactly for 2 to 100 characters |
| CategorySchema.DescriptionIssues | src/pages/core/categories/schemas/categorySchema.ts:20-23 | no issue exactly for 10 to 500 characters |
| CategorySchema.CreateIconIssues | src/pages/core/categories/schemas/categorySchema.ts:24-30 | the create icon is required and must be a JPEG or PNG File of at most 10 MiB |
| CategorySchema.EditIconIssues | src/pages/core/categories/schemas/categorySchema.ts:47-54 | the edit icon may be absent; if present it must be an accepted File |
| CategorySchema.CreateIssues | src/pages/core/categories/schemas/categorySchema.ts:10-31 | the create schema accepts exactly valid text fields and a valid icon |
| CategorySchema.EditIssues | src/pages/core/categories/schemas/categorySchema.ts:33-55 | the edit schema accepts exactly valid text fields and an absent or valid icon |
| CategorySchema.CreateImpliesEdit | src/pages/core/categories/schemas/categorySchema.ts:10-55 | whatever the create schema accepts the edit schema accepts |
| CategorySchema.MissingIcon | src/pages/core/categories/schemas/categorySchema.ts:24-54 | without an icon, edit accepts exactly valid text fields and create always refuses |
| CategorySchema.EmptyNameTwoIssues | src/pages/core/categories/schemas/categorySchema.ts:11-15 | an empty name gets the length issue then the pattern issue |
| CategorySchema.LargeGifTwoIssues | src/pages/core/categories/schemas/categorySchema.ts:24-30 | an oversized GIF gets the size issue then the type issue |
| WikiEntrySchema.TextIssues | src/pages/core/wiki/schemas/wikiEntrySchema.ts:12-22 | no issue exactly for a 3-200 title, a 10-5000 description and a chosen category |
| WikiEntrySchema.CreateImageIssues | src/pages/core/wiki/schemas/wikiEntrySchema.ts:23-33 | the image must be a JPEG, PNG or WebP File of at most 10 MiB; a non-File fails all three refinements |
| WikiEntrySchema.UpdateImageIssues | src/pages/core/wiki/schemas/wikiEntrySchema.ts:48-62 | a falsy image passes; otherwise it must be an accepted File, and a non-empty string fails all three refinements |
| WikiEntrySchema.CreateIssues | src/pages/core/wiki/schemas/wikiEntrySchema.ts:11-34 | create accepts exactly valid text fields and an accepted image File |
| WikiEntrySchema.UpdateIssues | src/pages/core/wiki/schemas/wikiEntrySchema.ts:36-63 | update accepts exactly valid text fields and a falsy or accepted image |
| WikiEntrySchema.CreateImpliesUpdate | src/pages/core/wiki/schemas/wikiEntrySchema.ts:11-63 | whatever create accepts update accepts |
| WikiEntrySchema.UpdateKeepsImage | src/pages/core/wiki/schemas/wikiEntrySchema.ts:48-62 | keeping the current image (no value, null or "") is accepted whenever the text fields are |
| WikiEntrySchema.WebpAccepted | src/pages/core/wiki/schemas/wikiEntrySchema.ts:4-9 | a WebP image within the size limit is accepted |
| PostSchema.TextIssues | src/pages/core/blog/schemas/postSchema.ts:11-21 | no issue exactly for a 5-200 title, a 10-500 description and content of at least 5 characters |
| PostSchema.CreateImageIssues | src/pages/core/blog/schemas/postSchema.ts:22-28 | the image is required and must be a JPEG or PNG File of at most 10 MiB |
| PostSchema.EditImageIssues | src/pages/core/blog/schemas/postSchema.ts:43-50 | the image may be absent; if present it must be an accepted File |
| PostSchema.CreateIssues | src/pages/core/blog/schemas/postSchema.ts:10-29 | create accepts exactly valid text and a valid image |
| PostSchema.EditIssues | src/pages/core/blog/schemas/postSchema.ts:31-51 | edit accepts exactly valid text and an absent or valid image |
| PostSchema.CreateImpliesEdit | src/pages/core/blog/schemas/postSchema.ts:10-51 | whatever create accepts edit accepts |
| PostSchema.WebpRejectedOnEdit | src/pages/core/blog/schemas/postSchema.ts:46-49 | WebP is rejected on edit although the message names it |
| PostSchema.LongContentAccepted | src/pages/core/blog/schemas/postSchema.ts:19-21 | content from 5 characters on is accepted, although the message says 50 |
| NewsSchema.CreateNewsIssues | src/pages/core/news/schemas/newsSchema.ts:10-29 | news create accepts exactly valid text and a valid image, as the post schema does |
| NewsSchema.EditNewsIssues | src/pages/core/news/schemas/newsSchema.ts:31-51 | news edit accepts exactly valid text and an absent or valid image |
| NewsSchema.CreateImpliesEdit | src/pages/core/news/schemas/newsSchema.ts:10-51 | whatever news create accepts news edit accepts |
| LoginSchema.EmailIssues | src/pages/public/auth/schemas/loginSchema.ts:3-5 | no issue exactly for a non-empty string the e-mail rule accepts |
| LoginSchema.PasswordIssues | src/pages/public/auth/schemas/loginSchema.ts:6-9 | no issue exactly for a password of at least 6 characters |
| LoginSchema.LoginIssues | src/pages/public/auth/schemas/loginSchema.ts:2-10 | the form is accepted exactly with a valid e-mail and password |
| LoginSchema.MinOneImpliedBySix | src/pages/public/auth/schemas/loginSchema.ts:8-9 | the min(1) check never fails alone, and an empty password gets both messages |
| CategoryForm.DataToValidate | src/pages/core/categories/components/CategoryFormModal.tsx:93-103 | the validated object carries the three fields; the icon key is null when no file was chosen in create mode and absent in edit mode |
| CategoryForm.SubmitIssues | src/pages/core/categories/components/CategoryFormModal.tsx:91-105 | editing validates with the edit schema, creating with the create schema |
| CategoryForm.SubmitAcceptedIff | src/pages/core/categories/components/CategoryFormModal.tsx:86-105 | submission is accepted exactly with valid fields, a valid icon if one was chosen, and a chosen icon in create mode |
| CategoryForm.SubmitData | src/pages/core/categories/components/CategoryFormModal.tsx:107-113 | the form data holds name, displayName, description in that order, then the icon when one was chosen |
| CategoryForm.CollectErrors | src/pages/core/categories/components/CategoryFormModal.tsx:119-123 | the error map has a key for each path with an issue, holding that path's last message |
| CategoryForm.EmptyNameIssues | src/pages/core/categories/schemas/categorySchema.ts:34-38 | with other fields valid, an empty name gives exactly its two issues |
| CategoryForm.EmptyNameError | src/pages/core/categories/components/CategoryFormModal.tsx:119-124 | an empty name is reported with the pattern message, which overwrites the length message |
| CategoryForm.LastOfTwoReported | src/pages/core/categories/components/CategoryFormModal.tsx:119-123 | when two issues share a path, the error map holds only that path, with the second message |
| CategoryForm.CategoryFormModal.constructor | src/pages/core/categories/components/CategoryFormModal.tsx:30-38 | the form starts from the category's fields, or empty, with no file and no errors |
| CategoryForm.CategoryFormModal.Reset | src/pages/core/categories/components/CategoryFormModal.tsx:40-59 | the reset effect reloads the fields and preview from the category (or clears them), drops the file and the errors |
| CategoryForm.CategoryFormModal.HandleInputChange | src/pages/core/categories/components/CategoryFormModal.tsx:61-69 | the edited field takes the value and loses its error; other errors stay |
| CategoryForm.CategoryFormModal.HandleIconChange | src/pages/core/categories/components/CategoryFormModal.tsx:71-84 | choosing a file keeps it and clears the icon error; an empty selection changes nothing |
| CategoryForm.CategoryFormModal.HandleSubmit | src/pages/core/categories/components/CategoryFormModal.tsx:86-127 | the parent receives the form data exactly when validation passes; otherwise the errors report the issues and nothing is sent |
| CategoryForm.PathsAreFields | src/pages/core/categories/components/CategoryFormModal.tsx:16-21 | every issue's path is one of the four form fields |
| CategoryList.FilteredCategories | src/pages/core/categories/List.tsx:131-139 | the result is empty without data and otherwise keeps only matching fetched categories |
| CategoryList.FilteredExactly | src/pages/core/categories/List.tsx:131-139 | a category is listed exactly when it matches, in fetch order; an empty query lists all |
| CategoryList.PluralSuffix | src/pages/core/categories/List.tsx:235-236 | "s" exactly when the count is not 1 |
| CategoryList.ResultLine | src/pages/core/categories/List.tsx:228-240 | no line without a query; a quoted "no results" message for zero matches; otherwise the count with "resultado(s) encontrado(s)" |
| CategoryList.ResultLineSingular | src/pages/core/categories/List.tsx:233-237 | one match reads "1 resultado encontrado" |
| CategoryList.ResultLinePlural | src/pages/core/categories/List.tsx:233-237 | three matches read "3 resultados encontrados" |
| CategoryList.CategoriesPage.constructor | src/pages/core/categories/List.tsx:44-69 | the page starts with the form closed, nothing edited and no mutation |
| CategoryList.CategoriesPage.HandleEdit | src/pages/core/categories/List.tsx:75-78 | editing opens the form on the category |
| CategoryList.CategoriesPage.HandleCreateNew | src/pages/core/categories/List.tsx:96-99 | creating opens an empty form |
| CategoryList.CategoriesPage.HandleCloseFormModal | src/pages/core/categories/List.tsx:101-106 | closing is ignored while a mutation is pending, otherwise it closes and clears the edited category |
| CategoryList.CategoriesPage.HandleFormSubmit | src/pages/core/categories/List.tsx:108-117 | with an edited category an update by its id starts, otherwise a create |
| CategoryList.CategoriesPage.MutationSettled | src/pages/core/categories/List.tsx:44-69 | a settled mutation is no longer pending; success closes the form |
| CategoryList.EditSubmitClose | src/pages/core/categories/List.tsx:75-117 | edit, submit and close before settling leaves the form open on the category with one update by its id |
| AuthStore.OrDefault | src/stores/authStore.ts:21 | a present non-empty message is used, otherwise the default |
| AuthStore.CheckAuth | src/stores/authStore.ts:77-106 | authenticated with the returned user exactly when the call succeeded with data; otherwise cleared; never loading, no error |
| AuthStore.SignIn | src/stores/authStore.ts:11-53 | success hands over to checkAuth; an unsuccessful response or a thrown error records and rethrows a non-empty message and de-authenticates |
| AuthStore.FailedSignIn | src/stores/authStore.ts:19-30 | a failed sign-in is never authenticated or loading, records a non-empty error, and keeps the user record |
| AuthStore.SignInNeedsSessionCheck | src/stores/authStore.ts:17-18 | a successful login with a failing session check ends cleared |
| AuthStore.Store.constructor | src/stores/authStore.ts:5-9 | the store starts with no user, unauthenticated, loading, no error |
| AuthStore.Store.Set | src/stores/authStore.ts:5 | set replaces the four fields |
| AuthStore.Store.CheckAuthAction | src/stores/authStore.ts:77-106 | the in-place action ends in `CheckAuth` |
| AuthStore.Store.SignInAction | src/stores/authStore.ts:11-53 | the shared login/register action ends as `SignIn` from the loading state |
| AuthStore.Store.Login | src/stores/authStore.ts:11-31 | login is `SignIn` with "Error al iniciar sesión" |
| AuthStore.Store.Register | src/stores/authStore.ts:33-53 | register is `SignIn` with "Error al registrarse" |
| AuthStore.Store.Logout | src/stores/authStore.ts:55-75 | logout ends cleared whether the call succeeds or throws |
| AuthStore.Store.ClearError | src/stores/authStore.ts:108 | clearError removes the error and nothing else |
| AuthStore.FailedLoginKeepsUser | src/stores/authStore.ts:26-28 | a failed login while signed in keeps the old user but is no longer authenticated |
| Guards.GuardRun | src/router/hooks/useRouteGuard.ts:26-51 | nothing while loading; a required but missing login calls onUnauthorized and navigates to redirectTo with the current path; a signed-in user without a required role gets onUnauthorized, then a navigation to the dashboard |
| Guards.IsAllowed | src/router/hooks/useRouteGuard.ts:53-56 | isAllowed holds exactly when authenticated or auth is not required |
| Guards.GuardDefaults | src/router/hooks/useRouteGuard.ts:19-24 | redirectTo defaults to /login and an empty role list never redirects |
| Guards.UnauthorizedThenNavigate | src/router/hooks/useRouteGuard.ts:30-50 | onUnauthorized is called at most once and only followed by a replacing navigation |
| Guards.AllowedButRedirected | src/router/hooks/useRouteGuard.ts:42-56 | isAllowed can hold while the effect redirects for a missing role |
| Guards.PrivateRoute | src/router/guards/PrivateRoute.tsx:8-22 | loading screen, then the outlet exactly when authenticated, otherwise a redirect (default /login) |
| Guards.PublicRoute | src/router/guards/PublicRoute.tsx:9-28 | loading screen, then a redirect (default /dashboard) exactly when restricted and authenticated, otherwise the outlet |
| Guards.RoleRoute | src/router/guards/RoleRoute.tsx:10-30 | loading screen; signed out goes to /login; signed in reaches the outlet exactly with an allowed role, otherwise a redirect (default /dashboard) |
| Guards.RoleRouteEdges | src/router/guards/RoleRoute.tsx:23-29 | an empty role list admits nobody; a signed-out visitor goes to /login whatever redirectTo says |
| Guards.RoleOutletImpliesPrivate | src/router/guards/RoleRoute.tsx:15-29 | reaching RoleRoute's outlet implies reaching PrivateRoute's |
| Sidebar.InitialOpen | src/contexts/SidebarContext.tsx:12-17 | open exactly at 768 pixels or more, and open without a window |
| Sidebar.Step | src/contexts/SidebarContext.tsx:22-40 | a resize changes state only when crossing the breakpoint (closing on mobile, opening on desktop); toggle flips; close closes |
| Sidebar.Run | src/contexts/SidebarContext.tsx:22-33 | a run of resizes either changes nothing or leaves the sidebar open exactly when the last mode is desktop |
| Sidebar.WasMobileTracksLastResize | src/contexts/SidebarContext.tsx:20-32 | wasMobile is the mode of the last resize, or the mount mode |
| Sidebar.NoCrossingKeepsState | src/contexts/SidebarContext.tsx:22-33 | resizes that do not cross the breakpoint keep the user's choice |
| Sidebar.CloseIdempotent | src/contexts/SidebarContext.tsx:40 | closing twice is closing once |
| Sidebar.SidebarProvider.constructor | src/contexts/SidebarContext.tsx:12-20 | the provider starts open per `InitialOpen` with wasMobile from the mount width |
| Sidebar.SidebarProvider.HandleResize | src/contexts/SidebarContext.tsx:22-33 | the in-place resize handler follows `Step` |
| Sidebar.SidebarProvider.ToggleSidebar | src/contexts/SidebarContext.tsx:39 | toggling flips the open flag |
| Sidebar.SidebarProvider.CloseSidebar | src/contexts/SidebarContext.tsx:40 | closing clears the open flag |
| Sidebar.ToggleSurvivesSmallResize | src/contexts/SidebarContext.tsx:19-40 | a sidebar opened on a phone stays open through a mobile-range resize and closes again only after a trip to desktop and back |
| Sidebar.UseSidebar | src/contexts/SidebarContext.tsx:51-57 | outside a provider it fails with "useSidebar must be used within a SidebarProvider", otherwise it returns the context |

## Findings

| source | as written | input that shows it | evidently intended | confidence | as-written member | corrected member |
|---|---|---|---|---|---|---|
| src/pages/core/bot/services/chatbotService.ts:95-108 | the error case sets `isComplete` and aborts, then reads `errorData.message`; with `null` data that read throws, the catch swallows it and `reject` is never called, while `onclose`/`onerror` skip a complete session, so the promise never settles and Chatbot.tsx's `finally` never clears `isLoading` | an SSE event `error` with data `null` | reject with the default message, as `errorData?.message \|\| 'Error del servidor'` would | not executed | ChatStream.NullErrorHangs | ChatStream.IntendedCompleteImpliesSettled |

## Left out

- Rendering: JSX markup, styles, animations, icons and scrolling are not modelled. Components are reduced to what they compute: lists, flags, screens.
- Timing and I/O:
  - The network, `fetch`, timers, `Date.now()` ids and `console` logging are inputs or are dropped.
  - The un-awaited `cache.put` calls and the background revalidation of the service worker are taken to complete at once. Their interleaving with other requests is not modelled.
- ServiceWorker.Worker.Install: the network and `Cache.addAll` follow the all-or-nothing rule of the W3C Service Workers specification (Batch Cache Operations). A partial write of a failed batch is not modelled.
- SwRegistration.Register: the `onupdatefound`/`onstatechange` wiring is modelled separately, as `OnStateChange`. The `ready` promise and the registration object are not modelled.
- ChatStream.Step, ChatStream.CompleteIffFinished: an error event with `null` data completes and aborts the stream without settling the promise (see "## Findings"). So "complete implies settled" is promised only for streams without such an event. The stream session and the chat window model the handler as written; `StepIntended` is the corrected handler.
- ChatStream:
  - `fetchEventSource`'s own retry behaviour is not modelled.
  - JSON parsing is an input: each event arrives already parsed, or as `Malformed`.
  - Distances and similarities are exact reals, not IEEE doubles.
- Chatbot: message timestamps and `reset()` of the form are not modelled.
- LoginSchema.EmailIssues: zod's e-mail pattern is the parameter `isEmail`, not a regular expression.
- Zod.MinLength, Zod.MaxLength: a string's length is its number of Unicode scalar values, where JavaScript counts UTF-16 code units. Every `.min`/`.max` check in the schema modules therefore differs for characters outside the Basic Multilingual Plane (60 emoji are 60 characters here and 120 in zod).
- WikiFilter.FilteredEntries, WikiFilter.SearchIgnoresCase, CategoryList.FilteredCategories: `toLowerCase` is modelled on ASCII letters only, so a query in another case of a non-ASCII letter ("CONSTRUCCIÓN" against "construcción") matches in the source but not here.
- ChatStream.TokenText: a token event without content adds the text "undefined" to the answer, as the source's concatenation does, but is recorded as the text "undefined" among the contents passed to `onStream`, where the source passes the value `undefined`; the chat window then appends it as the same text.
- Zod:
  - Schema string fields are modelled as strings. The type error zod reports for a non-string value is not modelled.
  - Only the issue path and message are kept, not zod's issue codes.
- CategoryForm: the `FileReader` preview of a chosen icon (CategoryFormModal.tsx:75-79) is not modelled, since it is asynchronous browser I/O.
- CategoryList: the delete flow, the toasts and the query invalidation (List.tsx:31-42, 80-94) are not modelled. The search treats `category.name` as always present.
- Guards:
  - PrivateRoute, PublicRoute and RoleRoute read `useAuth` from `src/contexts/AuthContext`, which is not part of this model. Their authentication state is passed in as parameters.
  - `useRouteGuard` reads the auth store. Its state is passed in the same way, together with the current path.
- WikiService: the HTTP client and the server's own filtering by category and limit are not modelled; only the request the client sends is.
- Carousel: the NaN index after stepping with no pages is `None`. The arrows are not rendered then, so that state is unreachable from the UI.
- Pagination: `onPageChange` and the values the parent passes are not checked. The lemmas assume 1 <= current <= totalPages.
