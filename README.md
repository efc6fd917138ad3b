# Trash bin fetcher — a Dafny model

This project models the bin-fetching core of the trashmaps.info map page, the
`TrashBinFetcher` component in `components/ui/map.tsx` and the small helpers beside it.
Each time the map settles, the component decides whether to fetch the public waste and
recycling bins of the visible area. Below zoom 14 it fetches nothing and asks the user to
zoom in. A view that lies inside one rectangle fetched earlier triggers no request.
Otherwise it starts a session. Every change, on all three paths, first aborts the
controller of the previous session. A session tries two Overpass
endpoints in order (moving on only after a busy 429/504 status or a failed request),
merges the returned elements into the displayed bins by id, and records the rectangle.
The model also covers the marker icon, the popup title and the popup's tag labels.

Modules, one per component of the core:

- `Common`: `Option` and decimal rendering of status codes.
- `Geo`: integer coordinates, Leaflet's rectangle containment and the spatial-cache test.
- `BinTags`: tags as the ordered entries of a JavaScript object (`DistinctKeys` says that
  an object holds each key once), plus the recycling test,
  icon, title, popup labels and description.
- `Bins`: response elements, their normalisation to bins, and the merge. `BinMap` is a
  class that stands for the JavaScript `Map`. `MergeBins` fills it in place, and is proved
  against the declarative specification `IsMergeOf`.
- `Failover`: errors, endpoint outcomes, the abort controller, the endpoint loop
  `TryEndpoints`, and the specification functions `Failover` and `Tried`, with lemmas.
- `Status`: the message strings, the derived `message` (computed by the component but never
  rendered), and the overlay that is rendered (spinner or banner).
- `Fetcher`: the `TrashBinFetcher` class, whose fields are the component's state and
  refs, plus three client scenarios.

The asynchronous handler is split at its first `await`. `HandleMapChange` is the part that
runs synchronously. `CompleteFetch` is the rest of the session, and it runs later. Between
the two, other calls of the handler may run, and so may the session timer (`TimerFires`).
A ghost set `pending` holds the controllers of started sessions that have not completed.
The class invariant says that every pending session except the current one has been
aborted. The network is a parameter: `outcomes[i]` is what fetching `ApiEndpoints[i]`
yields, and `body` is what `response.json()` yields.

The model follows the code as written, including these behaviours:

- The marker icon treats any key that starts with `recycling` (without the colon) and has
  value `yes` as a recycling marker. The popup labels use the prefix `recycling:`.
- There are only two icon categories, recycling and general. "Waste Disposal" exists only
  as a popup title.
- `finally` clears `loadingBins` unconditionally. Only the controller ref is cleared
  conditionally. So a superseded session's late completion clears the loading flag while
  the newer session is still running (`SupersededSessionScenario`). The banner then shows
  the newer session's "Updating bins..." text instead of the spinner.
- A session whose 20 s timer fires before the endpoint loop ends completes as an aborted
  session (`TimedOutScenario`). It sets no error, and loading is cleared, so the banner
  shows "Updating bins..." until the map changes again.
- `const message = loadingBins ? "Updating bins..." : mapMessage` (line 208) is computed
  but never rendered. While loading, the user sees only a spinner without text. Otherwise a
  banner shows a non-empty `mapMessage`. `OverlayOf` is what the user sees. There is no fixed
  precedence between zoom warning and error: `mapMessage` holds whichever was set last.
- Ids are merged by number alone. Overpass numbers nodes, ways and relations separately,
  so a node and a way with the same number collapse into one bin. The model keeps this.

## Model

| member | source | states |
|---|---|---|
| `Common.NatToString` | components/ui/map.tsx:140 | a status interpolated into a template literal is its decimal text: digits only, denoting the number, with no leading zero |
| `Geo.Contains` | components/ui/map.tsx:92 | Leaflet's rectangle containment; for a well-formed inner rectangle it holds iff both inner corners lie in the outer rectangle |
| `Geo.IsCached` | components/ui/map.tsx:89-94 | the view is cached iff SOME SINGLE recorded rectangle contains it (component-wise corner comparison) |
| `Geo.ContainsMeansAllPoints` | components/ui/map.tsx:92 | if a rectangle contains another, it contains every point of the inner one |
| `Geo.CachedIsClosedUnderNesting` | components/ui/map.tsx:89-94 | a view nested inside a cached view is cached too |
| `Geo.RecordedAreaCoversItsViews` | components/ui/map.tsx:174-175 | once a rectangle is recorded, it and every view inside it count as cached |
| `Geo.CacheGrowthKeepsCoverage` | components/ui/map.tsx:175 | appending to the cache never un-caches a view |
| `Geo.CoverageIsNotUnion` | components/ui/map.tsx:92 | two recorded halves that hold every point of a view still leave the view uncached |
| `BinTags.Get` | components/ui/map.tsx:68 | a tag lookup is absent iff no entry has the key, and otherwise returns the value of the first entry with that key; for the entries of an object (distinct keys) every entry with that key has that value |
| `BinTags.HasRecyclingFlag` | components/ui/map.tsx:69 | true iff some entry's key starts with "recycling" and its value is "yes" |
| `BinTags.IconForBin` | components/ui/map.tsx:67-71 | the recycling icon iff amenity is "recycling" or some recycling-prefixed key is "yes"; the general icon otherwise |
| `BinTags.Title` | components/ui/map.tsx:260-266 | the title is "Recycling Point" iff amenity is "recycling", "Waste Disposal" iff amenity is "waste_disposal", and "Trash Bin" exactly otherwise (including a missing amenity) |
| `BinTags.TitleFollowsAmenity` | components/ui/map.tsx:260-266 | a "Recycling Point" always has the recycling icon |
| `BinTags.FirstField` | components/ui/map.tsx:283 | `split(':')[1]` of a `recycling:` key: a colon-free prefix of the rest, ending at a colon or at the end |
| `BinTags.ReplaceFirst` | components/ui/map.tsx:283 | `replace('_', ' ')` replaces only the first underscore, keeps the length, and leaves an underscore-free text unchanged |
| `BinTags.EntryLabel` | components/ui/map.tsx:276-292 | a recycling sub-type label iff the key starts with "recycling:" and the value is "yes", whose text is the key's second colon field with its first underscore turned into a space; otherwise a waste label "<value> waste" iff the key is "waste" and the value is not "yes"; otherwise none |
| `BinTags.Labels` | components/ui/map.tsx:276-293 | no more labels than tags, each label is some tag's label, and every tag that has a label is listed; exactly one label per labelled tag, in entry order, follows from `LabelsOfConcat` and `LabelsOfOneTag` |
| `BinTags.LabelsOfConcat` | components/ui/map.tsx:276-293 | the labels of two runs of entries are the labels of the first run followed by those of the second, so labels keep entry order |
| `BinTags.LabelsOfOneTag` | components/ui/map.tsx:276-292 | a single entry contributes exactly its own label, or nothing; with `LabelsOfConcat` this fixes the order and number of the labels |
| `BinTags.Popup` | components/ui/map.tsx:268-297 | the popup has the title and labels of its tags, and shows the description iff one is present and non-empty |
| `BinTags.RecyclingLabelImpliesRecyclingIcon` | components/ui/map.tsx:276-286 | a recycling sub-type in the popup implies that the marker uses the recycling icon |
| `Bins.Normalise` | components/ui/map.tsx:159-164 | a node keeps its own lat/lon, any other element takes its centre; id and tags are copied unchanged |
| `Bins.NormaliseAll` | components/ui/map.tsx:159-164 | one bin per element, in order, each normalised as above |
| `Bins.Dedup` | components/ui/map.tsx:169-171 | the keys of a `Map` filled from a key sequence are distinct and are exactly the keys set |
| `Bins.LastWithId` | components/ui/map.tsx:169-170 | the bin a `Map` keeps for an id is the last one set with that id, and it is absent iff no bin has that id |
| `Bins.BinMap.constructor` | components/ui/map.tsx:169 | a new `Map` has no keys and no entries |
| `Bins.BinMap.Set` | components/ui/map.tsx:170 | `set` overwrites the entry; a new key goes to the end of the key order and an existing key keeps its place |
| `Bins.BinMap.Values` | components/ui/map.tsx:171 | `Array.from(values())` lists the entries in key order |
| `Bins.SetAll` | components/ui/map.tsx:169-170 | after `set`ting every bin of a batch in order, the map holds the old keys then the new ids, each once, with the last bin set per id |
| `Bins.MergeBins` | components/ui/map.tsx:168-172 | the merged list is `IsMergeOf` the old list and the batch: old ids then new ids, each once, and the bin kept per id is the last incoming one, else the last old one |
| `Bins.MergeHasDistinctIds` | components/ui/map.tsx:166-171 | after a merge no two bins share an id |
| `Bins.MergeIdSet` | components/ui/map.tsx:168-171 | the ids after a merge are exactly the old ids together with the incoming ids |
| `Bins.MergeIncomingWins` | components/ui/map.tsx:170 | every incoming id is present after the merge and holds the last incoming bin with that id |
| `Bins.MergeKeepsOld` | components/ui/map.tsx:169 | an existing bin whose id is not incoming is kept unchanged |
| `Bins.MergeAddsNothingElse` | components/ui/map.tsx:168-172 | every bin after a merge comes from the old list or from the batch |
| `Bins.MergeIsDeterministic` | components/ui/map.tsx:168-172 | the merge result is unique for given inputs |
| `Bins.MergeIsIdempotent` | components/ui/map.tsx:168-172 | merging the same batch again changes nothing, so re-fetching an area is harmless |
| `Bins.MergeIntoEmptyIsBatch` | components/ui/map.tsx:168-172 | merging a batch with distinct ids into an empty list gives exactly that batch, in order |
| `Failover.BusyError` | components/ui/map.tsx:140 | a busy endpoint's error is an `Error` whose message is "API servers are busy (status: " then the status in decimal then ")" |
| `Failover.ApiError` | components/ui/map.tsx:144 | any other failed status gives an `Error` whose message is "Overpass API error! status: " then the status in decimal |
| `Failover.Failover` | components/ui/map.tsx:123-151 | an aborted signal or no endpoints left leave `response` and `lastError` unchanged; starting from no 2xx, success comes with `lastError` null; a changed state with `lastError` null is a success; a changed `response` is the status of one of the endpoints |
| `Failover.RunEndpoints` | components/ui/map.tsx:120-151 | after the whole loop `lastError` is null iff the loop succeeded or no endpoint was contacted, and with no endpoint contacted both stay null |
| `Failover.Tried` | components/ui/map.tsx:123-151 | the number of endpoints contacted is at most the number of endpoints, zero with an aborted signal, and at least one otherwise |
| `Failover.AbortController.Abort` | components/ui/map.tsx:75-77 | after `abort()` the signal is aborted |
| `Failover.TryEndpoints` | components/ui/map.tsx:120-151 | the loop ends with exactly the `response`/`lastError` that the specification `RunEndpoints` gives for the signal state and the endpoint outcomes, after contacting exactly `Tried` endpoints |
| `Failover.TriedIsRetryablePrefix` | components/ui/map.tsx:123-151 | endpoint j is contacted iff the signal is not aborted and every earlier endpoint was busy (429/504) or rejected without an abort; endpoints are tried in order and the loop stops at the first other outcome |
| `Failover.FailoverReportsLastTried` | components/ui/map.tsx:133-150 | the loop succeeds iff the last contacted endpoint answered 2xx; otherwise `lastError` is that endpoint's busy error, API error or rejection |
| `Failover.FirstOkWins` | components/ui/map.tsx:133-136 | a first 2xx answer ends the loop with success after one endpoint, whatever the later endpoints would answer |
| `Failover.HardErrorStops` | components/ui/map.tsx:144-145 | a status other than 2xx, 429 or 504 stops the loop at once with "Overpass API error! status: N" |
| `Failover.AbortedTriesNothing` | components/ui/map.tsx:124 | with an aborted signal no endpoint is contacted |
| `Failover.AllBusyReportsLastStatus` | components/ui/map.tsx:138-141 | if every endpoint is busy, all are tried and the error is "API servers are busy (status: N)" for the last status |
| `Status.ErrorText` | components/ui/map.tsx:188 | the error message is "Error: ", then the error's message, then ". Please try again." |
| `Status.DisplayedMessage` | components/ui/map.tsx:208 | the computed (unrendered) `message` is "Updating bins..." while loading and `mapMessage` otherwise |
| `Status.OverlayOf` | components/ui/map.tsx:219-231 | what the user sees: the spinner iff loading; a banner with text t iff not loading and `mapMessage` is the non-empty t; nothing otherwise |
| `Status.OverlayShowsDisplayedMessage` | components/ui/map.tsx:208-231 | the spinner shows iff loading, when the unrendered `message` is "Updating bins..."; a banner shows exactly that `message` when not loading and it is non-empty |
| `Fetcher.Settle` | components/ui/map.tsx:155-164 | the `try` block yields bins iff the loop succeeded and the body was read, and those bins are the normalised elements; it throws the body's error after a success, `lastError` otherwise, and `null` iff the loop failed with `lastError` null |
| `Fetcher.MessageAfter` | components/ui/map.tsx:176-189 | success clears the message; an error that is not an abort sets "Error: <message>. Please try again."; in every other case the message is unchanged |
| `Fetcher.FetchedExactlyAfterOkAnswer` | components/ui/map.tsx:155-164 | a session yields bins iff it was not aborted, some endpoint answered 2xx after only busy or failed endpoints, and the body was read |
| `Fetcher.AbortedSessionIsSilent` | components/ui/map.tsx:186-189 | an aborted session (superseded or timed out) leaves the message unchanged and yields no bins |
| `Fetcher.LiveSessionReportsAnError` | components/ui/map.tsx:155-156 | a session that was not aborted always ends with bins or with an error to handle |
| `Fetcher.AllBusyShowsLastStatus` | components/ui/map.tsx:138-188 | when every endpoint is busy, the message becomes "Error: API servers are busy (status: N). Please try again." with the last status |
| `Fetcher.HardErrorShowsApiError` | components/ui/map.tsx:144-188 | a non-transient status from the first endpoint is shown at once as "Error: Overpass API error! status: N. Please try again." |
| `Fetcher.TrashBinFetcher.constructor` | components/ui/map.tsx:50-56 | the component starts with no bins, not loading, no message, no controller and an empty cache |
| `Fetcher.TrashBinFetcher.AtMostOneLiveSession` | components/ui/map.tsx:74-77 | at most one started, uncompleted session is not aborted |
| `Fetcher.TrashBinFetcher.HandleMapChange` | components/ui/map.tsx:73-106 | the previous controller is aborted and bins and cache are unchanged. Below zoom 14 nothing starts, loading is false and the message is the zoom-in text. A cached view starts nothing and clears the message. Otherwise a fresh, unaborted controller becomes the ref, loading is true and the message is "Updating bins..." |
| `Fetcher.TrashBinFetcher.TimerFires` | components/ui/map.tsx:118 | the session timer aborts the session's controller and keeps the invariant |
| `Fetcher.TrashBinFetcher.CompleteFetch` | components/ui/map.tsx:118-195 | the rectangle is appended and the bins merged only when the session yields bins; otherwise bins and cache are unchanged. The message follows `MessageAfter` (cleared, error text, or unchanged for aborts). Loading is always cleared. The ref is cleared only if it is still this session's controller. Bin ids stay unique |

## Left out

- `Fetcher.TrashBinFetcher.CompleteFetch`: the continuation after the first `await` runs as one step. An abort that arrives during any `await` (supersession or the 20 s timer) shows as an aborted signal at the loop's first check. The handler then throws `null`, and the `catch` fails reading `err.name`. In the source, such an abort instead makes the pending `fetch` or `response.json()` reject with an `AbortError`. Both paths leave bins, cache and message unchanged. The model leaves out the unhandled rejection that follows the thrown `null`.
- The `fetch`, `AbortController` and `setTimeout` mechanics themselves are abstracted as outcome sequences, a `Body` value and the `TimerFires` step. The timeout value is only a constant. The React hooks (`useCallback`, `useMapEvents` on `moveend`, the initial `useEffect`) are the caller invoking `HandleMapChange`. State-setter batching is not modelled.
- JSON parsing is not modelled. An element that is not a node is assumed to carry the centre that `out center` asks for, so the `TypeError` of a missing centre is not modelled.
- The Overpass query text built from the bounds (lines 108-116) is not modelled. It is only sent to the network.
- Coordinates are integers (fixed-point degrees), not floating point. Leaflet's zoom is taken to be an integer.
- The empty block at lines 178-184 and the `console.warn` on a busy endpoint do nothing to the state.
- The popup's reverse-geocoding `fetchAddress` is left out because it is network I/O.
- Leaflet icons, `MapUpdater`, `TrashMap`, the JSX layout and the CSS capitalisation of labels are left out. They are rendering only.
- `app/page.tsx` (geolocation and IP lookup), `components/ui/address-search.tsx` (forward geocoding and its debounce), `app/layout.tsx`, `app/sitemap.ts`, `components/ui/ad-component.tsx` and `components/ui/dynamic-map.tsx` are not part of this model. They hold network and device access, static metadata and wiring.
