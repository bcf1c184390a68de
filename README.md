# Naruto Shippuden fan site: a Dafny model of its client scripts

The site is a handful of static pages that show Naruto Shippuden
(MyAnimeList id 1735) with data from the public Jikan REST API. Three scripts
hold its logic, and this project models each one as a Dafny module:

- `api.dfy` (module `Api`) models `scripts/api.js`. It has one rate-limited
  fetch helper that keeps a single global "time of the last request",
  classifies failed HTTP responses into error messages, and backs eight
  resource accessors. Each accessor builds a Jikan URL, fetches it, unwraps
  the `{ data: ... }` envelope (single entities) or returns it whole (paged
  lists), and re-raises any failure behind a `Failed to fetch <resource>: `
  prefix. The throttle state is a class `RateLimitedClient`. Its methods
  update `lastRequestTime` and a ghost log of sent requests. Its invariant
  says consecutive requests are at least 350 ms apart.
- `ui.dfy` (module `Ui`) models `scripts/ui.js`. It covers the formatting
  helpers (`formatNumber`, `formatArray`, `formatAiredDate`,
  `formatBroadcast`, `formatGenres`) and the `render*` functions. A render
  function produces either the placeholder message or the sequence of cards
  it appends, each card with the texts it shows. Every `forEach` becomes a
  `while` loop that appends cards, proved against a function that gives the
  card of one element.
- `navigation.dfy` (module `Navigation`) models `scripts/navigation.js`:
  deriving the current page from the path, marking the active navigation
  link (a loop over link objects whose class sets it updates in place), and
  the constant menu of the navigation bar.
- `text.dfy` (module `Text`) holds the JavaScript string operations these
  rely on: decimal printing of integers, `Array.prototype.join`,
  `String.prototype.trim` and the `||` fallback on strings.
- `wrappers.dfy` (module `Wrappers`) holds `Option` and `Result`.

Inputs the scripts take from the browser are parameters:

- the two `Date.now()` readings of `rateLimitedFetch`;
- the outcome of `fetch` and `response.json()`;
- the page's `location.pathname`;
- `toLocaleDateString`, a function parameter `localeDate`.

## Model

| member | source | states |
|---|---|---|
| Api.CheckResponse | naruto-shippuden/scripts/api.js:22-31 | One fetch per call, no retry. The body is returned exactly when the status is 200-299 and the body parses. Status 429 gives exactly the rate-limit error. Any other failed status gives an error carrying that status and status text. A transport failure is passed on. |
| Api.WaitBounds | naruto-shippuden/scripts/api.js:13-18 | The delay is 350 minus the time since the last request when that is under 350, and 0 otherwise. It is never negative. It is at most 350 exactly when the clock has not gone back. |
| Api.RateLimitedClient.constructor | naruto-shippuden/scripts/api.js:5-6 | The module starts with `lastRequestTime` 0 and no request sent. |
| Api.RateLimitedClient.RateLimitedFetch | naruto-shippuden/scripts/api.js:12-32 | Waits `Wait(now, lastRequestTime)`. Records the send time as `lastRequestTime` before the response is looked at, so it is updated on failure too. Logs exactly one request. Its send time is at least the previous one plus 350. Returns the classified response. Spacing between consecutive requests is kept as an invariant. |
| Api.RateLimitedClient.Fetch | naruto-shippuden/scripts/api.js:40-47 | The common accessor body: one throttled request to the resource's URL, through the same global `lastRequestTime` whatever the resource. The result is the unwrapped envelope or the prefixed failure. |
| Api.RateLimitedClient.FetchAnimeDetails | naruto-shippuden/scripts/api.js:39-48 | Requests `/anime/{id}` and returns `.data` or the "anime details" failure. |
| Api.RateLimitedClient.FetchAnimeCharacters | naruto-shippuden/scripts/api.js:55-64 | Requests `/anime/{id}/characters` and returns `.data` or the "characters" failure. |
| Api.RateLimitedClient.FetchAnimeEpisodes | naruto-shippuden/scripts/api.js:72-81 | Requests `/anime/{id}/episodes?page={page}` (page 1 by default) and returns the whole envelope or the "episodes" failure. |
| Api.RateLimitedClient.FetchAnimeStaff | naruto-shippuden/scripts/api.js:88-97 | Requests `/anime/{id}/staff` and returns `.data` or the "staff" failure. |
| Api.RateLimitedClient.FetchAnimeReviews | naruto-shippuden/scripts/api.js:105-114 | Requests `/anime/{id}/reviews?page={page}` (page 1 by default) and returns the whole envelope or the "reviews" failure. |
| Api.RateLimitedClient.FetchAnimeRecommendations | naruto-shippuden/scripts/api.js:121-130 | Requests `/anime/{id}/recommendations` and returns `.data` or the "recommendations" failure. |
| Api.RateLimitedClient.FetchAnimeNews | naruto-shippuden/scripts/api.js:138-147 | Requests `/anime/{id}/news?page={page}` (page 1 by default) and returns the whole envelope or the "news" failure. |
| Api.RateLimitedClient.FetchCharacterDetails | naruto-shippuden/scripts/api.js:154-163 | Requests `/characters/{id}/full` and returns `.data` or the "character details" failure. |
| Api.Url | naruto-shippuden/scripts/api.js:41 | Every accessor URL starts with the Jikan base `https://api.jikan.moe/v4`. |
| Api.UrlRoundTrip | naruto-shippuden/scripts/api.js:41-156 | Parsing an accessor's URL gives back the accessor and its arguments: the eight templates are unambiguous. |
| Api.UrlInjective | naruto-shippuden/scripts/api.js:41-156 | Two different (accessor, id, page) triples never request the same URL. |
| Api.PageQuery | naruto-shippuden/scripts/api.js:72-74 | A paged accessor's URL ends in `?page=` and the page's decimal text. The other URLs have no query string. |
| Api.PagedQuery | naruto-shippuden/scripts/api.js:72-74 | An episodes, reviews or news URL ends in `?page=` followed by the page number. |
| Api.UnpagedQuery | naruto-shippuden/scripts/api.js:41 | A single-entity accessor's URL contains no `?`. |
| Api.DefaultPageIsOne | naruto-shippuden/scripts/api.js:72-74 | An omitted page requests `page=1`. |
| Api.AccessorResult | naruto-shippuden/scripts/api.js:42-47 | Every failure message starts with `Failed to fetch <resource>: `. A fetch failure becomes that prefix plus its message. The accessor succeeds exactly when the fetch succeeds and the unwrap does. |
| Api.EnvelopeUnwrapped | naruto-shippuden/scripts/api.js:42-43 | For the envelope `{ data: x }`, single-entity accessors return `x` and paged accessors return the envelope unchanged. |
| Api.FailureMessages | naruto-shippuden/scripts/api.js:24-28 | The message reaching an accessor's caller: prefix plus the rate-limit sentence for 429, prefix plus `API request failed: <status> <statusText>` for other failed statuses, prefix plus the transport message otherwise. |
| Text.DecimalRoundTrip | naruto-shippuden/scripts/api.js:74 | The decimal text of a number, as interpolated into URLs, reads back as that number. |
| Text.DecimalInjective | naruto-shippuden/scripts/api.js:74 | Different numbers print differently. |
| Text.IntText | naruto-shippuden/scripts/ui.js:293 | The printed integer is non-empty and starts with `-` exactly when negative. A non-negative integer prints as its decimal text, and a negative one as `-` followed by its magnitude's decimal text. |
| Text.JoinLength | naruto-shippuden/scripts/ui.js:144 | `join` output is as long as its parts plus one separator between each two neighbours. |
| Text.JoinAt | naruto-shippuden/scripts/ui.js:144 | Each part appears in the joined text at its offset, in order. |
| Text.JoinSeparatorAt | naruto-shippuden/scripts/ui.js:144 | Between two neighbouring parts stands exactly one separator. |
| Text.OffsetValue | naruto-shippuden/scripts/ui.js:144 | A part's offset is the length of the parts before it plus one separator for each of them. |
| Text.JoinLayout | naruto-shippuden/scripts/ui.js:144 | The whole layout of a joined text: its length, each part at its offset, and exactly one separator between neighbours. |
| Text.Trim | naruto-shippuden/scripts/ui.js:169 | `trim` returns a contiguous stretch of the text. Everything cut before and after it is whitespace, and the stretch neither starts nor ends with whitespace. |
| Text.TrimKeeps | naruto-shippuden/scripts/ui.js:169 | A non-whitespace character survives `trim`. |
| Ui.InsertCommasIsGrouping | naruto-shippuden/scripts/ui.js:177-179 | The regular-expression replacement on a digit string equals grouping by threes from the right. |
| Ui.GroupedCommas | naruto-shippuden/scripts/ui.js:177-179 | In the grouped text a comma stands exactly at every fourth position from the right, and every other character is a digit. |
| Ui.GroupedRemoveCommas | naruto-shippuden/scripts/ui.js:177-179 | Removing the commas from the grouped text gives the digits back. |
| Ui.FormatNumberLayout | naruto-shippuden/scripts/ui.js:177-179 | For a non-negative integer: without commas the output is its decimal text. No comma leads or trails. Commas stand every three digits from the right, so the first group has 1-3 digits and the others exactly 3. |
| Ui.FormatNegative | naruto-shippuden/scripts/ui.js:177-179 | A negative integer is formatted as `-` and its magnitude's formatting. |
| Ui.FormatArrayLayout | naruto-shippuden/scripts/ui.js:142-145 | A missing or empty list gives `N/A`. Otherwise each item's property appears in order, with exactly `length - 1` separators `", "` and nothing else. |
| Ui.AiredDateText | naruto-shippuden/scripts/ui.js:152-158 | Missing `aired` gives `N/A`. A non-empty `aired.string` is returned verbatim. Otherwise the result starts with the start date followed by ` to ` and ends with ` to ` followed by the end date, each date `?` when absent. With both dates absent it is `? to ?`. |
| Ui.BroadcastFallbackUnreachable | naruto-shippuden/scripts/ui.js:169 | The trimmed `day at time` text always keeps the letters `a` and `t`, so it is never empty and the `|| 'N/A'` fallback is dead. With both parts missing it is `at`. |
| Ui.BroadcastText | naruto-shippuden/scripts/ui.js:166-170 | The result is never empty. Missing broadcast gives `N/A`. A given `broadcast.string` is returned verbatim. Otherwise it is the trimmed `day at time`. |
| Ui.ReviewTextBounds | naruto-shippuden/scripts/ui.js:525-526 | The shown text has at most 503 characters. A review over 500 characters keeps its first 500 and gains `...`. A shorter one is unchanged. A missing one is the placeholder. Cutting twice equals cutting once. |
| Ui.FallbackNumbering | naruto-shippuden/scripts/ui.js:293 | Without `mal_id`, numbers on a page start at `(page-1)*50 + 1` and rise by exactly one per position. |
| Ui.FallbackPagesDisjoint | naruto-shippuden/scripts/ui.js:293 | Positions 0-49 on different pages never get the same fallback number. |
| Ui.FormatGenres | naruto-shippuden/scripts/ui.js:119-134 | Returns `null` exactly when the list is missing, empty, or has no named genre. Otherwise it returns the tags of the named genres, in order. |
| Ui.InfoItems | naruto-shippuden/scripts/ui.js:49-69 | There are nineteen info items. |
| Ui.InfoItemCaptionsDistinct | naruto-shippuden/scripts/ui.js:49-69 | No two info items share a label. |
| Ui.ShownItemsMembers | naruto-shippuden/scripts/ui.js:71-78 | An item is rendered exactly when it is in the list and its value is truthy and not `N/A`. |
| Ui.ShownItemsConcat | naruto-shippuden/scripts/ui.js:71-78 | The filter keeps the items' order. |
| Ui.InfoCardFor | naruto-shippuden/scripts/ui.js:87-112 | A card carries its item's label. A shown value that is not the genre element is displayed as text other than `N/A`. This is the corrected card; see Findings. |
| Ui.AppendInfoCards | naruto-shippuden/scripts/ui.js:71-78 | For a given card function, the loop appends exactly the cards of the items that pass the filter, in order. |
| Ui.RenderInfoCards | naruto-shippuden/scripts/ui.js:45-79 | As written: the cards are the `createInfoCard` cards (numbers shown as `N/A`) of the filtered items, in the fixed label order, with the genres value computed by `formatGenres`. |
| Ui.RenderInfoCardsCorrected | naruto-shippuden/scripts/ui.js:45-79 | The same render with the corrected card, which shows a number as its decimal text. |
| Ui.AsWrittenCardOfCaption | naruto-shippuden/scripts/ui.js:71-78 | With distinct labels, the as-written cards include the card of every item that passes the filter, and no other card with that item's label. |
| Ui.InfoCardsExactly | naruto-shippuden/scripts/ui.js:71-78 | With distinct labels, an item's corrected card is among the corrected render's cards exactly when its value passes the filter. |
| Ui.EpisodesCardAsWritten | naruto-shippuden/scripts/ui.js:98-106 | As written, a non-zero episode count passes the filter. The rendered cards then include an Episodes card reading `N/A`, and none shows the count. |
| Ui.EpisodesCardShowsCount | naruto-shippuden/scripts/ui.js:51 | With the correction, the rendered cards include an Episodes card showing the non-zero episode count. |
| Ui.StatItems | naruto-shippuden/scripts/ui.js:189-196 | There are six statistics, labelled Score, Ranked, Popularity, Members, Favorites and Episodes in that order. |
| Ui.RenderStatistics | naruto-shippuden/scripts/ui.js:185-214 | Always exactly six cards, labelled Score, Ranked, Popularity, Members, Favorites, Episodes in that order, whatever fields are missing. |
| Ui.AppendCharacterCards | naruto-shippuden/scripts/ui.js:232-270 | One card per character, in order. It shows name and role (`Unknown` when missing) and the first voice actor, if any, as `name (language)`. |
| Ui.RenderCharacters | naruto-shippuden/scripts/ui.js:220-271 | Only the placeholder exactly when the list is missing or empty. Otherwise the cards of the first `min(20, length)` characters, in order. |
| Ui.RenderCharactersPreview | naruto-shippuden/scripts/ui.js:320-371 | Same as above, for `slice(0, limit)` with `limit` 6 by default. |
| Ui.EpisodeCardFallback | naruto-shippuden/scripts/ui.js:293-297 | An episode without `mal_id` is shown as `#` plus its fallback number. Without a title, it is called `Episode` plus that number. |
| Ui.RenderEpisodes | naruto-shippuden/scripts/ui.js:278-313 | Only the placeholder exactly when the list is missing or empty. Otherwise one card per episode, in order, numbered from its page and position. |
| Ui.RenderRecommendations | naruto-shippuden/scripts/ui.js:377-421 | Only the placeholder exactly when the list is missing or empty. Otherwise the cards of the first `min(6, length)` entries, in order, with `Unknown` and `0` fallbacks. |
| Ui.RenderStaff | naruto-shippuden/scripts/ui.js:436-476 | Only the placeholder exactly when the list is missing or empty. Otherwise one card per member, in order, with the positions joined by `", "` or `Unknown`. |
| Ui.RenderReviews | naruto-shippuden/scripts/ui.js:482-532 | Only the placeholder exactly when the list is missing or empty. Otherwise one card per review, in order, each text at most 503 characters. |
| Navigation.LastSegment | naruto-shippuden/scripts/navigation.js:12 | `split('/').pop()` is a suffix of the path with no `/`, preceded by `/` unless it is the whole path. |
| Navigation.LastSegmentOf | naruto-shippuden/scripts/navigation.js:12 | For `dir + "/" + seg` with no `/` in `seg`, the last segment is `seg`. |
| Navigation.CurrentPage | naruto-shippuden/scripts/navigation.js:12 | The current page is the last segment, or `index.html` when that is empty. It is never empty and never contains `/`. |
| Navigation.CurrentPageOfFile | naruto-shippuden/scripts/navigation.js:12 | A path ending in a file name selects that file. |
| Navigation.CurrentPageOfDirectory | naruto-shippuden/scripts/navigation.js:12 | A path ending in `/` selects `index.html`. |
| Navigation.EmptyPageBranchIsDead | naruto-shippuden/scripts/navigation.js:17 | The `currentPage === ''` disjunct can never hold, so a link is active exactly when its href equals the current page. |
| Navigation.MarkLink | naruto-shippuden/scripts/navigation.js:16-19 | One link's class set becomes its marking for the current page. |
| Navigation.MarkActiveProperties | naruto-shippuden/scripts/navigation.js:15-20 | Marking only adds `active`. A link ends up active exactly when its href is the current page or it was active already. Other links keep their classes. Marking twice equals marking once. |
| Navigation.InitNavigation | naruto-shippuden/scripts/navigation.js:11-21 | Every link's class set becomes its marking for the current page. The links are distinct elements, as `querySelectorAll` returns them. |
| Navigation.NavigationMarkup | naruto-shippuden/scripts/navigation.js:27-43 | The logo is not a `nav-link`, and every menu entry is. |
| Navigation.MenuPages | naruto-shippuden/scripts/navigation.js:35-38 | The menu has exactly four links: index, details, characters and episodes, in that order. |
| Navigation.AtMostOneActiveMenuLink | naruto-shippuden/scripts/navigation.js:35-38 | Whatever the path, at most one menu link matches the current page. |
| Navigation.DistinctPages | naruto-shippuden/scripts/navigation.js:35-38 | The four menu targets differ from each other. |

## Left out

- Concurrency: nothing in `api.js` serialises overlapping calls to `rateLimitedFetch`. Calls started together read the same `lastRequestTime` and can send almost at once. The model therefore proves the 350 ms spacing only for calls made one after another.
- Api.RateLimitedClient.RateLimitedFetch: the clock is two parameters, the reading before the wait and the reading before sending. It requires that the second is at least the first plus the delay, which is what awaiting `setTimeout` gives. Timer and promise mechanics are not modelled.
- Network I/O, `response.json()` and `console.error` are left out. A response is an input value; its body is either parsed JSON or the rejection of a body that is not JSON.
- JSON values beyond what the accessors touch, and numbers that are not integers, are not modelled.
- `toFixed` on floating-point scores: a score is given in hundredths, so `toFixed(2)` is exact. The hero section's `toFixed(1)` is not modelled.
- Ui.FormatNumberLayout: covers integers only. On non-integers the regular expression also groups fractional digits, and that is not modelled.
- `Date` parsing and `toLocaleDateString` are locale-dependent and are the parameter `localeDate`.
- DOM details are not modelled: element and class names, image `src` and `alt`, the `onerror` SVG fallbacks, `innerHTML` markup, and the early `return` when a container is missing. A render result is only the placeholder message or the cards' texts.
- `renderHeroSection`, `renderSynopsis` and the identity stub `renderCharacterDetails` are not modelled. They only assign fields.
- `insertNavigation` and the `document.readyState`/`DOMContentLoaded` registration are DOM event plumbing and are not modelled.
- String lengths count Dafny characters. JavaScript counts UTF-16 code units, so review truncation can differ on text outside the Basic Multilingual Plane.
- A character entry with `voice_actors[0].person` missing would throw in the source. The model reads a missing person name as `undefined`.
- Missing nested objects that the source dereferences without a guard are not modelled as throws. These are `character.character` (ui.js:238 and 249), `rec.entry` (ui.js:397 and 408) and `member.person` (ui.js:453 and 464). In the source each would throw a `TypeError` and stop the render. The model reads them as an entry whose name or title is missing, so the card shows `Unknown`.
- A `null` or `undefined` element in the array given to `formatArray` (ui.js:144) would throw in `item[property]`. The model's items are always objects, so this case cannot arise in it.

## Findings

| source | as written | input that shows it | evidently intended | confidence | as-written member | corrected member |
|---|---|---|---|---|---|---|
| naruto-shippuden/scripts/ui.js:51 | The Episodes info item carries the number `anime.episodes`, and `createInfoCard` (ui.js:98-106) shows any non-string value as `N/A`. | `anime.episodes = 500`: the item passes the filter, and its card reads `N/A`. | The card shows `500`, as the statistics card does. | not executed | Ui.EpisodesCardAsWritten | Ui.EpisodesCardShowsCount |
