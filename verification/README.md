# site-metadata-scraper, modelled in Dafny

This project models the core of site-metadata-scraper. The program reads a list of merchant entries. It turns each entry's `url` into an origin and visits the first ten origins in batches, each visit in a headless browser. On each page it scrolls to the bottom so that lazy-loaded content appears. It then reads the page's language, title, meta description, meta keywords and one link per social platform. The modules follow the source files:

- `Url` (`url.dfy`, src/url.ts): `compose` and `decompose`.
  - The WHATWG URL parser (`new URL`) and psl's public-suffix `parse` are foreign libraries, so they are parameters of the model: the two oracle functions of `Parsers`.
  - Everything the resolver does around them is modelled exactly: the order of the attempts, the fallbacks, the origin it builds, and the object spread.
- `Browser` (`browser.dfy`): the browser side, as values.
  - The puppeteer actions the scraper issues, and the plan of actions its load phase follows.
  - A throwing action cuts that plan short.
  - The rendered document: root `lang`, `<title>`, `<meta>` and `<a>` elements, plus `querySelector` as a first-match search.
  - A `Session` says how the browser behaves for one URL: whether it launches, the step count the height measurement yields, which load-phase action throws (if any), and the document it renders.
- `Utils` (`utils.dfy`, src/utils.ts): `scroll`, a method with a loop. It is proved against the scroll plan.
- `Scraper` (`scraper.dfy`, src/scraper.ts): the default export.
  - The lifecycle is the method `Scrape`, proved against the function `PageRun`. It records the exit taken and the browser actions issued.
  - The tolerant reads, social-link selection and `Object.assign` merge are functions over the document.
- `Index` (`index.dfy`, src/index.ts): the top-level run.
  - Compose every entry, keep ten, and pick the partition `Number(BATCH_SIZE) || 5`.
  - The `while (i < list.length)` batching loop is a method proved against the functions `Batches` and `Visits`.
- `Text` (`text.dfy`): the ECMAScript `String.prototype.trim` white-space set and the ASCII case-insensitive matching of CSS `[attr*=v i]` and `[attr=v i]`.
- `Wrappers` (`wrappers.dfy`): `Option`.

Readings of the source that the model commits to:

- src/scraper.ts imports `parse` as the default export of src/url.ts, but that module exports only `compose` and `decompose` by name. The model reads the call as `decompose`, the only function there that returns the object whose `domain` and `sld` the scraper destructures.
- The scraper's promise resolves to nothing; it only logs. The model returns, for each call:
  - the exit taken (`Outcome`), with the record it would log;
  - the actions issued (the trace).
- The `browser.close()` after a successful scrape is commented out (src/scraper.ts:153-154). So a scraped page leaves its browser open, and `SuccessLeavesBrowserOpen` states exactly that. Only the load-failure path closes the browser.
- A psl field that is `null` is written by the template literals as the text `null`. `compose` can therefore yield `https://www.null`, and the scraper can search for `facebook.com/null` (`Render`).
- An object spread of a URL object copies only its own enumerable properties (`UrlOk.own`), and psl's keys override them. Node's URL class has none, so in practice the result holds only psl's keys. The model keeps `own` general.

## Model

| member | source | states |
|---|---|---|
| Url.Compose | src/url.ts:7-38 | A URL the strict parser accepts yields its origin. Otherwise the result is empty exactly when psl reports an error. Any non-empty fallback starts with `https://`. |
| Url.ComposeIgnoresPslOnValidUrl | src/url.ts:11-16 | When `new URL` succeeds, psl is never consulted: any two psl oracles give the same result, the URL's origin. |
| Url.ComposeFallback | src/url.ts:21-37 | The fallback is `https://` + subdomain + `.` + domain. A null or empty subdomain is replaced by `www`. |
| Url.ComposeBareDomain | src/url.ts:30-33 | `example.com`, which the strict parser rejects, becomes `https://www.example.com`. |
| Url.Decompose | src/url.ts:43-65 | The result is absent exactly when the URL does not parse or psl rejects its hostname. Otherwise its keys are the URL's own keys plus psl's six, psl's values win on psl's keys, and every other key keeps the URL's value. |
| Url.DecomposeCarriesDomainParts | src/url.ts:57-60 | A present result carries psl's `domain`, `sld` and `subdomain` for the URL's hostname. |
| Text.Trim | src/scraper.ts:92 | The result is the input with its leading and trailing ECMAScript white space cut: it has no white space at either end, and it is the window of the input outside which only white space lies. |
| Text.TrimmedFromIsUnique | src/scraper.ts:103 | Only one string is the trimmed form of a given input. |
| Browser.QuerySelector | src/scraper.ts:132-135 | The result is the first element in document order that matches, or none when no element matches. |
| Browser.ScrollPlanShape | src/utils.ts:8-15 | The height is measured once, first. Then `n + 1` scrolls are issued for a measured `n >= 0`, and none for `n < 0`. Every scroll is followed at once by a 100 ms wait. |
| Utils.Scroll | src/utils.ts:6-16 | The actions issued are the scroll plan for the measured `n`, cut after the first action that throws; the promise rejects exactly when one throws. |
| Scraper.ProfileLinkIsPlatformLink | src/scraper.ts:132-135 | An anchor that matches `{p}.com/{sld}` also matches `{p}.com`, so the second query is a widening of the first. |
| Scraper.Handle | src/scraper.ts:129-143 | If an anchor links to the site's profile, the result is the resolved href of the first such anchor. If none does, it is that of the first anchor linking to the platform. If no anchor links to the platform, it is the empty string. |
| Scraper.AssignParts | src/scraper.ts:150 | Folding one-key objects into a target with `Object.assign` adds each listed platform's own entry to the target. |
| Scraper.MergeParts | src/scraper.ts:145-151 | Merging the six per-platform objects, `first` taking the `rest`, yields every platform's own lookup. |
| Scraper.Links | src/scraper.ts:125-151 | Every platform is a key of `links`, and its value is that platform's own handle. |
| Scraper.ReadOrEmpty | src/scraper.ts:88-107 | A missing element reads as the empty string. A present one reads as its text, trimmed. |
| Scraper.MetaContent | src/scraper.ts:110-122 | The trimmed content of the first `<meta>` whose `name` equals, or whose `property` contains, the key up to ASCII case. The empty string when no `<meta>` matches. |
| Scraper.MissingElementsAreIsolated | src/scraper.ts:88-151 | Each read fails on its own. Removing the title, the root `lang` or the metas empties only those fields, and removing every anchor empties every link. |
| Scraper.Load | src/scraper.ts:57-74 | The actions issued are newPage, goto, the measurement and the scroll steps, cut after the first that throws. Completion is reported exactly when none throws. |
| Scraper.ScrollLoop | src/scraper.ts:69-74 | `i = 0; while (i <= n)` issues `StepCount(n)` scroll/wait pairs after the head, stopping at the first that throws. |
| Scraper.Scrape | src/scraper.ts:17-168 | The exit and trace of one call equal `PageRun`: invalid URL, launch failure, load failure with close, or the scraped record. |
| Scraper.InvalidUrlLaunchesNothing | src/scraper.ts:25-30 | The run ends with no browser action exactly when `decompose` yields nothing. |
| Scraper.LaunchFailureOpensNothing | src/scraper.ts:45-55 | A launch failure returns at once: the trace is the launch alone, with no page and no close. |
| Scraper.LoadFailureClosesOnce | src/scraper.ts:57-79 | When the URL decomposes, the browser launches and action `f` of the load plan (newPage, goto, the measurement or a scroll step) throws, the exit is the load failure. The trace is the launch, the plan up to and including action `f`, then the close: one launch, a newPage, and exactly one close, as the last action. |
| Scraper.LoadFailedOnlyOnThrow | src/scraper.ts:57-79 | The load-failure exit is taken only then: the URL decomposed, the browser launched and some load-plan action threw. |
| Scraper.SuccessLeavesBrowserOpen | src/scraper.ts:153-154 | When the URL decomposes, the browser launches and no load action throws, the page is scraped. Its trace is the whole plan: one launch, `StepCount(n)` scrolls and as many waits, and no close. |
| Scraper.NoLifecycleActionsInPlan | src/scraper.ts:57-74 | The load phase neither launches nor closes a browser. |
| Index.Partition | src/index.ts:33 | The partition is never zero. It is 5 for a NaN or zero setting and the setting otherwise, so it is at least 1 for a non-negative setting. |
| Index.ComposeAll | src/index.ts:24-25 | One composed URL per entry, in order; empty results are kept. |
| Index.Capped | src/index.ts:29 | The first `min(n, 10)` URLs, unchanged. |
| Index.ReadFailureScrapesNothing | src/index.ts:24-26 | A rejected read leaves no URL and no batch. |
| Index.BatchesRebuildList | src/index.ts:34-42 | The batches, joined in order, are the list again: consecutive and non-overlapping. |
| Index.BatchesAreSlices | src/index.ts:35 | Batch `k` is `list.slice(k*p, k*p + p)` and starts inside the list. |
| Index.BatchSizes | src/index.ts:35 | Each batch holds 1 to `p` URLs, and all but the last hold exactly `p`. |
| Index.BatchCount | src/index.ts:37 | The batch counter ends at the ceiling of `length / p`: enough batches to cover the list, one fewer would not, and none for an empty list. |
| Index.VisitsAppend | src/index.ts:40 | Pushing one batch's results after another's gives the results of the two batches' URLs in order. |
| Index.VisitsInOrder | src/index.ts:38-40 | Result `j` is the run of the default export on `list[j]`. |
| Index.ScrapeOne | src/index.ts:38 | One call of the default export on one URL, with its session. |
| Index.ScrapeBatch | src/index.ts:38 | One visit per URL of the batch, in batch order. |
| Index.RunBatches | src/index.ts:32-43 | The loop pushes the visits of the whole list in order, cuts exactly the batches of `Batches`, and counts them in `c`. |
| Index.Orchestrate | src/index.ts:19-46 | Result `j` is the run on the `j`-th kept URL. The batches are those of the capped list with `Number(BATCH_SIZE) \|\| 5`, and `c` counts them. An empty list yields no batch, whatever the setting. |

## Left out

- src/read.ts, the file system and `INPUT_PATH` are not part of this model. The read's result is the parameter `ReadOutcome`, and an entry is just its `url` string; an entry whose `url` is not a string is not modelled.
- `BATCH_SIZE` is the parameter `NumberValue`: unset or non-numeric (NaN), or an integer. Fractional and infinite values are not modelled.
- Orchestrate: requires a non-negative `BATCH_SIZE` unless the capped list is empty. With a negative partition and a non-empty list, the first pass scrapes `list.slice(0, partition)`, every URL but the last `-partition` ones. Later slices are empty, `i` keeps decreasing, and `while (i < list.length)` never ends, so `result` is never logged. That non-terminating run is not modelled.
- Puppeteer, Chromium and the real DOM are not modelled. Each page is a `Session` value: launch success, measured step count, the index of the first throwing load action, and the rendered document.
  - `Math.ceil(scrollHeight / viewportHeight)` is not computed; its integer result is the session's `steps`.
  - Timeouts and the time the waits take are not modelled.
  - A throwing `browser.close()` on the load-failure path is not modelled.
  - An `<a>` or `<meta>` that matches the selector but is not an HTML element of that kind (an SVG `<a>`, say) is not modelled; it would read as the empty string.
  - Selector syntax errors are not modelled: a `sld` containing a quote would make the source's query throw and read as the empty string.
- `Promise.all` runs a batch's scrapes concurrently; the model runs them one after another in batch order. The browser actions of different pages are kept as separate traces, not interleaved.
- The evaluate calls after loading (the reads) cannot abort the run: each has its own `.catch`. They are modelled as reads of the document, not as actions in the trace.
- `console.info`/`console.log` output is not modelled. The record the scraper would log is returned in `Outcome.Scraped`. The batch label's `batch.length` is the length of the batch.
- The source pushes the scrape promises' results, which are `undefined`, into `result`. The model pushes each call's `Visit` instead.
- WHATWG URL parsing and psl's public-suffix list are oracles: their internal behaviour (host canonicalisation, punycode, the suffix rules) is not modelled.
- Case-insensitive attribute matching is ASCII-only, as CSS's `i` flag is; no other Unicode case folding is modelled.
