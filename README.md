# BeehiivScraper cache and batch layer, in Dafny

This project models the cache and batch logic of the newsletter scraper class
`BeehiivScraper` (`utils/beehiiv_scraper.py`) and proves what that logic guarantees.
The scraper keeps one JSON file per last URL path segment under a cache directory. A
file is named after the URL's last `/`-segment, with `-` replaced by `_`, so URLs that
agree there share a file. A cached record is
served while it is less than one day old. Otherwise the page is fetched in a headless
browser, and a record with content is written to the cache and returned. A batch call
resolves URLs in order. It keeps the successes, reports progress `(i, total)` after
every URL and pauses between URLs.

The model has these parts:

- `wrappers.dfy`: `Option`.
- `freshness.dfy` (`Freshness`): the one-day freshness test on integer timestamps in
  seconds. Python's `timedelta.days` is floor division, and so is Dafny's `/` by a
  positive divisor.
- `cache_key.dfy` (`CacheKey`): the cache file name of a URL.
  - `LastSegment` is `url.split('/')[-1]`.
  - `ReplaceHyphens` is `.replace('-', '_')`.
  - `DirPrefix(dir) + name` is `os.path.join(dir, name)` on POSIX paths. The name never
    starts with '/'.
- `cache_store.dfy` (`CacheStore`): the cache directory as a map from path to what
  reading that file yields: `Unreadable`, `Untimestamped` or `Stored(record)`.
  - `Lookup` is the read and the freshness gate.
  - `Store` is the write. It may succeed, fail to open the file (which leaves it as it
    was), or fail after the open has emptied the file (which leaves it unreadable).
- `scrape.dfy` (`Scrape`): `Resolve`, the meaning of resolving one URL. The outside
  world for that URL is a `Step`: the clock reading, the fetch outcome (absent when
  the browser fails or the main element never appears), and how the cache write ends.
- `batch.dfy` (`Batch`): the meaning of a batch.
  - `Run` gives the per-URL outcomes and the final cache.
  - `Somes` keeps the records that were returned.
  - `Events` is the log of attempts, progress reports and pauses.
- `beehiiv_scraper.dfy` (`Scraper`): the class `BeehiivScraper`. Its field `cache` is
  the cache directory's contents and is updated in place. Its methods are proved
  against the functions above.

## Model

| member | source | states |
|---|---|---|
| Freshness.AgeInDaysIsFloor | utils/beehiiv_scraper.py:30 | the whole-day age is the floor of the elapsed seconds over 86400, also for a timestamp in the future |
| Freshness.FreshIffUnderOneDay | utils/beehiiv_scraper.py:28-30 | an entry is fresh exactly when fewer than 86400 seconds have elapsed; a future timestamp is fresh |
| Freshness.FreshnessBoundary | utils/beehiiv_scraper.py:28-30 | 23h59m old is fresh; exactly 24h and 25h old are not |
| Freshness.StaleStaysStale | utils/beehiiv_scraper.py:30 | an entry stale at one time is stale at every later time |
| CacheKey.LastSegmentSpec | utils/beehiiv_scraper.py:18 | the last split piece is the longest '/'-free suffix of the URL: a suffix, with no '/', and either the whole URL or preceded by '/' |
| CacheKey.ReplaceHyphensSpec | utils/beehiiv_scraper.py:18 | the replacement keeps the length and maps each character, '-' to '_' and everything else to itself |
| CacheKey.ReplaceHyphensIdempotent | utils/beehiiv_scraper.py:18 | replacing hyphens twice equals replacing them once |
| CacheKey.ReplaceHyphensKeepsSlashes | utils/beehiiv_scraper.py:18 | the replacement neither adds nor removes a '/' |
| CacheKey.LastSegmentOfSegment | utils/beehiiv_scraper.py:18 | a string without '/' is its own last piece |
| CacheKey.LastSegmentAfterSlash | utils/beehiiv_scraper.py:18 | the last piece of `prefix + "/" + s`, for `s` without '/', is `s` |
| CacheKey.EntryNameShape | utils/beehiiv_scraper.py:18-19 | the file name has no '-' and no '/', is five longer than the segment, and ends in ".json" |
| CacheKey.CacheFileInsideDir | utils/beehiiv_scraper.py:15-19 | the cache path starts with the joined directory, and the rest has no '/' and no '-' |
| CacheKey.SameFileIff | utils/beehiiv_scraper.py:15-19 | two URLs get the same cache path string if and only if their last segments agree after hyphen replacement |
| CacheKey.HyphenUnderscoreCollide | utils/beehiiv_scraper.py:15-19 | `p/s` and `q/s'`, with `s'` being `s` with hyphens replaced, share a cache file whatever `p` and `q` are |
| CacheKey.TrailingSlashCollide | utils/beehiiv_scraper.py:15-19 | every URL ending in '/' maps to `.json` in the cache directory |
| CacheStore.LookupHitIff | utils/beehiiv_scraper.py:21-35 | a lookup yields a record if and only if the file exists, parses, has a timestamp and is under a day old; the record is the stored one |
| CacheStore.StaleLookupStaysAbsent | utils/beehiiv_scraper.py:21-35 | a stored entry that is not served now is not served later |
| CacheStore.StoreThenLookup | utils/beehiiv_scraper.py:37-45 | after a successful write, a lookup returns the written record while it is fresh, and nothing once a day has passed |
| CacheStore.FailedStoreThenLookup | utils/beehiiv_scraper.py:37-45 | a failed open leaves the lookup as it was; a failure after the open leaves nothing to serve at any time |
| CacheStore.StoreOnlyTouchesPath | utils/beehiiv_scraper.py:37-45 | a write, whatever its outcome, leaves every other file and every other lookup unchanged |
| Scrape.CacheHitServedUnchanged | utils/beehiiv_scraper.py:47-51 | on a fresh hit the cached record is returned, the cache is not written, and the fetch outcome plays no part |
| Scrape.FailedFetchAbsorbed | utils/beehiiv_scraper.py:84-85 | on a miss, a failed fetch or a page with empty content yields `None` and leaves the cache unchanged |
| Scrape.FetchedRecordReturned | utils/beehiiv_scraper.py:73-80 | on a miss with content, the result carries the requested URL, the current time and the fetched fields, also when the write fails |
| Scrape.FetchedRecordSaved | utils/beehiiv_scraper.py:37-45 | on a miss with content, a successful write makes a lookup at the same time return exactly the result; a failed open leaves the cache unchanged; a failure after the open leaves the URL's file unreadable, so no later lookup serves it |
| Scrape.ResolveTouchesOnlyItsFile | utils/beehiiv_scraper.py:47-94 | resolving a URL changes no cache file other than that URL's own |
| Scrape.ResolveKeepsContent | utils/beehiiv_scraper.py:84-88 | if no cached record has empty content, none does after resolving, and the result has content |
| Scrape.CollisionServesOtherUrl | utils/beehiiv_scraper.py:18-32 | after `p/s` is cached, with `s` holding a hyphen, asking for `q/s'` returns the record of `p/s`, whose `url` differs from the one asked for |
| Batch.Run | utils/beehiiv_scraper.py:100-102 | a batch has exactly one outcome per URL |
| Batch.RunStep | utils/beehiiv_scraper.py:100-105 | resolving URL `i` against the cache the first `i - 1` URLs left extends their outcomes by its result |
| Batch.RunExtend | utils/beehiiv_scraper.py:100-102 | one more URL extends the trace by its resolution against the cache so far |
| Batch.RunPrefix | utils/beehiiv_scraper.py:100-102 | running the first `k` URLs gives the first `k` outcomes of the whole batch |
| Batch.RunOutcomeAt | utils/beehiiv_scraper.py:100-102 | outcome `k` is URL `k` resolved against the cache the earlier URLs left |
| Batch.RunKeepsContent | utils/beehiiv_scraper.py:96-117 | from a cache without empty-content records, the batch keeps it so and returns only records with content |
| Batch.SomesStep | utils/beehiiv_scraper.py:104-105 | one more outcome appends its record, if it has one |
| Batch.SomesSelectsSuccesses | utils/beehiiv_scraper.py:104-105 | a record is kept if and only if some outcome returned it, and there are no more records than URLs |
| Batch.SomesAppend | utils/beehiiv_scraper.py:104-105 | the kept records keep input order: the records of `a + b` are those of `a` followed by those of `b` |
| Batch.SomesOfThree | utils/beehiiv_scraper.py:104-105 | three outcomes keep their records in order |
| Batch.RunOfThree | utils/beehiiv_scraper.py:100-102 | three URLs resolve in turn, each against the cache the previous one left |
| Batch.MixedBatchOutcomes | utils/beehiiv_scraper.py:100-105 | in the batch hit, failed fetch, fetch with content, the outcomes are the cached record, `None` and the fetched record |
| Batch.MixedBatch | utils/beehiiv_scraper.py:96-117 | that batch returns the cached record and then the fetched record |
| Batch.AfterUrlReports | utils/beehiiv_scraper.py:110-111 | after URL `i`, one report `(i, total)` is made exactly when a callback is given |
| Batch.ReportsAppend | utils/beehiiv_scraper.py:110-111 | the reports of `a + b` are those of `a` followed by those of `b` |
| Batch.ReportsStep | utils/beehiiv_scraper.py:100-111 | processing URL `i` adds its report and no other |
| Batch.ReportsInOrder | utils/beehiiv_scraper.py:100-111 | after `k` URLs the reports are `(1, total), ..., (k, total)` when a callback is given and none otherwise, whatever the outcomes |
| Batch.AfterUrlPauses | utils/beehiiv_scraper.py:113-114 | after URL `i`, one pause follows exactly when `i < total` |
| Batch.PausesAppend | utils/beehiiv_scraper.py:113-114 | the pauses of `a + b` add up |
| Batch.PausesStep | utils/beehiiv_scraper.py:100-114 | processing URL `i` adds one pause unless it is the last URL |
| Batch.PausesBetweenUrls | utils/beehiiv_scraper.py:100-114 | a batch of `n > 0` URLs pauses `n - 1` times |
| Batch.NoPauseAfterLastUrl | utils/beehiiv_scraper.py:113-114 | the last event of a non-empty batch is not a pause |
| Scraper.BeehiivScraper.constructor | utils/beehiiv_scraper.py:10-13 | the scraper keeps its directory, `newsletter_cache` unless one is given, and the directory's existing files stay in place |
| Scraper.BeehiivScraper.CacheFilenameOf | utils/beehiiv_scraper.py:15-19 | the cache path lies directly inside the cache directory, with no '-' in its name |
| Scraper.BeehiivScraper.LoadFromCache | utils/beehiiv_scraper.py:21-35 | a hit is the stored record of the URL's file and is under a day old; a miss means missing, unreadable, untimestamped or stale; the cache is only read |
| Scraper.BeehiivScraper.SaveToCache | utils/beehiiv_scraper.py:37-45 | the URL's file now holds the record; it is unchanged when the open fails, and unreadable when writing fails after the open emptied it |
| Scraper.BeehiivScraper.ScrapeNewsletter | utils/beehiiv_scraper.py:47-94 | the result and the new cache are those of `Resolve`, whose properties are the `Scrape` lemmas |
| Scraper.BeehiivScraper.ProcessUrl | utils/beehiiv_scraper.py:100-114 | one turn of the loop takes the state after `i - 1` URLs to the state after `i` |
| Scraper.BeehiivScraper.ProcessMultipleUrls | utils/beehiiv_scraper.py:96-117 | the result is the records of `Run` in input order, the cache is `Run`'s final cache, and the event log is `Events` for all URLs |
| Scraper.BeehiivScraper.ReportAndPause | utils/beehiiv_scraper.py:110-114 | after URL `i` it reports `(i, total)` exactly when a callback is given, and pauses exactly when `i < total` |

## Left out

- The browser session is not modelled: Playwright launch, viewport, user agent, navigation, the waits and timeouts, the 2-second settle delay and the DOM queries. Each URL's fetch outcome is a given `Option<Page>`; absent stands for every exception the session can raise.
- Real file I/O and JSON are not modelled. Each cache file is what reading it yields: unreadable (missing permissions, malformed, empty or cut-short JSON), without a usable `scraped_at`, or a stored record. The case of a naive and an aware `datetime` that cannot be subtracted is in the second class.
- A cached JSON object with missing or extra fields is modelled as a complete `Record`. The source returns whatever dictionary it read.
- Scraper.BeehiivScraper.ProcessMultipleUrls: the batch always returns in the model. In the source, line 106 reads `newsletter_data['title']` outside any `try` (`utils/beehiiv_scraper.py:104-106`). A fresh cached object without a `"title"` key, or a title that `print` cannot encode, raises there. The exception escapes `process_multiple_urls`, so the caller gets no list and the remaining URLs are not processed.
- `os.makedirs` is not modelled. The constructor takes the directory's existing files as a parameter.
- `datetime.now()` and `fromisoformat` are not modelled. Times are integer seconds, and each URL has one clock reading in its `Step`.
- Scraper.BeehiivScraper.ScrapeNewsletter: the freshness test and the new record's `scraped_at` use the same clock reading, whereas the source reads the clock twice, a few seconds apart.
- `time.sleep(1)` between URLs is not a real delay. It is a `Pause` event in the log, and the progress callback is a `Progress(i, total)` event; the callback's own effects are not modelled.
- All `print` output is left out.
- Scraper.BeehiivScraper.ScrapeNewsletter: an exception raised after the cache write is not modelled. The `print` at `utils/beehiiv_scraper.py:89` or the exit of the `sync_playwright()` context (line 54) could raise; the handler at lines 92-94 would then return `None` with the file already written, where the model returns the record.
- `browser.close()` on paths that raise, and the browser teardown in general, are left out as resource handling.
- `os.path.join` is modelled with POSIX separators. On Windows it uses '\\' and treats drive letters specially, which the model does not capture.
- CacheKey.SameFileIff: a file is identified by its exact path string (`Files` is a map from strings). On a case-insensitive or normalising file system (the default on macOS and Windows), paths such as `.../Foo.json` and `.../foo.json` are one file, so more URLs share a file than this lemma says.
- `newsletter_ai.py`, `main.py`, `config.py`, `agents/` and `tasks/` are not part of this model. They build prompts and call language-model libraries.
- `newsletter_ai.py:148` passes `verbose=False`, which the constructor at `utils/beehiiv_scraper.py:10` does not accept. This is a fault of that caller, not of the scraper, and it is not modelled.
- `test_scraper.py` is not part of this model. It is a manual script against the network with no assertions.
- Entries are keyed by the URL's last path segment only, with '-' turned into '_' (`utils/beehiiv_scraper.py:18`), so distinct URLs can share a file. `CacheKey.SameFileIff`, `CacheKey.HyphenUnderscoreCollide`, `CacheKey.TrailingSlashCollide` and `Scrape.CollisionServesOtherUrl` state the consequences.
