/** The scraper object: a cache directory whose files it reads and overwrites, and the
    operations that resolve one URL or a batch of them. */
module Scraper {
  import opened Wrappers
  import opened Freshness
  import opened CacheKey
  import opened CacheStore
  import opened Scrape
  import opened Batch

  class BeehiivScraper {
    /** The directory holding one cache file per URL. */
    const cacheDir: string
    /** The files currently under `cacheDir`, by path. */
    var cache: Files

    /** A scraper over `cacheDir` ("newsletter_cache" unless given), which already holds
        the files `existing` (creating the directory leaves any files in it in place). */
    constructor (existing: Files, cacheDir: string := "newsletter_cache")
      ensures this.cacheDir == cacheDir && cache == existing
    {
      this.cacheDir := cacheDir;
      cache := existing;
    }

    /** The cache file of `url`: under `cacheDir`, named after the URL's last segment. */
    function CacheFilenameOf(url: string): (path: string)
      ensures |DirPrefix(cacheDir)| <= |path| && path[..|DirPrefix(cacheDir)|] == DirPrefix(cacheDir)
      ensures '-' !in path[|DirPrefix(cacheDir)|..] && '/' !in path[|DirPrefix(cacheDir)|..]
    {
      CacheFileInsideDir(cacheDir, url);
      CacheFilename(cacheDir, url)
    }

    /** The cached record of `url`, if its file exists, parses, carries a timestamp and is
        less than a day old at `now`; reading never changes the cache. */
    function LoadFromCache(url: string, now: int): (data: Option<Record>)
      reads this
      ensures data.Some? ==> CacheFilenameOf(url) in cache && cache[CacheFilenameOf(url)] == Stored(data.value)
      ensures data.Some? ==> now - data.value.scrapedAt < SecondsPerDay
      ensures data.None? ==> CacheFilenameOf(url) !in cache || !cache[CacheFilenameOf(url)].Stored?
                             || now - cache[CacheFilenameOf(url)].record.scrapedAt >= SecondsPerDay
    {
      var path := CacheFilenameOf(url);
      LookupHitIff(cache, path, now);
      Lookup(cache, path, now)
    }

    /** Writes `data` to the cache file of `url`, replacing what was there. Errors are
        swallowed: a failed open leaves the file as it was, while opening for writing
        empties the file, so a failure while writing leaves it unreadable. */
    method SaveToCache(url: string, data: Record, outcome: WriteOutcome)
      modifies this
      ensures cache == Store(old(cache), CacheFilename(cacheDir, url), data, outcome)
    {
      if outcome == OpenFails {
        return;
      }
      var cacheFile := CacheFilenameOf(url);
      cache := cache[cacheFile := Unreadable];
      if outcome == Written {
        cache := cache[cacheFile := Stored(data)];
      }
    }

    /** Resolves one URL: a fresh cache hit is returned as it is; otherwise the page is
        fetched, a record with empty content is rejected, and a record with content is
        saved and returned. Every failure yields `None`. */
    method ScrapeNewsletter(url: string, step: Step) returns (data: Option<Record>)
      modifies this
      ensures Resolution(data, cache) == Resolve(old(cache), cacheDir, url, step)
    {
      var cachedData := LoadFromCache(url, step.now);
      if cachedData.Some? {
        return cachedData;
      }
      if step.fetched.None? {
        return None;
      }
      var page := step.fetched.value;
      var newsletterData := Fetched(url, page, step.now);
      if newsletterData.content == [] {
        return None;
      }
      SaveToCache(url, newsletterData, step.write);
      data := Some(newsletterData);
    }

    /** Resolves `urls` in order, keeping the records of those that succeed, in input order.
        It reports `(i, total)` after URL `i` when a callback is given, and pauses between
        URLs but not after the last. */
    method ProcessMultipleUrls(urls: seq<string>, steps: seq<Step>, hasCallback: bool)
      returns (newsletters: seq<Record>, events: seq<Event>)
      requires |steps| == |urls|
      modifies this
      ensures newsletters == Somes(Run(old(cache), cacheDir, urls, steps).outcomes)
      ensures cache == Run(old(cache), cacheDir, urls, steps).files
      ensures events == Events(|urls|, |urls|, hasCallback)
    {
      newsletters := [];
      events := [];
      var totalUrls := |urls|;
      ghost var outcomes: seq<Option<Record>> := [];
      var i := 1;
      while i <= totalUrls
        invariant 1 <= i <= totalUrls + 1
        invariant Run(old(cache), cacheDir, urls[..i - 1], steps[..i - 1]) == Trace(outcomes, cache)
        invariant newsletters == Somes(outcomes)
        invariant events == Events(totalUrls, i - 1, hasCallback)
      {
        newsletters, events, outcomes := ProcessUrl(old(cache), urls, steps, i, hasCallback, newsletters, events, outcomes);
        i := i + 1;
      }
      assert urls[..totalUrls] == urls && steps[..totalUrls] == steps;
    }

    /** One turn of the batch loop, for URL `i` (1-based): scrapes it, keeps its record if it
        has one, then reports and pauses. Given the state after the first `i - 1` URLs of a
        batch that began with the cache `start`, it leaves the state after the first `i`. */
    method ProcessUrl(ghost start: Files, urls: seq<string>, steps: seq<Step>, i: nat, hasCallback: bool,
                      newsletters: seq<Record>, events: seq<Event>, ghost outcomes: seq<Option<Record>>)
      returns (newsletters': seq<Record>, events': seq<Event>, ghost outcomes': seq<Option<Record>>)
      requires |steps| == |urls| && 1 <= i <= |urls|
      requires Run(start, cacheDir, urls[..i - 1], steps[..i - 1]) == Trace(outcomes, cache)
      requires newsletters == Somes(outcomes)
      requires events == Events(|urls|, i - 1, hasCallback)
      modifies this
      ensures Run(start, cacheDir, urls[..i], steps[..i]) == Trace(outcomes', cache)
      ensures newsletters' == Somes(outcomes')
      ensures events' == Events(|urls|, i, hasCallback)
    {
      ghost var before := cache;
      events' := events + [Attempt(i)];
      var newsletterData := ScrapeNewsletter(urls[i - 1], steps[i - 1]);
      newsletters' := newsletters;
      if newsletterData.Some? {
        newsletters' := newsletters' + [newsletterData.value];
      }
      RunStep(start, cacheDir, urls, steps, i, outcomes, before, newsletterData, cache);
      SomesStep(outcomes, newsletterData);
      outcomes' := outcomes + [newsletterData];
      var after := ReportAndPause(i, |urls|, hasCallback);
      events' := events' + after;
    }

    /** After URL `i` of `total`: calls the progress callback with `(i, total)` when one is
        given, then pauses unless `i` is the last URL. */
    static method ReportAndPause(i: nat, total: nat, hasCallback: bool) returns (emitted: seq<Event>)
      ensures Pauses(emitted) == if i < total then 1 else 0
      ensures Reports(emitted) == if hasCallback then [(i, total)] else []
      ensures emitted == AfterUrl(total, i, hasCallback)
    {
      emitted := [];
      if hasCallback {
        emitted := emitted + [Progress(i, total)];
      }
      if i < total {
        emitted := emitted + [Pause];
      }
      AfterUrlPauses(total, i, hasCallback);
      AfterUrlReports(total, i, hasCallback);
    }
  }
}
