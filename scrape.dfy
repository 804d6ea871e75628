/** The meaning of resolving one URL: serve it from the cache, or fetch, validate and save it. */
module Scrape {
  import opened Wrappers
  import opened Freshness
  import opened CacheKey
  import opened CacheStore

  /** The fields the browser extracts from a rendered page; any of them may be empty. */
  datatype Page = Page(title: string, date: string, content: string, author: string)

  /** What the world does while one URL is resolved: the clock reading, the outcome of the
      page fetch (absent when navigation, the content wait or the browser fails), and how
      writing the cache file ends. */
  datatype Step = Step(now: int, fetched: Option<Page>, write: WriteOutcome)

  /** The outcome of one resolution: the returned record (if any) and the cache afterwards. */
  datatype Resolution = Resolution(result: Option<Record>, files: Files)

  /** The record built from a fetched page: stamped with the URL asked for and the current time. */
  function Fetched(url: string, page: Page, now: int): Record
  {
    Record(url, page.title, page.date, page.content, page.author, now)
  }

  /** Resolving `url` against the cache under `dir`. */
  function Resolve(files: Files, dir: string, url: string, step: Step): Resolution
  {
    var path := CacheFilename(dir, url);
    var cached := Lookup(files, path, step.now);
    if cached.Some? then Resolution(cached, files)
    else if step.fetched.None? then Resolution(None, files)
    else
      var record := Fetched(url, step.fetched.value, step.now);
      if record.content == [] then Resolution(None, files)
      else Resolution(Some(record), Store(files, path, record, step.write))
  }

  /** Every stored record has content: the cache only ever receives records that do. */
  ghost predicate ContentStored(files: Files)
  {
    forall path :: path in files && files[path].Stored? ==> files[path].record.content != []
  }

  /** A fresh cache hit is returned unchanged, the cache is not written, and the fetch
      outcome plays no part. */
  lemma CacheHitServedUnchanged(files: Files, dir: string, url: string, step: Step, other: Step)
    requires Lookup(files, CacheFilename(dir, url), step.now).Some?
    requires other.now == step.now
    ensures Resolve(files, dir, url, step).result == Lookup(files, CacheFilename(dir, url), step.now)
    ensures Resolve(files, dir, url, step).files == files
    ensures Resolve(files, dir, url, other) == Resolve(files, dir, url, step)
  {
  }

  /** On a miss with a failed fetch, or a fetched page whose content is empty, nothing is
      returned and the cache is not written, whatever the other fields hold. */
  lemma FailedFetchAbsorbed(files: Files, dir: string, url: string, step: Step)
    requires Lookup(files, CacheFilename(dir, url), step.now).None?
    requires step.fetched.None? || step.fetched.value.content == []
    ensures Resolve(files, dir, url, step) == Resolution(None, files)
  {
  }

  /** On a miss with content fetched, the returned record carries the URL asked for, the
      current time and the fetched fields, and it is returned even when the write fails. */
  lemma FetchedRecordReturned(files: Files, dir: string, url: string, step: Step, page: Page)
    requires Lookup(files, CacheFilename(dir, url), step.now).None?
    requires step.fetched == Some(page) && page.content != []
    ensures var result := Resolve(files, dir, url, step).result;
      && result.Some?
      && result.value.url == url
      && result.value.scrapedAt == step.now
      && result.value.content == page.content
      && result.value.title == page.title
      && result.value.date == page.date
      && result.value.author == page.author
  {
  }

  /** On a miss with content fetched, a successful write puts the record at the URL's cache
      file, so that a lookup at the same time reads back exactly what was returned; a failed
      open leaves the cache as it was; a failure after the open leaves the URL's file
      unreadable, so that no later lookup serves it. */
  lemma FetchedRecordSaved(files: Files, dir: string, url: string, step: Step, page: Page, later: int)
    requires Lookup(files, CacheFilename(dir, url), step.now).None?
    requires step.fetched == Some(page) && page.content != []
    ensures step.write == OpenFails ==> Resolve(files, dir, url, step).files == files
    ensures step.write == DumpFails ==>
      && Resolve(files, dir, url, step).files == files[CacheFilename(dir, url) := Unreadable]
      && Lookup(Resolve(files, dir, url, step).files, CacheFilename(dir, url), later).None?
    ensures step.write == Written ==>
      Lookup(Resolve(files, dir, url, step).files, CacheFilename(dir, url), step.now) == Resolve(files, dir, url, step).result
  {
    var path := CacheFilename(dir, url);
    var record := Fetched(url, page, step.now);
    var after := Store(files, path, record, step.write);
    assert Resolve(files, dir, url, step) == Resolution(Some(record), after);
    if step.write == Written {
      StoreThenLookup(files, path, record, step.now);
      FreshIffUnderOneDay(step.now, step.now);
    }
  }

  /** Resolving a URL changes no cache file other than the URL's own. */
  lemma ResolveTouchesOnlyItsFile(files: Files, dir: string, url: string, step: Step)
    ensures forall other :: other != CacheFilename(dir, url) ==>
      (other in Resolve(files, dir, url, step).files <==> other in files)
    ensures forall other :: other != CacheFilename(dir, url) && other in files ==>
      Resolve(files, dir, url, step).files[other] == files[other]
  {
  }

  /** Resolution keeps the cache free of empty-content records, and then never returns one. */
  lemma ResolveKeepsContent(files: Files, dir: string, url: string, step: Step)
    requires ContentStored(files)
    ensures ContentStored(Resolve(files, dir, url, step).files)
    ensures Resolve(files, dir, url, step).result.Some? ==> Resolve(files, dir, url, step).result.value.content != []
  {
    var path := CacheFilename(dir, url);
    var res := Resolve(files, dir, url, step);
    if Lookup(files, path, step.now).None? && step.fetched.Some? && step.fetched.value.content != [] && step.write != OpenFails {
      var record := Fetched(url, step.fetched.value, step.now);
      assert res.files == files[path := if step.write == Written then Stored(record) else Unreadable];
      forall other | other in res.files && res.files[other].Stored?
        ensures res.files[other].record.content != []
      {
        if other != path { assert res.files[other] == files[other]; }
      }
    }
  }

  /** Colliding keys serve another URL's record: after `p/s` is cached, asking for
      `q/s'` (where s' is s with hyphens replaced) returns the record of `p/s`, whose
      `url` is not the URL asked for when s holds a hyphen. */
  lemma CollisionServesOtherUrl(files: Files, dir: string, p: string, q: string, s: string, record: Record, step: Step)
    requires '/' !in s && '-' in s
    requires record.url == p + "/" + s
    requires Lookup(files, CacheFilename(dir, p + "/" + s), step.now) == Some(record)
    ensures Resolve(files, dir, q + "/" + ReplaceHyphens(s), step).result == Some(record)
    ensures record.url != q + "/" + ReplaceHyphens(s)
  {
    HyphenUnderscoreCollide(dir, p, q, s);
    LastSegmentAfterSlash(p, s);
    ReplaceHyphensKeepsSlashes(s);
    LastSegmentAfterSlash(q, ReplaceHyphens(s));
    ReplaceHyphensSpec(s);
    assert '-' !in ReplaceHyphens(s);
  }
}
