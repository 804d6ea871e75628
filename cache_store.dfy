/** The on-disk cache, seen as a map from file path to what reading that file yields. */
module CacheStore {
  import opened Wrappers
  import opened Freshness

  /** One newsletter: the fields extracted from its page and the time it was scraped. */
  datatype Record = Record(
    url: string,
    title: string,
    date: string,
    content: string,
    author: string,
    scrapedAt: int)

  /** What reading one cache file yields. */
  datatype CacheFile =
    | Unreadable           // the file cannot be opened or does not parse as a JSON object
    | Untimestamped        // it parses, but `scraped_at` is missing or is not an ISO-8601 time
    | Stored(record: Record)

  /** How writing a cache file ends: the file is written; opening it for writing fails and
      leaves it as it was; or the file is opened, which empties it, and writing the JSON
      then fails, which leaves it empty or cut short. */
  datatype WriteOutcome = Written | OpenFails | DumpFails

  /** The files under the cache directory, by path. */
  type Files = map<string, CacheFile>

  /** Loading a cache file: its record when the file exists, parses, carries a timestamp
      and is fresh at `now`; absent in every other case. */
  function Lookup(files: Files, path: string, now: int): Option<Record>
  {
    if path in files && files[path].Stored? && IsFresh(now, files[path].record.scrapedAt)
    then Some(files[path].record)
    else None
  }

  /** Saving a record under `path`: a failed open leaves the files as they were, and a
      failure after the open leaves a file that no longer parses. */
  function Store(files: Files, path: string, record: Record, outcome: WriteOutcome): Files
  {
    match outcome
    case Written => files[path := Stored(record)]
    case OpenFails => files
    case DumpFails => files[path := Unreadable]
  }

  /** Lookup serves a record exactly when a fresh, timestamped, parseable entry exists,
      and then serves that entry; every failure reads as absent. */
  lemma LookupHitIff(files: Files, path: string, now: int)
    ensures Lookup(files, path, now).Some?
        <==> path in files && files[path].Stored? && now - files[path].record.scrapedAt < SecondsPerDay
    ensures Lookup(files, path, now).Some? ==> files[path] == Stored(Lookup(files, path, now).value)
  {
    if path in files && files[path].Stored? {
      FreshIffUnderOneDay(now, files[path].record.scrapedAt);
    }
  }

  /** Put then get: a record saved under `path` is read back unchanged while fresh,
      and not once a day has passed. */
  lemma StoreThenLookup(files: Files, path: string, record: Record, now: int)
    ensures Lookup(Store(files, path, record, Written), path, now)
         == if now - record.scrapedAt < SecondsPerDay then Some(record) else None
  {
    FreshIffUnderOneDay(now, record.scrapedAt);
  }

  /** Saving under `path` touches no other file, whether or not the write fails. */
  lemma StoreOnlyTouchesPath(files: Files, path: string, record: Record, outcome: WriteOutcome, other: string, now: int)
    requires other != path
    ensures var after := Store(files, path, record, outcome);
      && (other in after <==> other in files)
      && (other in files ==> after[other] == files[other])
      && Lookup(after, other, now) == Lookup(files, other, now)
  {
  }

  /** A failed write never serves the record: a failed open keeps what was there, and a
      failure after the open leaves nothing that can be served, at any time. */
  lemma FailedStoreThenLookup(files: Files, path: string, record: Record, now: int)
    ensures Lookup(Store(files, path, record, OpenFails), path, now) == Lookup(files, path, now)
    ensures Lookup(Store(files, path, record, DumpFails), path, now) == None
  {
  }

  /** A stale entry is never served again later without a new save. */
  lemma StaleLookupStaysAbsent(files: Files, path: string, now: int, later: int)
    requires path in files && files[path].Stored?
    requires Lookup(files, path, now).None? && now <= later
    ensures Lookup(files, path, later).None?
  {
    StaleStaysStale(now, later, files[path].record.scrapedAt);
  }
}
