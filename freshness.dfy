/** The freshness window of the cache: an entry is served while it is less than one whole day old. */
module Freshness {
  /** Timestamps are whole seconds; a day has this many of them. */
  const SecondsPerDay: int := 86400

  /** Whole days from `scrapedAt` to `now`, rounded toward negative infinity, as the
      `days` component of a time difference is. */
  function AgeInDays(now: int, scrapedAt: int): int
  {
    (now - scrapedAt) / 86400
  }

  /** The age in days is the floor of the elapsed seconds over a day, also for negative
      differences (a timestamp in the future). */
  lemma AgeInDaysIsFloor(now: int, scrapedAt: int)
    ensures var days := AgeInDays(now, scrapedAt);
      days * SecondsPerDay <= now - scrapedAt < (days + 1) * SecondsPerDay
  {
  }

  /** The cache's freshness test: fewer than one whole day has elapsed. */
  predicate IsFresh(now: int, scrapedAt: int)
  {
    AgeInDays(now, scrapedAt) < 1
  }

  /** Day granularity amounts to a strict 24-hour window, and a timestamp in the future is fresh. */
  lemma FreshIffUnderOneDay(now: int, scrapedAt: int)
    ensures IsFresh(now, scrapedAt) <==> now - scrapedAt < SecondsPerDay
    ensures scrapedAt >= now ==> IsFresh(now, scrapedAt)
  {
    AgeInDaysIsFloor(now, scrapedAt);
  }

  /** An entry 23h59m old is fresh; one exactly 24h or 25h old is not. */
  lemma FreshnessBoundary(now: int)
    ensures IsFresh(now, now - (23 * 3600 + 59 * 60))
    ensures !IsFresh(now, now - 24 * 3600)
    ensures !IsFresh(now, now - 25 * 3600)
  {
    FreshIffUnderOneDay(now, now - (23 * 3600 + 59 * 60));
    FreshIffUnderOneDay(now, now - 24 * 3600);
    FreshIffUnderOneDay(now, now - 25 * 3600);
  }

  /** Once stale, an entry stays stale as time goes on. */
  lemma StaleStaysStale(now: int, later: int, scrapedAt: int)
    requires now <= later && !IsFresh(now, scrapedAt)
    ensures !IsFresh(later, scrapedAt)
  {
    FreshIffUnderOneDay(now, scrapedAt);
    FreshIffUnderOneDay(later, scrapedAt);
  }
}
