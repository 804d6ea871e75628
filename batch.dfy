/** The meaning of a batch: URLs resolved in input order, each against the cache the earlier
    ones left, with progress reports and pauses interleaved. */
module Batch {
  import opened Wrappers
  import opened CacheKey
  import opened CacheStore
  import opened Scrape

  /** Every URL's outcome, in input order, and the cache at the end. */
  datatype Trace = Trace(outcomes: seq<Option<Record>>, files: Files)

  /** What a batch run shows the outside world, besides its result: the scrape of URL `index`
      (1-based), a progress report `(done, total)` and a pause between two URLs. */
  datatype Event = Attempt(index: nat) | Progress(done: nat, total: nat) | Pause

  /** Resolving `urls` one after another from the cache `files`. */
  function Run(files: Files, dir: string, urls: seq<string>, steps: seq<Step>): (trace: Trace)
    requires |steps| == |urls|
    ensures |trace.outcomes| == |urls|
    decreases |urls|
  {
    if urls == [] then Trace([], files)
    else
      var n := |urls| - 1;
      var before := Run(files, dir, urls[..n], steps[..n]);
      var last := Resolve(before.files, dir, urls[n], steps[n]);
      Trace(before.outcomes + [last.result], last.files)
  }

  /** The records among `outcomes`, in order; absent outcomes are dropped. */
  function Somes(outcomes: seq<Option<Record>>): seq<Record>
  {
    if outcomes == [] then []
    else
      var n := |outcomes| - 1;
      Somes(outcomes[..n]) + (if outcomes[n].Some? then [outcomes[n].value] else [])
  }

  /** The events of a batch of `total` URLs once the first `processed` are done. */
  function Events(total: nat, processed: nat, reporting: bool): seq<Event>
    requires processed <= total
  {
    if processed == 0 then []
    else Events(total, processed - 1, reporting) + [Attempt(processed)] + AfterUrl(total, processed, reporting)
  }

  /** What follows the scrape of URL `processed`: its progress report when a callback is
      given, then a pause unless it is the last URL. */
  function AfterUrl(total: nat, processed: nat, reporting: bool): seq<Event>
  {
    (if reporting then [Progress(processed, total)] else []) + (if processed < total then [Pause] else [])
  }

  /** The arguments of the progress reports among `events`, in order. */
  function Reports(events: seq<Event>): seq<(nat, nat)>
  {
    if events == [] then []
    else
      var n := |events| - 1;
      Reports(events[..n]) + (if events[n].Progress? then [(events[n].done, events[n].total)] else [])
  }

  /** The number of pauses among `events`. */
  function Pauses(events: seq<Event>): nat
  {
    if events == [] then 0
    else Pauses(events[..|events| - 1]) + (if events[|events| - 1] == Pause then 1 else 0)
  }

  /** One more URL resolved: if the first `i - 1` URLs left `outcomes` and the cache
      `before`, and URL `i` resolved to `result` leaving `after`, the first `i` URLs leave
      `outcomes + [result]` and `after`. */
  lemma RunStep(files: Files, dir: string, urls: seq<string>, steps: seq<Step>, i: nat,
                outcomes: seq<Option<Record>>, before: Files, result: Option<Record>, after: Files)
    requires |steps| == |urls| && 1 <= i <= |urls|
    requires Run(files, dir, urls[..i - 1], steps[..i - 1]) == Trace(outcomes, before)
    requires Resolution(result, after) == Resolve(before, dir, urls[i - 1], steps[i - 1])
    ensures Run(files, dir, urls[..i], steps[..i]) == Trace(outcomes + [result], after)
  {
    assert urls[..i] == urls[..i - 1] + [urls[i - 1]];
    assert steps[..i] == steps[..i - 1] + [steps[i - 1]];
    RunExtend(files, dir, urls[..i - 1], steps[..i - 1], urls[i - 1], steps[i - 1]);
  }

  /** Filtering one more outcome appends its record, if it has one. */
  lemma SomesStep(outcomes: seq<Option<Record>>, result: Option<Record>)
    ensures Somes(outcomes + [result]) == Somes(outcomes) + (if result.Some? then [result.value] else [])
  {
    assert (outcomes + [result])[..|outcomes|] == outcomes;
  }

  /** The filter keeps the successes and only them, never more than there were outcomes. */
  lemma {:induction false} SomesSelectsSuccesses(outcomes: seq<Option<Record>>, r: Record)
    ensures |Somes(outcomes)| <= |outcomes|
    ensures r in Somes(outcomes) <==> Some(r) in outcomes
  {
    if outcomes != [] {
      var n := |outcomes| - 1;
      SomesSelectsSuccesses(outcomes[..n], r);
      assert outcomes == outcomes[..n] + [outcomes[n]];
    }
  }

  /** The filter keeps input order: filtering a concatenation concatenates the filtered parts. */
  lemma {:induction false} SomesAppend(a: seq<Option<Record>>, b: seq<Option<Record>>)
    ensures Somes(a + b) == Somes(a) + Somes(b)
  {
    if b != [] {
      var n := |b| - 1;
      SomesAppend(a, b[..n]);
      var ab := a + b;
      assert ab[..|ab| - 1] == a + b[..n];
      assert ab[|ab| - 1] == b[n];
      assert Somes(ab) == Somes(a + b[..n]) + (if b[n].Some? then [b[n].value] else []);
      assert Somes(b) == Somes(b[..n]) + (if b[n].Some? then [b[n].value] else []);
    } else {
      assert a + b == a;
    }
  }

  /** Running a prefix of the batch gives a prefix of its outcomes. */
  lemma {:induction false} RunPrefix(files: Files, dir: string, urls: seq<string>, steps: seq<Step>, k: nat)
    requires |steps| == |urls| && k <= |urls|
    ensures Run(files, dir, urls[..k], steps[..k]).outcomes == Run(files, dir, urls, steps).outcomes[..k]
    decreases |urls|
  {
    if k < |urls| {
      var n := |urls| - 1;
      RunPrefix(files, dir, urls[..n], steps[..n], k);
      assert urls[..n][..k] == urls[..k];
      assert steps[..n][..k] == steps[..k];
    } else {
      assert urls[..k] == urls && steps[..k] == steps;
    }
  }

  /** The outcome of URL `k` is the single-URL resolution of `urls[k]` against the cache
      as the URLs before it left it. */
  lemma RunOutcomeAt(files: Files, dir: string, urls: seq<string>, steps: seq<Step>, k: nat)
    requires |steps| == |urls| && k < |urls|
    ensures Run(files, dir, urls, steps).outcomes[k]
         == Resolve(Run(files, dir, urls[..k], steps[..k]).files, dir, urls[k], steps[k]).result
  {
    RunPrefix(files, dir, urls, steps, k + 1);
    var prefix, prefixSteps := urls[..k + 1], steps[..k + 1];
    assert prefix[..k] == urls[..k] && prefixSteps[..k] == steps[..k];
    assert prefix[k] == urls[k] && prefixSteps[k] == steps[k];
    var before := Run(files, dir, urls[..k], steps[..k]);
    var t := Run(files, dir, prefix, prefixSteps);
    assert t.outcomes == before.outcomes + [Resolve(before.files, dir, urls[k], steps[k]).result];
    assert Run(files, dir, urls, steps).outcomes[k] == t.outcomes[k];
  }

  /** A batch never stores or returns a record with empty content, given a cache that holds none. */
  lemma {:induction false} RunKeepsContent(files: Files, dir: string, urls: seq<string>, steps: seq<Step>)
    requires |steps| == |urls| && ContentStored(files)
    ensures ContentStored(Run(files, dir, urls, steps).files)
    ensures forall r :: r in Somes(Run(files, dir, urls, steps).outcomes) ==> r.content != []
    decreases |urls|
  {
    if urls != [] {
      var n := |urls| - 1;
      RunKeepsContent(files, dir, urls[..n], steps[..n]);
      var before := Run(files, dir, urls[..n], steps[..n]);
      ResolveKeepsContent(before.files, dir, urls[n], steps[n]);
      var outcomes := Run(files, dir, urls, steps).outcomes;
      assert outcomes[..n] == before.outcomes;
    }
  }

  /** The worked batch: the first URL is a fresh cache hit, the second misses and its fetch
      fails, the third misses and is fetched with content; the result is the first and the
      third record, in that order. */
  lemma MixedBatch(files: Files, dir: string, u1: string, u2: string, u3: string, s1: Step, s2: Step, s3: Step, page: Page)
    requires Lookup(files, CacheFilename(dir, u1), s1.now).Some?
    requires Lookup(files, CacheFilename(dir, u2), s2.now).None? && s2.fetched.None?
    requires Lookup(files, CacheFilename(dir, u3), s3.now).None? && s3.fetched == Some(page) && page.content != []
    ensures Somes(Run(files, dir, [u1, u2, u3], [s1, s2, s3]).outcomes)
         == [Lookup(files, CacheFilename(dir, u1), s1.now).value, Fetched(u3, page, s3.now)]
  {
    var r1 := Lookup(files, CacheFilename(dir, u1), s1.now);
    MixedBatchOutcomes(files, dir, u1, u2, u3, s1, s2, s3, page);
    SomesOfThree(r1, None, Some(Fetched(u3, page, s3.now)));
  }

  /** The outcomes of the worked batch, URL by URL. */
  lemma MixedBatchOutcomes(files: Files, dir: string, u1: string, u2: string, u3: string, s1: Step, s2: Step, s3: Step, page: Page)
    requires Lookup(files, CacheFilename(dir, u1), s1.now).Some?
    requires Lookup(files, CacheFilename(dir, u2), s2.now).None? && s2.fetched.None?
    requires Lookup(files, CacheFilename(dir, u3), s3.now).None? && s3.fetched == Some(page) && page.content != []
    ensures Run(files, dir, [u1, u2, u3], [s1, s2, s3]).outcomes
         == [Lookup(files, CacheFilename(dir, u1), s1.now), None, Some(Fetched(u3, page, s3.now))]
  {
    var r1 := Lookup(files, CacheFilename(dir, u1), s1.now);
    assert Resolve(files, dir, u1, s1) == Resolution(r1, files) by {
      CacheHitServedUnchanged(files, dir, u1, s1, s1);
    }
    assert Resolve(files, dir, u2, s2) == Resolution(None, files) by {
      FailedFetchAbsorbed(files, dir, u2, s2);
    }
    assert Resolve(files, dir, u3, s3).result == Some(Fetched(u3, page, s3.now)) by {
      FetchedRecordReturned(files, dir, u3, s3, page);
    }
    RunOfThree(files, dir, u1, u2, u3, s1, s2, s3);
  }

  /** Three URLs resolve one after another, each against the cache the previous one left. */
  lemma RunOfThree(files: Files, dir: string, u1: string, u2: string, u3: string, s1: Step, s2: Step, s3: Step)
    ensures var first := Resolve(files, dir, u1, s1);
      var second := Resolve(first.files, dir, u2, s2);
      var third := Resolve(second.files, dir, u3, s3);
      Run(files, dir, [u1, u2, u3], [s1, s2, s3]) == Trace([first.result, second.result, third.result], third.files)
  {
    RunExtend(files, dir, [], [], u1, s1);
    assert [] + [u1] == [u1] && [] + [s1] == [s1];
    RunExtend(files, dir, [u1], [s1], u2, s2);
    assert [u1] + [u2] == [u1, u2] && [s1] + [s2] == [s1, s2];
    RunExtend(files, dir, [u1, u2], [s1, s2], u3, s3);
    assert [u1, u2] + [u3] == [u1, u2, u3] && [s1, s2] + [s3] == [s1, s2, s3];
    var first := Resolve(files, dir, u1, s1);
    var second := Resolve(first.files, dir, u2, s2);
    assert [] + [first.result] == [first.result];
    assert [first.result] + [second.result] == [first.result, second.result];
  }

  /** Filtering three outcomes keeps each one's record, in order. */
  lemma SomesOfThree(a: Option<Record>, b: Option<Record>, c: Option<Record>)
    ensures Somes([a, b, c]) == (if a.Some? then [a.value] else []) + (if b.Some? then [b.value] else [])
                                + (if c.Some? then [c.value] else [])
  {
    SomesStep([], a);
    SomesStep([a], b);
    SomesStep([a, b], c);
    assert [] + [a] == [a] && [a] + [b] == [a, b] && [a, b] + [c] == [a, b, c];
  }

  /** Running one more URL extends the trace by that URL's resolution. */
  lemma RunExtend(files: Files, dir: string, urls: seq<string>, steps: seq<Step>, url: string, step: Step)
    requires |steps| == |urls|
    ensures var before := Run(files, dir, urls, steps);
      var last := Resolve(before.files, dir, url, step);
      Run(files, dir, urls + [url], steps + [step]) == Trace(before.outcomes + [last.result], last.files)
  {
    assert (urls + [url])[..|urls|] == urls;
    assert (steps + [step])[..|steps|] == steps;
  }

  /** The progress reports are `(1, total), (2, total), ...` in order, one per URL processed,
      whatever the URLs' outcomes; there are none when no callback is given. */
  lemma {:induction false} ReportsInOrder(total: nat, processed: nat, reporting: bool)
    requires processed <= total
    ensures |Reports(Events(total, processed, reporting))| == if reporting then processed else 0
    ensures forall j :: 0 <= j < |Reports(Events(total, processed, reporting))| ==>
              Reports(Events(total, processed, reporting))[j] == (j + 1, total)
  {
    if processed > 0 {
      ReportsInOrder(total, processed - 1, reporting);
      ReportsStep(total, processed, reporting);
    }
  }

  /** Processing URL `processed` adds its report, and only it, to the reports so far. */
  lemma ReportsStep(total: nat, processed: nat, reporting: bool)
    requires 0 < processed <= total
    ensures Reports(Events(total, processed, reporting))
         == Reports(Events(total, processed - 1, reporting)) + if reporting then [(processed, total)] else []
  {
    var before := Events(total, processed - 1, reporting);
    var attempted := before + [Attempt(processed)];
    assert Reports(attempted) == Reports(before) by { assert attempted[..|attempted| - 1] == before; }
    ReportsAppend(attempted, AfterUrl(total, processed, reporting));
    AfterUrlReports(total, processed, reporting);
  }

  /** What follows a URL holds its progress report exactly when a callback is given. */
  lemma AfterUrlReports(total: nat, processed: nat, reporting: bool)
    ensures Reports(AfterUrl(total, processed, reporting)) == if reporting then [(processed, total)] else []
  {
    var progress: seq<Event> := if reporting then [Progress(processed, total)] else [];
    var pause: seq<Event> := if processed < total then [Pause] else [];
    ReportsAppend(progress, pause);
    assert Reports(pause) == [] by { if processed < total { assert pause[..0] == []; } }
    if reporting { assert progress[..0] == []; }
  }

  lemma {:induction false} ReportsAppend(a: seq<Event>, b: seq<Event>)
    ensures Reports(a + b) == Reports(a) + Reports(b)
  {
    if b != [] {
      var n := |b| - 1;
      ReportsAppend(a, b[..n]);
      var ab := a + b;
      assert ab[..|ab| - 1] == a + b[..n];
      assert ab[|ab| - 1] == b[n];
      assert Reports(ab) == Reports(a + b[..n]) + (if b[n].Progress? then [(b[n].done, b[n].total)] else []);
      assert Reports(b) == Reports(b[..n]) + (if b[n].Progress? then [(b[n].done, b[n].total)] else []);
    } else {
      assert a + b == a;
    }
  }

  lemma {:induction false} PausesAppend(a: seq<Event>, b: seq<Event>)
    ensures Pauses(a + b) == Pauses(a) + Pauses(b)
  {
    if b != [] {
      var n := |b| - 1;
      PausesAppend(a, b[..n]);
      var ab := a + b;
      assert ab[..|ab| - 1] == a + b[..n];
      assert ab[|ab| - 1] == b[n];
      assert Pauses(ab) == Pauses(a + b[..n]) + (if b[n] == Pause then 1 else 0);
      assert Pauses(b) == Pauses(b[..n]) + (if b[n] == Pause then 1 else 0);
    } else {
      assert a + b == a;
    }
  }

  /** What follows a URL holds one pause exactly when another URL comes after it. */
  lemma AfterUrlPauses(total: nat, processed: nat, reporting: bool)
    ensures Pauses(AfterUrl(total, processed, reporting)) == if processed < total then 1 else 0
  {
    var progress: seq<Event> := if reporting then [Progress(processed, total)] else [];
    var pause: seq<Event> := if processed < total then [Pause] else [];
    PausesAppend(progress, pause);
    if reporting { assert progress[..0] == []; }
    if processed < total { assert pause[..0] == []; }
  }

  /** A batch of `total` URLs pauses `total - 1` times: once after every URL but the last. */
  lemma {:induction false} PausesBetweenUrls(total: nat, processed: nat, reporting: bool)
    requires processed <= total
    ensures Pauses(Events(total, processed, reporting))
         == if processed == total && processed > 0 then processed - 1 else processed
  {
    if processed > 0 {
      PausesBetweenUrls(total, processed - 1, reporting);
      PausesStep(total, processed, reporting);
    }
  }

  /** Processing URL `processed` adds one pause, unless it is the last URL. */
  lemma PausesStep(total: nat, processed: nat, reporting: bool)
    requires 0 < processed <= total
    ensures Pauses(Events(total, processed, reporting))
         == Pauses(Events(total, processed - 1, reporting)) + if processed < total then 1 else 0
  {
    var before := Events(total, processed - 1, reporting);
    var attempted := before + [Attempt(processed)];
    assert Pauses(attempted) == Pauses(before) by { assert attempted[..|attempted| - 1] == before; }
    PausesAppend(attempted, AfterUrl(total, processed, reporting));
    AfterUrlPauses(total, processed, reporting);
  }

  /** The last thing a non-empty batch does is not a pause. */
  lemma NoPauseAfterLastUrl(total: nat, reporting: bool)
    requires total > 0
    ensures var events := Events(total, total, reporting);
      |events| > 0 && events[|events| - 1] != Pause
  {
  }
}
