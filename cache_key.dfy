/** Where the cache keeps a URL: a file named after the URL's last path segment. */
module CacheKey {
  /** The text after the last '/' of `url`, or all of `url` when it has no '/':
      the last piece of `url` split on '/'. */
  function LastSegment(url: string): string
    decreases |url|
  {
    if url == [] || url[|url| - 1] == '/' then []
    else LastSegment(url[..|url| - 1]) + [url[|url| - 1]]
  }

  /** The last segment is the longest suffix of `url` without a '/': it is a suffix, it holds
      no '/', and it is either all of `url` or preceded by a '/'. */
  lemma {:induction false} LastSegmentSpec(url: string)
    ensures var seg := LastSegment(url);
      && '/' !in seg
      && |seg| <= |url| && seg == url[|url| - |seg|..]
      && (|seg| < |url| ==> url[|url| - |seg| - 1] == '/')
    decreases |url|
  {
    if url != [] && url[|url| - 1] != '/' {
      var init := url[..|url| - 1];
      LastSegmentSpec(init);
      var prev := LastSegment(init);
      assert url == init + [url[|url| - 1]];
      assert prev + [url[|url| - 1]] == url[|url| - |prev| - 1..];
    }
  }

  /** `s` with every '-' replaced by '_'. */
  function ReplaceHyphens(s: string): string
  {
    if s == [] then []
    else [if s[0] == '-' then '_' else s[0]] + ReplaceHyphens(s[1..])
  }

  /** Replacing hyphens keeps the length and changes exactly the '-' characters, each to '_'. */
  lemma {:induction false} ReplaceHyphensSpec(s: string)
    ensures |ReplaceHyphens(s)| == |s|
    ensures forall i :: 0 <= i < |s| ==> ReplaceHyphens(s)[i] == if s[i] == '-' then '_' else s[i]
  {
    if s != [] {
      ReplaceHyphensSpec(s[1..]);
      var r := ReplaceHyphens(s);
      forall i | 1 <= i < |s| ensures r[i] == if s[i] == '-' then '_' else s[i] {
        assert r[i] == ReplaceHyphens(s[1..])[i - 1];
        assert s[i] == s[1..][i - 1];
      }
    }
  }

  /** The directory part of a path joined under `dir`: `dir` itself when it is empty or
      already ends in '/', otherwise `dir` followed by '/'. */
  function DirPrefix(dir: string): string
  {
    if dir == [] || dir[|dir| - 1] == '/' then dir else dir + "/"
  }

  /** The file name of a URL's cache entry. */
  function EntryName(url: string): string
  {
    ReplaceHyphens(LastSegment(url)) + ".json"
  }

  /** The entry name carries no '-' and no '/', and is the segment's length plus ".json". */
  lemma EntryNameShape(url: string)
    ensures var name := EntryName(url);
      && '-' !in name && '/' !in name
      && |name| == |LastSegment(url)| + 5 && name[|name| - 5..] == ".json"
  {
    LastSegmentSpec(url);
    ReplaceHyphensSpec(LastSegment(url));
    var seg := ReplaceHyphens(LastSegment(url));
    var name := seg + ".json";
    forall i | 0 <= i < |name| ensures name[i] != '-' && name[i] != '/' {
      if i < |seg| {
        assert LastSegment(url)[i] != '/';
      } else {
        assert name[i] == ".json"[i - |seg|];
      }
    }
    assert name[|name| - 5..] == ".json";
  }

  /** The cache file of `url` under the cache directory `dir`. */
  function CacheFilename(dir: string, url: string): string
  {
    DirPrefix(dir) + EntryName(url)
  }

  /** The cache file lies directly inside `dir`, and its name carries no '-'. */
  lemma CacheFileInsideDir(dir: string, url: string)
    ensures var path := CacheFilename(dir, url);
      && |DirPrefix(dir)| <= |path|
      && path[..|DirPrefix(dir)|] == DirPrefix(dir)
      && '/' !in path[|DirPrefix(dir)|..]
      && '-' !in path[|DirPrefix(dir)|..]
  {
    var path := CacheFilename(dir, url);
    EntryNameShape(url);
    assert path[|DirPrefix(dir)|..] == EntryName(url);
  }

  /** Replacing hyphens twice is replacing them once. */
  lemma ReplaceHyphensIdempotent(s: string)
    ensures ReplaceHyphens(ReplaceHyphens(s)) == ReplaceHyphens(s)
  {
    ReplaceHyphensSpec(s);
    ReplaceHyphensSpec(ReplaceHyphens(s));
  }

  /** Replacing hyphens neither adds nor removes a '/'. */
  lemma ReplaceHyphensKeepsSlashes(s: string)
    ensures '/' in ReplaceHyphens(s) <==> '/' in s
  {
    var r := ReplaceHyphens(s);
    ReplaceHyphensSpec(s);
    if '/' in s {
      var i :| 0 <= i < |s| && s[i] == '/';
      assert r[i] == '/';
    }
    if '/' in r {
      var i :| 0 <= i < |r| && r[i] == '/';
      assert s[i] == '/';
    }
  }

  /** A string with no '/' is its own last segment. */
  lemma {:induction false} LastSegmentOfSegment(s: string)
    requires '/' !in s
    ensures LastSegment(s) == s
  {
    if s != [] {
      var init := s[..|s| - 1];
      assert '/' !in init by {
        forall i | 0 <= i < |init| ensures init[i] != '/' { assert init[i] == s[i]; }
      }
      LastSegmentOfSegment(init);
      assert s == init + [s[|s| - 1]];
    }
  }

  /** The last segment of `prefix + "/" + s`, for `s` without '/', is `s`. */
  lemma {:induction false} LastSegmentAfterSlash(prefix: string, s: string)
    requires '/' !in s
    ensures LastSegment(prefix + "/" + s) == s
  {
    if s != [] {
      var init := s[..|s| - 1];
      assert '/' !in init by {
        forall i | 0 <= i < |init| ensures init[i] != '/' { assert init[i] == s[i]; }
      }
      LastSegmentAfterSlash(prefix, init);
      var url := prefix + "/" + s;
      assert url[..|url| - 1] == prefix + "/" + init;
      assert s == init + [s[|s| - 1]];
    }
  }

  /** Two URLs share a cache file exactly when their last segments agree once hyphens
      are replaced: the key depends on nothing else in the URL. */
  lemma SameFileIff(dir: string, u: string, v: string)
    ensures CacheFilename(dir, u) == CacheFilename(dir, v)
        <==> ReplaceHyphens(LastSegment(u)) == ReplaceHyphens(LastSegment(v))
  {
    var p := DirPrefix(dir);
    if CacheFilename(dir, u) == CacheFilename(dir, v) {
      var a, b := EntryName(u), EntryName(v);
      EntryNameShape(u);
      EntryNameShape(v);
      assert a == (p + a)[|p|..];
      assert b == (p + b)[|p|..];
      assert ReplaceHyphens(LastSegment(u)) == a[..|a| - 5];
      assert ReplaceHyphens(LastSegment(v)) == b[..|b| - 5];
    }
  }

  /** `.../a-b` and `.../a_b` (any prefixes) share a cache file: a known limitation of the key. */
  lemma HyphenUnderscoreCollide(dir: string, p: string, q: string, s: string)
    requires '/' !in s
    ensures CacheFilename(dir, p + "/" + s) == CacheFilename(dir, q + "/" + ReplaceHyphens(s))
  {
    ReplaceHyphensKeepsSlashes(s);
    LastSegmentAfterSlash(p, s);
    LastSegmentAfterSlash(q, ReplaceHyphens(s));
    ReplaceHyphensIdempotent(s);
  }

  /** Every URL ending in '/' maps to the same file, `.json` inside the cache directory. */
  lemma TrailingSlashCollide(dir: string, u: string)
    requires |u| > 0 && u[|u| - 1] == '/'
    ensures CacheFilename(dir, u) == DirPrefix(dir) + ".json"
  {
  }
}
