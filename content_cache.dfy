/** The on-disk module cache and the `load` hook. The three loader variants
    carry the same `load` and the same `normalize` (up to the cache root), so
    they are modelled once here. The disk is a map from path to file text. */
module ContentCache {
  import opened Wrappers
  import opened Strings
  import Host

  // ---------------------------------------------------------------------
  // Cache key

  /** The characters that `origin.replace(/[@:\/]+/g, "+")` collapses. */
  predicate IsSeparator(c: char) {
    c == '@' || c == ':' || c == '/'
  }

  /** The string after its leading run of separators. */
  function SkipSeparators(s: string): (r: string)
    ensures |r| <= |s| && (|r| > 0 ==> r[|r| - 1] == s[|s| - 1])
    ensures r == [] || !IsSeparator(r[0])
    ensures |s| > 0 && !IsSeparator(s[|s| - 1]) ==> |r| > 0
  {
    if s != [] && IsSeparator(s[0]) then SkipSeparators(s[1..]) else s
  }

  /** The origin with every maximal run of '@', ':' and '/' replaced by one '+'. */
  function Sanitise(s: string): string
    decreases |s|
  {
    if s == [] then []
    else if IsSeparator(s[0]) then "+" + Sanitise(SkipSeparators(s[1..]))
    else [s[0]] + Sanitise(s[1..])
  }

  /** The sanitised origin is a single path segment: it holds no '@', ':' or '/'. */
  lemma {:induction false} SanitiseHasNoSeparators(s: string)
    ensures forall i :: 0 <= i < |Sanitise(s)| ==> !IsSeparator(Sanitise(s)[i])
    decreases |s|
  {
    if s != [] {
      if IsSeparator(s[0]) {
        SanitiseHasNoSeparators(SkipSeparators(s[1..]));
      } else {
        SanitiseHasNoSeparators(s[1..]);
      }
    }
  }

  /** `url.substring(origin.length)`: what is left after the origin's length. */
  function Remainder(url: string, origin: string): (r: string)
    ensures StartsWith(url, origin) ==> url == origin + r
  {
    if |origin| <= |url| then url[|origin|..] else ""
  }

  /** `normalize(url)`: cacheRoot / sanitised origin / sha1 of the rest of the
      URL (path, query and fragment). Fails when `new URL(url)` throws. */
  function Normalize(url: string, root: string, host: Host.Host): (r: Result<string, Host.UrlError>)
    ensures r.Failure? <==> host.originOf(url).Failure?
    ensures r.Failure? ==> r.error == host.originOf(url).error
  {
    match host.originOf(url)
    case Failure(e) => Failure(e)
    case Success(origin) => Success(host.joinPath(root, Sanitise(origin), host.sha1(Remainder(url, origin))))
  }

  /** A separator-free origin is kept as it is. */
  lemma {:induction false} SanitiseKeepsPlain(s: string)
    requires forall i :: 0 <= i < |s| ==> !IsSeparator(s[i])
    ensures Sanitise(s) == s
  {
    if s != [] {
      SanitiseKeepsPlain(s[1..]);
    }
  }

  /** Skipping separators is not disturbed by what follows a non-separator. */
  lemma {:induction false} SkipSeparatorsAppend(a: string, b: string)
    requires |a| > 0 && !IsSeparator(a[|a| - 1])
    ensures SkipSeparators(a + b) == SkipSeparators(a) + b
  {
    if IsSeparator(a[0]) {
      assert (a + b)[1..] == a[1..] + b;
      SkipSeparatorsAppend(a[1..], b);
    }
  }

  /** No run of separators straddles a boundary after a non-separator, so the
      two sides are sanitised independently. */
  lemma {:induction false} SanitiseAppend(p: string, x: string)
    requires p == [] || !IsSeparator(p[|p| - 1])
    ensures Sanitise(p + x) == Sanitise(p) + Sanitise(x)
    decreases |p|
  {
    if p == [] {
      assert p + x == x;
    } else if !IsSeparator(p[0]) {
      SanitiseAppendPlain(p, x);
    } else {
      SanitiseAppendRun(p, x);
    }
  }

  /** The case of `SanitiseAppend` where `p` starts with a plain character. */
  lemma {:induction false} SanitiseAppendPlain(p: string, x: string)
    requires p != [] && !IsSeparator(p[0]) && !IsSeparator(p[|p| - 1])
    ensures Sanitise(p + x) == Sanitise(p) + Sanitise(x)
    decreases |p|, 0
  {
    var a, b := Sanitise(p[1..]), Sanitise(x);
    assert Sanitise(p + x) == [p[0]] + Sanitise(p[1..] + x) by {
      assert (p + x)[0] == p[0] && (p + x)[1..] == p[1..] + x;
    }
    assert Sanitise(p[1..] + x) == a + b by {
      assert p[1..] == [] || p[1..][|p[1..]| - 1] == p[|p| - 1];
      SanitiseAppend(p[1..], x);
    }
    assert [p[0]] + (a + b) == ([p[0]] + a) + b;
  }

  /** The case of `SanitiseAppend` where `p` starts with a separator run. */
  lemma {:induction false} SanitiseAppendRun(p: string, x: string)
    requires p != [] && IsSeparator(p[0]) && !IsSeparator(p[|p| - 1])
    ensures Sanitise(p + x) == Sanitise(p) + Sanitise(x)
    decreases |p|, 0
  {
    var rest := p[1..];
    assert |rest| > 0 && rest[|rest| - 1] == p[|p| - 1];
    var q := SkipSeparators(rest);
    var a, b := Sanitise(q), Sanitise(x);
    assert Sanitise(p + x) == "+" + Sanitise(q + x) by {
      assert (p + x)[0] == p[0] && (p + x)[1..] == rest + x;
      SkipSeparatorsAppend(rest, x);
    }
    assert Sanitise(q + x) == a + b by {
      assert q[|q| - 1] == rest[|rest| - 1];
      SanitiseAppend(q, x);
    }
    assert Sanitise(p) == "+" + a;
    assert "+" + (a + b) == ("+" + a) + b;
  }

  /** A whole run of separators before a non-separator becomes a single '+'. */
  lemma {:induction false} SanitiseRun(run: string, q: string)
    requires |run| > 0 && forall i :: 0 <= i < |run| ==> IsSeparator(run[i])
    requires q == [] || !IsSeparator(q[0])
    ensures Sanitise(run + q) == "+" + Sanitise(q)
  {
    var tail := run[1..];
    assert forall i :: 0 <= i < |tail| ==> IsSeparator(tail[i]) by {
      forall i | 0 <= i < |tail| ensures IsSeparator(tail[i]) {
        assert tail[i] == run[i + 1];
      }
    }
    SkipRun(tail, q);
    var s := run + q;
    assert s[0] == run[0] && s[1..] == tail + q;
    assert Sanitise(s) == "+" + Sanitise(SkipSeparators(s[1..]));
  }

  lemma {:induction false} SkipRun(run: string, q: string)
    requires forall i :: 0 <= i < |run| ==> IsSeparator(run[i])
    requires q == [] || !IsSeparator(q[0])
    ensures SkipSeparators(run + q) == q
  {
    if run == [] {
      assert run + q == q;
    } else {
      assert (run + q)[1..] == run[1..] + q;
      SkipRun(run[1..], q);
    }
  }

  /** The file name hashes everything after the origin, query and fragment
      included, and two different URLs of one origin hash different strings:
      any collision between them is one of SHA-1. */
  lemma NormalizeHashesRemainder(url1: string, url2: string, origin: string, rest1: string, rest2: string,
                                 root: string, host: Host.Host)
    requires url1 == origin + rest1 && url2 == origin + rest2
    requires host.originOf(url1) == Success(origin) && host.originOf(url2) == Success(origin)
    ensures Normalize(url1, root, host) == Success(host.joinPath(root, Sanitise(origin), host.sha1(rest1)))
    ensures url1 != url2 ==> Remainder(url1, origin) != Remainder(url2, origin)
  {
    assert url1[|origin|..] == rest1;
    assert url2[|origin|..] == rest2;
  }

  // ---------------------------------------------------------------------
  // Format detection

  /** One of the three ESM markers occurs in the source text. */
  predicate HasEsmSyntax(source: string) {
    Contains(source, "export ") || Contains(source, "export{") || Contains(source, "import ")
  }

  /** The `file://` URL of the absolute cache path. */
  function FileUrl(cachePath: string, host: Host.Host): string {
    "file://" + host.absolutePath(cachePath)
  }

  /** The format and response URL after detection. */
  datatype Detected = Detected(format: Option<string>, responseURL: Option<string>)

  /** Source text without ESM markers becomes "commonjs", served from its
      cache file; anything else keeps the declared format and no response URL. */
  function DetectFormat(declared: Option<string>, source: string, cachePath: string, host: Host.Host): (d: Detected)
    ensures d.responseURL.Some? <==> !HasEsmSyntax(source)
    ensures !HasEsmSyntax(source) ==> d == Detected(Some("commonjs"), Some(FileUrl(cachePath, host)))
    ensures HasEsmSyntax(source) ==> d == Detected(declared, None)
    ensures d.format == Some("commonjs") <==> !HasEsmSyntax(source) || declared == Some("commonjs")
  {
    if !HasEsmSyntax(source) then Detected(Some("commonjs"), Some(FileUrl(cachePath, host)))
    else Detected(declared, None)
  }

  /** "export const x = 1" keeps its declared format. */
  lemma EsmSourceKeepsFormat(cachePath: string, host: Host.Host)
    ensures DetectFormat(Some("module"), "export const x = 1", cachePath, host) == Detected(Some("module"), None)
  {
    var s := "export const x = 1";
    assert s[..7] == "export ";
    assert Contains(s, "export ");
  }

  /** "module.exports = {}" has no ESM marker: it becomes "commonjs", served
      from its cache file, whatever format the host loader declared. */
  lemma CommonJsSourceBecomesCommonJs(cachePath: string, host: Host.Host)
    ensures DetectFormat(Some("module"), "module.exports = {}", cachePath, host)
            == Detected(Some("commonjs"), Some(FileUrl(cachePath, host)))
  {
    var s := "module.exports = {}";
    MarkerAbsent(s, "export ", 1);
    MarkerAbsent(s, "export{", 1);
    MarkerAbsent(s, "import ", 0);
  }

  /** In "module.exports = {}" the only 'x' is followed by "ports" and there
      is no 'i', so a marker whose character `j` is one of them, and which
      does not read "exports", occurs nowhere. */
  lemma MarkerAbsent(s: string, t: string, j: int)
    requires s == "module.exports = {}"
    requires |t| == 7 && 0 <= j < 2 && (t[j] == 'i' || (j == 1 && t[1] == 'x' && t[6] != 's'))
    ensures !Contains(s, t)
  {
    forall i | 0 <= i <= |s| - 7 ensures !OccursAt(s, t, i) {
      var w := s[i..i + 7];
      if i == 7 && t[j] == 'x' {
        assert w[6] == s[13] == 's';
      } else {
        assert w[j] == s[i + j];
        assert s[i + j] != 'i' && (s[i + j] == 'x' ==> i + j == 8);
      }
    }
    ContainsIff(s, t);
  }

  // ---------------------------------------------------------------------
  // Sidecar record and the load hook

  /** `{...context, format, url, responseURL}` as `JSON.stringify` sees it:
      the three later members override the context's, and an undefined one
      is left out. */
  function SidecarRecord(context: Host.Record, format: Option<string>, url: string, responseURL: Option<string>)
    : (r: Host.Record)
    ensures "format" in r <==> format.Some?
    ensures format.Some? ==> r["format"] == format.value
    ensures "url" in r && r["url"] == url
    ensures "responseURL" in r <==> responseURL.Some?
    ensures responseURL.Some? ==> r["responseURL"] == responseURL.value
    ensures forall k :: k in context && k != "format" && k != "url" && k != "responseURL" ==>
              k in r && r[k] == context[k]
    ensures forall k :: k in r ==> k in context || k == "format" || k == "url" || k == "responseURL"
  {
    var base := context - {"format", "url", "responseURL"};
    var withFormat := if format.Some? then base["format" := format.value] else base;
    var withUrl := withFormat["url" := url];
    if responseURL.Some? then withUrl["responseURL" := responseURL.value] else withUrl
  }

  /** A record's string member, or undefined. */
  function Field(r: Host.Record, key: string): Option<string> {
    if key in r then Some(r[key]) else None
  }

  function SidecarPath(cachePath: string): string {
    cachePath + ".meta.json"
  }

  /** What `load` resolves to. */
  datatype LoadResult = LoadResult(format: Option<string>, source: string, responseURL: Option<string>,
                                   shortCircuit: bool)

  datatype LoadError =
    | BadUrl(cause: Host.UrlError)
      /** The content file exists but its sidecar does not (ENOENT). */
    | MissingSidecar(path: string)
      /** The sidecar is not a JSON object. */
    | UnreadableSidecar(path: string)

  /** The host's `defaultLoad(url, context)`. */
  type DefaultLoad = (string, Host.Record) -> LoadResult

  /** The outcome of one `load`: its result and the files afterwards. */
  datatype LoadOutcome = LoadOutcome(result: Result<LoadResult, LoadError>, files: map<string, string>)

  /** The write-through: content file first, then its sidecar. */
  function WriteEntry(files: map<string, string>, cachePath: string, source: string, sidecar: string)
    : (r: map<string, string>)
    ensures r.Keys == files.Keys + {cachePath, SidecarPath(cachePath)}
    ensures r[cachePath] == source && r[SidecarPath(cachePath)] == sidecar
    ensures forall p :: p in files && p != cachePath && p != SidecarPath(cachePath) ==> r[p] == files[p]
  {
    files[cachePath := source][SidecarPath(cachePath) := sidecar]
  }

  /** One `load` of `url` against the files `files`. A hit is decided by the
      content file alone. */
  function LoadStep(files: map<string, string>, url: string, context: Host.Record, root: string,
                    host: Host.Host, defaultLoad: DefaultLoad): LoadOutcome
  {
    if !StartsWith(url, "https://") then LoadOutcome(Success(defaultLoad(url, context)), files)
    else match Normalize(url, root, host)
      case Failure(e) => LoadOutcome(Failure(BadUrl(e)), files)
      case Success(cachePath) =>
        if cachePath != "" && cachePath in files then
          var meta := SidecarPath(cachePath);
          if meta !in files then LoadOutcome(Failure(MissingSidecar(meta)), files)
          else match host.decodeJson(files[meta])
            case None => LoadOutcome(Failure(UnreadableSidecar(meta)), files)
            case Some(r) =>
              LoadOutcome(Success(LoadResult(Field(r, "format"), files[cachePath], Field(r, "responseURL"), true)),
                          files)
        else
          var loaded := defaultLoad(url, context);
          var d := DetectFormat(loaded.format, loaded.source, cachePath, host);
          var record := SidecarRecord(context, d.format, url, d.responseURL);
          LoadOutcome(Success(LoadResult(d.format, loaded.source, d.responseURL, false)),
                      WriteEntry(files, cachePath, loaded.source, host.encodeJson(record)))
  }

  /** The cache directory and its files, updated in place by `load`. */
  class ModuleCache {
    /** The cache root (`NODE_NETWORK_IMPORT_CACHE_DIR`). */
    const root: string
    var files: map<string, string>

    constructor(root: string, files: map<string, string>)
      ensures this.root == root && this.files == files
    {
      this.root := root;
      this.files := files;
    }

    /** `load(url, context, defaultLoad)`. */
    method Load(url: string, context: Host.Record, host: Host.Host, defaultLoad: DefaultLoad)
      returns (r: Result<LoadResult, LoadError>)
      modifies this
      ensures r == LoadStep(old(files), url, context, root, host, defaultLoad).result
      ensures files == LoadStep(old(files), url, context, root, host, defaultLoad).files
    {
      if !StartsWith(url, "https://") {
        return Success(defaultLoad(url, context));
      }
      var normalized := Normalize(url, root, host);
      if normalized.Failure? {
        return Failure(BadUrl(normalized.error));
      }
      var cacheFileName := normalized.value;
      if cacheFileName != "" && cacheFileName in files {
        var meta := SidecarPath(cacheFileName);
        if meta !in files {
          return Failure(MissingSidecar(meta));
        }
        var record := host.decodeJson(files[meta]);
        if record.None? {
          return Failure(UnreadableSidecar(meta));
        }
        return Success(LoadResult(Field(record.value, "format"), files[cacheFileName],
                                  Field(record.value, "responseURL"), true));
      }
      var loaded := defaultLoad(url, context);
      var format, source := loaded.format, loaded.source;
      var responseURL: Option<string> := None;
      if !HasEsmSyntax(source) {
        format := Some("commonjs");
        responseURL := Some(FileUrl(cacheFileName, host));
      }
      files := files[cacheFileName := source];
      files := files[SidecarPath(cacheFileName) := host.encodeJson(SidecarRecord(context, format, url, responseURL))];
      return Success(LoadResult(format, source, responseURL, false));
    }
  }

  // ---------------------------------------------------------------------
  // Properties of load

  /** A non-https URL is handed to the host's loader untouched and no file
      is read or written. */
  lemma LoadPassesThrough(files: map<string, string>, url: string, context: Host.Record, root: string,
                          host: Host.Host, defaultLoad: DefaultLoad)
    requires !StartsWith(url, "https://")
    ensures LoadStep(files, url, context, root, host, defaultLoad) ==
            LoadOutcome(Success(defaultLoad(url, context)), files)
  {
  }

  /** A hit is decided by the content file alone: it never calls the host's
      loader, changes no file and, when its sidecar reads back, returns the
      cached bytes with the sidecar's format and response URL, short-circuited.
      A content file without a sidecar is an error, not a miss. */
  lemma LoadHit(files: map<string, string>, url: string, context: Host.Record, root: string,
                host: Host.Host, defaultLoad: DefaultLoad, otherLoad: DefaultLoad, cachePath: string)
    requires StartsWith(url, "https://")
    requires Normalize(url, root, host) == Success(cachePath) && cachePath != "" && cachePath in files
    ensures LoadStep(files, url, context, root, host, defaultLoad) == LoadStep(files, url, context, root, host, otherLoad)
    ensures LoadStep(files, url, context, root, host, defaultLoad).files == files
    ensures SidecarPath(cachePath) !in files ==>
              LoadStep(files, url, context, root, host, defaultLoad).result == Failure(MissingSidecar(SidecarPath(cachePath)))
    ensures SidecarPath(cachePath) in files && host.decodeJson(files[SidecarPath(cachePath)]).Some? ==>
              var r := host.decodeJson(files[SidecarPath(cachePath)]).value;
              LoadStep(files, url, context, root, host, defaultLoad).result ==
              Success(LoadResult(Field(r, "format"), files[cachePath], Field(r, "responseURL"), true))
  {
  }

  /** A miss asks the host's loader once, writes the content file and then a
      sidecar whose format, url and responseURL override the context, and
      returns the detected format with no short-circuit. */
  lemma LoadMiss(files: map<string, string>, url: string, context: Host.Record, root: string,
                 host: Host.Host, defaultLoad: DefaultLoad, cachePath: string)
    requires StartsWith(url, "https://")
    requires Normalize(url, root, host) == Success(cachePath) && !(cachePath != "" && cachePath in files)
    ensures var loaded := defaultLoad(url, context);
            var d := DetectFormat(loaded.format, loaded.source, cachePath, host);
            var out := LoadStep(files, url, context, root, host, defaultLoad);
            && out.result == Success(LoadResult(d.format, loaded.source, d.responseURL, false))
            && out.files == files[cachePath := loaded.source]
                                 [SidecarPath(cachePath) := host.encodeJson(SidecarRecord(context, d.format, url, d.responseURL))]
  {
  }

  /** Round trip: after a miss, loading the same URL again (with any context
      and any host loader) is a hit that returns the same source, format and
      response URL from the cache, short-circuited, and writes nothing. */
  lemma LoadRoundTrip(files: map<string, string>, url: string, context: Host.Record, context2: Host.Record,
                      root: string, host: Host.Host, defaultLoad: DefaultLoad, otherLoad: DefaultLoad,
                      cachePath: string)
    requires Host.JsonRoundTrips(host)
    requires StartsWith(url, "https://")
    requires Normalize(url, root, host) == Success(cachePath) && cachePath != "" && cachePath !in files
    ensures var first := LoadStep(files, url, context, root, host, defaultLoad);
            var second := LoadStep(first.files, url, context2, root, host, otherLoad);
            && first.result.Success? && second.files == first.files
            && second.result == Success(first.result.value.(shortCircuit := true))
  {
    var first := LoadStep(files, url, context, root, host, defaultLoad);
    var loaded := defaultLoad(url, context);
    var d := DetectFormat(loaded.format, loaded.source, cachePath, host);
    var record := SidecarRecord(context, d.format, url, d.responseURL);
    assert host.decodeJson(host.encodeJson(record)) == Some(record);
    assert cachePath != SidecarPath(cachePath);
    assert first.files[cachePath] == loaded.source;
    assert Field(record, "format") == d.format;
    assert Field(record, "responseURL") == d.responseURL;
  }

  /** Loading is idempotent on the cache: once a URL has been loaded, loading
      it again, with any context and any host loader, leaves every file as the
      first load left it. */
  lemma LoadIsIdempotentOnFiles(files: map<string, string>, url: string, context: Host.Record,
                                context2: Host.Record, root: string, host: Host.Host,
                                defaultLoad: DefaultLoad, otherLoad: DefaultLoad, cachePath: string)
    requires StartsWith(url, "https://")
    requires Normalize(url, root, host) == Success(cachePath) && cachePath != ""
    ensures var first := LoadStep(files, url, context, root, host, defaultLoad);
            LoadStep(first.files, url, context2, root, host, otherLoad).files == first.files
  {
  }
}
