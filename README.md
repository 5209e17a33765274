# network-loader, modelled in Dafny

This project models the core of a Node ESM loader hook. The hook lets Node
import modules straight from `https://` URLs:

- its `resolve` hook rewrites a specifier through an import map;
- it turns the specifier into a URL;
- it checks an `https://` URL with a HEAD request and memoises the answer;
- its `load` hook caches the fetched module source on disk, beside a JSON
  sidecar with the source's format.

The repository carries three iterations of this logic, and each has its own
module here:

- `src/resolve.ts` with `src/load.ts` memoises per parent scope in a lock
  file (`LockResolver`).
- `src/cache-loader.ts` re-reads the import map on every call and memoises
  HEAD answers in memory (`CacheLoader`).
- `src/network-module-loader.ts` is the one the command line registers. It
  delegates to the host's `defaultResolve` and clears the parent of a builtin
  (`NetworkLoader`).

The `load` hook and `normalize` are the same text in all three files, up to
the cache root. They are modelled once (`ContentCache`), and each `load` row
below stands for `src/load.ts:11-72`, `src/cache-loader.ts:153-214` and
`src/network-module-loader.ts:122-183` alike. `Fetch` models the HTTPS gate
of `src/fetch.ts`. `Specifier` holds the specifier classifiers and
`ImportMap` the import-map table.

## Modelling choices

- **Foreign calls are parameters.** The `Host` datatype bundles, as
  function-valued fields:
  - WHATWG URL parsing (`new URL(...).href`, `.origin`). A failure is a
    `UrlError` with its `code`; `IsInvalidUrl` tests that code for
    `"ERR_INVALID_URL"`, as the `catch` blocks do;
  - `isBuiltin`;
  - `sha1`;
  - `path.join` and `path.resolve`;
  - JSON encoding and decoding of the sidecar.

  The server is a function from (method, URL) to an optional response.
  `defaultResolve` and `defaultLoad` are function parameters.
- **State lives in classes.** The lock file, `cacheForHead`, the import-map
  table, the hook context and the cache directory are fields of classes.
  Their methods update them in place, as the source does. Each such method
  is specified by a pure step function (`…Step`) of the old state and the
  inputs. The properties are lemmas about those step functions.
- **JavaScript falsiness is explicit.** A missing header, status or
  response URL is `""` or `0`, so a present but empty value behaves as the
  source's `||` and `!x` make it behave. `"" + undefined` is the scope
  string `"undefined"`.
- **The table is ordered.** It is a sequence of (key, map) entries in the
  order `Object.entries` lists them. `Object.fromEntries` keeps a repeated
  key at its first position with its last value, and `{...a, ...b}` is map
  union with `b` winning.
- **Redirects take fuel.** Redirect following is a recursion bounded by a
  `fuel` count of requests. Running out gives `HopLimit`.

On three points the code behaves differently from what its comments and
structure suggest. The model follows the code:

- A cache hit checks only that the content file exists. A content file
  without a sidecar is an error, not a miss.
- HEAD responses pass the same content-type gate as GET responses.
- Scope lookup takes the first prefix match in the table's order, not the
  longest prefix.

## Model

| member | source | states |
|---|---|---|
| Wrappers.OrElse | src/fetch.ts:86 | `a \|\| b` on an optional string: `b` unless `a` is present and non-empty |
| Strings.ContainsIff | src/fetch.ts:80 | the substring scan (`includes`) succeeds exactly when `t` occurs at some position of `s` |
| Specifier.IsRelativeSpecifier | src/resolve.ts:142-150 | true exactly for `"."`, `".."` and strings starting with `"./"` or `"../"` |
| Specifier.IsPathLike | src/resolve.ts:152-156 | false for `""`, true for a leading `/`, otherwise the same as being relative |
| Specifier.IsBareSpecifier | src/resolve.ts:138-140 | true exactly for non-empty strings starting with neither `/` nor `.` |
| Specifier.DotNamesAreNotRelative | src/resolve.ts:142-150 | `".foo"`, `"..foo"` and `"..."` are not relative; `"../x"` is |
| Specifier.BareAndPathLikeAreDisjoint | src/resolve.ts:138-156 | a bare specifier is never path-like, and a non-empty specifier that is neither starts with a dot and is not relative |
| Specifier.SlashPrefixedIsPathLike | src/cache-loader.ts:119-121 | `"/" + s` is path-like for every `s` |
| ImportMap.Put | src/resolve.ts:40-47 | assigning a key of an object: the key reads the new value and every other key is unchanged; existing keys keep their positions; a new key is appended |
| ImportMap.Fold | src/resolve.ts:40-47 | `Object.fromEntries` never moves or drops a key already present |
| ImportMap.FoldGet | src/resolve.ts:40-47 | `Object.fromEntries` gives each key the value of its last entry |
| ImportMap.Get | src/resolve.ts:82-85 | reading a key of the table: present exactly when the key is one of the table's keys |
| ImportMap.LastFor | src/resolve.ts:40-47 | the value of a key's last entry: present exactly when some entry has that key |
| ImportMap.Overlay | src/resolve.ts:42-45 | the per-scope maps keep the scope list's length and keys; their values are given by `ImportMap.OverlayLastFor` |
| ImportMap.Build | src/resolve.ts:40-47 | the table of `import_map.json` starts with the `"undefined"` entry; its full contents are `ImportMap.BuildGet` and `ImportMap.BuildLayout` |
| ImportMap.GetAbsent | src/resolve.ts:82-85 | a key that is not among the table's keys reads as absent |
| ImportMap.KeySetAppend | src/resolve.ts:40-47 | appending an entry adds exactly its key to the keys |
| ImportMap.NotInKeySet | src/resolve.ts:40-47 | a key that no entry carries is not among the keys |
| ImportMap.DistinctIsUnique | src/resolve.ts:40-47 | pairwise distinct keys are unique one entry at a time, the form `ImportMap.FoldAppends` requires |
| ImportMap.OverlayLastFor | src/resolve.ts:42-45 | each scope's map is the default imports overridden by that scope's last map |
| ImportMap.BuildGetAt | src/resolve.ts:40-47 | the value under every key of the built table, read off the construction |
| ImportMap.BuildGet | src/resolve.ts:40-47 | `""` holds the defaults; a scope key holds the defaults overridden by its map; `"undefined"` holds the defaults unless a scope is named "undefined"; no other key exists |
| ImportMap.FoldAppends | src/resolve.ts:40-47 | entries with distinct keys new to the object are appended in order |
| ImportMap.BuildLayout | src/resolve.ts:40-47 | with distinct scope keys other than `""` and `"undefined"`, the table is "undefined", then the scopes in file order, then "" |
| ImportMap.Lookup | src/resolve.ts:82-85 | the first entry whose key prefixes the scope picks the map, else the specifier is kept; its contract is `ImportMap.LookupFirstMatch`, `ImportMap.LookupNoMatch` and `ImportMap.ScopePrecedence` |
| ImportMap.MapValue | src/resolve.ts:85 | `map[specifier] \|\| specifier`, both directions: the map's value when the specifier is present with a non-empty value, and the specifier itself when it is absent or mapped to `""` |
| ImportMap.LookupFirstMatch | src/resolve.ts:82-85 | the lookup reads only the first entry whose key is a prefix of the scope |
| ImportMap.LookupNoMatch | src/resolve.ts:82-85 | with no matching entry the specifier comes back unchanged |
| ImportMap.BuildAlwaysMatches | src/resolve.ts:46 | the `""` entry makes some entry of a built table always match |
| ImportMap.ScopePrecedence | src/resolve.ts:82-85 | a scope's override wins inside the scope, the defaults apply outside it and for an absent parent, and unmapped specifiers pass through |
| ImportMap.FirstMatchIsNotLongestPrefix | src/resolve.ts:82-85 | with overlapping scopes the earlier one in the file wins, even when a later one is a longer prefix |
| Fetch.IsRedirect | src/fetch.ts:21-33 | true exactly for 300, 301, 302, 303, 307 and 308 |
| Fetch.MethodOf | src/fetch.ts:55 | the request method, `"get"` when none is given |
| Fetch.FollowsRedirects | src/fetch.ts:67 | the redirect mode allows following when it is absent or `"follow"`; used by `Fetch.Decide` |
| Fetch.AllowedContentType | src/fetch.ts:80 | some allowed MIME type occurs inside the header; its cases are `Fetch.HtmlIsRefused` and `Fetch.JavaScriptIsAccepted` |
| Fetch.Decide | src/fetch.ts:61-82 | the ordered decision: no response or status rejects; a redirect with a location is followed when the redirect mode allows it; a status outside [200, 300) rejects with the code; a missing content type rejects; one containing no allowed MIME type rejects with it; otherwise accept |
| Fetch.AcceptedAsWritten | src/fetch.ts:85-91 | as written, `redirected` is true exactly when a redirect mode was given |
| Fetch.Accepted | src/fetch.ts:85-91 | the accepted response: `status` is the status code, `ok` iff 200, `url` the response URL or the request URL; `redirected` is the corrected flag of the first finding (the as-written one is `Fetch.AcceptedAsWritten`) |
| Fetch.Fetch | src/fetch.ts:51-91 | with no fuel left, `HopLimit`; otherwise, on the first response: an accepted one gives `Accepted` for this URL, a rejected one `Disallowed` with the reason, a redirect whose location does not parse `BadLocation`; any success has a 2xx status with `ok` iff 200, and a redirected request stays marked redirected (the success uses the corrected flag of the first finding) |
| Fetch.FetchFuelMonotone | src/fetch.ts:67-68 | more fuel changes no outcome reached within the smaller bound |
| Fetch.FetchFollowsRedirect | src/fetch.ts:67-68 | a followed redirect re-issues the request with the same method and `redirected: true` at the location resolved against the current URL |
| Fetch.RedirectedIffFollowed | src/fetch.ts:68 | with the corrected flag, a success is marked redirected exactly when its first response was followed |
| Fetch.RedirectedFlagAsWritten | src/fetch.ts:89 | as written, a followed redirect reports `redirected: false` and a direct answer with `redirect: "manual"` reports true |
| Fetch.HtmlIsRefused | src/fetch.ts:80-81 | `text/html` is not an allowed content type |
| Fetch.JavaScriptIsAccepted | src/fetch.ts:80 | `text/javascript` and `application/javascript; charset=utf-8` are allowed |
| Fetch.HeadIsContentTypeGated | src/fetch.ts:75-82 | a HEAD answered 200 with `text/html` is refused like a GET |
| Resolution.ScopeString | src/cache-loader.ts:99 | `"" + parentURL`: the parent, or `"undefined"` when absent |
| LockResolver.ScopeOf | src/resolve.ts:72 | the scope is the parent URL, or `"."` when absent |
| LockResolver.ParseAgainst | src/resolve.ts:100 | `new URL(input, new URL(parent))`: fails with the parent's error when the parent does not parse, else parses the input against it; used by `LockResolver.ResolveUrl` |
| LockResolver.IsBuiltinRequest | src/resolve.ts:91 | a `node:` specifier or a builtin mapped specifier; its handling is `LockResolver.BuiltinIsRecordedWithoutNetwork` |
| LockResolver.ResolveStep | src/resolve.ts:67-136 | the scope is always defined in the new lock file, and every success is short-circuited with no format; the rest of its behaviour is the lemmas below |
| LockResolver.ResolveUrl | src/resolve.ts:97-108 | a path-like specifier is joined to the parent and any other parsed alone; `ERR_INVALID_URL` retries `"/" + specifier` against the parent; other errors propagate |
| LockResolver.StartupLockAsWritten | src/resolve.ts:52-62 | as written, the start-up lock file is empty whenever the cache directory exists |
| LockResolver.StartupLock | src/resolve.ts:52-62 | the intended start-up lock file: the saved one when it parses, otherwise empty |
| LockResolver.SavedLockIsDiscarded | src/resolve.ts:53-59 | a saved non-empty lock file is lost as written and restored by the corrected start-up |
| LockResolver.Resolver.constructor | src/resolve.ts:32-65 | the table is built from `import_map.json`, or empty when it is unreadable; the lock file is the corrected start-up one of the second finding, `StartupLock` (as written: `StartupLockAsWritten`) |
| LockResolver.Resolver.Resolve | src/resolve.ts:67-136 | the result and new lock file are those of `ResolveStep` on the old lock file |
| LockResolver.ResolveLockShape | src/resolve.ts:73-74 | a call rewrites only its own scope, to the old memo with at most the specifier's entry set |
| LockResolver.ResolveTouchesOnlyItsPair | src/resolve.ts:73-74 | the scope is always defined afterwards, other scopes are untouched, and no entry other than the specifier's changes |
| LockResolver.LockHitNeedsNothing | src/resolve.ts:77-80 | a non-empty entry is returned short-circuited with the lock file unchanged, whatever the host or network would answer |
| LockResolver.BuiltinIsRecordedWithoutNetwork | src/resolve.ts:91-95 | a `node:` specifier or a builtin mapped specifier is recorded and returned as mapped, with no network request |
| LockResolver.ResolveRecordsOnlyVerifiedUrls | src/resolve.ts:97-135 | URL errors and fetch errors propagate; a non-`https://` URL is returned unrecorded; an `https://` URL is recorded only on a 200 HEAD answer, as the final URL returned; any other status returns the joined URL unrecorded |
| LockResolver.RecordedIsReturned | src/resolve.ts:77-135 | whatever the pair holds after a call is the URL the call returned |
| LockResolver.SecondResolveIsMemoised | src/resolve.ts:73-80 | after a call records the pair, the next call returns the same result and changes nothing, with any host and network |
| LockResolver.RecordsPersist | src/resolve.ts:73-74 | a recorded entry is never rewritten by any call |
| CacheLoader.ResolveUrl | src/cache-loader.ts:112-125 | the first attempt's success or non-`ERR_INVALID_URL` error is the answer |
| CacheLoader.ResolveUrlJoinsSlashSpecifier | src/cache-loader.ts:117-121 | the retry's test always holds, so this variant agrees with `LockResolver.ResolveUrl` and its bare branch is never taken |
| CacheLoader.ResolveStep | src/cache-loader.ts:87-151 | one call of `resolve`, specified by `CacheLoader.ImportMapIsReadEveryCall`, `CacheLoader.BuiltinTouchesNoCache`, `CacheLoader.HeadMemo`, `CacheLoader.MemoOnlyGrows` and `CacheLoader.ResolveAlwaysShortCircuits` |
| CacheLoader.Loader.constructor | src/cache-loader.ts:38-48 | the table starts as `{imports: {}, scopes: {}}` and the memo empty |
| CacheLoader.Loader.ReadImportMap | src/cache-loader.ts:50-63 | success exactly when the file is readable; the table is then rebuilt from it, otherwise unchanged |
| CacheLoader.Loader.Resolve | src/cache-loader.ts:87-151 | the result, table and memo are those of `ResolveStep` |
| CacheLoader.ImportMapIsReadEveryCall | src/cache-loader.ts:93-95 | an unreadable import map rejects the call with nothing changed; a readable one replaces the table |
| CacheLoader.BuiltinTouchesNoCache | src/cache-loader.ts:106-108 | a builtin mapped specifier is returned as mapped, short-circuited, with no network request and the memo unchanged |
| CacheLoader.HeadMemo | src/cache-loader.ts:131-150 | a memoised URL is answered from the memo with no network request; on a 200 HEAD answer the entry is stored and the stored value returned; other statuses return the resolved URL; fetch errors propagate; neither stores anything |
| CacheLoader.MemoShape | src/cache-loader.ts:144 | a call adds at most one memo entry, for a URL not yet memoised |
| CacheLoader.MemoOnlyGrows | src/cache-loader.ts:133-146 | memo entries are never rewritten, and at most one is added per call |
| CacheLoader.ResolveAlwaysShortCircuits | src/cache-loader.ts:107-150 | every successful result is short-circuited and carries no format |
| NetworkLoader.CacheRoot | src/network-module-loader.ts:24-25 | the environment value when set and non-empty, otherwise `".cache"` |
| NetworkLoader.HookContext.constructor | src/network-module-loader.ts:19-22 | a context holds its parent URL and conditions |
| NetworkLoader.Mapped | src/network-module-loader.ts:72-75 | the import-map lookup with the scope `"" + parentURL`; its contract is the `ImportMap` lookup lemmas |
| NetworkLoader.DelegatedParent | src/network-module-loader.ts:81-84 | the parent passed on is cleared for a builtin and kept otherwise |
| NetworkLoader.Delegate | src/network-module-loader.ts:87-94 | the first answer when it succeeds, otherwise the answer for `"/" + specifier` |
| NetworkLoader.ResolveStep | src/network-module-loader.ts:65-120 | one call of `resolve`, specified by `NetworkLoader.BuiltinClearsParent`, `NetworkLoader.DefaultResolveAskedAtMostTwice`, `NetworkLoader.SecondRejectionPropagates` and `NetworkLoader.ResolvedUrlHandling` |
| NetworkLoader.Loader.constructor | src/network-module-loader.ts:50-59 | the table is built once from `package.json`; the memo is empty |
| NetworkLoader.Loader.Resolve | src/network-module-loader.ts:65-120 | the result, memo and context parent are those of `ResolveStep` |
| NetworkLoader.BuiltinClearsParent | src/network-module-loader.ts:81-84 | the context's parent is cleared exactly for a builtin mapped specifier and otherwise unchanged |
| NetworkLoader.DefaultResolveAskedAtMostTwice | src/network-module-loader.ts:87-94 | only the mapped specifier and, after a rejection, `"/" +` it are asked of `defaultResolve` |
| NetworkLoader.SecondRejectionPropagates | src/network-module-loader.ts:91-94 | two rejections reject the call with the second reason and the memo unchanged |
| NetworkLoader.ResolvedUrlHandling | src/network-module-loader.ts:100-119 | a non-`https://` answer is returned with its format and no short-circuit; a memoised URL comes from the memo with no request; a 200 HEAD answer is stored and returned short-circuited; another status returns the answer; fetch errors propagate |
| NetworkLoader.RedirectIsFollowedThenMemoised | src/network-module-loader.ts:100-116 | a HEAD redirected from `a` to a JavaScript `b` returns `b` and memoises `a` as `b`; the next call returns `b` from the memo |
| ContentCache.SkipSeparators | src/load.ts:83 | drops the leading run of `@`, `:` and `/`, keeping the last character when one remains |
| ContentCache.Sanitise | src/load.ts:83 | `replace(/[@:/]+/g, "+")` on the origin; its contract is the `Sanitise…` lemmas below |
| ContentCache.SkipRun | src/load.ts:83 | skipping a run of separators that is followed by a non-separator leaves what follows the run |
| ContentCache.SanitiseHasNoSeparators | src/load.ts:83 | the sanitised origin contains no `@`, `:` or `/` |
| ContentCache.SanitiseKeepsPlain | src/load.ts:83 | an origin with no separators is kept as it is |
| ContentCache.SanitiseAppend | src/load.ts:83 | after a non-separator, the two sides of a string are sanitised independently |
| ContentCache.SanitiseRun | src/load.ts:83 | a whole run of separators becomes a single `+` |
| ContentCache.Remainder | src/load.ts:80 | for a URL starting with its origin, the URL is the origin followed by the remainder |
| ContentCache.Normalize | src/load.ts:78-86 | fails exactly when the URL has no origin, with the origin's error; the path of a success is `ContentCache.NormalizeHashesRemainder` |
| ContentCache.NormalizeHashesRemainder | src/load.ts:78-86 | the cache path is root / sanitised origin / sha1 of everything after the origin; distinct URLs of one origin hash distinct strings |
| ContentCache.HasEsmSyntax | src/load.ts:31-36 | the source contains `export `, `export{` or `import `; its effect is `ContentCache.DetectFormat` |
| ContentCache.DetectFormat | src/load.ts:31-40 | source without `export `, `export{` or `import ` becomes `commonjs` with `file://` + the absolute cache path as response URL; otherwise the format is kept and there is no response URL |
| ContentCache.EsmSourceKeepsFormat | src/load.ts:32-36 | `export const x = 1` keeps its declared format |
| ContentCache.CommonJsSourceBecomesCommonJs | src/load.ts:31-40 | `module.exports = {}` declared `"module"` becomes `"commonjs"` with the `file://` URL of its cache file |
| ContentCache.MarkerAbsent | src/load.ts:31-36 | in `module.exports = {}` no `import ` and no `export ` or `export{` occurs, though `exports` does |
| ContentCache.SidecarRecord | src/load.ts:57-63 | the sidecar is the context with `format`, `url` and `responseURL` overriding it, each left out when undefined |
| ContentCache.WriteEntry | src/load.ts:50-63 | writing the content file and its sidecar: both are added with the given texts, and every other file is unchanged |
| ContentCache.LoadStep | src/load.ts:11-72 | one call of `load`, specified by `ContentCache.LoadPassesThrough`, `ContentCache.LoadHit`, `ContentCache.LoadMiss`, `ContentCache.LoadRoundTrip` and `ContentCache.LoadIsIdempotentOnFiles` |
| ContentCache.ModuleCache.constructor | src/network-module-loader.ts:24-25 | the cache holds its root directory (`NODE_NETWORK_IMPORT_CACHE_DIR`) and the files found there |
| ContentCache.ModuleCache.Load | src/load.ts:11-72 | the result and new files are those of `LoadStep` on the old files |
| ContentCache.LoadPassesThrough | src/load.ts:71 | a non-`https://` URL returns the host loader's result and touches no file |
| ContentCache.LoadHit | src/load.ts:14-26 | an existing content file decides a hit: the host loader is not asked and no file changes; a readable sidecar gives its format and response URL with the cached source, short-circuited; a missing sidecar is an error |
| ContentCache.LoadMiss | src/load.ts:28-69 | a miss writes the content file and then the sidecar, and returns the detected format, the source and the response URL without short-circuit |
| ContentCache.LoadRoundTrip | src/load.ts:15-67 | after a miss, loading the same URL again with any context and loader returns the same source, format and response URL from the cache, short-circuited, and writes nothing |
| ContentCache.LoadIsIdempotentOnFiles | src/load.ts:15-67 | loading an `https://` URL a second time, with any context and host loader, leaves the files exactly as the first load left them |

## Left out

- Logging (`src/logger.ts` and every logger call) and the command-line launcher (`src/cli.ts`) are output and process plumbing, so they are not modelled.
- WHATWG URL parsing, `sha1`, `path.join`, `path.resolve`, `isBuiltin` and JSON are uninterpreted host functions. `sha1` is not assumed injective.
- The HTTPS agent, keep-alive, the 5-second timeout, socket errors, request headers, `statusText`, the headers map and the body readers of `src/fetch.ts` are not modelled. Only the status, `location`, `content-type` and response URL reach the decision.
- Fetch.Fetch: the source has no bound on the number of redirects followed. The model's `fuel` bound and its `HopLimit` error do not exist there.
- Fetch.Fetch: `BadLocation` stands for `new URL(location, url)` throwing inside the response callback. In the source that is an uncaught exception rather than a rejection.
- Fetch.Fetch: a success uses the corrected `redirected` flag (`Fetch.Accepted`, first finding below), not the as-written `!!init?.redirect` of src/fetch.ts:89, which `Fetch.AcceptedAsWritten` models.
- Fetch.Accepted: models the corrected `redirected: !!init?.redirected`; the as-written line src/fetch.ts:89 is `Fetch.AcceptedAsWritten`, and `Fetch.RedirectedFlagAsWritten` shows where they differ.
- LockResolver.Resolver.constructor: starts from the corrected `StartupLock` of the second finding, not the as-written src/resolve.ts:53-59, which `LockResolver.StartupLockAsWritten` models and `LockResolver.SavedLockIsDiscarded` contrasts.
- Concurrency is not modelled. Every hook call runs to completion before the next, so the unsynchronised interleavings on `lockFile` and `cacheForHead` across awaits are out of scope.
- The second lock-file check in `resolve.ts` (lines 117-123) is not modelled. It repeats the check of line 77 with no intervening await or write, so it can never succeed.
- The `process.on("exit")` writer of `rx-lock.json` (src/resolve.ts:158-163) is file output. It is not modelled; the lock file is the `lockFile` field.
- `require` of `import_map.json` in `src/cache-loader.ts` is the constant `importMapFile`. `require` caches what it loaded, so the model does not cover a file that is missing at first and appears later.
- `defaultResolve.parentURL === undefined` (src/cache-loader.ts:93) tests a property of a function, which is always undefined. The import map is therefore modelled as re-read on every call.
- The `.catch` that logs a `defaultLoad` failure and then breaks the destructuring is an error path of the host loader. It is not modelled; `defaultLoad` always answers.
- The "invalid source format" log for a missing format is not modelled; the entry is still written and returned, as modelled.
- `mkdirSync` of the cache file's directory during `load` is not modelled; the files map has no directories.
- Files are text. The model does not distinguish the `Buffer` returned for a hit from the string returned for a miss.
- The hook context in the sidecar is a record of strings. Non-string members such as `conditions` are not modelled.
- `Object.entries` lists integer-like keys first. The model keeps insertion order for all keys.
- Inherited properties of plain objects (a specifier such as `"constructor"`) are not modelled; a map has no prototype.
- `NODE_NETWORK_IMPORT_CACHE_DIR` of `src/load.ts` and `src/cache-loader.ts` comes from `src/constants.ts`, which is not part of this model. The cache root is a constructor parameter there.

## Findings

| source | as written | input that shows it | evidently intended | confidence | as-written member | corrected member |
|---|---|---|---|---|---|---|
| src/fetch.ts:89 | `redirected: !!(init?.redirect)` reads the redirect mode | a 302 followed with default options gives `redirected: false`; a direct 200 with `redirect: "manual"` gives `true` | `redirected: !!init?.redirected`, the flag set at line 68 | medium, not executed | Fetch.RedirectedFlagAsWritten | Fetch.RedirectedIffFollowed |
| src/resolve.ts:54 | `mkdirSync(NODE_NETWORK_IMPORT_CACHE_DIR)` without `recursive` throws `EEXIST` when the directory exists, skipping the lock-file read | a second run, with the cache directory and its `rx-lock.json` left by the first | read the saved lock file when it exists (`mkdirSync(dir, { recursive: true })`) | medium, not executed | LockResolver.SavedLockIsDiscarded | LockResolver.StartupLock |
