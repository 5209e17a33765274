/** The `resolve` hook of `src/resolve.ts`: import-map substitution, URL
    construction with the leading-slash retry, a HEAD check of `https://`
    URLs, and memoisation of resolutions per parent scope in the lock file. */
module LockResolver {
  import opened Wrappers
  import opened Strings
  import Host
  import Specifier
  import ImportMap
  import Fetch
  import opened Resolution

  /** `{ [scope]: { [specifier]: resolvedURL } }`. */
  type LockFile = map<string, map<string, string>>

  /** `const { parentURL = "." } = context`: only an absent parent defaults. */
  function ScopeOf(parentURL: Option<string>): (s: string)
    ensures parentURL.Some? ==> s == parentURL.value
    ensures parentURL.None? ==> s == "."
  {
    parentURL.GetOr(".")
  }

  /** The memo of one scope (`lockFile[scope] || {}`). */
  function ScopeMap(lock: LockFile, scope: string): map<string, string> {
    if scope in lock then lock[scope] else map[]
  }

  /** A truthy lock entry. */
  predicate Recorded(m: map<string, string>, specifier: string) {
    specifier in m && m[specifier] != ""
  }

  /** `new URL(input, new URL(parent)).href`. */
  function ParseAgainst(input: string, parent: string, host: Host.Host): Result<string, Host.UrlError> {
    match host.parseUrl(parent, None)
    case Failure(e) => Failure(e)
    case Success(base) => host.parseUrl(input, Some(base))
  }

  /** The `try`/`catch` that turns the mapped specifier into a URL: a path
      resolves against the parent, anything else must parse alone; an
      ERR_INVALID_URL is retried once as "/" + specifier against the parent,
      and any other error is rethrown. */
  function ResolveUrl(mapped: string, parent: string, host: Host.Host): (r: Result<string, Host.UrlError>)
    ensures var first := if Specifier.IsPathLike(mapped) then ParseAgainst(mapped, parent, host)
                         else host.parseUrl(mapped, None);
            && (first.Success? ==> r == first)
            && (first.Failure? && first.error.IsInvalidUrl() ==> r == ParseAgainst("/" + mapped, parent, host))
            && (first.Failure? && !first.error.IsInvalidUrl() ==> r == first)
  {
    var first := if Specifier.IsPathLike(mapped) then ParseAgainst(mapped, parent, host)
                 else host.parseUrl(mapped, None);
    match first
    case Success(href) => Success(href)
    case Failure(e) =>
      if e.IsInvalidUrl() then ParseAgainst("/" + mapped, parent, host) else Failure(e)
  }

  /** The builtin test of this variant: the original specifier's `node:`
      prefix, or the mapped specifier in Node's builtin registry. */
  predicate IsBuiltinRequest(specifier: string, mapped: string, host: Host.Host) {
    StartsWith(specifier, "node:") || host.isBuiltin(mapped)
  }

  /** The result of one `resolve` and the lock file afterwards. */
  datatype LockStep = LockStep(result: Result<Resolved, ResolveError>, lockFile: LockFile)

  /** One call of `resolve(specifier, { parentURL })`. */
  function ResolveStep(lock: LockFile, importMaps: ImportMap.Table, specifier: string, parentURL: Option<string>,
                       host: Host.Host, respond: Fetch.Respond, fuel: nat): (step: LockStep)
    ensures ScopeOf(parentURL) in step.lockFile
    ensures step.result.Success? ==> step.result.value.shortCircuit && step.result.value.format.None?
  {
    var scope := ScopeOf(parentURL);
    var memo := ScopeMap(lock, scope);
    var lock1 := lock[scope := memo];
    if Recorded(memo, specifier) then LockStep(Success(Resolved(memo[specifier], None, true)), lock1)
    else
      var mapped := ImportMap.Lookup(importMaps, scope, specifier);
      if IsBuiltinRequest(specifier, mapped, host) then
        LockStep(Success(Resolved(mapped, None, true)), lock[scope := memo[specifier := mapped]])
      else match ResolveUrl(mapped, scope, host)
        case Failure(e) => LockStep(Failure(UrlFailure(e)), lock1)
        case Success(resolvedURL) =>
          if !StartsWith(resolvedURL, "https://") then LockStep(Success(Resolved(resolvedURL, None, true)), lock1)
          else match Fetch.Fetch(resolvedURL, HeadInit, host, respond, fuel)
            case Failure(e) => LockStep(Failure(NetworkFailure(e)), lock1)
            case Success(res) =>
              if res.status == 200 then
                LockStep(Success(Resolved(res.url, None, true)), lock[scope := memo[specifier := res.url]])
              else LockStep(Success(Resolved(resolvedURL, None, true)), lock1)
  }

  /** The lock file the start-up code reads: `mkdirSync` of the cache
      directory, then `rx-lock.json` inside it, each failure leaving `{}`.
      `mkdirSync` is not recursive, so it throws when the directory already
      exists, and a directory it has just created holds no lock file. */
  function StartupLockAsWritten(cacheDirExists: bool, lockText: Option<string>,
                                decodeLock: string -> Option<LockFile>): (lock: LockFile)
    ensures cacheDirExists ==> lock == map[]
  {
    if cacheDirExists then map[]
    else map[]
  }

  /** The intended start-up: the lock file saved by an earlier run, when the
      directory holds one that parses, and `{}` otherwise. */
  function StartupLock(cacheDirExists: bool, lockText: Option<string>,
                       decodeLock: string -> Option<LockFile>): (lock: LockFile)
    ensures cacheDirExists && lockText.Some? && decodeLock(lockText.value).Some? ==>
              lock == decodeLock(lockText.value).value
    ensures !(cacheDirExists && lockText.Some? && decodeLock(lockText.value).Some?) ==> lock == map[]
  {
    if cacheDirExists && lockText.Some? && decodeLock(lockText.value).Some? then decodeLock(lockText.value).value
    else map[]
  }

  /** As written, a saved, non-empty lock file is never restored, while the
      intended start-up restores it. */
  lemma SavedLockIsDiscarded(lockText: string, decodeLock: string -> Option<LockFile>, saved: LockFile)
    requires decodeLock(lockText) == Some(saved) && saved != map[]
    ensures StartupLockAsWritten(true, Some(lockText), decodeLock) != saved
    ensures StartupLock(true, Some(lockText), decodeLock) == saved
  {
  }

  /** The resolver of `src/resolve.ts` with its module-level state. */
  class Resolver {
    /** The table built from `import_map.json`, empty when it is unreadable. */
    const importMaps: ImportMap.Table
    /** The lock file: scope to specifier to resolved URL. */
    var lockFile: LockFile

    /** Start-up with `import_map.json` as parsed (`None`: unreadable) and
        the cache directory as found. */
    constructor(importMapFile: Option<ImportMap.Config>, cacheDirExists: bool, lockText: Option<string>,
                decodeLock: string -> Option<LockFile>)
      ensures importMaps == (if importMapFile.Some? then ImportMap.Build(importMapFile.value) else [])
      ensures lockFile == StartupLock(cacheDirExists, lockText, decodeLock)
    {
      importMaps := if importMapFile.Some? then ImportMap.Build(importMapFile.value) else [];
      lockFile := StartupLock(cacheDirExists, lockText, decodeLock);
    }

    method Resolve(specifier: string, parentURL: Option<string>, host: Host.Host, respond: Fetch.Respond, fuel: nat)
      returns (r: Result<Resolved, ResolveError>)
      modifies this
      ensures r == ResolveStep(old(lockFile), importMaps, specifier, parentURL, host, respond, fuel).result
      ensures lockFile == ResolveStep(old(lockFile), importMaps, specifier, parentURL, host, respond, fuel).lockFile
    {
      var scope := ScopeOf(parentURL);
      var currentScopeCacheMap := ScopeMap(lockFile, scope);
      lockFile := lockFile[scope := currentScopeCacheMap];
      if Recorded(currentScopeCacheMap, specifier) {
        return Success(Resolved(currentScopeCacheMap[specifier], None, true));
      }
      var mapped := ImportMap.Lookup(importMaps, scope, specifier);
      if StartsWith(specifier, "node:") || host.isBuiltin(mapped) {
        lockFile := lockFile[scope := currentScopeCacheMap[specifier := mapped]];
        return Success(Resolved(mapped, None, true));
      }
      var resolved := ResolveUrl(mapped, scope, host);
      if resolved.Failure? {
        return Failure(UrlFailure(resolved.error));
      }
      var resolvedURL := resolved.value;
      if !StartsWith(resolvedURL, "https://") {
        return Success(Resolved(resolvedURL, None, true));
      }
      var head := Fetch.Fetch(resolvedURL, HeadInit, host, respond, fuel);
      assert ResolveStep(old(lockFile), importMaps, specifier, parentURL, host, respond, fuel)
        == (if head.Failure? then LockStep(Failure(NetworkFailure(head.error)), lockFile)
            else if head.value.status == 200 then
              LockStep(Success(Resolved(head.value.url, None, true)), lockFile[scope := currentScopeCacheMap[specifier := head.value.url]])
            else LockStep(Success(Resolved(resolvedURL, None, true)), lockFile));
      if head.Failure? {
        return Failure(NetworkFailure(head.error));
      }
      if head.value.status == 200 {
        lockFile := lockFile[scope := currentScopeCacheMap[specifier := head.value.url]];
        return Success(Resolved(head.value.url, None, true));
      }
      return Success(Resolved(resolvedURL, None, true));
    }
  }

  // ---------------------------------------------------------------------
  // Properties of one resolution

  /** Every call rewrites the lock file only at its own scope, to the
      scope's memo with at most the entry for `specifier` set; `v` is that
      entry when the call sets it. */
  lemma ResolveLockShape(lock: LockFile, importMaps: ImportMap.Table, specifier: string,
                         parentURL: Option<string>, host: Host.Host, respond: Fetch.Respond, fuel: nat)
    returns (v: Option<string>)
    ensures var scope := ScopeOf(parentURL);
            var memo := ScopeMap(lock, scope);
            ResolveStep(lock, importMaps, specifier, parentURL, host, respond, fuel).lockFile
              == lock[scope := if v.Some? then memo[specifier := v.value] else memo]
  {
    var scope := ScopeOf(parentURL);
    var memo := ScopeMap(lock, scope);
    var mapped := ImportMap.Lookup(importMaps, scope, specifier);
    if Recorded(memo, specifier) {
      v := None;
    } else if IsBuiltinRequest(specifier, mapped, host) {
      v := Some(mapped);
    } else {
      var resolved := ResolveUrl(mapped, scope, host);
      if resolved.Success? && StartsWith(resolved.value, "https://") {
        var head := Fetch.Fetch(resolved.value, HeadInit, host, respond, fuel);
        v := if head.Success? && head.value.status == 200 then Some(head.value.url) else None;
      } else {
        v := None;
      }
    }
  }

  /** Every call leaves the scope's memo defined, touches no other scope, and
      changes no entry of its own scope but the one for `specifier`. */
  lemma ResolveTouchesOnlyItsPair(lock: LockFile, importMaps: ImportMap.Table, specifier: string,
                                  parentURL: Option<string>, host: Host.Host, respond: Fetch.Respond, fuel: nat)
    ensures var scope := ScopeOf(parentURL);
            var after := ResolveStep(lock, importMaps, specifier, parentURL, host, respond, fuel).lockFile;
            && after.Keys == lock.Keys + {scope}
            && (forall s :: s in lock && s != scope ==> after[s] == lock[s])
            && ScopeMap(after, scope) - {specifier} == ScopeMap(lock, scope) - {specifier}
            && (specifier in ScopeMap(lock, scope) ==> specifier in ScopeMap(after, scope))
  {
    var v := ResolveLockShape(lock, importMaps, specifier, parentURL, host, respond, fuel);
  }

  /** A recorded entry answers at once: the same URL, short-circuited, with
      the lock file unchanged and whatever the network or host would say. */
  lemma LockHitNeedsNothing(lock: LockFile, importMaps: ImportMap.Table, specifier: string, parentURL: Option<string>,
                            host: Host.Host, respond: Fetch.Respond, fuel: nat,
                            host2: Host.Host, respond2: Fetch.Respond, fuel2: nat)
    requires Recorded(ScopeMap(lock, ScopeOf(parentURL)), specifier)
    ensures var step := ResolveStep(lock, importMaps, specifier, parentURL, host, respond, fuel);
            && step == ResolveStep(lock, importMaps, specifier, parentURL, host2, respond2, fuel2)
            && step.result == Success(Resolved(lock[ScopeOf(parentURL)][specifier], None, true))
            && step.lockFile == lock
  {
  }

  /** A builtin is recorded as its mapped specifier and returned without any
      network request. */
  lemma BuiltinIsRecordedWithoutNetwork(lock: LockFile, importMaps: ImportMap.Table, specifier: string,
                                        parentURL: Option<string>, host: Host.Host, respond: Fetch.Respond, fuel: nat,
                                        respond2: Fetch.Respond, fuel2: nat)
    requires !Recorded(ScopeMap(lock, ScopeOf(parentURL)), specifier)
    requires IsBuiltinRequest(specifier, ImportMap.Lookup(importMaps, ScopeOf(parentURL), specifier), host)
    ensures var scope := ScopeOf(parentURL);
            var mapped := ImportMap.Lookup(importMaps, scope, specifier);
            var step := ResolveStep(lock, importMaps, specifier, parentURL, host, respond, fuel);
            && step == ResolveStep(lock, importMaps, specifier, parentURL, host, respond2, fuel2)
            && step.result == Success(Resolved(mapped, None, true))
            && step.lockFile == lock[scope := ScopeMap(lock, scope)[specifier := mapped]]
  {
  }

  /** URL resolution and the HEAD check: a URL that is not `https://` is
      returned and never recorded; an `https://` one is recorded only when the
      HEAD request ends in status 200, as the final URL that it returns. */
  lemma ResolveRecordsOnlyVerifiedUrls(lock: LockFile, importMaps: ImportMap.Table, specifier: string,
                                       parentURL: Option<string>, host: Host.Host, respond: Fetch.Respond, fuel: nat)
    requires !Recorded(ScopeMap(lock, ScopeOf(parentURL)), specifier)
    requires !IsBuiltinRequest(specifier, ImportMap.Lookup(importMaps, ScopeOf(parentURL), specifier), host)
    ensures var scope := ScopeOf(parentURL);
            var memo := ScopeMap(lock, scope);
            var resolved := ResolveUrl(ImportMap.Lookup(importMaps, scope, specifier), scope, host);
            var step := ResolveStep(lock, importMaps, specifier, parentURL, host, respond, fuel);
            && (resolved.Failure? ==> step == LockStep(Failure(UrlFailure(resolved.error)), lock[scope := memo]))
            && (resolved.Success? && !StartsWith(resolved.value, "https://") ==>
                  step == LockStep(Success(Resolved(resolved.value, None, true)), lock[scope := memo]))
            && (resolved.Success? && StartsWith(resolved.value, "https://") ==>
                  var head := Fetch.Fetch(resolved.value, HeadInit, host, respond, fuel);
                  && (head.Failure? ==> step == LockStep(Failure(NetworkFailure(head.error)), lock[scope := memo]))
                  && (head.Success? && head.value.status == 200 ==>
                        step == LockStep(Success(Resolved(head.value.url, None, true)),
                                         lock[scope := memo[specifier := head.value.url]]))
                  && (head.Success? && head.value.status != 200 ==>
                        step == LockStep(Success(Resolved(resolved.value, None, true)), lock[scope := memo])))
  {
  }

  /** Whatever is recorded for the pair after a call is exactly the URL that
      call returned. */
  lemma RecordedIsReturned(lock: LockFile, importMaps: ImportMap.Table, specifier: string, parentURL: Option<string>,
                           host: Host.Host, respond: Fetch.Respond, fuel: nat)
    ensures var step := ResolveStep(lock, importMaps, specifier, parentURL, host, respond, fuel);
            var scope := ScopeOf(parentURL);
            Recorded(ScopeMap(step.lockFile, scope), specifier) ==>
              step.result == Success(Resolved(step.lockFile[scope][specifier], None, true))
  {
  }

  /** Memoisation: once a call records the pair, every later call for it with
      the same lock file answers the same URL, needing no network and no host,
      and changes nothing. */
  lemma SecondResolveIsMemoised(lock: LockFile, importMaps: ImportMap.Table, specifier: string,
                                parentURL: Option<string>, host: Host.Host, respond: Fetch.Respond, fuel: nat,
                                host2: Host.Host, respond2: Fetch.Respond, fuel2: nat)
    ensures var first := ResolveStep(lock, importMaps, specifier, parentURL, host, respond, fuel);
            var second := ResolveStep(first.lockFile, importMaps, specifier, parentURL, host2, respond2, fuel2);
            Recorded(ScopeMap(first.lockFile, ScopeOf(parentURL)), specifier) ==>
              second == LockStep(first.result, first.lockFile)
  {
    var first := ResolveStep(lock, importMaps, specifier, parentURL, host, respond, fuel);
    RecordedIsReturned(lock, importMaps, specifier, parentURL, host, respond, fuel);
    if Recorded(ScopeMap(first.lockFile, ScopeOf(parentURL)), specifier) {
      LockHitNeedsNothing(first.lockFile, importMaps, specifier, parentURL, host2, respond2, fuel2,
                          host2, respond2, fuel2);
    }
  }

  /** Recorded entries are never rewritten, by this pair's call or any other. */
  lemma RecordsPersist(lock: LockFile, importMaps: ImportMap.Table, specifier: string, parentURL: Option<string>,
                       host: Host.Host, respond: Fetch.Respond, fuel: nat, s: string, k: string)
    requires s in lock && Recorded(lock[s], k)
    ensures var after := ResolveStep(lock, importMaps, specifier, parentURL, host, respond, fuel).lockFile;
            s in after && k in after[s] && after[s][k] == lock[s][k]
  {
  }
}
