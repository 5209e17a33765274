/** The `resolve` hook of `src/cache-loader.ts`: the import map is re-read on
    every call, builtins are returned as mapped, and `https://` URLs are
    checked by a HEAD request whose successful answers are kept in the
    in-memory `cacheForHead` memo. */
module CacheLoader {
  import opened Wrappers
  import opened Strings
  import Host
  import Specifier
  import ImportMap
  import Fetch
  import LockResolver
  import opened Resolution

  /** The table `importMaps` holds before the first `readImportMap`. */
  const InitialTable: ImportMap.Table := [("imports", map[]), ("scopes", map[])]

  /** The `try`/`catch` of this variant: as in `src/resolve.ts`, but the
      retry keeps the classifier test on "/" + specifier. */
  function ResolveUrl(mapped: string, parent: string, host: Host.Host): (r: Result<string, Host.UrlError>)
    ensures var first := if Specifier.IsPathLike(mapped) then LockResolver.ParseAgainst(mapped, parent, host)
                         else host.parseUrl(mapped, None);
            && (first.Success? ==> r == first)
            && (first.Failure? && !first.error.IsInvalidUrl() ==> r == first)
  {
    var first := if Specifier.IsPathLike(mapped) then LockResolver.ParseAgainst(mapped, parent, host)
                 else host.parseUrl(mapped, None);
    match first
    case Success(href) => Success(href)
    case Failure(e) =>
      if !e.IsInvalidUrl() then Failure(e)
      else if Specifier.IsPathLike("/" + mapped) then LockResolver.ParseAgainst("/" + mapped, parent, host)
      else host.parseUrl("/" + mapped, None)
  }

  /** The retry's test is always true, so its bare branch is never taken and
      this variant turns specifiers into URLs exactly as `src/resolve.ts`
      does. */
  lemma ResolveUrlJoinsSlashSpecifier(mapped: string, parent: string, host: Host.Host)
    ensures Specifier.IsPathLike("/" + mapped)
    ensures ResolveUrl(mapped, parent, host) == LockResolver.ResolveUrl(mapped, parent, host)
  {
    Specifier.SlashPrefixedIsPathLike(mapped);
  }

  /** The three pieces of state one `resolve` can leave behind. */
  datatype CacheStep = CacheStep(result: Result<Resolved, ResolveError>, importMaps: ImportMap.Table,
                                 cacheForHead: map<string, string>)

  /** One call of `resolve(specifier, { parentURL })`, with `importMapFile`
      what `require` yields for `import_map.json` (`None`: it throws). */
  function ResolveStep(table: ImportMap.Table, memo: map<string, string>, importMapFile: Option<ImportMap.Config>,
                       specifier: string, parentURL: Option<string>,
                       host: Host.Host, respond: Fetch.Respond, fuel: nat): CacheStep
  {
    match importMapFile
    case None => CacheStep(Failure(ImportMapUnreadable), table, memo)
    case Some(config) =>
      var importMaps := ImportMap.Build(config);
      var scope := ScopeString(parentURL);
      var mapped := ImportMap.Lookup(importMaps, scope, specifier);
      if StartsWith(mapped, "node:") || host.isBuiltin(mapped) then
        CacheStep(Success(Resolved(mapped, None, true)), importMaps, memo)
      else match ResolveUrl(mapped, scope, host)
        case Failure(e) => CacheStep(Failure(UrlFailure(e)), importMaps, memo)
        case Success(resolvedURL) =>
          if !StartsWith(resolvedURL, "https://") then
            CacheStep(Success(Resolved(resolvedURL, None, true)), importMaps, memo)
          else if resolvedURL in memo then
            CacheStep(Success(Resolved(memo[resolvedURL], None, true)), importMaps, memo)
          else match Fetch.Fetch(resolvedURL, HeadInit, host, respond, fuel)
            case Failure(e) => CacheStep(Failure(NetworkFailure(e)), importMaps, memo)
            case Success(res) =>
              if res.status == 200 then
                CacheStep(Success(Resolved(res.url, None, true)), importMaps, memo[resolvedURL := res.url])
              else CacheStep(Success(Resolved(resolvedURL, None, true)), importMaps, memo)
  }

  /** The module-level state of `src/cache-loader.ts`. */
  class Loader {
    /** `import_map.json` as `require` yields it; `None` when it throws. */
    const importMapFile: Option<ImportMap.Config>
    var importMaps: ImportMap.Table
    /** `cacheForHead`: resolved URL to the URL its HEAD request ended at. */
    var cacheForHead: map<string, string>

    constructor(importMapFile: Option<ImportMap.Config>)
      ensures this.importMapFile == importMapFile
      ensures importMaps == InitialTable && cacheForHead == map[]
    {
      this.importMapFile := importMapFile;
      importMaps := InitialTable;
      cacheForHead := map[];
    }

    /** Rebuilds the table from the file; reports whether the file was read. */
    method ReadImportMap() returns (ok: bool)
      modifies this`importMaps
      ensures ok <==> importMapFile.Some?
      ensures ok ==> importMaps == ImportMap.Build(importMapFile.value)
      ensures !ok ==> importMaps == old(importMaps)
    {
      if importMapFile.None? {
        return false;
      }
      importMaps := ImportMap.Build(importMapFile.value);
      return true;
    }

    method Resolve(specifier: string, parentURL: Option<string>, host: Host.Host, respond: Fetch.Respond, fuel: nat)
      returns (r: Result<Resolved, ResolveError>)
      modifies this
      ensures var step := ResolveStep(old(importMaps), old(cacheForHead), importMapFile, specifier, parentURL,
                                      host, respond, fuel);
              r == step.result && importMaps == step.importMaps && cacheForHead == step.cacheForHead
    {
      var ok := ReadImportMap();
      if !ok {
        return Failure(ImportMapUnreadable);
      }
      var scope := ScopeString(parentURL);
      var mapped := ImportMap.Lookup(importMaps, scope, specifier);
      if StartsWith(mapped, "node:") || host.isBuiltin(mapped) {
        return Success(Resolved(mapped, None, true));
      }
      var resolved := ResolveUrl(mapped, scope, host);
      if resolved.Failure? {
        return Failure(UrlFailure(resolved.error));
      }
      var resolvedURL := resolved.value;
      if StartsWith(resolvedURL, "https://") {
        if resolvedURL in cacheForHead {
          return Success(Resolved(cacheForHead[resolvedURL], None, true));
        }
        var head := Fetch.Fetch(resolvedURL, HeadInit, host, respond, fuel);
        if head.Failure? {
          return Failure(NetworkFailure(head.error));
        }
        if head.value.status == 200 {
          cacheForHead := cacheForHead[resolvedURL := head.value.url];
          return Success(Resolved(cacheForHead[resolvedURL], None, true));
        }
      }
      return Success(Resolved(resolvedURL, None, true));
    }
  }

  // ---------------------------------------------------------------------
  // Properties of one resolution

  /** An unreadable import map rejects the call and changes nothing; a
      readable one replaces the table by the table built from it. */
  lemma ImportMapIsReadEveryCall(table: ImportMap.Table, memo: map<string, string>,
                                 importMapFile: Option<ImportMap.Config>, specifier: string,
                                 parentURL: Option<string>, host: Host.Host, respond: Fetch.Respond, fuel: nat)
    ensures var step := ResolveStep(table, memo, importMapFile, specifier, parentURL, host, respond, fuel);
            && (importMapFile.None? ==> step == CacheStep(Failure(ImportMapUnreadable), table, memo))
            && (importMapFile.Some? ==> step.importMaps == ImportMap.Build(importMapFile.value))
  {
  }

  /** A builtin, decided on the mapped specifier, comes back as mapped with no
      network request and no change to the memo. */
  lemma BuiltinTouchesNoCache(table: ImportMap.Table, memo: map<string, string>, config: ImportMap.Config,
                              specifier: string, parentURL: Option<string>, host: Host.Host,
                              respond: Fetch.Respond, fuel: nat, respond2: Fetch.Respond, fuel2: nat)
    requires var mapped := ImportMap.Lookup(ImportMap.Build(config), ScopeString(parentURL), specifier);
             StartsWith(mapped, "node:") || host.isBuiltin(mapped)
    ensures var step := ResolveStep(table, memo, Some(config), specifier, parentURL, host, respond, fuel);
            && step == ResolveStep(table, memo, Some(config), specifier, parentURL, host, respond2, fuel2)
            && step.result == Success(Resolved(ImportMap.Lookup(ImportMap.Build(config), ScopeString(parentURL),
                                                                specifier), None, true))
            && step.cacheForHead == memo
  {
  }

  /** The HEAD memo: a memoised URL is answered from the memo with no network
      request; otherwise a status-200 answer is stored and is exactly what is
      returned; any other status returns the resolved URL and stores nothing. */
  lemma HeadMemo(table: ImportMap.Table, memo: map<string, string>, config: ImportMap.Config,
                 specifier: string, parentURL: Option<string>, host: Host.Host,
                 respond: Fetch.Respond, fuel: nat, respond2: Fetch.Respond, fuel2: nat)
    requires var mapped := ImportMap.Lookup(ImportMap.Build(config), ScopeString(parentURL), specifier);
             && !(StartsWith(mapped, "node:") || host.isBuiltin(mapped))
             && ResolveUrl(mapped, ScopeString(parentURL), host).Success?
             && StartsWith(ResolveUrl(mapped, ScopeString(parentURL), host).value, "https://")
    ensures var mapped := ImportMap.Lookup(ImportMap.Build(config), ScopeString(parentURL), specifier);
            var u := ResolveUrl(mapped, ScopeString(parentURL), host).value;
            var step := ResolveStep(table, memo, Some(config), specifier, parentURL, host, respond, fuel);
            var head := Fetch.Fetch(u, HeadInit, host, respond, fuel);
            && (u in memo ==>
                  && step == ResolveStep(table, memo, Some(config), specifier, parentURL, host, respond2, fuel2)
                  && step.result == Success(Resolved(memo[u], None, true))
                  && step.cacheForHead == memo)
            && (u !in memo && head.Success? && head.value.status == 200 ==>
                  && step.cacheForHead == memo[u := head.value.url]
                  && step.result == Success(Resolved(step.cacheForHead[u], None, true)))
            && (u !in memo && head.Success? && head.value.status != 200 ==>
                  step.result == Success(Resolved(u, None, true)) && step.cacheForHead == memo)
            && (u !in memo && head.Failure? ==>
                  step.result == Failure(NetworkFailure(head.error)) && step.cacheForHead == memo)
  {
  }

  /** Every call either leaves the memo as it was or adds the one entry
      `added`, for a URL not yet memoised. */
  lemma MemoShape(table: ImportMap.Table, memo: map<string, string>, importMapFile: Option<ImportMap.Config>,
                  specifier: string, parentURL: Option<string>, host: Host.Host, respond: Fetch.Respond, fuel: nat)
    returns (added: Option<(string, string)>)
    ensures var after := ResolveStep(table, memo, importMapFile, specifier, parentURL, host, respond, fuel).cacheForHead;
            && (added.None? ==> after == memo)
            && (added.Some? ==> added.value.0 !in memo && after == memo[added.value.0 := added.value.1])
  {
    added := None;
    if importMapFile.Some? {
      var scope := ScopeString(parentURL);
      var mapped := ImportMap.Lookup(ImportMap.Build(importMapFile.value), scope, specifier);
      var resolved := ResolveUrl(mapped, scope, host);
      if !(StartsWith(mapped, "node:") || host.isBuiltin(mapped)) && resolved.Success?
         && StartsWith(resolved.value, "https://") && resolved.value !in memo
      {
        var head := Fetch.Fetch(resolved.value, HeadInit, host, respond, fuel);
        if head.Success? && head.value.status == 200 {
          added := Some((resolved.value, head.value.url));
        }
      }
    }
  }

  /** The memo only grows: an existing entry is never rewritten, and at most
      one new entry is added per call. */
  lemma MemoOnlyGrows(table: ImportMap.Table, memo: map<string, string>, importMapFile: Option<ImportMap.Config>,
                      specifier: string, parentURL: Option<string>, host: Host.Host, respond: Fetch.Respond, fuel: nat)
    ensures var after := ResolveStep(table, memo, importMapFile, specifier, parentURL, host, respond, fuel).cacheForHead;
            && (forall u :: u in memo ==> u in after && after[u] == memo[u])
            && |after.Keys - memo.Keys| <= 1
  {
    var added := MemoShape(table, memo, importMapFile, specifier, parentURL, host, respond, fuel);
    var after := ResolveStep(table, memo, importMapFile, specifier, parentURL, host, respond, fuel).cacheForHead;
    if added.Some? {
      assert after.Keys - memo.Keys == {added.value.0};
    } else {
      assert after.Keys - memo.Keys == {};
    }
  }

  /** Every answer carries `shortCircuit`, and a memoised one no format. */
  lemma ResolveAlwaysShortCircuits(table: ImportMap.Table, memo: map<string, string>,
                                   importMapFile: Option<ImportMap.Config>, specifier: string,
                                   parentURL: Option<string>, host: Host.Host, respond: Fetch.Respond, fuel: nat)
    ensures var r := ResolveStep(table, memo, importMapFile, specifier, parentURL, host, respond, fuel).result;
            r.Success? ==> r.value.shortCircuit && r.value.format.None?
  {
  }
}
