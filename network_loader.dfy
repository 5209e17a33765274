/** The `resolve` hook of `src/network-module-loader.ts`, the one the command
    line registers: a constant import map built from `package.json`, builtins
    passed on with the parent cleared, delegation to the host's
    `defaultResolve` with one `/`-prefixed retry, and the `cacheForHead`
    memo of HEAD-checked `https://` URLs. */
module NetworkLoader {
  import opened Wrappers
  import opened Strings
  import Host
  import ImportMap
  import Fetch
  import opened Resolution

  /** `process.env["NODE_NETWORK_IMPORT_CACHE_DIR"] || ".cache"`. */
  function CacheRoot(env: Option<string>): (root: string)
    ensures env.Some? && env.value != "" ==> root == env.value
    ensures (env.None? || env.value == "") ==> root == ".cache"
  {
    OrElse(env, ".cache")
  }

  /** What the host's resolver answers: `{url, format}`. */
  datatype DefaultResolved = DefaultResolved(url: string, format: Option<string>)

  /** The host's `defaultResolve(specifier, {parentURL, conditions})`; a
      rejection carries its reason. */
  type DefaultResolve = (string, Option<string>, seq<string>) -> Result<DefaultResolved, string>

  /** The caller's hook context, whose `parentURL` the hook may clear. */
  class HookContext {
    var parentURL: Option<string>
    const conditions: seq<string>

    constructor(parentURL: Option<string>, conditions: seq<string>)
      ensures this.parentURL == parentURL && this.conditions == conditions
    {
      this.parentURL := parentURL;
      this.conditions := conditions;
    }
  }

  /** The specifier after the import map, looked up under `"" + parentURL`. */
  function Mapped(importMaps: ImportMap.Table, specifier: string, parentURL: Option<string>): string {
    ImportMap.Lookup(importMaps, ScopeString(parentURL), specifier)
  }

  predicate IsBuiltin(mapped: string, host: Host.Host) {
    StartsWith(mapped, "node:") || host.isBuiltin(mapped)
  }

  /** The parent handed to `defaultResolve`: cleared for a builtin. */
  function DelegatedParent(mapped: string, parentURL: Option<string>, host: Host.Host): (p: Option<string>)
    ensures IsBuiltin(mapped, host) ==> p.None?
    ensures !IsBuiltin(mapped, host) ==> p == parentURL
  {
    if IsBuiltin(mapped, host) then None else parentURL
  }

  /** `defaultResolve(specifier).catch(() => defaultResolve("/" + specifier))`. */
  function Delegate(mapped: string, parent: Option<string>, conditions: seq<string>, defaultResolve: DefaultResolve)
    : (r: Result<DefaultResolved, string>)
    ensures defaultResolve(mapped, parent, conditions).Success? ==> r == defaultResolve(mapped, parent, conditions)
    ensures defaultResolve(mapped, parent, conditions).Failure? ==> r == defaultResolve("/" + mapped, parent, conditions)
  {
    match defaultResolve(mapped, parent, conditions)
    case Success(d) => Success(d)
    case Failure(_) => defaultResolve("/" + mapped, parent, conditions)
  }

  /** The result, the memo afterwards, and the context's parent afterwards. */
  datatype NetStep = NetStep(result: Result<Resolved, ResolveError>, cacheForHead: map<string, string>,
                             parentURL: Option<string>)

  /** One call of `resolve(specifier, context, defaultResolve)`. */
  function ResolveStep(importMaps: ImportMap.Table, memo: map<string, string>, specifier: string,
                       parentURL: Option<string>, conditions: seq<string>, defaultResolve: DefaultResolve,
                       host: Host.Host, respond: Fetch.Respond, fuel: nat): NetStep
  {
    var mapped := Mapped(importMaps, specifier, parentURL);
    var parent := DelegatedParent(mapped, parentURL, host);
    match Delegate(mapped, parent, conditions, defaultResolve)
    case Failure(reason) => NetStep(Failure(DefaultResolveFailure(reason)), memo, parent)
    case Success(DefaultResolved(resolvedURL, format)) =>
      if !StartsWith(resolvedURL, "https://") then NetStep(Success(Resolved(resolvedURL, format, false)), memo, parent)
      else if resolvedURL in memo then NetStep(Success(Resolved(memo[resolvedURL], None, true)), memo, parent)
      else match Fetch.Fetch(resolvedURL, HeadInit, host, respond, fuel)
        case Failure(e) => NetStep(Failure(NetworkFailure(e)), memo, parent)
        case Success(res) =>
          if res.status == 200 then
            NetStep(Success(Resolved(res.url, None, true)), memo[resolvedURL := res.url], parent)
          else NetStep(Success(Resolved(resolvedURL, format, false)), memo, parent)
  }

  /** The module-level state of `src/network-module-loader.ts`. */
  class Loader {
    /** Built once from `package.json` and never changed. */
    const importMaps: ImportMap.Table
    var cacheForHead: map<string, string>

    constructor(packageJson: ImportMap.Config)
      ensures importMaps == ImportMap.Build(packageJson) && cacheForHead == map[]
    {
      importMaps := ImportMap.Build(packageJson);
      cacheForHead := map[];
    }

    method Resolve(specifier: string, context: HookContext, defaultResolve: DefaultResolve,
                   host: Host.Host, respond: Fetch.Respond, fuel: nat)
      returns (r: Result<Resolved, ResolveError>)
      modifies this, context
      ensures var step := ResolveStep(importMaps, old(cacheForHead), specifier, old(context.parentURL),
                                      context.conditions, defaultResolve, host, respond, fuel);
              r == step.result && cacheForHead == step.cacheForHead && context.parentURL == step.parentURL
    {
      var mapped := ImportMap.Lookup(importMaps, ScopeString(context.parentURL), specifier);
      if StartsWith(mapped, "node:") || host.isBuiltin(mapped) {
        context.parentURL := None;
      }
      var answer := defaultResolve(mapped, context.parentURL, context.conditions);
      if answer.Failure? {
        answer := defaultResolve("/" + mapped, context.parentURL, context.conditions);
      }
      if answer.Failure? {
        return Failure(DefaultResolveFailure(answer.error));
      }
      var resolvedURL, format := answer.value.url, answer.value.format;
      if StartsWith(resolvedURL, "https://") {
        if resolvedURL in cacheForHead {
          return Success(Resolved(cacheForHead[resolvedURL], None, true));
        }
        var head := Fetch.Fetch(resolvedURL, HeadInit, host, respond, fuel);
        if head.Failure? {
          return Failure(NetworkFailure(head.error));
        }
        if head.value.status == 200 {
          cacheForHead := cacheForHead[resolvedURL := head.value.url];
          return Success(Resolved(cacheForHead[resolvedURL], None, true));
        }
      }
      return Success(Resolved(resolvedURL, format, false));
    }
  }

  // ---------------------------------------------------------------------
  // Properties of one resolution

  /** The context's parent is cleared exactly for a builtin, and otherwise
      left as it was, whatever the rest of the call does. */
  lemma BuiltinClearsParent(importMaps: ImportMap.Table, memo: map<string, string>, specifier: string,
                            parentURL: Option<string>, conditions: seq<string>, defaultResolve: DefaultResolve,
                            host: Host.Host, respond: Fetch.Respond, fuel: nat)
    ensures var after := ResolveStep(importMaps, memo, specifier, parentURL, conditions, defaultResolve,
                                     host, respond, fuel).parentURL;
            && (IsBuiltin(Mapped(importMaps, specifier, parentURL), host) ==> after.None?)
            && (!IsBuiltin(Mapped(importMaps, specifier, parentURL), host) ==> after == parentURL)
  {
  }

  /** `defaultResolve` is asked about the mapped specifier and, only when
      that rejects, about "/" + it: a resolver that agrees on those questions
      gives the same call, and one that answers the first makes the second
      irrelevant. */
  lemma DefaultResolveAskedAtMostTwice(importMaps: ImportMap.Table, memo: map<string, string>, specifier: string,
                                       parentURL: Option<string>, conditions: seq<string>,
                                       defaultResolve: DefaultResolve, defaultResolve2: DefaultResolve,
                                       host: Host.Host, respond: Fetch.Respond, fuel: nat)
    requires var mapped := Mapped(importMaps, specifier, parentURL);
             var parent := DelegatedParent(mapped, parentURL, host);
             && defaultResolve2(mapped, parent, conditions) == defaultResolve(mapped, parent, conditions)
             && (defaultResolve(mapped, parent, conditions).Failure? ==>
                   defaultResolve2("/" + mapped, parent, conditions) == defaultResolve("/" + mapped, parent, conditions))
    ensures ResolveStep(importMaps, memo, specifier, parentURL, conditions, defaultResolve2, host, respond, fuel)
         == ResolveStep(importMaps, memo, specifier, parentURL, conditions, defaultResolve, host, respond, fuel)
  {
  }

  /** Two rejections reject the call with the second reason and no change
      to the memo. */
  lemma SecondRejectionPropagates(importMaps: ImportMap.Table, memo: map<string, string>, specifier: string,
                                  parentURL: Option<string>, conditions: seq<string>, defaultResolve: DefaultResolve,
                                  host: Host.Host, respond: Fetch.Respond, fuel: nat)
    requires var mapped := Mapped(importMaps, specifier, parentURL);
             var parent := DelegatedParent(mapped, parentURL, host);
             defaultResolve(mapped, parent, conditions).Failure? &&
             defaultResolve("/" + mapped, parent, conditions).Failure?
    ensures var mapped := Mapped(importMaps, specifier, parentURL);
            var parent := DelegatedParent(mapped, parentURL, host);
            var step := ResolveStep(importMaps, memo, specifier, parentURL, conditions, defaultResolve,
                                    host, respond, fuel);
            step.result == Failure(DefaultResolveFailure(defaultResolve("/" + mapped, parent, conditions).error))
            && step.cacheForHead == memo
  {
  }

  /** What comes back once `defaultResolve` has answered `d`: a URL that is
      not `https://` as answered, with its format and no `shortCircuit`; a
      memoised one from the memo with no network request; otherwise a
      status-200 HEAD answer is stored and returned, and any other status
      returns `d` unchanged. */
  lemma ResolvedUrlHandling(importMaps: ImportMap.Table, memo: map<string, string>, specifier: string,
                            parentURL: Option<string>, conditions: seq<string>, defaultResolve: DefaultResolve,
                            host: Host.Host, respond: Fetch.Respond, fuel: nat,
                            respond2: Fetch.Respond, fuel2: nat, d: DefaultResolved)
    requires var mapped := Mapped(importMaps, specifier, parentURL);
             Delegate(mapped, DelegatedParent(mapped, parentURL, host), conditions, defaultResolve) == Success(d)
    ensures var step := ResolveStep(importMaps, memo, specifier, parentURL, conditions, defaultResolve,
                                    host, respond, fuel);
            var head := Fetch.Fetch(d.url, HeadInit, host, respond, fuel);
            && (!StartsWith(d.url, "https://") ==>
                  step.result == Success(Resolved(d.url, d.format, false)) && step.cacheForHead == memo)
            && (StartsWith(d.url, "https://") && d.url in memo ==>
                  && step == ResolveStep(importMaps, memo, specifier, parentURL, conditions, defaultResolve,
                                         host, respond2, fuel2)
                  && step.result == Success(Resolved(memo[d.url], None, true))
                  && step.cacheForHead == memo)
            && (StartsWith(d.url, "https://") && d.url !in memo && head.Success? && head.value.status == 200 ==>
                  && step.cacheForHead == memo[d.url := head.value.url]
                  && step.result == Success(Resolved(step.cacheForHead[d.url], None, true)))
            && (StartsWith(d.url, "https://") && d.url !in memo && head.Success? && head.value.status != 200 ==>
                  step.result == Success(Resolved(d.url, d.format, false)) && step.cacheForHead == memo)
            && (StartsWith(d.url, "https://") && d.url !in memo && head.Failure? ==>
                  step.result == Failure(NetworkFailure(head.error)) && step.cacheForHead == memo)
  {
  }

  /** A CDN answering the HEAD request for `a` with a redirect to `b`, where
      `b` is served as JavaScript: the call returns `b` short-circuited and
      memoises `a` as `b`, and the next call for the same specifier returns
      `b` again with no network request. */
  lemma RedirectIsFollowedThenMemoised(importMaps: ImportMap.Table, memo: map<string, string>, specifier: string,
                                       parentURL: Option<string>, conditions: seq<string>,
                                       defaultResolve: DefaultResolve, host: Host.Host,
                                       respond: Fetch.Respond, fuel: nat, respond2: Fetch.Respond, fuel2: nat,
                                       a: string, location: string, b: string, format: Option<string>)
    requires var mapped := Mapped(importMaps, specifier, parentURL);
             Delegate(mapped, DelegatedParent(mapped, parentURL, host), conditions, defaultResolve)
               == Success(DefaultResolved(a, format))
    requires StartsWith(a, "https://") && a !in memo
    requires respond(Fetch.Request("head", a)) == Some(Fetch.RawResponse(302, location, "", ""))
    requires location != "" && host.parseUrl(location, Some(a)) == Success(b)
    requires respond(Fetch.Request("head", b)) == Some(Fetch.RawResponse(200, "", "text/javascript", ""))
    ensures var first := ResolveStep(importMaps, memo, specifier, parentURL, conditions, defaultResolve,
                                     host, respond, fuel + 2);
            var second := ResolveStep(importMaps, first.cacheForHead, specifier, parentURL, conditions,
                                      defaultResolve, host, respond2, fuel2);
            && first.result == Success(Resolved(b, None, true))
            && first.cacheForHead == memo[a := b]
            && second.result == first.result
            && second.cacheForHead == first.cacheForHead
  {
    Fetch.JavaScriptIsAccepted();
    Fetch.FetchFollowsRedirect(a, HeadInit, host, respond, fuel + 1, Fetch.RawResponse(302, location, "", ""), b);
    assert Fetch.Fetch(b, HeadInit.(redirected := true), host, respond, fuel + 1)
        == Success(Fetch.Response(b, true, true, 200));
  }
}
