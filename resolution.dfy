/** Types shared by the three `resolve` hooks. */
module Resolution {
  import opened Wrappers
  import Host
  import Fetch

  /** What `resolve` resolves to: `{url, format?, shortCircuit?}`. */
  datatype Resolved = Resolved(url: string, format: Option<string>, shortCircuit: bool)

  datatype ResolveError =
    | UrlFailure(urlError: Host.UrlError)
    | NetworkFailure(fetchError: Fetch.FetchError)
      /** `require` of `import_map.json` threw. */
    | ImportMapUnreadable
      /** The host's `defaultResolve` rejected, on the retry as well. */
    | DefaultResolveFailure(reason: string)

  /** `{ method: "head" }`. */
  const HeadInit: Fetch.RequestInit := Fetch.RequestInit("head", "", false)

  /** `"" + context.parentURL`: an absent parent reads as "undefined". */
  function ScopeString(parentURL: Option<string>): (s: string)
    ensures parentURL.Some? ==> s == parentURL.value
    ensures parentURL.None? ==> s == "undefined"
  {
    match parentURL
    case Some(p) => p
    case None => "undefined"
  }
}
