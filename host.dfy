/** The foreign collaborators of the loader, taken as uninterpreted
    functions supplied by the caller: the WHATWG URL parser, Node's builtin
    registry, SHA-1, `path.join`/`path.resolve` and JSON encoding of the
    sidecar record. Nothing is assumed about them except what a lemma
    states in its own `requires`. */
module Host {
  import opened Wrappers

  /** An error thrown by `new URL(...)`, known by its `code`. */
  datatype UrlError = UrlError(code: string) {
    /** `e.code === "ERR_INVALID_URL"`. */
    predicate IsInvalidUrl() {
      code == "ERR_INVALID_URL"
    }
  }

  /** A JSON object whose members are strings: the sidecar record, with the
      members whose value is `undefined` left out as `JSON.stringify` does. */
  type Record = map<string, string>

  datatype Host = Host(
    /** `new URL(input, base).href` (no base when `base` is None). */
    parseUrl: (string, Option<string>) -> Result<string, UrlError>,
    /** `new URL(url).origin`. */
    originOf: string -> Result<string, UrlError>,
    /** `isBuiltin` of Node's `module` package. */
    isBuiltin: string -> bool,
    /** The hex SHA-1 digest of a string. */
    sha1: string -> string,
    /** `path.join(a, b, c)`. */
    joinPath: (string, string, string) -> string,
    /** `path.resolve(p)` against the working directory. */
    absolutePath: string -> string,
    /** `JSON.stringify` and `JSON.parse` of a sidecar record; `parse`
        yields None when the text is not a JSON object. */
    encodeJson: Record -> string,
    decodeJson: string -> Option<Record>)

  /** JSON reads back every record it wrote. */
  ghost predicate JsonRoundTrips(h: Host) {
    forall r: Record {:trigger h.encodeJson(r)} :: h.decodeJson(h.encodeJson(r)) == Some(r)
  }
}
