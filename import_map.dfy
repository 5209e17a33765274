/** The import-map table: built from `import_map.json` (or `package.json`)
    as the ordered entries of `Object.fromEntries`, and searched for the
    first entry whose key is a prefix of the scope. */
module ImportMap {
  import opened Wrappers
  import opened Strings

  /** One specifier-to-substitute map (`imports`, or one scope's map). */
  type Imports = map<string, string>
  type Entry = (string, Imports)
  /** The table in the order `Object.entries` lists it. */
  type Table = seq<Entry>

  /** The parsed configuration file. An absent `imports` or `scopes` member,
      or an absent scope map, reads as the empty map (the source's `|| {}`). */
  datatype Config = Config(imports: Imports, scopes: seq<Entry>)

  /** The value stored under key `k`, taken from its first entry. */
  function Get(t: Table, k: string): (r: Option<Imports>)
    ensures r.Some? <==> k in KeySet(t)
  {
    if t == [] then None
    else if t[0].0 == k then Some(t[0].1)
    else Get(t[1..], k)
  }

  /** Assigning one property of an object: an existing key keeps its place
      and takes the new value; a new key goes at the end. */
  function Put(t: Table, k: string, v: Imports): (r: Table)
    ensures Get(r, k) == Some(v)
    ensures forall k' :: k' != k ==> Get(r, k') == Get(t, k')
    ensures |r| >= |t| && forall i :: 0 <= i < |t| ==> r[i].0 == t[i].0
    ensures Get(t, k).None? ==> r == t + [(k, v)]
    ensures Get(t, k).Some? ==> |r| == |t|
  {
    if t == [] then [(k, v)]
    else if t[0].0 == k then [(k, v)] + t[1..]
    else [t[0]] + Put(t[1..], k, v)
  }

  /** `Object.fromEntries`, continuing from the object `t`. */
  function Fold(t: Table, es: seq<Entry>): (r: Table)
    ensures |r| >= |t| && forall i :: 0 <= i < |t| ==> r[i].0 == t[i].0
    decreases |es|
  {
    if es == [] then t else Fold(Put(t, es[0].0, es[0].1), es[1..])
  }

  function FromEntries(es: seq<Entry>): Table {
    Fold([], es)
  }

  /** The value of the last entry of `es` with key `k`. */
  function LastFor(es: seq<Entry>, k: string): (r: Option<Imports>)
    ensures r.Some? <==> k in KeySet(es)
  {
    if es == [] then None
    else if LastFor(es[1..], k).Some? then LastFor(es[1..], k)
    else if es[0].0 == k then Some(es[0].1)
    else None
  }

  /** Each scope's map laid over the default imports (`{...imports, ...scope}`). */
  function Overlay(imports: Imports, scopes: seq<Entry>): (r: seq<Entry>)
    ensures |r| == |scopes| && KeySet(r) == KeySet(scopes)
  {
    if scopes == [] then []
    else [(scopes[0].0, imports + scopes[0].1)] + Overlay(imports, scopes[1..])
  }

  /** The table the source builds: the defaults under "undefined", every
      scope over the defaults, then the defaults again under "". */
  function Build(c: Config): (r: Table)
    ensures |r| >= 1 && r[0].0 == "undefined"
  {
    FromEntries([("undefined", c.imports)] + Overlay(c.imports, c.scopes) + [("", c.imports)])
  }

  /** The value a scope's map gives a specifier: the `|| specifier` fallback
      for an absent or empty substitute. */
  function MapValue(m: Imports, specifier: string): (r: string)
    ensures r == specifier || (specifier in m && r == m[specifier] != "")
    ensures specifier in m && m[specifier] != "" ==> r == m[specifier]
  {
    if specifier in m && m[specifier] != "" then m[specifier] else specifier
  }

  /** The lookup: the first entry whose key is a prefix of the scope is the only
      one consulted; with no such entry the specifier is kept. */
  function Lookup(t: Table, scope: string, specifier: string): string {
    if t == [] then specifier
    else if StartsWith(scope, t[0].0) then MapValue(t[0].1, specifier)
    else Lookup(t[1..], scope, specifier)
  }

  /** Entry `i` is the first whose key is a prefix of `scope`. */
  ghost predicate IsFirstMatch(t: Table, scope: string, i: int) {
    0 <= i < |t| && StartsWith(scope, t[i].0) &&
    forall j :: 0 <= j < i ==> !StartsWith(scope, t[j].0)
  }

  // ---------------------------------------------------------------------
  // Properties of the construction

  /** Last write wins across a concatenation. */
  lemma {:induction false} LastForAppend(a: seq<Entry>, b: seq<Entry>, k: string)
    ensures LastFor(a + b, k) == if LastFor(b, k).Some? then LastFor(b, k) else LastFor(a, k)
    decreases |a|
  {
    if a == [] {
      assert a + b == b;
    } else {
      assert (a + b)[1..] == a[1..] + b;
      LastForAppend(a[1..], b, k);
    }
  }

  /** `Object.fromEntries` keeps, for every key, the value of its last entry. */
  lemma {:induction false} FoldGet(t: Table, es: seq<Entry>, k: string)
    ensures Get(Fold(t, es), k) == if LastFor(es, k).Some? then LastFor(es, k) else Get(t, k)
    decreases |es|
  {
    if es != [] {
      FoldGet(Put(t, es[0].0, es[0].1), es[1..], k);
    }
  }

  /** The overlay of a scope is the defaults overridden by that scope's last map. */
  lemma {:induction false} OverlayLastFor(imports: Imports, scopes: seq<Entry>, k: string)
    ensures LastFor(Overlay(imports, scopes), k) ==
            if LastFor(scopes, k).Some? then Some(imports + LastFor(scopes, k).value) else None
  {
    if scopes != [] {
      OverlayLastFor(imports, scopes[1..], k);
      assert Overlay(imports, scopes)[1..] == Overlay(imports, scopes[1..]);
    }
  }

  /** What the built table holds under key `k`, read off the construction. */
  ghost function BuiltValue(c: Config, k: string): Option<Imports> {
    if k == "" then Some(c.imports)
    else if LastFor(c.scopes, k).Some? then Some(c.imports + LastFor(c.scopes, k).value)
    else if k == "undefined" then Some(c.imports)
    else None
  }

  lemma BuildGetAt(c: Config, k: string)
    ensures Get(Build(c), k) == BuiltValue(c, k)
  {
    var ov := Overlay(c.imports, c.scopes);
    var head: seq<Entry> := [("undefined", c.imports)];
    var tail: seq<Entry> := [("", c.imports)];
    var es := head + ov + tail;
    FoldGet([], es, k);
    LastForAppend(head + ov, tail, k);
    LastForAppend(head, ov, k);
    OverlayLastFor(c.imports, c.scopes, k);
    assert tail[1..] == [] && head[1..] == [];
  }

  /** What the built table holds under each key: the "" entry holds the
      defaults; a scope key (including a scope literally named "undefined")
      holds the defaults overridden by that scope; "undefined" otherwise
      holds the defaults; no other key is present. */
  lemma BuildGet(c: Config, k: string)
    ensures Get(Build(c), "") == Some(c.imports)
    ensures k != "" && LastFor(c.scopes, k).Some? ==>
              Get(Build(c), k) == Some(c.imports + LastFor(c.scopes, k).value)
    ensures LastFor(c.scopes, "undefined").None? ==> Get(Build(c), "undefined") == Some(c.imports)
    ensures k != "" && k != "undefined" && LastFor(c.scopes, k).None? ==> Get(Build(c), k).None?
  {
    BuildGetAt(c, "");
    BuildGetAt(c, "undefined");
    BuildGetAt(c, k);
  }

  /** The keys of a table or entry list. */
  function KeySet(t: seq<Entry>): set<string> {
    if t == [] then {} else {t[0].0} + KeySet(t[1..])
  }

  /** The keys of `es` are pairwise distinct. */
  ghost predicate DistinctKeys(es: seq<Entry>) {
    forall i, j :: 0 <= i < j < |es| ==> es[i].0 != es[j].0
  }

  /** The same, stated one entry at a time. */
  predicate UniqueKeys(es: seq<Entry>) {
    es == [] || (es[0].0 !in KeySet(es[1..]) && UniqueKeys(es[1..]))
  }

  lemma {:induction false} GetAbsent(t: Table, k: string)
    requires k !in KeySet(t)
    ensures Get(t, k).None?
  {
    if t != [] {
      GetAbsent(t[1..], k);
    }
  }

  lemma {:induction false} KeySetAppend(t: seq<Entry>, e: Entry)
    ensures KeySet(t + [e]) == KeySet(t) + {e.0}
  {
    if t != [] {
      assert (t + [e])[1..] == t[1..] + [e];
      KeySetAppend(t[1..], e);
    }
  }

  lemma {:induction false} NotInKeySet(es: seq<Entry>, k: string)
    requires forall i :: 0 <= i < |es| ==> es[i].0 != k
    ensures k !in KeySet(es)
  {
    if es != [] {
      assert forall i :: 0 <= i < |es[1..]| ==> es[1..][i] == es[i + 1];
      NotInKeySet(es[1..], k);
    }
  }

  lemma {:induction false} DistinctIsUnique(es: seq<Entry>)
    requires DistinctKeys(es)
    ensures UniqueKeys(es)
  {
    if es != [] {
      var rest := es[1..];
      forall i | 0 <= i < |rest| ensures rest[i].0 != es[0].0 {
        assert rest[i] == es[i + 1];
      }
      NotInKeySet(rest, es[0].0);
      forall i, j | 0 <= i < j < |rest| ensures rest[i].0 != rest[j].0 {
        assert rest[i] == es[i + 1] && rest[j] == es[j + 1];
      }
      DistinctIsUnique(rest);
    }
  }

  /** A key new to the object is appended: entries with distinct keys that are
      all new come out in their own order. */
  lemma {:induction false} FoldAppends(t: Table, es: seq<Entry>)
    requires KeySet(t) !! KeySet(es)
    requires UniqueKeys(es)
    ensures Fold(t, es) == t + es
    decreases |es|
  {
    if es != [] {
      GetAbsent(t, es[0].0);
      assert Put(t, es[0].0, es[0].1) == t + [es[0]];
      KeySetAppend(t, es[0]);
      FoldAppends(t + [es[0]], es[1..]);
      assert (t + [es[0]]) + es[1..] == t + es;
    }
  }

  /** Keys of `Overlay` are the scope keys, in order. */
  lemma {:induction false} OverlayShape(imports: Imports, scopes: seq<Entry>)
    ensures |Overlay(imports, scopes)| == |scopes|
    ensures forall i :: 0 <= i < |scopes| ==>
              Overlay(imports, scopes)[i] == (scopes[i].0, imports + scopes[i].1)
  {
    if scopes != [] {
      OverlayShape(imports, scopes[1..]);
    }
  }

  /** With distinct scope keys other than "undefined" and "", the table is laid
      out in construction order: "undefined", each scope in file order, "". */
  lemma BuildLayout(c: Config)
    requires DistinctKeys(c.scopes)
    requires forall i :: 0 <= i < |c.scopes| ==> c.scopes[i].0 != "" && c.scopes[i].0 != "undefined"
    ensures |Build(c)| == |c.scopes| + 2
    ensures Build(c)[0] == ("undefined", c.imports)
    ensures forall i :: 0 <= i < |c.scopes| ==>
              Build(c)[i + 1] == (c.scopes[i].0, c.imports + c.scopes[i].1)
    ensures Build(c)[|c.scopes| + 1] == ("", c.imports)
  {
    var ov := Overlay(c.imports, c.scopes);
    OverlayShape(c.imports, c.scopes);
    var es := [("undefined", c.imports)] + ov + [("", c.imports)];
    assert DistinctKeys(es) by {
      forall i, j | 0 <= i < j < |es| ensures es[i].0 != es[j].0 {
        if 0 < i {
          assert es[i] == ov[i - 1];
        }
        if j < |es| - 1 {
          assert es[j] == ov[j - 1];
          assert es[j].0 == c.scopes[j - 1].0;
        }
      }
    }
    DistinctIsUnique(es);
    FoldAppends([], es);
    assert Build(c) == es;
  }

  // ---------------------------------------------------------------------
  // Properties of the lookup

  /** One differing character rules a prefix out. */
  lemma NotPrefixAt(s: string, prefix: string, i: int)
    requires 0 <= i < |prefix| && i < |s| && s[i] != prefix[i]
    ensures !StartsWith(s, prefix)
  {
  }

  /** The lookup reads exactly the first matching entry. */
  lemma {:induction false} LookupFirstMatch(t: Table, scope: string, specifier: string, i: int)
    requires IsFirstMatch(t, scope, i)
    ensures Lookup(t, scope, specifier) == MapValue(t[i].1, specifier)
  {
    if i > 0 {
      assert !StartsWith(scope, t[0].0);
      assert IsFirstMatch(t[1..], scope, i - 1) by {
        forall j | 0 <= j < i - 1 ensures !StartsWith(scope, t[1..][j].0) {
          assert t[1..][j] == t[j + 1];
        }
      }
      LookupFirstMatch(t[1..], scope, specifier, i - 1);
    }
  }

  /** With no matching entry the specifier is returned unchanged. */
  lemma {:induction false} LookupNoMatch(t: Table, scope: string, specifier: string)
    requires forall j :: 0 <= j < |t| ==> !StartsWith(scope, t[j].0)
    ensures Lookup(t, scope, specifier) == specifier
  {
    if t != [] {
      assert !StartsWith(scope, t[0].0);
      LookupNoMatch(t[1..], scope, specifier);
    }
  }

  /** A matching entry somewhere means there is a first one. */
  lemma {:induction false} FirstMatchExists(t: Table, scope: string, i: int)
    requires 0 <= i < |t| && StartsWith(scope, t[i].0)
    ensures exists j :: IsFirstMatch(t, scope, j)
    decreases i
  {
    if exists j :: 0 <= j < i && StartsWith(scope, t[j].0) {
      var j :| 0 <= j < i && StartsWith(scope, t[j].0);
      FirstMatchExists(t, scope, j);
    } else {
      assert IsFirstMatch(t, scope, i);
    }
  }

  /** A key that is present stands at some index with its value. */
  lemma {:induction false} GetIndex(t: Table, k: string)
    requires Get(t, k).Some?
    ensures exists i :: 0 <= i < |t| && t[i] == (k, Get(t, k).value)
  {
    if t[0].0 != k {
      GetIndex(t[1..], k);
      var i :| 0 <= i < |t[1..]| && t[1..][i] == (k, Get(t[1..], k).value);
      assert t[i + 1] == t[1..][i];
    } else {
      assert t[0] == (k, Get(t, k).value);
    }
  }

  /** The "" entry is a prefix of every scope, so a built table always has a
      first matching entry and the lookup never falls through. */
  lemma BuildAlwaysMatches(c: Config, scope: string)
    ensures exists i :: IsFirstMatch(Build(c), scope, i)
  {
    BuildGet(c, "");
    GetIndex(Build(c), "");
    var i :| 0 <= i < |Build(c)| && Build(c)[i] == ("", c.imports);
    assert StartsWith(scope, Build(c)[i].0);
    FirstMatchExists(Build(c), scope, i);
  }

  /** Scope precedence: a default "a" -> "X" overridden to "Y" under the scope
      "https://host/pkg/". A parent inside that scope sees "Y"; an unrelated
      parent, and a missing parent (the scope string "undefined"), see "X". */
  lemma ScopePrecedence()
    ensures var c := Config(map["a" := "X"], [("https://host/pkg/", map["a" := "Y"])]);
            && Lookup(Build(c), "https://host/pkg/mod.js", "a") == "Y"
            && Lookup(Build(c), "https://other/mod.js", "a") == "X"
            && Lookup(Build(c), "undefined", "a") == "X"
            && Lookup(Build(c), "https://host/pkg/mod.js", "b") == "b"
  {
    var c := Config(map["a" := "X"], [("https://host/pkg/", map["a" := "Y"])]);
    BuildLayout(c);
    var t := Build(c);
    assert t == [("undefined", map["a" := "X"]), ("https://host/pkg/", map["a" := "X"] + map["a" := "Y"]),
                 ("", map["a" := "X"])];
    NotPrefixAt("https://host/pkg/mod.js", "undefined", 0);
    NotPrefixAt("https://other/mod.js", "undefined", 0);
    assert StartsWith("https://host/pkg/mod.js", "https://host/pkg/");
    NotPrefixAt("https://other/mod.js", "https://host/pkg/", 8);
    assert StartsWith("https://other/mod.js", "");
    LookupFirstMatch(t, "https://host/pkg/mod.js", "a", 1);
    LookupFirstMatch(t, "https://host/pkg/mod.js", "b", 1);
    LookupFirstMatch(t, "https://other/mod.js", "a", 2);
    LookupFirstMatch(t, "undefined", "a", 0);
    assert StartsWith("undefined", "undefined");
  }

  /** Overlapping scopes resolve by file order, not by the longest prefix:
      the broader scope listed first wins over the narrower one. */
  lemma FirstMatchIsNotLongestPrefix()
    ensures var c := Config(map[], [("https://a/", map["x" := "1"]), ("https://a/b/", map["x" := "2"])]);
            Lookup(Build(c), "https://a/b/c.js", "x") == "1"
  {
    var c := Config(map[], [("https://a/", map["x" := "1"]), ("https://a/b/", map["x" := "2"])]);
    BuildLayout(c);
    assert Build(c)[1] == ("https://a/", map[] + map["x" := "1"]);
    NotPrefixAt("https://a/b/c.js", "undefined", 0);
    assert StartsWith("https://a/b/c.js", "https://a/");
  }
}
