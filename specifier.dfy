/** The specifier classifiers shared by the three loader variants
    (`isBareSpecifier`, `isRelativeSpecifier` and
    `shouldBeTreatedAsRelativeOrAbsolutePath`). */
module Specifier {
  import opened Strings

  /** `isRelativeSpecifier`: the nested character tests of the source. */
  function IsRelativeSpecifier(s: string): (r: bool)
    ensures r <==> s == "." || s == ".." || StartsWith(s, "./") || StartsWith(s, "../")
  {
    if |s| >= 1 && s[0] == '.' then
      if |s| == 1 || s[1] == '/' then true
      else if s[1] == '.' then |s| == 2 || s[2] == '/'
      else false
    else false
  }

  /** `shouldBeTreatedAsRelativeOrAbsolutePath`. */
  function IsPathLike(s: string): (r: bool)
    ensures s == "" ==> !r
    ensures s != "" && s[0] == '/' ==> r
    ensures s != "" && s[0] != '/' ==> (r <==> IsRelativeSpecifier(s))
  {
    if s == "" then false
    else if s[0] == '/' then true
    else IsRelativeSpecifier(s)
  }

  /** `isBareSpecifier`, read as a boolean (the source returns the first
      character, or `undefined` for the empty string). */
  function IsBareSpecifier(s: string): (r: bool)
    ensures r <==> s != "" && !StartsWith(s, "/") && !StartsWith(s, ".")
  {
    |s| > 0 && s[0] != '/' && s[0] != '.'
  }

  /** Dot-names are not relative: only "." and ".." themselves, or a dot
      segment followed by "/", are. */
  lemma DotNamesAreNotRelative()
    ensures !IsRelativeSpecifier(".foo") && !IsRelativeSpecifier("..foo")
    ensures !IsRelativeSpecifier("...") && IsRelativeSpecifier("../x")
  {
  }

  /** A bare specifier is never path-like; a non-empty specifier that is
      neither bare nor path-like starts with a dot but is no dot segment. */
  lemma BareAndPathLikeAreDisjoint(s: string)
    ensures IsBareSpecifier(s) ==> !IsPathLike(s)
    ensures s != "" && !IsBareSpecifier(s) && !IsPathLike(s) ==> s[0] == '.' && !IsRelativeSpecifier(s)
  {
  }

  /** A leading "/" makes every specifier path-like, so the retry with
      "/" + specifier always resolves against the parent URL. */
  lemma SlashPrefixedIsPathLike(s: string)
    ensures IsPathLike("/" + s)
  {
  }
}
