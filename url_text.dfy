/** String helpers for the "Enter WorldLore" link resolvers. */
module UrlText {

  predicate EndsWith(s: string, suffix: string)
  {
    |suffix| <= |s| && s[|s| - |suffix|..] == suffix
  }

  /** `String(base).replace(/\/$/, '')`: one '/' at the very end of the
      string is dropped (without the m flag, `$` matches only there). */
  function StripTrailingSlash(s: string): (r: string)
    ensures s == r || s == r + "/"
    ensures s == r + "/" <==> (|s| > 0 && s[|s| - 1] == '/')
  {
    if |s| > 0 && s[|s| - 1] == '/' then s[..|s| - 1] else s
  }

  /** Only one slash goes: a base ending in "//" keeps one of them. */
  lemma StripRemovesOneSlash(s: string)
    ensures StripTrailingSlash(s + "/") == s
    ensures StripTrailingSlash(s + "//") == s + "/"
  {
    assert (s + "/")[..|s|] == s;
    assert (s + "//")[..|s| + 1] == s + "/";
  }

  /** Appending the map path always yields a link ending in "/map". */
  lemma MapSuffix(s: string)
    ensures EndsWith(s + "/map", "/map")
  {
    assert (s + "/map")[|s|..] == "/map";
  }
}
