/** Options, error results and the few string helpers that the handlers share. */
module Basics {
  datatype Option<+T> = None | Some(value: T)

  datatype Result<+T, +E> = Ok(value: T) | Err(error: E)

  predicate HasPrefix(s: string, prefix: string) {
    prefix <= s
  }

  predicate Contains(s: string, sub: string) {
    exists i | 0 <= i <= |s| :: HasPrefix(s[i..], sub)
  }

  predicate HasSuffix(s: string, suffix: string) {
    |suffix| <= |s| && s[|s| - |suffix|..] == suffix
  }

  function TrimSuffix(s: string, suffix: string): string {
    if HasSuffix(s, suffix) then s[..|s| - |suffix|] else s
  }

  /** The Unicode white space characters. */
  predicate IsSpace(c: char) {
    || c == ' ' || '\t' <= c <= '\r'
    || c in {'\U{0085}', '\U{00A0}', '\U{1680}', '\U{2028}', '\U{2029}', '\U{202F}', '\U{205F}', '\U{3000}'}
    || '\U{2000}' <= c <= '\U{200A}'
  }

  /** True when trimming white space from both ends leaves nothing. */
  predicate IsBlank(s: string) {
    forall i | 0 <= i < |s| :: IsSpace(s[i])
  }

  /** The part of `s` after its last colon, or all of `s` when it has none. */
  function AfterLastColon(s: string): (r: string)
    ensures ':' !in r
    ensures r == s || HasSuffix(s, ":" + r)
  {
    if s == "" || s[|s| - 1] == ':' then ""
    else
      var r := AfterLastColon(s[..|s| - 1]);
      assert r == s[..|s| - 1] || HasSuffix(s[..|s| - 1], ":" + r);
      r + [s[|s| - 1]]
  }
}
