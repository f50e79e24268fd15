/** The few java.lang.String and commons-lang StringUtils operations the
    plugin relies on, stated over `seq<char>`. */
module JavaStrings {
  import opened Wrappers

  /** `s.startsWith(p)`. */
  predicate StartsWith(s: string, p: string) {
    p <= s
  }

  /** `s.endsWith(p)`. */
  predicate EndsWith(s: string, p: string) {
    |p| <= |s| && s[|s| - |p|..] == p
  }

  /** `StringUtils.isEmpty(s)`: null or the empty string. */
  predicate IsEmpty(s: Option<string>) {
    s.None? || s.value == ""
  }

  /** How `StringBuilder.append(String)` renders a possibly null string. */
  function Render(s: Option<string>): string {
    if s.None? then "null" else s.value
  }

  /** How `StringBuilder.append(boolean)` renders a boolean. */
  function RenderBool(b: bool): string {
    if b then "true" else "false"
  }

  /** `String.trim` removes every character at or below U+0020 from both ends. */
  predicate Trimmable(c: char) {
    c <= ' '
  }

  /** Every character of `s` is one that `trim` removes. */
  predicate AllTrimmable(s: string) {
    forall k :: 0 <= k < |s| ==> Trimmable(s[k])
  }

  /** Drops the leading trimmable characters: the result is the longest
      suffix of `s` that does not start with one. */
  function TrimStart(s: string): (r: string)
    ensures |r| <= |s| && r == s[|s| - |r|..]
    ensures r == [] || !Trimmable(r[0])
    ensures forall k :: 0 <= k < |s| - |r| ==> Trimmable(s[k])
    decreases |s|
  {
    if |s| > 0 && Trimmable(s[0]) then TrimStart(s[1..]) else s
  }

  /** Drops the trailing trimmable characters: the result is the longest
      prefix of `s` that does not end with one. */
  function TrimEnd(s: string): (r: string)
    ensures |r| <= |s| && r == s[..|r|]
    ensures r == [] || !Trimmable(r[|r| - 1])
    ensures forall k :: |r| <= k < |s| ==> Trimmable(s[k])
    decreases |s|
  {
    if |s| > 0 && Trimmable(s[|s| - 1]) then TrimEnd(s[..|s| - 1]) else s
  }

  /** `s.trim()`. */
  function Trim(s: string): string {
    TrimEnd(TrimStart(s))
  }

  /** `"".equals(s.trim())` holds exactly when every character of `s` is at
      or below U+0020. */
  lemma TrimEmptyIffAllTrimmable(s: string)
    ensures Trim(s) == "" <==> AllTrimmable(s)
  {
  }

  function Min(a: int, b: int): int {
    if a <= b then a else b
  }

  /** `StringUtils.substring(s, 0, n)`: the first `n` characters of `s`, or
      all of `s` when it is shorter. */
  function Truncate(s: string, n: nat): (r: string)
    ensures r <= s
    ensures |r| == Min(n, |s|)
  {
    if n < |s| then s[..n] else s
  }
}
