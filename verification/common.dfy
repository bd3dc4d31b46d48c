/** Small value types and text checks shared by every module. */
module Common {

  /** A value that may be absent, for the source's `None`. */
  datatype Option<+T> = None | Some(value: T)

  /** A file that is created once: complete, or torn by a crash while it was written. */
  datatype File<T> = Full(content: T) | Torn

  /** The white space that Python's `str.strip` removes, as far as identifiers use it. */
  predicate WhiteSpace(c: char) {
    c == ' ' || c == '\t' || c == '\n' || c == '\r'
  }

  /** A string that is empty once stripped; identifier checks reject it. */
  predicate Blank(s: string) {
    forall i :: 0 <= i < |s| ==> WhiteSpace(s[i])
  }

  /** `str.strip`. */
  function Strip(s: string): (t: string)
    ensures t != "" ==> !WhiteSpace(t[0]) && !WhiteSpace(t[|t| - 1])
    ensures |t| <= |s|
    decreases |s|
  {
    if s == "" then ""
    else if WhiteSpace(s[0]) then Strip(s[1..])
    else if WhiteSpace(s[|s| - 1]) then Strip(s[..|s| - 1])
    else s
  }

  /** The recurring `_clean`: the stripped text, when it is not empty and not too long. */
  function Clean(s: string, max: nat): Option<string> {
    if Strip(s) == "" || |Strip(s)| > max then None else Some(Strip(s))
  }

  /** A lower-case SHA-256 digest. */
  predicate IsDigest(s: string) {
    |s| == 64 && forall i :: 0 <= i < 64 ==> '0' <= s[i] <= '9' || 'a' <= s[i] <= 'f'
  }

  type Digest = s: string | IsDigest(s) witness Zeros(64)

  function Zeros(n: nat): (s: string)
    ensures |s| == n && forall i :: 0 <= i < n ==> s[i] == '0'
  {
    if n == 0 then "" else Zeros(n - 1) + "0"
  }
}
