/** White space and trimming of ECMAScript strings. */
module JsText {

  /** ECMAScript white space and line terminators. */
  predicate IsSpace(c: char)
  {
    var n := c as int;
    9 <= n <= 13 || n == 0x20 || n == 0xa0 || n == 0x1680 || 0x2000 <= n <= 0x200a
    || n == 0x2028 || n == 0x2029 || n == 0x202f || n == 0x205f || n == 0x3000 || n == 0xfeff
  }

  predicate IsQuote(c: char)
  {
    c == '\'' || c == '"'
  }

  /** How many spaces `s` starts with. */
  function Spaces(s: string): (n: nat)
    ensures n <= |s| && (n < |s| ==> !IsSpace(s[n]))
    ensures forall i :: 0 <= i < n ==> IsSpace(s[i])
  {
    if s == [] || !IsSpace(s[0]) then 0 else 1 + Spaces(s[1..])
  }

  function TrimRight(s: string): (r: string)
    ensures r <= s && (r != [] ==> !IsSpace(r[|r| - 1]))
  {
    if s == [] then []
    else if IsSpace(s[|s| - 1]) then TrimRight(s[..|s| - 1])
    else s
  }

  function Trim(s: string): string
  {
    TrimRight(s[Spaces(s)..])
  }

  predicate Trimmed(d: string)
  {
    d != [] && !IsSpace(d[0]) && !IsSpace(d[|d| - 1])
  }

  lemma TrimKeepsTrimmed(d: string)
    requires Trimmed(d)
    ensures Trim(d) == d
  {
    assert Spaces(d) == 0;
  }
}
