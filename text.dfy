/**
 * The string operations the pages apply to user input: `toLowerCase`,
 * `toUpperCase` (ASCII letters only), `includes` and `trim`, and the
 * case-insensitive "symbol or name contains the search term" test shared by
 * the watchlist and the markets page.
 */
module Text {

  predicate IsAsciiUpper(c: char) { 'A' <= c <= 'Z' }

  predicate IsAsciiLower(c: char) { 'a' <= c <= 'z' }

  function LowerChar(c: char): (d: char)
    ensures IsAsciiUpper(c) ==> d as int == c as int + 32
    ensures !IsAsciiUpper(c) ==> d == c
    ensures !IsAsciiUpper(d)
    ensures IsAsciiLower(d) <==> IsAsciiLower(c) || IsAsciiUpper(c)
  {
    if IsAsciiUpper(c) then (c as int + 32) as char else c
  }

  function UpperChar(c: char): (d: char)
    ensures IsAsciiLower(c) ==> d as int == c as int - 32
    ensures !IsAsciiLower(c) ==> d == c
    ensures !IsAsciiLower(d)
    ensures IsAsciiUpper(d) <==> IsAsciiLower(c) || IsAsciiUpper(c)
  {
    if IsAsciiLower(c) then (c as int - 32) as char else c
  }

  /**
   * `s.toLowerCase()` on the ASCII letters: each upper-case letter becomes
   * its lower-case form, every other character is kept.
   */
  function ToLower(s: string): (r: string)
    ensures |r| == |s|
    ensures forall i :: 0 <= i < |s| ==>
      if IsAsciiUpper(s[i]) then r[i] as int == s[i] as int + 32 else r[i] == s[i]
    ensures forall i :: 0 <= i < |r| ==> !IsAsciiUpper(r[i])
  {
    seq(|s|, i requires 0 <= i < |s| => LowerChar(s[i]))
  }

  /**
   * `s.toUpperCase()` on the ASCII letters: each lower-case letter becomes
   * its upper-case form, every other character is kept.
   */
  function ToUpper(s: string): (r: string)
    ensures |r| == |s|
    ensures forall i :: 0 <= i < |s| ==>
      if IsAsciiLower(s[i]) then r[i] as int == s[i] as int - 32 else r[i] == s[i]
    ensures forall i :: 0 <= i < |r| ==> !IsAsciiLower(r[i])
  {
    seq(|s|, i requires 0 <= i < |s| => UpperChar(s[i]))
  }

  /** Lower-casing an upper-cased string gives the lower-cased original. */
  lemma LowerOfUpper(s: string)
    ensures ToLower(ToUpper(s)) == ToLower(s)
  {
  }

  /** `s.includes(t)`: `t` occurs in `s` starting at some position. */
  predicate Includes(s: string, t: string)
    ensures Includes(s, t) ==> |t| <= |s|
  {
    exists i | 0 <= i <= |s| - |t| :: t <= s[i..]
  }

  lemma IncludesEmpty(s: string)
    ensures Includes(s, "")
  {
    assert "" <= s[0..];
  }

  lemma IncludesItself(s: string)
    ensures Includes(s, s)
  {
    assert s <= s[0..];
  }

  /** JavaScript's white space and line terminators, the characters `trim` removes. */
  predicate IsWhitespace(c: char)
  {
    var n := c as int;
    n == 0x09 || n == 0x0A || n == 0x0B || n == 0x0C || n == 0x0D || n == 0x20
    || n == 0xA0 || n == 0x1680 || (0x2000 <= n <= 0x200A) || n == 0x2028
    || n == 0x2029 || n == 0x202F || n == 0x205F || n == 0x3000 || n == 0xFEFF
  }

  predicate IsBlank(s: string)
  {
    forall i :: 0 <= i < |s| ==> IsWhitespace(s[i])
  }

  function TrimStart(s: string): (r: string)
    ensures r != [] ==> !IsWhitespace(r[0])
  {
    if s != [] && IsWhitespace(s[0]) then TrimStart(s[1..]) else s
  }

  function TrimEnd(s: string): (r: string)
    ensures r <= s
    ensures r != [] ==> !IsWhitespace(r[|r| - 1])
  {
    if s != [] && IsWhitespace(s[|s| - 1]) then TrimEnd(s[..|s| - 1]) else s
  }

  lemma {:induction false} TrimStartEmptyIffBlank(s: string)
    ensures TrimStart(s) == [] <==> IsBlank(s)
  {
    if s != [] && IsWhitespace(s[0]) {
      TrimStartEmptyIffBlank(s[1..]);
      assert forall i :: 1 <= i < |s| ==> s[i] == s[1..][i - 1];
    }
  }

  lemma {:induction false} TrimEndEmptyIffBlank(s: string)
    ensures TrimEnd(s) == [] <==> IsBlank(s)
  {
    if s != [] && IsWhitespace(s[|s| - 1]) {
      TrimEndEmptyIffBlank(s[..|s| - 1]);
      assert forall i :: 0 <= i < |s| - 1 ==> s[i] == s[..|s| - 1][i];
    }
  }

  /**
   * `s.trim()`: leading and trailing white space removed. The result is the
   * empty (falsy) string exactly when `s` is all white space, and otherwise
   * neither starts nor ends with white space.
   */
  function Trim(s: string): (r: string)
    ensures r == [] <==> IsBlank(s)
    ensures r != [] ==> !IsWhitespace(r[0]) && !IsWhitespace(r[|r| - 1])
  {
    var t := TrimStart(s);
    TrimStartEmptyIffBlank(s);
    TrimEndEmptyIffBlank(t);
    assert t != [] ==> !IsBlank(t);
    TrimEnd(t)
  }

  /**
   * `symbol.toLowerCase().includes(term.toLowerCase()) ||
   *  name.toLowerCase().includes(term.toLowerCase())`.
   */
  predicate SearchMatches(symbol: string, name: string, term: string)
  {
    Includes(ToLower(symbol), ToLower(term)) || Includes(ToLower(name), ToLower(term))
  }

  /** The empty search term matches every symbol and name. */
  lemma EmptyTermMatches(symbol: string, name: string)
    ensures SearchMatches(symbol, name, "")
  {
    IncludesEmpty(ToLower(symbol));
  }

  /** A symbol is found when searching for it typed in any letter case. */
  lemma SymbolMatchesAnyCase(symbol: string, name: string, term: string)
    requires ToLower(term) == ToLower(symbol)
    ensures SearchMatches(symbol, name, term)
  {
    IncludesItself(ToLower(symbol));
  }
}
