/** Character classes and substring search, as JavaScript regular expressions and the database see them. */
module Text {

  predicate IsDigit(c: char) { '0' <= c <= '9' }
  predicate IsUpper(c: char) { 'A' <= c <= 'Z' }
  predicate IsLower(c: char) { 'a' <= c <= 'z' }

  /** `\w` of a regular expression without the `u` flag. */
  predicate IsWordChar(c: char) { IsDigit(c) || IsUpper(c) || IsLower(c) || c == '_' }

  /** `\W`. */
  predicate IsNonWord(c: char) { !IsWordChar(c) }

  /** The characters that `.` does not match (ECMAScript line terminators). */
  predicate IsLineTerminator(c: char)
  {
    c == '\n' || c == '\r' || c == '\U{2028}' || c == '\U{2029}'
  }

  /** Some character of `s` belongs to the class `cls`. */
  predicate AnyChar(s: string, cls: char -> bool)
  {
    exists j :: 0 <= j < |s| && cls(s[j])
  }

  /** Every character of `s` belongs to the class `cls`. */
  predicate AllChars(s: string, cls: char -> bool)
  {
    forall j :: 0 <= j < |s| ==> cls(s[j])
  }

  predicate NoLineTerminator(s: string)
  {
    forall j :: 0 <= j < |s| ==> !IsLineTerminator(s[j])
  }

  /** ASCII lower-casing; other characters are left as they are. */
  function ToLower(c: char): (d: char)
    ensures IsUpper(c) ==> IsLower(d)
    ensures !IsUpper(c) ==> d == c
  {
    if IsUpper(c) then (c as int + 32) as char else c
  }

  function Lower(s: string): (t: string)
    ensures |t| == |s|
    ensures forall j :: 0 <= j < |s| ==> t[j] == ToLower(s[j])
  {
    seq(|s|, j requires 0 <= j < |s| => ToLower(s[j]))
  }

  /** `needle` occurs in `hay` at some position. */
  predicate Contains(hay: string, needle: string)
  {
    exists i :: 0 <= i <= |hay| && needle <= hay[i..]
  }

  /** A `contains` filter with `mode: 'insensitive'`. */
  predicate ContainsInsensitive(hay: string, needle: string)
  {
    Contains(Lower(hay), Lower(needle))
  }

  /** Byte-wise lexicographic order on strings (a prefix comes first). */
  predicate LexLe(a: string, b: string)
  {
    a == [] || (b != [] && (a[0] < b[0] || (a[0] == b[0] && LexLe(a[1..], b[1..]))))
  }

  /** A string contains its own suffix. */
  lemma ContainsSuffix(a: string, b: string)
    ensures Contains(a + b, b)
  {
    assert (a + b)[|a|..] == b;
  }

  /** Appending text keeps what a string contains. */
  lemma ContainsExtend(x: string, needle: string, y: string)
    requires Contains(x, needle)
    ensures Contains(x + y, needle)
  {
    var i :| 0 <= i <= |x| && needle <= x[i..];
    assert (x + y)[i..] == x[i..] + y;
  }
}
