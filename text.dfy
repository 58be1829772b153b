/**
 * The string primitives the parser is built from: Python's notion of
 * whitespace (what `str.strip()` removes and what `\s` matches), ASCII
 * digits for `\d`, prefix and substring tests, and the case folding that
 * `re.IGNORECASE` applies to the Latin letters of the question tokens.
 */
module Text {

  /** Python's `str.isspace`, written out by code point. */
  predicate IsSpace(c: char) {
    var n := c as int;
    (0x09 <= n <= 0x0D) || (0x1C <= n <= 0x20) || n == 0x85 || n == 0xA0 || n == 0x1680
    || (0x2000 <= n <= 0x200A) || n == 0x2028 || n == 0x2029 || n == 0x202F || n == 0x205F || n == 0x3000
  }

  predicate IsDigit(c: char) {
    '0' <= c <= '9'
  }

  /** Length of the longest prefix of `s` made of whitespace. */
  function LeadingSpaces(s: string): (k: nat)
    ensures k <= |s|
    ensures forall i :: 0 <= i < k ==> IsSpace(s[i])
    ensures k < |s| ==> !IsSpace(s[k])
  {
    if s == [] || !IsSpace(s[0]) then 0 else 1 + LeadingSpaces(s[1..])
  }

  /** Length of the longest suffix of `s` made of whitespace. */
  function TrailingSpaces(s: string): (k: nat)
    ensures k <= |s|
    ensures forall i :: |s| - k <= i < |s| ==> IsSpace(s[i])
    ensures k < |s| ==> !IsSpace(s[|s| - 1 - k])
  {
    if s == [] || !IsSpace(s[|s| - 1]) then 0 else 1 + TrailingSpaces(s[..|s| - 1])
  }

  /** Length of the longest prefix of `s` made of digits. */
  function LeadingDigits(s: string): (k: nat)
    ensures k <= |s|
    ensures forall i :: 0 <= i < k ==> IsDigit(s[i])
    ensures k < |s| ==> !IsDigit(s[k])
  {
    if s == [] || !IsDigit(s[0]) then 0 else 1 + LeadingDigits(s[1..])
  }

  /** `r` occurs in `s` starting at index `a`. */
  predicate OccursAt(s: string, r: string, a: nat) {
    a + |r| <= |s| && s[a..a + |r|] == r
  }

  /** `str.strip()`: `s` without the whitespace at either end. */
  function Strip(s: string): string {
    var t := s[LeadingSpaces(s)..];
    t[..|t| - TrailingSpaces(t)]
  }

  /**
   * What `Strip` leaves: the slice of `s` between its leading and trailing
   * whitespace; empty exactly when `s` is all whitespace, and otherwise
   * beginning and ending with a non-whitespace character.
   */
  lemma StripTrims(s: string)
    ensures var r := Strip(s);
            && (r == [] <==> forall i :: 0 <= i < |s| ==> IsSpace(s[i]))
            && (r != [] ==> !IsSpace(r[0]) && !IsSpace(r[|r| - 1]))
            && exists a: nat :: OccursAt(s, r, a)
                                && (forall i :: 0 <= i < a ==> IsSpace(s[i]))
                                && (forall i :: a + |r| <= i < |s| ==> IsSpace(s[i]))
  {
    var a := LeadingSpaces(s);
    assert OccursAt(s, Strip(s), a);
  }

  /** `s.startswith(prefix)` */
  predicate StartsWith(s: string, prefix: string) {
    |prefix| <= |s| && s[..|prefix|] == prefix
  }

  /** `pattern in s`: some slice of `s` equals `pattern`. */
  function Contains(s: string, pattern: string): (r: bool)
    ensures r <==> exists i: nat :: OccursAt(s, pattern, i)
  {
    if StartsWith(s, pattern) then
      assert OccursAt(s, pattern, 0);
      true
    else if s == [] then
      false
    else
      var r := Contains(s[1..], pattern);
      assert forall j: nat :: OccursAt(s[1..], pattern, j) <==> OccursAt(s, pattern, j + 1) by {
        forall j: nat ensures OccursAt(s[1..], pattern, j) <==> OccursAt(s, pattern, j + 1) {
          OccursAfterFirst(s, pattern, j);
        }
      }
      assert forall j: nat :: OccursAt(s, pattern, j) && j >= 1 ==> OccursAt(s[1..], pattern, j - 1) by {
        forall j: nat | OccursAt(s, pattern, j) && j >= 1 ensures OccursAt(s[1..], pattern, j - 1) {
          OccursAfterFirst(s, pattern, j - 1);
        }
      }
      assert !OccursAt(s, pattern, 0);
      r
  }

  /** An occurrence in `s[1..]` is an occurrence in `s` one place later. */
  lemma OccursAfterFirst(s: string, pattern: string, j: nat)
    requires s != []
    ensures OccursAt(s[1..], pattern, j) <==> OccursAt(s, pattern, j + 1)
  {
    if j + 1 + |pattern| <= |s| {
      assert s[1..][j..j + |pattern|] == s[j + 1..j + 1 + |pattern|];
    }
  }

  /** Simple lower-case mapping for ASCII and Latin-1 letters. */
  function Lower(c: char): char {
    if 'A' <= c <= 'Z' then (c as int + 32) as char
    else if 0xC0 <= c as int <= 0xDE && c as int != 0xD7 then (c as int + 32) as char
    else c
  }

  /** Two strings of equal length that agree letter by letter up to case. */
  predicate EqualsIgnoreCase(s: string, t: string) {
    |s| == |t| && forall i :: 0 <= i < |s| ==> Lower(s[i]) == Lower(t[i])
  }
}
