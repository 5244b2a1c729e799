/**
 * Character case mapping, as used by Python's `str.lower()` and `str.upper()`.
 * The table covers the one-to-one mappings of ASCII, the Latin-1 supplement,
 * Latin Extended-A, the two Vietnamese horned letters and Latin Extended
 * Additional, including the irregular ones: Ÿ and ÿ, dotless ı and long ſ
 * (upper-cased to I and S), the micro sign (upper-cased to Greek Μ), capital
 * sharp ẞ (lower-cased to ß) and ẛ (upper-cased to Ṡ). Characters outside the
 * table, and those whose mapping is several characters, map to themselves.
 * Also the two methods called on a value that may not be a string.
 */
module Casing {
  import opened Wrappers
  import opened PyValues

  /** An upper-case letter whose lower-case partner is the next code point. */
  predicate IsPairUpper(c: char) {
    IsPairUpperCode(c as int)
  }

  predicate IsPairUpperCode(n: int) {
    || (0x100 <= n <= 0x12F && n % 2 == 0)
    || (0x132 <= n <= 0x137 && n % 2 == 0)
    || (0x139 <= n <= 0x148 && n % 2 == 1)
    || (0x14A <= n <= 0x177 && n % 2 == 0)
    || (0x179 <= n <= 0x17E && n % 2 == 1)
    || n == 0x1A0 || n == 0x1AF
    || (0x1E00 <= n <= 0x1E95 && n % 2 == 0)
    || (0x1EA0 <= n <= 0x1EFF && n % 2 == 0)
  }

  predicate IsLatin1Upper(c: char) {
    IsLatin1UpperCode(c as int)
  }

  predicate IsLatin1UpperCode(n: int) {
    0xC0 <= n <= 0xDE && n != 0xD7
  }

  function LowerChar(c: char): (r: char)
    ensures 'A' <= c <= 'Z' ==> r as int == c as int + 32
    ensures 'a' <= c <= 'z' || '0' <= c <= '9' ==> r == c
  {
    if 'A' <= c <= 'Z' || IsLatin1Upper(c) then (c as int + 32) as char
    else if IsPairUpper(c) then (c as int + 1) as char
    else if c == '\U{178}' then '\U{FF}'
    else if c == '\U{1E9E}' then '\U{DF}'
    else c
  }

  function UpperChar(c: char): (r: char)
    ensures 'a' <= c <= 'z' ==> r as int == c as int - 32
    ensures 'A' <= c <= 'Z' || '0' <= c <= '9' ==> r == c
  {
    if 'a' <= c <= 'z' || IsLatin1UpperCode(c as int - 32) then (c as int - 32) as char
    else if IsPairUpperCode(c as int - 1) then (c as int - 1) as char
    else if c == '\U{FF}' then '\U{178}'
    else if c == '\U{131}' then 'I'
    else if c == '\U{17F}' then 'S'
    else if c == '\U{B5}' then '\U{39C}'
    else if c == '\U{1E9B}' then '\U{1E60}'
    else c
  }

  /** `s.lower()` */
  function Lower(s: string): (r: string)
    ensures |r| == |s|
    ensures forall i :: 0 <= i < |s| ==> r[i] == LowerChar(s[i])
  {
    if s == [] then [] else [LowerChar(s[0])] + Lower(s[1..])
  }

  /** `s.upper()` */
  function Upper(s: string): (r: string)
    ensures |r| == |s|
    ensures forall i :: 0 <= i < |s| ==> r[i] == UpperChar(s[i])
  {
    if s == [] then [] else [UpperChar(s[0])] + Upper(s[1..])
  }

  /** Lower-casing an upper-case letter of the table and upper-casing it again gives the letter back. */
  lemma UpperOfLower(c: char)
    requires 'A' <= c <= 'Z' || IsLatin1Upper(c) || IsPairUpper(c) || c == '\U{178}'
    ensures UpperChar(LowerChar(c)) == c
  {
  }

  /** `v.lower()`: only a string has the method; anything else raises AttributeError. */
  function LowerText(v: Value): (r: Result<string, PyError>)
    ensures r.Ok? <==> v.PyStr?
  {
    if v.PyStr? then Ok(Lower(v.s)) else Err(AttributeError)
  }

  /** `v.upper()`, raising AttributeError in the same way. */
  function UpperText(v: Value): (r: Result<string, PyError>)
    ensures r.Ok? <==> v.PyStr?
  {
    if v.PyStr? then Ok(Upper(v.s)) else Err(AttributeError)
  }
}
