/**
 * The parts of Python's urllib.parse that the crawler's query builder uses:
 * `quote_plus` on each value and `urlencode` over an ordered list of
 * parameters, with the decoding a server applies to read them back.
 */
module UrlEncode {
  import opened Strings

  /** Characters `quote` never escapes: ASCII letters, digits and `_.-~`. */
  predicate IsUnreserved(c: char) {
    IsAsciiLetter(c) || IsDigit(c) || c == '_' || c == '.' || c == '-' || c == '~'
  }

  predicate IsAscii(c: char) {
    c as int < 128
  }

  predicate AllAscii(s: string) {
    forall i :: 0 <= i < |s| ==> IsAscii(s[i])
  }

  /** What `quote_plus` can produce: unreserved characters, `+` and `%XX` escapes. */
  predicate IsEncodedChar(c: char) {
    IsUnreserved(c) || c == '+' || c == '%'
  }

  function HexDigit(d: nat): (c: char)
    requires d < 16
    ensures IsUnreserved(c)
  {
    if d < 10 then ('0' as int + d) as char else ('A' as int + d - 10) as char
  }

  /** An (upper- or lower-case) hexadecimal digit, as `unquote` accepts. */
  predicate IsHex(c: char) {
    IsDigit(c) || ('A' <= c <= 'F') || ('a' <= c <= 'f')
  }

  function HexValue(c: char): (d: nat)
    requires IsHex(c)
    ensures d < 16
  {
    if IsDigit(c) then c as int - '0' as int
    else if 'A' <= c <= 'F' then c as int - 'A' as int + 10
    else c as int - 'a' as int + 10
  }

  lemma HexRoundTrip(d: nat)
    requires d < 16
    ensures IsHex(HexDigit(d)) && HexValue(HexDigit(d)) == d
  {
  }

  /** The UTF-8 encoding of one character, as the byte values `quote` escapes. */
  function Utf8(c: char): (bytes: seq<nat>)
    ensures 1 <= |bytes| <= 4
    ensures forall i :: 0 <= i < |bytes| ==> bytes[i] < 256
    ensures |bytes| == 1 <==> IsAscii(c)
    ensures IsAscii(c) ==> bytes == [c as int]
  {
    var n := c as int;
    if n < 0x80 then [n]
    else if n < 0x800 then [0xC0 + n / 0x40, 0x80 + n % 0x40]
    else if n < 0x10000 then [0xE0 + n / 0x1000, 0x80 + n / 0x40 % 0x40, 0x80 + n % 0x40]
    else [0xF0 + n / 0x40000, 0x80 + n / 0x1000 % 0x40, 0x80 + n / 0x40 % 0x40, 0x80 + n % 0x40]
  }

  /** `%XX` for each byte, with upper-case hexadecimal digits. */
  function PercentBytes(bytes: seq<nat>): (r: string)
    requires forall i :: 0 <= i < |bytes| ==> bytes[i] < 256
    ensures |r| == 3 * |bytes|
    ensures forall i :: 0 <= i < |r| ==> IsEncodedChar(r[i])
    decreases |bytes|
  {
    if bytes == [] then ""
    else "%" + [HexDigit(bytes[0] / 16), HexDigit(bytes[0] % 16)] + PercentBytes(bytes[1..])
  }

  /** `quote_plus` of one character. */
  function QuoteChar(c: char): (r: string)
    ensures forall i :: 0 <= i < |r| ==> IsEncodedChar(r[i])
    ensures IsUnreserved(c) ==> r == [c]
  {
    if IsUnreserved(c) then [c]
    else if c == ' ' then "+"
    else PercentBytes(Utf8(c))
  }

  /** `urllib.parse.quote_plus(s)`. */
  function QuotePlus(s: string): (r: string)
    ensures forall i :: 0 <= i < |r| ==> IsEncodedChar(r[i])
    ensures (forall i :: 0 <= i < |s| ==> IsUnreserved(s[i])) ==> r == s
    decreases |s|
  {
    if s == [] then ""
    else
      var rest := QuotePlus(s[1..]);
      var head := QuoteChar(s[0]);
      assert forall i :: |head| <= i < |head| + |rest| ==> (head + rest)[i] == rest[i - |head|];
      head + rest
  }

  /**
   * `unquote_plus` restricted to ASCII: `+` is a space and an escape of a
   * byte below 0x80 is that character; every other character is kept.
   */
  function UnquotePlus(s: string): string
    decreases |s|
  {
    if s == [] then ""
    else if s[0] == '+' then " " + UnquotePlus(s[1..])
    else if s[0] == '%' && |s| >= 3 && IsHex(s[1]) && IsHex(s[2]) && HexValue(s[1]) < 8 then
      [(HexValue(s[1]) * 16 + HexValue(s[2])) as char] + UnquotePlus(s[3..])
    else [s[0]] + UnquotePlus(s[1..])
  }

  /** Decoding an encoded character and then the rest is decoding the whole. */
  lemma UnquoteQuoteChar(c: char, rest: string)
    requires IsAscii(c)
    ensures UnquotePlus(QuoteChar(c) + rest) == [c] + UnquotePlus(rest)
  {
    var q := QuoteChar(c);
    if IsUnreserved(c) || c == ' ' {
      assert (q + rest)[1..] == rest;
    } else {
      var n := c as int;
      HexRoundTrip(n / 16);
      HexRoundTrip(n % 16);
      assert q == "%" + [HexDigit(n / 16), HexDigit(n % 16)];
      assert (q + rest)[3..] == rest;
      assert (q + rest)[1] == HexDigit(n / 16) && (q + rest)[2] == HexDigit(n % 16);
    }
  }

  /** For ASCII text, decoding undoes `quote_plus`. */
  lemma {:induction false} UnquoteQuote(s: string)
    requires AllAscii(s)
    ensures UnquotePlus(QuotePlus(s)) == s
    decreases |s|
  {
    if s != [] {
      UnquoteQuote(s[1..]);
      UnquoteQuoteChar(s[0], QuotePlus(s[1..]));
      assert [s[0]] + s[1..] == s;
    }
  }

  // ---------------------------------------------------------------- the query string

  /** `s.split(sep)` for a one-character separator. */
  function Split(s: string, sep: char): (parts: seq<string>)
    ensures |parts| >= 1
    decreases |s|
  {
    if s == [] then [""]
    else if s[0] == sep then [""] + Split(s[1..], sep)
    else
      var rest := Split(s[1..], sep);
      [[s[0]] + rest[0]] + rest[1..]
  }

  predicate Free(s: string, sep: char) {
    forall i :: 0 <= i < |s| ==> s[i] != sep
  }

  /** A prefix without the separator extends the first part. */
  lemma {:induction false} SplitPrefix(p: string, t: string, sep: char)
    requires Free(p, sep)
    ensures Split(p + t, sep) == [p + Split(t, sep)[0]] + Split(t, sep)[1..]
    decreases |p|
  {
    if p != [] {
      assert (p + t)[0] == p[0] && (p + t)[1..] == p[1..] + t;
      SplitPrefix(p[1..], t, sep);
      assert [p[0]] + (p[1..] + Split(t, sep)[0]) == p + Split(t, sep)[0];
    } else {
      var parts := Split(t, sep);
      assert p + t == t;
      assert p + parts[0] == parts[0];
      assert [parts[0]] + parts[1..] == parts;
    }
  }

  /** Splitting a join of separator-free parts gives the parts back. */
  lemma {:induction false} SplitJoin(parts: seq<string>, sep: char)
    requires |parts| >= 1
    requires forall i :: 0 <= i < |parts| ==> Free(parts[i], sep)
    ensures Split(Join([sep], parts), sep) == parts
    decreases |parts|
  {
    if |parts| == 1 {
      SplitPrefix(parts[0], "", sep);
      assert parts[0] + "" == parts[0];
    } else {
      var tail := Join([sep], parts[1..]);
      SplitJoin(parts[1..], sep);
      assert parts[0] + [sep] + tail == parts[0] + ([sep] + tail);
      SplitPrefix(parts[0], [sep] + tail, sep);
      assert ([sep] + tail)[1..] == tail;
      assert Split([sep] + tail, sep) == [""] + parts[1..];
      assert parts[0] + "" == parts[0];
      assert [parts[0]] + parts[1..] == parts;
    }
  }

  /** `urllib.parse.urlencode` of an ordered list of string parameters. */
  function UrlEncodePairs(params: seq<(string, string)>): string {
    Join("&", seq(|params|, i requires 0 <= i < |params| => QuotePlus(params[i].0) + "=" + QuotePlus(params[i].1)))
  }

  /** One `name=value` part read back as a pair; a part without `=` has an empty value. */
  function ParsePair(part: string): (string, string) {
    var kv := Split(part, '=');
    (UnquotePlus(kv[0]), UnquotePlus(if |kv| >= 2 then kv[1] else ""))
  }

  /**
   * A query string read back as a server reads it: split at `&`, each part
   * split at `=`, and blank values kept, so an empty keyword reads back as
   * `("q", "")`. The parts read here never hold a second `=`.
   */
  function ParseQuery(query: string): seq<(string, string)> {
    var parts := Split(query, '&');
    seq(|parts|, i requires 0 <= i < |parts| => ParsePair(parts[i]))
  }

  lemma QuotedHasNo(s: string, c: char)
    requires !IsEncodedChar(c)
    ensures Free(QuotePlus(s), c)
  {
  }

  /** A quoted pair reads back as the pair, for ASCII names and values. */
  lemma ParseEncodedPair(name: string, value: string)
    requires AllAscii(name) && AllAscii(value)
    ensures ParsePair(QuotePlus(name) + "=" + QuotePlus(value)) == (name, value)
  {
    var qn := QuotePlus(name);
    var qv := QuotePlus(value);
    QuotedHasNo(name, '=');
    QuotedHasNo(value, '=');
    SplitJoin([qn, qv], '=');
    assert Join("=", [qn, qv]) == qn + "=" + qv;
    UnquoteQuote(name);
    UnquoteQuote(value);
  }

  /** `urlencode` is read back losslessly: the server sees the parameters in order. */
  lemma ParseUrlEncode(params: seq<(string, string)>)
    requires |params| >= 1
    requires forall i :: 0 <= i < |params| ==> AllAscii(params[i].0) && AllAscii(params[i].1)
    ensures ParseQuery(UrlEncodePairs(params)) == params
  {
    var parts := seq(|params|, i requires 0 <= i < |params| => QuotePlus(params[i].0) + "=" + QuotePlus(params[i].1));
    forall i | 0 <= i < |parts| ensures Free(parts[i], '&') {
      QuotedHasNo(params[i].0, '&');
      QuotedHasNo(params[i].1, '&');
    }
    SplitJoin(parts, '&');
    forall i | 0 <= i < |parts| ensures ParsePair(parts[i]) == params[i] {
      ParseEncodedPair(params[i].0, params[i].1);
    }
  }
}
