/** Dynamically typed values, as Python holds a decoded JSON payload, a feed entry or a config entry. */
module PyValues {
  import opened Strings

  /** A Python value. Dictionaries are keyed by strings, as JSON objects are. */
  datatype Value =
    | PyNone
    | PyBool(b: bool)
    | PyInt(i: int)
    | PyFloat(r: real)
    | PyStr(s: string)
    | PyList(items: seq<Value>)
    | PyDict(fields: map<string, Value>)

  type Dict = map<string, Value>

  /** The exceptions the modelled code can raise on an ill-typed value. */
  datatype PyError = TypeError | AttributeError | ValueError

  /** Python truthiness (`bool(v)`). */
  predicate Truthy(v: Value) {
    match v
    case PyNone => false
    case PyBool(b) => b
    case PyInt(i) => i != 0
    case PyFloat(r) => r != 0.0
    case PyStr(s) => s != ""
    case PyList(xs) => xs != []
    case PyDict(m) => m != map[]
  }

  /** `d.get(key, default)` */
  function Get(d: Dict, key: string, default: Value): Value {
    if key in d then d[key] else default
  }

  /** Python's `a or b`: the first operand when it is truthy, else the second. */
  function Or(a: Value, b: Value): Value {
    if Truthy(a) then a else b
  }

  /** `isinstance(v, int)`; a `bool` is an `int` in Python. */
  predicate IsInt(v: Value) {
    v.PyInt? || v.PyBool?
  }

  /** `isinstance(v, (int, float))` */
  predicate IsNumber(v: Value) {
    IsInt(v) || v.PyFloat?
  }

  /** The numeric value of an `int`, `bool` or `float`. */
  function NumberValue(v: Value): real
    requires IsNumber(v)
  {
    match v
    case PyInt(i) => i as real
    case PyBool(b) => if b then 1.0 else 0.0
    case PyFloat(r) => r
  }

  /**
   * `str(v)`, which is also what an f-string placeholder renders.
   * Exact for None, booleans, integers, strings and integral floats below
   * 10^16 in magnitude; lists render their elements' `Repr`. Other floats
   * render as "<float>" and non-empty dictionaries as "{...}".
   */
  function ToStr(v: Value): (r: string)
    ensures v != PyStr("") ==> r != ""
    decreases v, 1
  {
    match v
    case PyNone => "None"
    case PyBool(b) => if b then "True" else "False"
    case PyInt(i) => IntToDecimal(i)
    case PyFloat(r) =>
      if r == r.Floor as real && -10000000000000000.0 < r < 10000000000000000.0
      then IntToDecimal(r.Floor) + ".0" else "<float>"
    case PyStr(s) => s
    case PyList(xs) => "[" + Join(", ", seq(|xs|, i requires 0 <= i < |xs| => Repr(xs[i]))) + "]"
    case PyDict(m) => if m == map[] then "{}" else "{...}"
  }

  /** `repr(v)`: strings are quoted and escaped, everything else renders as `str`. */
  function Repr(v: Value): string
    decreases v, 2
  {
    if v.PyStr? then ReprStr(v.s) else ToStr(v)
  }

  /** The quote `repr` puts around a string: `"` when the text holds `'` and no `"`, else `'`. */
  function ReprQuote(s: string): (q: char)
    ensures q == '"' <==> '\'' in s && '"' !in s
    ensures q == '\'' || q == '"'
  {
    if '\'' in s && '"' !in s then '"' else '\''
  }

  /** A lower-case hexadecimal digit, as in `\x0a`. */
  function LowerHexDigit(d: nat): (c: char)
    requires d < 16
    ensures '0' <= c <= '9' || 'a' <= c <= 'f'
  {
    if d < 10 then ('0' as int + d) as char else ('a' as int + d - 10) as char
  }

  /**
   * The characters up to U+00FF that `repr` does not print as they are:
   * the C0 controls, DEL, the C1 controls, the no-break space and the soft hyphen.
   */
  predicate Unprintable(c: char) {
    c < ' ' || ('\U{7F}' <= c <= '\U{A0}') || c == '\U{AD}'
  }

  /** One character inside the quotes `q` of a `repr`. */
  function EscapeChar(c: char, q: char): (r: string)
    ensures r == [c] <==> c != '\\' && c != q && !Unprintable(c)
    ensures r != [c] ==> |r| >= 2
  {
    if c == '\\' then "\\\\"
    else if c == q then ['\\', q]
    else if c == '\t' then "\\t"
    else if c == '\n' then "\\n"
    else if c == '\r' then "\\r"
    else if Unprintable(c) then "\\x" + [LowerHexDigit(c as int / 16), LowerHexDigit(c as int % 16)]
    else [c]
  }

  /** The text of a string inside the quotes `q` of its `repr`. */
  function EscapeText(s: string, q: char): (r: string)
    ensures |r| >= |s|
  {
    if s == [] then "" else EscapeChar(s[0], q) + EscapeText(s[1..], q)
  }

  /** `repr(s)` of a string: the chosen quote, the escaped text, the quote again. */
  function ReprStr(s: string): (r: string)
    ensures |r| >= |s| + 2 && r[0] == ReprQuote(s) && r[|r| - 1] == ReprQuote(s)
  {
    [ReprQuote(s)] + EscapeText(s, ReprQuote(s)) + [ReprQuote(s)]
  }

  /** Text with nothing to escape is left as it is, and only such text is. */
  lemma {:induction false} EscapeTextPlain(s: string, q: char)
    ensures EscapeText(s, q) == s <==> forall i :: 0 <= i < |s| ==> s[i] != '\\' && s[i] != q && !Unprintable(s[i])
  {
    if s != [] {
      EscapeTextPlain(s[1..], q);
      var head, tail := EscapeChar(s[0], q), EscapeText(s[1..], q);
      assert s == [s[0]] + s[1..];
      assert forall i :: 0 <= i < |s[1..]| ==> s[1..][i] == s[i + 1];
      if head != [s[0]] {
        assert |head + tail| > |s|;
      }
    }
  }

  /** Python writes `["it's"]` for a list holding "it's", switching to double quotes. */
  lemma ReprApostrophe()
    ensures ReprStr("it's") == "\"it's\""
  {
    var s := "it's";
    assert s[2] == '\'';
    assert ReprQuote(s) == '"';
    assert EscapeText(s[3..], '"') == "s";
    assert EscapeText(s[2..], '"') == "'s";
    assert EscapeText(s[1..], '"') == "t's";
    assert EscapeText(s, '"') == s;
  }

  /**
   * `d.get(k0) or d.get(k1) or ... or fallback`: the value of the first key
   * whose value is truthy, else the fallback.
   */
  function FirstTruthy(d: Dict, keys: seq<string>, fallback: Value): Value
    decreases |keys|
  {
    if keys == [] then fallback
    else Or(Get(d, keys[0], PyNone), FirstTruthy(d, keys[1..], fallback))
  }

  /**
   * The value of the first key whose value is truthy, at index `i`, or the
   * fallback when there is none (`i == |keys|`).
   */
  lemma {:induction false} FirstTruthyIndex(d: Dict, keys: seq<string>, fallback: Value) returns (i: nat)
    ensures i <= |keys|
    ensures forall j :: 0 <= j < i ==> !Truthy(Get(d, keys[j], PyNone))
    ensures i < |keys| ==> keys[i] in d && Truthy(d[keys[i]]) && FirstTruthy(d, keys, fallback) == d[keys[i]]
    ensures i == |keys| ==> FirstTruthy(d, keys, fallback) == fallback
    decreases |keys|
  {
    if keys == [] {
      i := 0;
    } else if Truthy(Get(d, keys[0], PyNone)) {
      i := 0;
    } else {
      var k := FirstTruthyIndex(d, keys[1..], fallback);
      i := k + 1;
      forall j | 1 <= j < i ensures !Truthy(Get(d, keys[j], PyNone)) {
        assert keys[j] == keys[1..][j - 1];
      }
    }
  }

}
