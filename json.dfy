/**
 * A JSON value as Python's `json` module hands it over, with the two
 * renderings the response decoding uses: `json.dumps(v)` with its default
 * settings, and `str(v)`.
 */
module PyJson {
  import opened Wrappers

  /**
   * A decoded JSON value. An object keeps its keys in document order; as in a
   * Python dict, the keys of one object are meant to be distinct.
   */
  datatype Json =
    | JNull
    | JBool(b: bool)
    | JNum(n: int)
    | JStr(s: string)
    | JArr(items: seq<Json>)
    | JObj(fields: seq<(string, Json)>)

  /** `key in d` for a dict `d`. */
  predicate HasKey(fields: seq<(string, Json)>, key: string) {
    exists i | 0 <= i < |fields| :: fields[i].0 == key
  }

  /** `d.get(key)`: the value stored under `key`, if any. */
  function Get(fields: seq<(string, Json)>, key: string): (r: Option<Json>)
    ensures r.Some? <==> HasKey(fields, key)
    ensures r.Some? ==> exists i | 0 <= i < |fields| :: fields[i] == (key, r.value)
  {
    if |fields| == 0 then None
    else if fields[0].0 == key then Some(fields[0].1)
    else
      var r := Get(fields[1..], key);
      assert forall i | 0 <= i < |fields| - 1 :: fields[1..][i] == fields[i + 1];
      r
  }

  /** `sep.join(parts)` */
  function Join(parts: seq<string>, sep: string): string {
    if |parts| == 0 then ""
    else if |parts| == 1 then parts[0]
    else parts[0] + sep + Join(parts[1..], sep)
  }

  /** `str(n)` and `json.dumps(n)` for an integer: optional minus sign, then decimal digits. */
  function Decimal(n: int): (r: string)
    ensures r != [] && (r[0] == '-' || '0' <= r[0] <= '9')
  {
    if n < 0 then "-" + Digits(-n) else Digits(n)
  }

  function Digits(n: nat): (r: string)
    ensures r != [] && '0' <= r[0] <= '9'
  {
    if n < 10 then [DigitChar(n)] else Digits(n / 10) + [DigitChar(n % 10)]
  }

  function DigitChar(d: nat): char
    requires d < 16
  {
    "0123456789abcdef"[d]
  }

  /** `n` as exactly `width` lower-case hexadecimal digits. */
  function Hex(n: nat, width: nat): string
    requires n < Pow16(width)
  {
    if width == 0 then "" else Hex(n / 16, width - 1) + [DigitChar(n % 16)]
  }

  function Pow16(k: nat): nat {
    if k == 0 then 1 else 16 * Pow16(k - 1)
  }

  /**
   * How `json.dumps` writes one character of a string (with `ensure_ascii`):
   * quote, backslash and the five named controls get short escapes, printable
   * ASCII stays, everything else becomes `\uXXXX`, as a surrogate pair above U+FFFF.
   */
  function DumpsChar(c: char): string {
    var n := c as int;
    if c == '"' then "\\\""
    else if c == '\\' then "\\\\"
    else if c == '\n' then "\\n"
    else if c == '\r' then "\\r"
    else if c == '\t' then "\\t"
    else if n == 8 then "\\b"
    else if n == 12 then "\\f"
    else if ' ' <= c <= '~' then [c]
    else if n < 0x1_0000 then UEscape(n)
    else
      var v := n - 0x1_0000;
      UEscape(0xD800 + v / 0x400) + UEscape(0xDC00 + v % 0x400)
  }

  /** The escape `\uXXXX` for one UTF-16 code unit. */
  function UEscape(unit: nat): string
    requires unit < 0x1_0000
  {
    Pow16Four();
    "\\u" + Hex(unit, 4)
  }

  function DumpsString(s: string): string {
    "\"" + Join(seq(|s|, i requires 0 <= i < |s| => DumpsChar(s[i])), "") + "\""
  }

  /**
   * `json.dumps(v)` with the default separators ", " and ": ". The text is never
   * empty, and its first character tells a string, a list and an object apart
   * from each other and from every other kind of value.
   */
  function Dumps(v: Json): (r: string)
    ensures r != []
    ensures v.JStr? <==> r[0] == '"'
    ensures v.JArr? <==> r[0] == '['
    ensures v.JObj? <==> r[0] == '{'
  {
    match v
    case JNull => "null"
    case JBool(b) => if b then "true" else "false"
    case JNum(n) => Decimal(n)
    case JStr(s) => DumpsString(s)
    case JArr(items) =>
      "[" + Join(seq(|items|, i requires 0 <= i < |items| => Dumps(items[i])), ", ") + "]"
    case JObj(fields) =>
      "{" + Join(seq(|fields|, i requires 0 <= i < |fields| =>
                   DumpsString(fields[i].0) + ": " + Dumps(fields[i].1)), ", ") + "}"
  }

  /**
   * How `repr` writes one character of a string quoted with `q`: backslash and
   * the quote are escaped, tab, newline and carriage return get short escapes,
   * other ASCII controls become `\xHH`.
   */
  function ReprChar(c: char, q: char): string {
    var n := c as int;
    if c == q || c == '\\' then ['\\', c]
    else if c == '\t' then "\\t"
    else if c == '\n' then "\\n"
    else if c == '\r' then "\\r"
    else if n < 0x20 || n == 0x7F then "\\x" + Hex(n, 2)
    else [c]
  }

  /** `repr(s)`: single quotes, unless `s` holds a single quote and no double quote. */
  function ReprString(s: string): string {
    var q := if '\'' in s && '"' !in s then '"' else '\'';
    [q] + Join(seq(|s|, i requires 0 <= i < |s| => ReprChar(s[i], q)), "") + [q]
  }

  /**
   * `repr(v)` of the Python object `json` decodes `v` into. As with `Dumps`,
   * the first character tells a list and a dict from every other kind of value.
   */
  function Repr(v: Json): (r: string)
    ensures r != []
    ensures v.JArr? <==> r[0] == '['
    ensures v.JObj? <==> r[0] == '{'
  {
    match v
    case JNull => "None"
    case JBool(b) => if b then "True" else "False"
    case JNum(n) => Decimal(n)
    case JStr(s) => ReprString(s)
    case JArr(items) =>
      "[" + Join(seq(|items|, i requires 0 <= i < |items| => Repr(items[i])), ", ") + "]"
    case JObj(fields) =>
      "{" + Join(seq(|fields|, i requires 0 <= i < |fields| =>
                   ReprString(fields[i].0) + ": " + Repr(fields[i].1)), ", ") + "}"
  }

  /** `str(v)`: a string is itself, anything else is its `repr`. */
  function PyStr(v: Json): (r: string)
    ensures v.JStr? ==> r == v.s
    ensures !v.JStr? ==> r != [] && (v.JArr? <==> r[0] == '[') && (v.JObj? <==> r[0] == '{')
  {
    if v.JStr? then v.s else Repr(v)
  }

  /** Every character is printable ASCII (space to tilde). */
  predicate PrintableAscii(s: string) {
    forall i :: 0 <= i < |s| ==> ' ' <= s[i] <= '~'
  }

  lemma {:induction false} JoinPrintable(parts: seq<string>, sep: string)
    requires PrintableAscii(sep)
    requires forall k :: 0 <= k < |parts| ==> PrintableAscii(parts[k])
    ensures PrintableAscii(Join(parts, sep))
  {
    if |parts| > 1 {
      JoinPrintable(parts[1..], sep);
    }
  }

  lemma {:induction false} HexPrintable(n: nat, width: nat)
    requires n < Pow16(width)
    ensures PrintableAscii(Hex(n, width)) && |Hex(n, width)| == width
  {
    if width > 0 {
      HexPrintable(n / 16, width - 1);
    }
  }

  lemma {:induction false} DigitsPrintable(n: nat)
    ensures PrintableAscii(Digits(n))
  {
    if n >= 10 {
      DigitsPrintable(n / 10);
    }
  }

  lemma Pow16Four()
    ensures Pow16(2) == 0x100 && Pow16(4) == 0x1_0000
  {
    assert Pow16(1) == 16;
    assert Pow16(2) == 0x100;
    assert Pow16(3) == 0x1000;
  }

  lemma DumpsCharPrintable(c: char)
    ensures PrintableAscii(DumpsChar(c))
  {
    var n := c as int;
    if c == '"' || c == '\\' || c == '\n' || c == '\r' || c == '\t' || n == 8 || n == 12 {
      ShortEscapePrintable(c);
    } else if ' ' <= c <= '~' {
      assert DumpsChar(c) == [c];
    } else {
      UnicodeEscapePrintable(c);
    }
  }

  lemma ShortEscapePrintable(c: char)
    requires c == '"' || c == '\\' || c == '\n' || c == '\r' || c == '\t' || c as int == 8 || c as int == 12
    ensures PrintableAscii(DumpsChar(c))
  {
    var e := DumpsChar(c);
    assert |e| == 2 && e[0] == '\\';
    assert e[1] in "\"\\nrtbf";
  }

  lemma UnicodeEscapePrintable(c: char)
    requires !(' ' <= c <= '~') && c != '\n' && c != '\r' && c != '\t' && c as int != 8 && c as int != 12
    ensures PrintableAscii(DumpsChar(c))
  {
    var n := c as int;
    if n < 0x1_0000 {
      UEscapePrintable(n);
    } else {
      var v := n - 0x1_0000;
      var hi, lo := 0xD800 + v / 0x400, 0xDC00 + v % 0x400;
      assert DumpsChar(c) == UEscape(hi) + UEscape(lo);
      UEscapePrintable(hi);
      UEscapePrintable(lo);
      ConcatPrintable(UEscape(hi), UEscape(lo));
    }
  }

  lemma ConcatPrintable(a: string, b: string)
    requires PrintableAscii(a) && PrintableAscii(b)
    ensures PrintableAscii(a + b)
  {
  }

  lemma UEscapePrintable(unit: nat)
    requires unit < 0x1_0000
    ensures PrintableAscii(UEscape(unit))
  {
    Pow16Four();
    HexPrintable(unit, 4);
  }

  lemma DumpsStringPrintable(s: string)
    ensures PrintableAscii(DumpsString(s))
  {
    var parts := seq(|s|, i requires 0 <= i < |s| => DumpsChar(s[i]));
    forall k | 0 <= k < |parts|
      ensures PrintableAscii(parts[k])
    {
      DumpsCharPrintable(s[k]);
    }
    JoinPrintable(parts, "");
  }

  /** `json.dumps` with its default `ensure_ascii` writes only printable ASCII. */
  lemma {:induction false} DumpsPrintable(v: Json)
    ensures PrintableAscii(Dumps(v))
  {
    match v
    case JNull =>
    case JBool(b) =>
    case JNum(n) =>
      DigitsPrintable(if n < 0 then -n else n);
    case JStr(s) =>
      DumpsStringPrintable(s);
    case JArr(items) =>
      var parts := seq(|items|, i requires 0 <= i < |items| => Dumps(items[i]));
      forall k | 0 <= k < |parts|
        ensures PrintableAscii(parts[k])
      {
        DumpsPrintable(items[k]);
      }
      JoinPrintable(parts, ", ");
    case JObj(fields) =>
      var parts := seq(|fields|, i requires 0 <= i < |fields| =>
                     DumpsString(fields[i].0) + ": " + Dumps(fields[i].1));
      forall k | 0 <= k < |parts|
        ensures PrintableAscii(parts[k])
      {
        DumpsStringPrintable(fields[k].0);
        DumpsPrintable(fields[k].1);
      }
      JoinPrintable(parts, ", ");
  }
}
