/**
 * The part of serde_json that the metadata flattener uses: turning a scalar JSON
 * value (null, a boolean, a number or a string) into its compact JSON text.
 * Strings are quoted and escaped as serde_json does (section 7 of RFC 8259, with
 * the two-character escapes for backspace, form feed, newline, carriage return
 * and tab, and `\u00xx` with lower-case hex digits for the other control
 * characters). Number rendering is floating point and is a parameter.
 *
 * A decoder for the same texts is the partner of the renderer: decoding what was
 * rendered gives back the original value.
 */
module Json {
  import opened Wrappers

  /** A JSON scalar as `serde_json::Value` holds it; a number is kept as its f64 bit pattern. */
  datatype Scalar = Null | Bool(b: bool) | Number(bits: bv64) | String(s: string)

  /** Lower-case hexadecimal digit of `n`. */
  function HexDigit(n: nat): (c: char)
    requires n < 16
    ensures '0' <= c <= '9' || 'a' <= c <= 'f'
  {
    if n < 10 then ('0' as int + n) as char else ('a' as int + n - 10) as char
  }

  /** Value of a hexadecimal digit of either case. */
  function HexValue(c: char): (r: Option<nat>)
    ensures r.Some? ==> r.value < 16
  {
    if '0' <= c <= '9' then Some(c as int - '0' as int)
    else if 'a' <= c <= 'f' then Some(c as int - 'a' as int + 10)
    else if 'A' <= c <= 'F' then Some(c as int - 'A' as int + 10)
    else None
  }

  /** The escape serde_json writes for one character of a string. */
  function EscapeChar(c: char): (e: string)
    ensures |e| >= 1
    ensures c != '"' && c != '\\' && c as int >= 0x20 ==> e == [c]
  {
    if c == '"' then "\\\""
    else if c == '\\' then "\\\\"
    else if c as int == 0x08 then "\\b"
    else if c as int == 0x0C then "\\f"
    else if c == '\n' then "\\n"
    else if c == '\r' then "\\r"
    else if c == '\t' then "\\t"
    else if c as int < 0x20 then ['\\', 'u', '0', '0', HexDigit(c as int / 16), HexDigit(c as int % 16)]
    else [c]
  }

  function Escape(s: string): string
  {
    if s == [] then [] else EscapeChar(s[0]) + Escape(s[1..])
  }

  /** The JSON text of a string: its escaped characters between double quotes. */
  function Quote(s: string): (t: string)
    ensures |t| >= 2 && t[0] == '"' && t[|t| - 1] == '"'
  {
    "\"" + Escape(s) + "\""
  }

  /**
   * `serde_json::to_string` of a scalar. `renderNumber` stands for the text of
   * `serde_json::Value::from(f64)`: the f64 formatter for a finite number, and
   * `null` for NaN and the infinities, which serde_json turns into `Value::Null`.
   */
  function ToText(v: Scalar, renderNumber: bv64 -> string): (t: string)
    ensures v.Null? ==> t == "null"
    ensures v.Bool? ==> t == (if v.b then "true" else "false")
    ensures v.Number? ==> t == renderNumber(v.bits)
    ensures v.String? ==> |t| >= 2 && t[0] == '"' && Unquote(t) == Some(v.s)
  {
    match v
    case Null => "null"
    case Bool(b) => if b then "true" else "false"
    case Number(bits) => renderNumber(bits)
    case String(s) => QuoteRoundTrip(s); Quote(s)
  }

  /** Value of four hexadecimal digits. */
  function Hex4(t: string): (r: Option<nat>)
    requires |t| == 4
    ensures r.Some? ==> r.value < 0x10000
  {
    match (HexValue(t[0]), HexValue(t[1]), HexValue(t[2]), HexValue(t[3]))
    case (Some(a), Some(b), Some(c), Some(d)) => Some(a * 0x1000 + b * 0x100 + c * 0x10 + d)
    case _ => None
  }

  /** Decodes the inside of a JSON string literal: the inverse of `Escape`. */
  function Unescape(t: string): Option<string>
    decreases |t|
  {
    if t == [] then Some([])
    else if t[0] == '"' || t[0] as int < 0x20 then None
    else if t[0] != '\\' then Prepend(t[0], Unescape(t[1..]))
    else if |t| < 2 then None
    else if t[1] == '"' || t[1] == '\\' || t[1] == '/' then Prepend(t[1], Unescape(t[2..]))
    else if t[1] == 'b' then Prepend(0x08 as char, Unescape(t[2..]))
    else if t[1] == 'f' then Prepend(0x0C as char, Unescape(t[2..]))
    else if t[1] == 'n' then Prepend('\n', Unescape(t[2..]))
    else if t[1] == 'r' then Prepend('\r', Unescape(t[2..]))
    else if t[1] == 't' then Prepend('\t', Unescape(t[2..]))
    else if t[1] == 'u' && |t| >= 6 then
      match Hex4(t[2..6])
      case Some(v) =>
        // a surrogate half is not a character on its own; pairs are not decoded here
        if 0xD800 <= v < 0xE000 then None else Prepend(v as char, Unescape(t[6..]))
      case None => None
    else None
  }

  function Prepend(c: char, rest: Option<string>): Option<string>
  {
    match rest
    case Some(r) => Some([c] + r)
    case None => None
  }

  /** Decodes a JSON string literal. */
  function Unquote(t: string): Option<string>
  {
    if |t| >= 2 && t[0] == '"' && t[|t| - 1] == '"' then Unescape(t[1..|t| - 1]) else None
  }

  /** Decodes the JSON text of a null, a boolean or a string. */
  function ParseScalar(t: string): Option<Scalar>
  {
    if t == "null" then Some(Null)
    else if t == "true" then Some(Bool(true))
    else if t == "false" then Some(Bool(false))
    else match Unquote(t)
      case Some(s) => Some(String(s))
      case None => None
  }

  lemma HexRoundTrip(n: nat)
    requires n < 16
    ensures HexValue(HexDigit(n)) == Some(n)
  {
  }

  /** Decoding one escaped character followed by more escaped text. */
  lemma {:induction false} UnescapeEscapeChar(c: char, rest: string)
    ensures Unescape(EscapeChar(c) + rest) == Prepend(c, Unescape(rest))
  {
    var e := EscapeChar(c);
    if c as int < 0x20 && c as int != 0x08 && c as int != 0x0C && c != '\n' && c != '\r' && c != '\t' {
      var hi, lo := c as int / 16, c as int % 16;
      HexRoundTrip(hi);
      HexRoundTrip(lo);
      assert (e + rest)[2..6] == ['0', '0', HexDigit(hi), HexDigit(lo)];
      assert Hex4((e + rest)[2..6]) == Some(c as int);
      assert (e + rest)[6..] == rest;
    } else if |e| == 2 {
      assert (e + rest)[2..] == rest;
    } else {
      assert (e + rest)[1..] == rest;
    }
  }

  /** Decoding escaped text gives back the original characters. */
  lemma {:induction false} UnescapeEscape(s: string)
    ensures Unescape(Escape(s)) == Some(s)
  {
    if s != [] {
      UnescapeEscape(s[1..]);
      UnescapeEscapeChar(s[0], Escape(s[1..]));
      assert [s[0]] + s[1..] == s;
    }
  }

  /** A rendered string decodes to itself: `Quote` loses nothing. */
  lemma QuoteRoundTrip(s: string)
    ensures Unquote(Quote(s)) == Some(s)
  {
    var t := Quote(s);
    assert t[1..|t| - 1] == Escape(s);
    UnescapeEscape(s);
  }

  /** Every non-number scalar is recovered from its JSON text. */
  lemma ScalarRoundTrip(v: Scalar, renderNumber: bv64 -> string)
    requires !v.Number?
    ensures ParseScalar(ToText(v, renderNumber)) == Some(v)
  {
    if v.String? {
      var t := ToText(v, renderNumber);
      assert t != "null" && t != "true" && t != "false" by {
        assert t[0] == '"';
      }
    }
  }

  /** A string with no quote, backslash or control character is rendered between quotes as it is. */
  lemma {:induction false} QuotePlain(s: string)
    requires forall i :: 0 <= i < |s| ==> s[i] != '"' && s[i] != '\\' && s[i] as int >= 0x20
    ensures Escape(s) == s
    ensures Quote(s) == "\"" + s + "\""
  {
    if s != [] {
      QuotePlain(s[1..]);
      assert [s[0]] + s[1..] == s;
    }
  }
}
