/**
 * The part of Python's `json.dumps` the cart serialisation uses: a flat object
 * whose keys and values are all strings, written with the default separators
 * (", " and ": ") and `ensure_ascii=True` escaping. `Unescape` is the matching
 * decoder of a JSON string body, used to state that the encoding is lossless.
 */
module Json {
  import opened Wrappers
  import Text

  function HexDigit(d: nat): (c: char)
    requires d < 16
  {
    if d < 10 then (48 + d) as char else (87 + d) as char
  }

  function HexValue(c: char): Option<nat>
  {
    if '0' <= c <= '9' then Some(c as nat - 48)
    else if 'a' <= c <= 'f' then Some(c as nat - 87)
    else if 'A' <= c <= 'F' then Some(c as nat - 55)
    else None
  }

  /** Four lower-case hexadecimal digits, as Python's `'{0:04x}'`. */
  function Hex4(n: nat): (s: string)
    requires n < 0x10000
    ensures |s| == 4
  {
    var m1 := n / 16;
    var m2 := m1 / 16;
    [HexDigit(m2 / 16), HexDigit(m2 % 16), HexDigit(m1 % 16), HexDigit(n % 16)]
  }

  function ParseHex4(s: string): Option<nat>
    requires |s| == 4
  {
    match (HexValue(s[0]), HexValue(s[1]), HexValue(s[2]), HexValue(s[3]))
    case (Some(a), Some(b), Some(c), Some(d)) => Some(((a * 16 + b) * 16 + c) * 16 + d)
    case _ => None
  }

  lemma HexRoundTrip(d: nat)
    requires d < 16
    ensures HexValue(HexDigit(d)) == Some(d)
  {
  }

  lemma Hex4RoundTrip(n: nat)
    requires n < 0x10000
    ensures ParseHex4(Hex4(n)) == Some(n)
  {
    var m1 := n / 16;
    var m2 := m1 / 16;
    HexRoundTrip(m2 / 16);
    HexRoundTrip(m2 % 16);
    HexRoundTrip(m1 % 16);
    HexRoundTrip(n % 16);
    assert m2 == (m2 / 16) * 16 + m2 % 16;
    assert m1 == m2 * 16 + m1 % 16;
    assert n == m1 * 16 + n % 16;
  }

  /** Characters `json.dumps` writes as they are: printable ASCII except '"' and '\'. */
  predicate Plain(c: char) { ' ' <= c <= '~' && c != '"' && c != '\\' }

  /** How `json.dumps(..., ensure_ascii=True)` writes one character of a string. */
  function EscapeChar(c: char): (r: string)
    ensures |r| >= 1
    ensures Plain(c) <==> r == [c]
    ensures !Plain(c) ==> r[0] == '\\'
  {
    if c == '"' then "\\\""
    else if c == '\\' then "\\\\"
    else if c == '\n' then "\\n"
    else if c == '\r' then "\\r"
    else if c == '\t' then "\\t"
    else if c == '\U{8}' then "\\b"
    else if c == '\U{C}' then "\\f"
    else if ' ' <= c <= '~' then [c]
    else if c as int < 0x10000 then "\\u" + Hex4(c as int)
    else
      var v := c as int - 0x10000;
      "\\u" + Hex4(0xD800 + v / 0x400) + "\\u" + Hex4(0xDC00 + v % 0x400)
  }

  /** `json.dumps`'s escaping of a whole string: never shorter than the string. */
  function Escape(s: string): (r: string)
    ensures |r| >= |s|
  {
    if s == [] then [] else EscapeChar(s[0]) + Escape(s[1..])
  }

  /** The escaped text has the string's length exactly when every character is plain, and is then the string itself. */
  lemma {:induction false} EscapeKeepsLengthIffPlain(s: string)
    ensures |Escape(s)| == |s| <==> forall i :: 0 <= i < |s| ==> Plain(s[i])
    ensures |Escape(s)| == |s| ==> Escape(s) == s
  {
    if s != [] {
      EscapeKeepsLengthIffPlain(s[1..]);
      var e := EscapeChar(s[0]);
      if !Plain(s[0]) {
        assert |e| >= 2;
      }
      if forall i :: 0 <= i < |s| ==> Plain(s[i]) {
        assert forall i :: 0 <= i < |s[1..]| ==> Plain(s[1..][i]);
      } else if Plain(s[0]) {
        var i :| 0 <= i < |s| && !Plain(s[i]);
        assert !Plain(s[1..][i - 1]);
      }
    }
  }

  /** Strings made only of plain characters are written unchanged. */
  lemma {:induction false} EscapePlain(s: string)
    requires forall i :: 0 <= i < |s| ==> Plain(s[i])
    ensures Escape(s) == s
  {
    if s != [] {
      EscapePlain(s[1..]);
    }
  }

  lemma Hex4IsAscii(n: nat)
    requires n < 0x10000
    ensures forall i :: 0 <= i < 4 ==> '0' <= Hex4(n)[i] <= 'f'
  {
  }

  lemma EscapeCharIsAscii(c: char)
    ensures forall i :: 0 <= i < |EscapeChar(c)| ==> ' ' <= EscapeChar(c)[i] <= '~'
  {
    if !(' ' <= c <= '~') && c != '\n' && c != '\r' && c != '\t' && c != '\U{8}' && c != '\U{C}' {
      if c as int < 0x10000 {
        Hex4IsAscii(c as int);
      } else {
        var v := c as int - 0x10000;
        Hex4IsAscii(0xD800 + v / 0x400);
        Hex4IsAscii(0xDC00 + v % 0x400);
      }
    }
  }

  /** The escaped text is pure printable ASCII, whatever the input. */
  lemma {:induction false} EscapeIsAscii(s: string)
    ensures forall i :: 0 <= i < |Escape(s)| ==> ' ' <= Escape(s)[i] <= '~'
  {
    if s != [] {
      EscapeCharIsAscii(s[0]);
      EscapeIsAscii(s[1..]);
      var e, r := EscapeChar(s[0]), Escape(s[1..]);
      assert Escape(s) == e + r;
      forall i | 0 <= i < |e + r| ensures ' ' <= (e + r)[i] <= '~' {
        if i < |e| { assert (e + r)[i] == e[i]; } else { assert (e + r)[i] == r[i - |e|]; }
      }
    }
  }

  function Prepend(c: char, r: Option<string>): Option<string>
  {
    match r
    case Some(t) => Some([c] + t)
    case None => None
  }

  /** Decodes the body of a JSON string (the text between the quotes). */
  function Unescape(s: string): Option<string>
    decreases |s|
  {
    if s == [] then Some([])
    else if s[0] != '\\' then Prepend(s[0], Unescape(s[1..]))
    else if |s| < 2 then None
    else if s[1] == '"' then Prepend('"', Unescape(s[2..]))
    else if s[1] == '\\' then Prepend('\\', Unescape(s[2..]))
    else if s[1] == '/' then Prepend('/', Unescape(s[2..]))
    else if s[1] == 'n' then Prepend('\n', Unescape(s[2..]))
    else if s[1] == 'r' then Prepend('\r', Unescape(s[2..]))
    else if s[1] == 't' then Prepend('\t', Unescape(s[2..]))
    else if s[1] == 'b' then Prepend('\U{8}', Unescape(s[2..]))
    else if s[1] == 'f' then Prepend('\U{C}', Unescape(s[2..]))
    else if s[1] != 'u' || |s| < 6 then None
    else match ParseHex4(s[2..6])
      case None => None
      case Some(hi) =>
        if hi < 0xD800 || 0xE000 <= hi then Prepend(hi as char, Unescape(s[6..]))
        else if 0xDC00 <= hi || |s| < 12 || s[6] != '\\' || s[7] != 'u' then None
        else match ParseHex4(s[8..12])
          case None => None
          case Some(lo) =>
            if lo < 0xDC00 || 0xE000 <= lo then None
            else Prepend((0x10000 + (hi - 0xD800) * 0x400 + (lo - 0xDC00)) as char, Unescape(s[12..]))
  }

  lemma UnescapeShort(c: char, rest: string)
    requires (!Plain(c) && ' ' <= c <= '~') || c == '\n' || c == '\r' || c == '\t' || c == '\U{8}' || c == '\U{C}'
    ensures Unescape(EscapeChar(c) + rest) == Prepend(c, Unescape(rest))
  {
    var s := EscapeChar(c) + rest;
    assert |EscapeChar(c)| == 2 && s[2..] == rest;
  }

  lemma UnescapeBmp(c: char, rest: string)
    requires !(' ' <= c <= '~') && c != '\n' && c != '\r' && c != '\t' && c != '\U{8}' && c != '\U{C}'
    requires c as int < 0x10000
    ensures Unescape(EscapeChar(c) + rest) == Prepend(c, Unescape(rest))
  {
    var s := EscapeChar(c) + rest;
    Hex4RoundTrip(c as int);
    assert s[0] == '\\' && s[1] == 'u';
    assert s[2..6] == Hex4(c as int);
    assert s[6..] == rest;
  }

  lemma UnescapeSurrogatePair(s: string, hi: nat, lo: nat)
    requires |s| >= 12 && s[0] == '\\' && s[1] == 'u' && s[6] == '\\' && s[7] == 'u'
    requires ParseHex4(s[2..6]) == Some(hi) && 0xD800 <= hi < 0xDC00
    requires ParseHex4(s[8..12]) == Some(lo) && 0xDC00 <= lo < 0xE000
    ensures Unescape(s) == Prepend((0x10000 + (hi - 0xD800) * 0x400 + (lo - 0xDC00)) as char, Unescape(s[12..]))
  {
  }

  lemma SurrogateHalves(v: nat)
    requires v < 0x100000
    ensures 0xD800 <= 0xD800 + v / 0x400 < 0xDC00
    ensures 0xDC00 <= 0xDC00 + v % 0x400 < 0xE000
    ensures 0x10000 + ((0xD800 + v / 0x400) - 0xD800) * 0x400 + ((0xDC00 + v % 0x400) - 0xDC00) == 0x10000 + v
  {
  }

  lemma UnescapeAstral(c: char, rest: string)
    requires c as int >= 0x10000
    ensures Unescape(EscapeChar(c) + rest) == Prepend(c, Unescape(rest))
  {
    var v := c as int - 0x10000;
    var hi, lo := 0xD800 + v / 0x400, 0xDC00 + v % 0x400;
    SurrogateHalves(v);
    var e := "\\u" + Hex4(hi) + "\\u" + Hex4(lo);
    assert EscapeChar(c) == e;
    var s := e + rest;
    Hex4RoundTrip(hi);
    Hex4RoundTrip(lo);
    assert s[2..6] == Hex4(hi);
    assert s[8..12] == Hex4(lo);
    assert s[12..] == rest;
    UnescapeSurrogatePair(s, hi, lo);
  }

  lemma UnescapeChar(c: char, rest: string)
    ensures Unescape(EscapeChar(c) + rest) == Prepend(c, Unescape(rest))
  {
    if Plain(c) {
      assert (EscapeChar(c) + rest)[1..] == rest;
    } else if ' ' <= c <= '~' || c == '\n' || c == '\r' || c == '\t' || c == '\U{8}' || c == '\U{C}' {
      UnescapeShort(c, rest);
    } else if c as int < 0x10000 {
      UnescapeBmp(c, rest);
    } else {
      UnescapeAstral(c, rest);
    }
  }

  /** Decoding what `json.dumps` wrote gives back the original string. */
  lemma {:induction false} UnescapeEscape(s: string)
    ensures Unescape(Escape(s)) == Some(s)
  {
    if s != [] {
      UnescapeChar(s[0], Escape(s[1..]));
      UnescapeEscape(s[1..]);
      assert [s[0]] + s[1..] == s;
    }
  }

  /** A JSON string literal. */
  function Quote(s: string): string
  {
    "\"" + Escape(s) + "\""
  }

  /** One `"key": "value"` member of an object. */
  function Entry(key: string, value: string): string
  {
    Quote(key) + ": " + Quote(value)
  }

  function Entries(pairs: seq<(string, string)>): (es: seq<string>)
    ensures |es| == |pairs|
    ensures forall i :: 0 <= i < |pairs| ==> es[i] == Entry(pairs[i].0, pairs[i].1)
  {
    seq(|pairs|, i requires 0 <= i < |pairs| => Entry(pairs[i].0, pairs[i].1))
  }

  /** `json.dumps` of a dict whose keys and values are all `str`, in insertion order. */
  function ObjectText(pairs: seq<(string, string)>): (r: string)
    ensures |r| >= 2 && r[0] == '{' && r[|r| - 1] == '}'
    ensures pairs == [] ==> r == "{}"
  {
    "{" + Text.Join(", ", Entries(pairs)) + "}"
  }

  /** A member whose value is a decimal number shows the number's digits between quotes. */
  lemma EntryInt(key: string, i: int)
    ensures Entry(key, Text.IntToString(i)) == Quote(key) + ": \"" + Text.IntToString(i) + "\""
  {
    QuoteInt(i);
  }

  /** A decimal number is written as a JSON string of its own digits. */
  lemma QuoteInt(i: int)
    ensures Quote(Text.IntToString(i)) == "\"" + Text.IntToString(i) + "\""
  {
    EscapePlain(Text.IntToString(i));
  }
}
