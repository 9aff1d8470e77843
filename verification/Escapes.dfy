/** `_ref` (src/qs_ai/application/interpretation/input_values.py): a dimension code becomes a path segment by
    UTF-8 (RFC 3629) and percent-encoding (section 2.1 of RFC 3986). Decoding the segment gives the code
    back, so different codes never share a reference. */
module Escapes {
  import opened Outcomes
  import opened Texts

  type byte = b: int | 0 <= b < 256

  // ----- UTF-8 -----

  function Width(lead: byte): (n: nat)
    ensures 1 <= n <= 4
  {
    if lead < 0xC0 then 1 else if lead < 0xE0 then 2 else if lead < 0xF0 then 3 else 4
  }

  function EncodeChar(c: char): (bytes: seq<byte>)
    ensures bytes != []
  {
    var n := c as int;
    if n < 0x80 then [n]
    else if n < 0x800 then [0xC0 + n / 0x40, 0x80 + n % 0x40]
    else if n < 0x1_0000 then [0xE0 + n / 0x1000, 0x80 + n / 0x40 % 0x40, 0x80 + n % 0x40]
    else [0xF0 + n / 0x4_0000, 0x80 + n / 0x1000 % 0x40, 0x80 + n / 0x40 % 0x40, 0x80 + n % 0x40]
  }

  /** The number a lead byte and its continuation bytes stand for. */
  function CodePoint(bytes: seq<byte>): int
    requires 1 <= |bytes| <= 4
  {
    var lead: int := bytes[0];
    if |bytes| == 1 then lead
    else if |bytes| == 2 then (lead - 0xC0) * 0x40 + Payload(bytes[1])
    else if |bytes| == 3 then (lead - 0xE0) * 0x1000 + Payload(bytes[1]) * 0x40 + Payload(bytes[2])
    else (lead - 0xF0) * 0x4_0000 + Payload(bytes[1]) * 0x1000 + Payload(bytes[2]) * 0x40 + Payload(bytes[3])
  }

  function Payload(b: int): int {
    b - 0x80
  }

  predicate Scalar(n: int) {
    0 <= n < 0xD800 || 0xE000 <= n < 0x11_0000
  }

  function Encode(s: string): seq<byte> {
    if s == "" then [] else EncodeChar(s[0]) + Encode(s[1..])
  }

  function Decode(bytes: seq<byte>): Option<string> {
    if bytes == [] then Some("")
    else
      var width := Width(bytes[0]);
      if |bytes| < width || !Scalar(CodePoint(bytes[..width])) then None
      else
        match Decode(bytes[width..])
        case None => None
        case Some(rest) => Some([CodePoint(bytes[..width]) as char] + rest)
  }

  lemma CharReadsBack(c: char)
    ensures Width(EncodeChar(c)[0]) == |EncodeChar(c)|
    ensures CodePoint(EncodeChar(c)) == c as int
  {
    var n := c as int;
    if 0x800 <= n < 0x1_0000 {
      assert n / 0x40 / 0x40 == n / 0x1000;
    } else if 0x1_0000 <= n {
      assert n / 0x40 / 0x40 == n / 0x1000 && n / 0x1000 / 0x40 == n / 0x4_0000;
    }
  }

  lemma {:induction false} TextReadsBack(s: string)
    ensures Decode(Encode(s)) == Some(s)
  {
    if s != "" {
      var head, tail := EncodeChar(s[0]), Encode(s[1..]);
      CharReadsBack(s[0]);
      TextReadsBack(s[1..]);
      assert (head + tail)[..|head|] == head && (head + tail)[|head|..] == tail;
      assert [s[0]] + s[1..] == s;
    }
  }

  // ----- percent-encoding -----

  /** Bytes that stay as they are: the unreserved characters and those a path segment of Go keeps. */
  predicate Kept(b: byte) {
    b < 0x80 && (Letter(b as char) || Digit(b as char) || b as char in "_.-~$&+:=@")
  }

  function HexDigit(n: int): (c: char)
    requires 0 <= n < 16
  {
    "0123456789ABCDEF"[n]
  }

  function HexValue(c: char): Option<int> {
    if Digit(c) then Some(c as int - '0' as int)
    else if 'A' <= c <= 'F' then Some(c as int - 'A' as int + 10)
    else None
  }

  function Quote(bytes: seq<byte>): string {
    if bytes == [] then ""
    else (if Kept(bytes[0]) then [bytes[0] as char] else ['%', HexDigit(bytes[0] / 16), HexDigit(bytes[0] % 16)])
         + Quote(bytes[1..])
  }

  function Unquote(s: string): Option<seq<byte>> {
    if s == "" then Some([])
    else if s[0] == '%' then
      if |s| < 3 || HexValue(s[1]).None? || HexValue(s[2]).None? then None
      else
        match Unquote(s[3..])
        case None => None
        case Some(rest) =>
          var high, low := HexValue(s[1]).value, HexValue(s[2]).value;
          Some([16 * high + low] + rest)
    else if s[0] as int >= 0x80 then None
    else
      match Unquote(s[1..])
      case None => None
      case Some(rest) => Some([s[0] as int] + rest)
  }

  lemma HexReadsBack(n: int)
    requires 0 <= n < 16
    ensures HexValue(HexDigit(n)) == Some(n)
  {
  }

  lemma {:induction false} QuoteReadsBack(bytes: seq<byte>)
    ensures Unquote(Quote(bytes)) == Some(bytes)
  {
    if bytes != [] {
      var b, tail := bytes[0], Quote(bytes[1..]);
      QuoteReadsBack(bytes[1..]);
      if Kept(b) {
        assert ([b as char] + tail)[1..] == tail;
      } else {
        HexReadsBack(b / 16);
        HexReadsBack(b % 16);
        assert (['%', HexDigit(b / 16), HexDigit(b % 16)] + tail)[3..] == tail;
      }
      assert [b] + bytes[1..] == bytes;
    }
  }

  // ----- references -----

  function Ref(code: string): string {
    Quote(Encode(code))
  }

  function CodeOf(ref: string): Option<string> {
    match Unquote(ref)
    case None => None
    case Some(bytes) => Decode(bytes)
  }

  lemma RefReadsBack(code: string)
    ensures CodeOf(Ref(code)) == Some(code)
  {
    QuoteReadsBack(Encode(code));
    TextReadsBack(code);
  }

  lemma RefIsInjective(a: string, b: string)
    ensures Ref(a) == Ref(b) ==> a == b
  {
    RefReadsBack(a);
    RefReadsBack(b);
  }
}
