/** `encodeURIComponent`, as ECMA-262 defines it in "URI Handling Functions": every code
    point outside the unreserved set is replaced by the `%HH` triples of its UTF-8 octets
    (the percent-encoding of section 2.1 of RFC 3986, upper-case hex digits). A reference
    decoder, percent-decoding followed by UTF-8 decoding as `decodeURIComponent` does,
    is its partner. */
module UriEncoding {
  import opened Base

  /** The characters `encodeURIComponent` leaves as they are: the ASCII letters and digits
      and `- _ . ! ~ * ' ( )`. */
  predicate IsUnreserved(c: char) {
    ('A' <= c <= 'Z') || ('a' <= c <= 'z') || ('0' <= c <= '9') ||
    c == '-' || c == '_' || c == '.' || c == '!' || c == '~' || c == '*' || c == '\'' || c == '(' || c == ')'
  }

  /** The upper-case hex digit of `d`. */
  function HexDigit(d: nat): (c: char)
    requires d < 16
    ensures IsUnreserved(c)
  {
    if d < 10 then (48 + d) as char else (55 + d) as char
  }

  predicate IsHexDigit(c: char) {
    ('0' <= c <= '9') || ('A' <= c <= 'F') || ('a' <= c <= 'f')
  }

  /** The value of a hex digit (of either case). */
  function HexValue(c: char): (v: nat)
    ensures v < 16
  {
    if '0' <= c <= '9' then c as int - 48
    else if 'A' <= c <= 'F' then c as int - 55
    else if 'a' <= c <= 'f' then c as int - 87
    else 0
  }

  /** The UTF-8 octets of a code point: one for ASCII, then two, three or four, the
      leading octet carrying the high bits and each continuation octet six more. */
  function Utf8(c: char): (bs: seq<byte>)
    ensures 1 <= |bs| <= 4
    ensures |bs| == 1 <==> (c as int) < 0x80
  {
    var cp := c as int;
    var q1 := cp / 64;
    var q2 := q1 / 64;
    var q3 := q2 / 64;
    if cp < 0x80 then
      [cp as byte]
    else if cp < 0x800 then
      [(0xC0 + q1) as byte, (0x80 + cp % 64) as byte]
    else if cp < 0x10000 then
      [(0xE0 + q2) as byte, (0x80 + q1 % 64) as byte, (0x80 + cp % 64) as byte]
    else
      [(0xF0 + q3) as byte, (0x80 + q2 % 64) as byte, (0x80 + q1 % 64) as byte, (0x80 + cp % 64) as byte]
  }

  /** The UTF-8 encoding of a whole string. */
  function Utf8Encode(s: string): seq<byte> {
    if s == [] then [] else Utf8(s[0]) + Utf8Encode(s[1..])
  }

  /** An octet as a `%HH` triple. */
  function PercentOctet(b: byte): string {
    ['%', HexDigit(b as int / 16), HexDigit(b as int % 16)]
  }

  function PercentOctets(bs: seq<byte>): (r: string)
    ensures |r| == 3 * |bs|
    ensures forall i :: 0 <= i < |r| ==> IsUnreserved(r[i]) || r[i] == '%'
  {
    if bs == [] then [] else PercentOctet(bs[0]) + PercentOctets(bs[1..])
  }

  /** One code point as `encodeURIComponent` writes it: an unreserved character stays
      itself, any other becomes three or more characters, starting with `%`. */
  function EncodeChar(c: char): (r: string)
    ensures forall i :: 0 <= i < |r| ==> IsUnreserved(r[i]) || r[i] == '%'
    ensures |r| == 1 <==> IsUnreserved(c)
    ensures |r| == 1 ==> r == [c]
    ensures !IsUnreserved(c) ==> 3 <= |r| <= 12 && r[0] == '%'
  {
    if IsUnreserved(c) then [c] else PercentOctets(Utf8(c))
  }

  /** `encodeURIComponent(s)`. Its output holds unreserved characters and `%` only, so
      no `/`, `?`, `#`, `&` or white space can come through from the input. */
  function EncodeUriComponent(s: string): (r: string)
    ensures forall i :: 0 <= i < |r| ==> IsUnreserved(r[i]) || r[i] == '%'
  {
    if s == [] then [] else EncodeChar(s[0]) + EncodeUriComponent(s[1..])
  }

  /** A decoded run put in front of the rest of a decoding, failing when the rest fails. */
  function Prepend(bs: seq<byte>, r: Option<seq<byte>>): Option<seq<byte>> {
    match r
    case None => None
    case Some(rest) => Some(bs + rest)
  }

  /** Percent-decoding to octets: `%HH` gives the octet HH and an ASCII character its own
      code; a `%` without two hex digits after it, or a non-ASCII character, fails. */
  function PercentDecode(t: string): Option<seq<byte>>
    decreases |t|
  {
    if t == [] then Some([])
    else if t[0] == '%' then
      if |t| >= 3 && IsHexDigit(t[1]) && IsHexDigit(t[2]) then
        Prepend([(HexValue(t[1]) * 16 + HexValue(t[2])) as byte], PercentDecode(t[3..]))
      else None
    else if (t[0] as int) < 0x80 then
      Prepend([(t[0] as int) as byte], PercentDecode(t[1..]))
    else None
  }

  predicate IsContinuation(b: byte) {
    0x80 <= b < 0xC0
  }

  /** The code point the octets at the front of `bs` encode and how many octets it takes;
      None for a malformed, overlong or surrogate sequence. */
  function DecodeFirst(bs: seq<byte>): (r: Option<(char, nat)>)
    ensures r.Some? ==> 1 <= r.value.1 <= |bs|
  {
    if bs == [] then None
    else
      var b0 := bs[0] as int;
      if b0 < 0x80 then
        Some((b0 as char, 1))
      else if 0xC2 <= b0 < 0xE0 && |bs| >= 2 && IsContinuation(bs[1]) then
        var cp := (b0 - 0xC0) * 64 + (bs[1] as int - 0x80);
        Some((cp as char, 2))
      else if 0xE0 <= b0 < 0xF0 && |bs| >= 3 && IsContinuation(bs[1]) && IsContinuation(bs[2]) then
        var cp := ((b0 - 0xE0) * 64 + (bs[1] as int - 0x80)) * 64 + (bs[2] as int - 0x80);
        if cp < 0x800 || (0xD800 <= cp < 0xE000) then None else Some((cp as char, 3))
      else if 0xF0 <= b0 < 0xF5 && |bs| >= 4 && IsContinuation(bs[1]) && IsContinuation(bs[2]) && IsContinuation(bs[3]) then
        var cp := (((b0 - 0xF0) * 64 + (bs[1] as int - 0x80)) * 64 + (bs[2] as int - 0x80)) * 64 + (bs[3] as int - 0x80);
        if cp < 0x10000 || cp >= 0x110000 then None else Some((cp as char, 4))
      else None
  }

  /** UTF-8 decoding of a whole octet sequence. */
  function Utf8Decode(bs: seq<byte>): Option<string>
    decreases |bs|
  {
    if bs == [] then Some([])
    else
      match DecodeFirst(bs)
      case None => None
      case Some((c, n)) =>
        match Utf8Decode(bs[n..])
        case None => None
        case Some(rest) => Some([c] + rest)
  }

  /** The reference decoder: `decodeURIComponent` on the ASCII text the encoder produces. */
  function DecodeUriComponent(t: string): Option<string> {
    match PercentDecode(t)
    case None => None
    case Some(bs) => Utf8Decode(bs)
  }

  lemma HexRoundTrip(b: byte)
    ensures IsHexDigit(HexDigit(b as int / 16)) && IsHexDigit(HexDigit(b as int % 16))
    ensures HexValue(HexDigit(b as int / 16)) * 16 + HexValue(HexDigit(b as int % 16)) == b as int
  {
  }

  /** Percent-decoding reads one `%HH` triple back as its octet. */
  lemma PercentDecodeOctet(b: byte, u: string)
    ensures PercentDecode(PercentOctet(b) + u) == Prepend([b], PercentDecode(u))
  {
    var w := PercentOctet(b) + u;
    assert w[0] == '%' && w[1] == HexDigit(b as int / 16) && w[2] == HexDigit(b as int % 16);
    assert w[3..] == u;
    HexRoundTrip(b);
    assert (HexValue(w[1]) * 16 + HexValue(w[2])) as byte == b;
  }

  /** Percent-decoding undoes the `%HH` triples of a run of octets. */
  lemma {:induction false} PercentDecodeOctets(bs: seq<byte>, t: string)
    ensures PercentDecode(PercentOctets(bs) + t) == Prepend(bs, PercentDecode(t))
  {
    if bs == [] {
      assert PercentOctets(bs) + t == t;
      PrependTwice(bs, bs, PercentDecode(t));
    } else {
      PercentDecodeOctets(bs[1..], t);
      PercentDecodeOctetsStep(bs, t);
    }
  }

  /** The step of `PercentDecodeOctets`: from the tail of the run to the whole run. */
  lemma PercentDecodeOctetsStep(bs: seq<byte>, t: string)
    requires bs != []
    requires PercentDecode(PercentOctets(bs[1..]) + t) == Prepend(bs[1..], PercentDecode(t))
    ensures PercentDecode(PercentOctets(bs) + t) == Prepend(bs, PercentDecode(t))
  {
    var u := PercentOctets(bs[1..]) + t;
    PercentOctetsConcat(bs, t);
    PercentDecodeOctet(bs[0], u);
    PrependStep(bs, t, u);
  }

  lemma PercentOctetsConcat(bs: seq<byte>, t: string)
    requires bs != []
    ensures PercentOctets(bs) + t == PercentOctet(bs[0]) + (PercentOctets(bs[1..]) + t)
  {
  }

  lemma PrependStep(bs: seq<byte>, t: string, u: string)
    requires bs != []
    requires PercentDecode(u) == Prepend(bs[1..], PercentDecode(t))
    requires PercentDecode(PercentOctet(bs[0]) + u) == Prepend([bs[0]], PercentDecode(u))
    ensures PercentDecode(PercentOctet(bs[0]) + u) == Prepend(bs, PercentDecode(t))
  {
    PrependTwice([bs[0]], bs[1..], PercentDecode(t));
    assert [bs[0]] + bs[1..] == bs;
  }

  lemma PrependTwice(a: seq<byte>, b: seq<byte>, r: Option<seq<byte>>)
    ensures Prepend(a, Prepend(b, r)) == Prepend(a + b, r)
    ensures Prepend([], r) == r
  {
    if r.Some? {
      assert a + (b + r.value) == (a + b) + r.value;
      assert [] + r.value == r.value;
    }
  }

  /** Percent-decoding turns one encoded code point back into its UTF-8 octets. */
  lemma PercentDecodeChar(c: char, t: string)
    ensures PercentDecode(EncodeChar(c) + t) == Prepend(Utf8(c), PercentDecode(t))
  {
    if IsUnreserved(c) {
      var w := [c] + t;
      assert w[0] == c && w[1..] == t;
    } else {
      PercentDecodeOctets(Utf8(c), t);
    }
  }

  /** Percent-decoding the encoding of a string gives the string's UTF-8 octets. */
  lemma {:induction false} PercentDecodeEncoded(s: string)
    ensures PercentDecode(EncodeUriComponent(s)) == Some(Utf8Encode(s))
  {
    if s != [] {
      PercentDecodeEncoded(s[1..]);
      PercentDecodeChar(s[0], EncodeUriComponent(s[1..]));
    }
  }

  /** The decoder reads back exactly the code point at the front of its UTF-8 octets. */
  lemma DecodeFirstUtf8(c: char, rest: seq<byte>)
    ensures DecodeFirst(Utf8(c) + rest) == Some((c, |Utf8(c)|))
  {
    var cp := c as int;
    var q1 := cp / 64;
    var q2 := q1 / 64;
    var q3 := q2 / 64;
    var bs := Utf8(c) + rest;
    assert cp == q1 * 64 + cp % 64;
    assert q1 == q2 * 64 + q1 % 64;
    assert q2 == q3 * 64 + q2 % 64;
    if cp < 0x80 {
    } else if cp < 0x800 {
      assert bs[0] as int == 0xC0 + q1 && bs[1] as int == 0x80 + cp % 64;
    } else if cp < 0x10000 {
      assert bs[0] as int == 0xE0 + q2 && bs[1] as int == 0x80 + q1 % 64 && bs[2] as int == 0x80 + cp % 64;
    } else {
      assert bs[0] as int == 0xF0 + q3 && bs[1] as int == 0x80 + q2 % 64;
      assert bs[2] as int == 0x80 + q1 % 64 && bs[3] as int == 0x80 + cp % 64;
    }
  }

  /** UTF-8 decoding undoes UTF-8 encoding. */
  lemma {:induction false} Utf8RoundTrip(s: string)
    ensures Utf8Decode(Utf8Encode(s)) == Some(s)
  {
    if s != [] {
      var bs := Utf8Encode(s);
      DecodeFirstUtf8(s[0], Utf8Encode(s[1..]));
      assert bs[|Utf8(s[0])|..] == Utf8Encode(s[1..]);
      Utf8RoundTrip(s[1..]);
      assert s == [s[0]] + s[1..];
    }
  }

  /** Decoding the encoding of a string gives the string back: what the upstream service
      reads from the path segment is the prompt. */
  lemma UriRoundTrip(s: string)
    ensures DecodeUriComponent(EncodeUriComponent(s)) == Some(s)
  {
    PercentDecodeEncoded(s);
    Utf8RoundTrip(s);
  }

  /** Different strings have different encodings. */
  lemma EncodeInjective(s: string, t: string)
    ensures EncodeUriComponent(s) == EncodeUriComponent(t) ==> s == t
  {
    UriRoundTrip(s);
    UriRoundTrip(t);
  }
}
