/**
 * The application/x-www-form-urlencoded format of section 5 of the WHATWG URL
 * Standard, as `URLSearchParams.toString()` writes it: each name and value is
 * encoded as UTF-8, a space becomes '+', the bytes of '*', '-', '.', '_' and
 * the ASCII alphanumerics stay as they are and every other byte becomes '%'
 * and two upper-case hex digits; pairs are written `name=value` and joined by
 * '&'. The parser of section 5.1 is modelled on bytes (without the final UTF-8
 * decoding) so that the round trip can be stated.
 */
module FormUrlEncoding {
  import opened Text
  import opened Seqs

  newtype byte = x: int | 0 <= x < 256

  /** The UTF-8 encoding of one Unicode scalar value. */
  function Utf8(c: char): (bs: seq<byte>)
    ensures 1 <= |bs| <= 4
    ensures c as int < 0x80 ==> bs == [c as int as byte]
  {
    var n := c as int;
    if n < 0x80 then [n as byte]
    else if n < 0x800 then [(0xC0 + n / 64) as byte, (0x80 + n % 64) as byte]
    else if n < 0x10000 then
      [(0xE0 + n / 4096) as byte, (0x80 + (n / 64) % 64) as byte, (0x80 + n % 64) as byte]
    else
      [(0xF0 + n / 262144 % 8) as byte, (0x80 + (n / 4096) % 64) as byte,
       (0x80 + (n / 64) % 64) as byte, (0x80 + n % 64) as byte]
  }

  function Utf8String(s: string): seq<byte> {
    if s == [] then [] else Utf8(s[0]) + Utf8String(s[1..])
  }

  /** Bytes left as they are: ASCII alphanumerics, '*', '-', '.' and '_'. */
  predicate Unreserved(b: byte) {
    || b == 0x2A || b == 0x2D || b == 0x2E || b == 0x5F
    || (0x30 <= b <= 0x39) || (0x41 <= b <= 0x5A) || (0x61 <= b <= 0x7A)
  }

  function HexDigit(d: int): (c: char)
    requires 0 <= d < 16
    ensures IsHexDigit(c) && HexValue(c) == d
  {
    if d < 10 then ('0' as int + d) as char else ('A' as int + d - 10) as char
  }

  predicate IsHexDigit(c: char) {
    ('0' <= c <= '9') || ('A' <= c <= 'F') || ('a' <= c <= 'f')
  }

  function HexValue(c: char): (d: int)
    requires IsHexDigit(c)
    ensures 0 <= d < 16
  {
    if '0' <= c <= '9' then c as int - '0' as int
    else if 'A' <= c <= 'F' then c as int - 'A' as int + 10
    else c as int - 'a' as int + 10
  }

  /** The serialization of one byte; it never holds the pair or field separators. */
  function EncodeByte(b: byte): (s: string)
    ensures 1 <= |s| <= 3
    ensures '&' !in s && '=' !in s
  {
    if b == 0x20 then "+"
    else if Unreserved(b) then [b as int as char]
    else ['%', HexDigit(b as int / 16), HexDigit(b as int % 16)]
  }

  function EncodeBytes(bs: seq<byte>): (s: string)
    ensures '&' !in s && '=' !in s
  {
    if bs == [] then "" else EncodeByte(bs[0]) + EncodeBytes(bs[1..])
  }

  /** One name or value, serialized. */
  function EncodeComponent(s: string): (r: string)
    ensures '&' !in r && '=' !in r
  {
    EncodeBytes(Utf8String(s))
  }

  datatype Param = Param(name: string, value: string)

  function PairText(p: Param): string {
    EncodeComponent(p.name) + "=" + EncodeComponent(p.value)
  }

  /** `URLSearchParams.toString()` */
  function Serialize(params: seq<Param>): string {
    if params == [] then "" else Join(MapSeq(params, PairText), '&')
  }

  /** The serialization is empty exactly when there are no parameters. */
  lemma SerializeEmptyIff(params: seq<Param>)
    ensures Serialize(params) == "" <==> params == []
  {
    if params != [] {
      JoinHeadPrefix(MapSeq(params, PairText), '&');
      assert '=' in PairText(params[0]) by {
        assert PairText(params[0])[|EncodeComponent(params[0].name)|] == '=';
      }
    }
  }

  /** The first part of a join is where the joined text starts. */
  lemma {:induction false} JoinHeadPrefix(parts: seq<string>, sep: char)
    requires |parts| >= 1
    ensures IsPrefix(parts[0], Join(parts, sep))
  {
    if |parts| > 1 {
      var s := Join(parts, sep);
      assert s == parts[0] + ([sep] + Join(parts[1..], sep));
    }
  }

  // ------------------------------------------------------------------ parsing

  /** Percent-decoding with '+' read as a space; other characters stand for their UTF-8 bytes. */
  function DecodeBytes(s: string): seq<byte>
    decreases |s|
  {
    if s == [] then []
    else if s[0] == '+' then [0x20] + DecodeBytes(s[1..])
    else if s[0] == '%' && |s| >= 3 && IsHexDigit(s[1]) && IsHexDigit(s[2]) then
      [(HexValue(s[1]) * 16 + HexValue(s[2])) as byte] + DecodeBytes(s[3..])
    else Utf8(s[0]) + DecodeBytes(s[1..])
  }

  /** A name and value as byte sequences. */
  datatype RawParam = RawParam(name: seq<byte>, value: seq<byte>)

  /** One `name=value` part: split at the first '=', or all name when there is none. */
  function ParsePart(part: string): RawParam {
    if '=' in part then
      var i := FirstIndex(part, '=');
      RawParam(DecodeBytes(part[..i]), DecodeBytes(part[i + 1..]))
    else RawParam(DecodeBytes(part), [])
  }

  function NonEmpty(part: string): bool { part != "" }

  /** The parser: split on '&', skip empty parts, parse each. */
  function Parse(s: string): seq<RawParam> {
    MapSeq(Filter(Split(s, '&'), NonEmpty), ParsePart)
  }

  function AsRaw(p: Param): RawParam {
    RawParam(Utf8String(p.name), Utf8String(p.value))
  }

  /** Decoding the encoding of a byte gives that byte back, whatever follows. */
  lemma DecodeEncodeByte(b: byte, rest: string)
    ensures DecodeBytes(EncodeByte(b) + rest) == [b] + DecodeBytes(rest)
  {
    var s := EncodeByte(b) + rest;
    if b == 0x20 {
      assert s[1..] == rest;
    } else if Unreserved(b) {
      assert s[0] == b as int as char && s[1..] == rest;
    } else {
      var hi, lo := b as int / 16, b as int % 16;
      assert s[1] == HexDigit(hi) && s[2] == HexDigit(lo);
      assert s[3..] == rest;
      assert (HexValue(s[1]) * 16 + HexValue(s[2])) as byte == b;
    }
  }

  /** Percent-decoding undoes percent-encoding. */
  lemma {:induction false} DecodeEncode(bs: seq<byte>)
    ensures DecodeBytes(EncodeBytes(bs)) == bs
  {
    if bs != [] {
      DecodeEncodeByte(bs[0], EncodeBytes(bs[1..]));
      DecodeEncode(bs[1..]);
      assert bs == [bs[0]] + bs[1..];
    }
  }

  /** A serialized pair parses back to the UTF-8 bytes of its name and value. */
  lemma ParsePairText(p: Param)
    ensures ParsePart(PairText(p)) == AsRaw(p)
  {
    var n, v := EncodeComponent(p.name), EncodeComponent(p.value);
    FirstIndexAfter(n, '=', v);
    var t := n + ['='] + v;
    assert PairText(p) == t;
    assert t[..|n|] == n && t[|n| + 1..] == v;
    DecodeEncode(Utf8String(p.name));
    DecodeEncode(Utf8String(p.value));
  }

  /**
   * Parsing a serialization gives back every parameter, in order, as the UTF-8
   * bytes of its name and of its value.
   */
  lemma ParseSerialize(params: seq<Param>)
    ensures Parse(Serialize(params)) == MapSeq(params, AsRaw)
  {
    if params == [] {
      assert Split("", '&') == [""];
      assert Filter([""], NonEmpty) == [];
    } else {
      var parts := MapSeq(params, PairText);
      SplitJoin(parts, '&');
      forall k | 0 <= k < |parts| ensures NonEmpty(parts[k])
      {
        assert |parts[k]| > |EncodeComponent(params[k].name)|;
      }
      FilterAll(parts, NonEmpty);
      forall k | 0 <= k < |params| ensures ParsePart(parts[k]) == AsRaw(params[k])
      {
        ParsePairText(params[k]);
      }
    }
  }
}
