/** The base64 encoding of section 4 of RFC 4648 (alphabet A-Z a-z 0-9 + /, with
    '=' padding), which Node's `buffer.toString("base64")` produces, and the data
    URLs of section 3 of RFC 2397 that the authentication handlers build from a
    stored profile picture. */
module Base64 {
  import opened Js
  import Text

  /** The alphabet character for a 6-bit value. */
  function CharOf(i: nat): (c: char)
    requires i < 64
    ensures c != '=' && c != ';'
  {
    if i < 26 then ('A' as int + i) as char
    else if i < 52 then ('a' as int + i - 26) as char
    else if i < 62 then ('0' as int + i - 52) as char
    else if i == 62 then '+'
    else '/'
  }

  /** The 6-bit value of an alphabet character; None for any other character. */
  function IndexOf(c: char): (r: Option<nat>)
    ensures r.Some? ==> r.value < 64
  {
    if 'A' <= c <= 'Z' then Some(c as int - 'A' as int)
    else if 'a' <= c <= 'z' then Some(c as int - 'a' as int + 26)
    else if '0' <= c <= '9' then Some(c as int - '0' as int + 52)
    else if c == '+' then Some(62)
    else if c == '/' then Some(63)
    else None
  }

  /** Three bytes as four characters. */
  function Quad(a: byte, b: byte, c: byte): (s: string)
    ensures |s| == 4 && '=' !in s
  {
    [CharOf(a as int / 4), CharOf((a as int % 4) * 16 + b as int / 16),
     CharOf((b as int % 16) * 4 + c as int / 64), CharOf(c as int % 64)]
  }

  /** `Buffer.from(bytes).toString("base64")`. */
  function Encode(bytes: seq<byte>): (s: string)
    ensures |s| == 4 * ((|bytes| + 2) / 3)
    decreases |bytes|
  {
    if |bytes| == 0 then ""
    else if |bytes| == 1 then
      [CharOf(bytes[0] as int / 4), CharOf((bytes[0] as int % 4) * 16), '=', '=']
    else if |bytes| == 2 then
      [CharOf(bytes[0] as int / 4), CharOf((bytes[0] as int % 4) * 16 + bytes[1] as int / 16),
       CharOf((bytes[1] as int % 16) * 4), '=']
    else Quad(bytes[0], bytes[1], bytes[2]) + Encode(bytes[3..])
  }

  /** Four alphabet characters as three bytes. */
  function DecodeQuad(q: string): Option<seq<byte>>
    requires |q| == 4
  {
    var v0, v1, v2, v3 := IndexOf(q[0]), IndexOf(q[1]), IndexOf(q[2]), IndexOf(q[3]);
    if v0.None? || v1.None? || v2.None? || v3.None? then None
    else Some([(v0.value * 4 + v1.value / 16) as byte,
               ((v1.value % 16) * 16 + v2.value / 4) as byte,
               ((v2.value % 4) * 64 + v3.value) as byte])
  }

  /** The last group, which may end in one or two '=' pads. */
  function DecodeLast(q: string): Option<seq<byte>>
    requires |q| == 4
  {
    var v0, v1, v2 := IndexOf(q[0]), IndexOf(q[1]), IndexOf(q[2]);
    if q[2] == '=' && q[3] == '=' then
      if v0.None? || v1.None? then None
      else Some([(v0.value * 4 + v1.value / 16) as byte])
    else if q[3] == '=' then
      if v0.None? || v1.None? || v2.None? then None
      else Some([(v0.value * 4 + v1.value / 16) as byte, ((v1.value % 16) * 16 + v2.value / 4) as byte])
    else DecodeQuad(q)
  }

  /** Base64 decoding; None for text that is not padded base64. */
  function Decode(s: string): Option<seq<byte>>
    decreases |s|
  {
    if s == "" then Some([])
    else if |s| < 4 then None
    else if |s| == 4 then DecodeLast(s)
    else match DecodeQuad(s[..4])
      case None => None
      case Some(head) =>
        match Decode(s[4..])
        case None => None
        case Some(tail) => Some(head + tail)
  }

  lemma IndexOfCharOf(i: nat)
    requires i < 64
    ensures IndexOf(CharOf(i)) == Some(i)
  {
  }

  /** The bit arithmetic of one group: the four sextets give back the three bytes. */
  lemma QuadRoundTrip(a: byte, b: byte, c: byte)
    ensures DecodeQuad(Quad(a, b, c)) == Some([a, b, c])
    ensures DecodeLast(Quad(a, b, c)) == Some([a, b, c])
  {
    var x, y, z := a as int, b as int, c as int;
    var s0, s1, s2, s3 := x / 4, (x % 4) * 16 + y / 16, (y % 16) * 4 + z / 64, z % 64;
    IndexOfCharOf(s0);
    IndexOfCharOf(s1);
    IndexOfCharOf(s2);
    IndexOfCharOf(s3);
    assert s1 / 16 == x % 4 && s1 % 16 == y / 16;
    assert s2 / 4 == y % 16 && s2 % 4 == z / 64;
  }

  /** One trailing byte: two characters and two pads. */
  lemma OneByteRoundTrip(a: byte)
    ensures Decode(Encode([a])) == Some([a])
  {
    var x := a as int;
    IndexOfCharOf(x / 4);
    IndexOfCharOf((x % 4) * 16);
    assert ((x % 4) * 16) / 16 == x % 4;
  }

  /** Two trailing bytes: three characters and one pad. */
  lemma TwoBytesRoundTrip(a: byte, b: byte)
    ensures Decode(Encode([a, b])) == Some([a, b])
  {
    var x, y := a as int, b as int;
    var s0, s1, s2 := x / 4, (x % 4) * 16 + y / 16, (y % 16) * 4;
    IndexOfCharOf(s0);
    IndexOfCharOf(s1);
    IndexOfCharOf(s2);
    assert s0 * 4 + s1 / 16 == x;
    assert (s1 % 16) * 16 + s2 / 4 == y;
    var e := Encode([a, b]);
    assert e == [CharOf(s0), CharOf(s1), CharOf(s2), '='];
  }

  /** A full group followed by more groups decodes group by group. */
  lemma DecodeGroup(q: string, rest: string, head: seq<byte>, tail: seq<byte>)
    requires |q| == 4 && rest != ""
    requires DecodeQuad(q) == Some(head) && Decode(rest) == Some(tail)
    ensures Decode(q + rest) == Some(head + tail)
  {
    var s := q + rest;
    assert s[..4] == q && s[4..] == rest;
  }

  /** Decoding undoes encoding, for every byte string. */
  lemma {:induction false} DecodeEncode(bytes: seq<byte>)
    ensures Decode(Encode(bytes)) == Some(bytes)
    decreases |bytes|
  {
    if |bytes| == 1 {
      assert bytes == [bytes[0]];
      OneByteRoundTrip(bytes[0]);
    } else if |bytes| == 2 {
      assert bytes == [bytes[0], bytes[1]];
      TwoBytesRoundTrip(bytes[0], bytes[1]);
    } else if |bytes| >= 3 {
      var first, more := bytes[..3], bytes[3..];
      assert first == [bytes[0], bytes[1], bytes[2]];
      assert bytes == first + more;
      var head := Quad(bytes[0], bytes[1], bytes[2]);
      assert Encode(bytes) == head + Encode(more);
      QuadRoundTrip(bytes[0], bytes[1], bytes[2]);
      if more == [] {
        assert Encode(bytes) == head && bytes == first;
        assert Decode(head) == DecodeLast(head);
      } else {
        DecodeEncode(more);
        DecodeGroup(head, Encode(more), first, more);
      }
    }
  }

  /** "data:<mime type>;base64,<payload>". */
  function DataUrl(mimeType: string, bytes: seq<byte>): string {
    "data:" + mimeType + ";base64," + Encode(bytes)
  }

  /** Reads a base64 data URL: the media type up to the first ';' and the payload. */
  function ParseDataUrl(url: string): Option<(string, seq<byte>)> {
    if |url| < 5 || url[..5] != "data:" then None
    else
      var rest := url[5..];
      var mimeType := Text.BeforeFirst(rest, ';');
      var tail := rest[|mimeType|..];
      if |tail| < 8 || tail[..8] != ";base64," then None
      else match Decode(tail[8..])
        case None => None
        case Some(bytes) => Some((mimeType, bytes))
  }

  /** A data URL built from a media type without ';' gives back that media type
      and exactly the stored bytes. */
  lemma DataUrlRoundTrip(mimeType: string, bytes: seq<byte>)
    requires ';' !in mimeType
    ensures ParseDataUrl(DataUrl(mimeType, bytes)) == Some((mimeType, bytes))
  {
    var enc := Encode(bytes);
    var url := DataUrl(mimeType, bytes);
    assert url[..5] == "data:";
    assert url[5..] == mimeType + (";base64," + enc);
    Text.BeforeFirstOfJoin(mimeType, ";base64," + enc, ';');
    assert url[5..][|mimeType|..] == ";base64," + enc;
    DecodeEncode(bytes);
  }
}
