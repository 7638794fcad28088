/** Base64 as specified in section 4 of RFC 4648 (the encoding `btoa` applies
    to a string of byte-valued characters), with the decoder that inverts it. */
module Base64 {
  import opened Wrappers

  type Byte = x: int | 0 <= x < 256
  type Sextet = x: int | 0 <= x < 64

  /** `ToUint8`: how `new Uint8Array(numbers)` stores a number. */
  function ToUint8(x: int): (b: Byte)
    ensures 0 <= x < 256 ==> b == x
  {
    x % 256
  }

  /** Table 1 of RFC 4648: 'A'-'Z', 'a'-'z', '0'-'9', '+', '/'. */
  function EncodeSextet(v: Sextet): char
  {
    if v < 26 then ('A' as int + v) as char
    else if v < 52 then ('a' as int + (v - 26)) as char
    else if v < 62 then ('0' as int + (v - 52)) as char
    else if v == 62 then '+'
    else '/'
  }

  function DecodeChar(c: char): Option<Sextet>
  {
    if 'A' <= c <= 'Z' then Some(c as int - 'A' as int)
    else if 'a' <= c <= 'z' then Some(c as int - 'a' as int + 26)
    else if '0' <= c <= '9' then Some(c as int - '0' as int + 52)
    else if c == '+' then Some(62)
    else if c == '/' then Some(63)
    else None
  }

  lemma DecodeEncodeSextet(v: Sextet)
    ensures DecodeChar(EncodeSextet(v)) == Some(v)
  {
  }

  /** The 4 characters for 3 input bytes (section 4: 24-bit groups). */
  function Group3(b0: Byte, b1: Byte, b2: Byte): string
  {
    [EncodeSextet(b0 / 4), EncodeSextet((b0 % 4) * 16 + b1 / 16),
     EncodeSextet((b1 % 16) * 4 + b2 / 64), EncodeSextet(b2 % 64)]
  }

  /** A final quantum of 16 bits: three characters and one '='. */
  function Group2(b0: Byte, b1: Byte): string
  {
    [EncodeSextet(b0 / 4), EncodeSextet((b0 % 4) * 16 + b1 / 16), EncodeSextet((b1 % 16) * 4), '=']
  }

  /** A final quantum of 8 bits: two characters and "==". */
  function Group1(b0: Byte): string
  {
    [EncodeSextet(b0 / 4), EncodeSextet((b0 % 4) * 16), '=', '=']
  }

  function Encode(bytes: seq<Byte>): (r: string)
    ensures |r| == 4 * ((|bytes| + 2) / 3)
    decreases |bytes|
  {
    if |bytes| == 0 then ""
    else if |bytes| == 1 then Group1(bytes[0])
    else if |bytes| == 2 then Group2(bytes[0], bytes[1])
    else Group3(bytes[0], bytes[1], bytes[2]) + Encode(bytes[3..])
  }

  /** One group of four characters; padding is accepted only in the last. */
  function DecodeGroup(g: string, last: bool): (r: Option<seq<Byte>>)
    requires |g| == 4
    ensures r.Some? ==> 1 <= |r.value| <= 3
    ensures r.Some? && |r.value| < 3 ==> last
  {
    var d0, d1 := DecodeChar(g[0]), DecodeChar(g[1]);
    if d0.None? || d1.None? then None
    else
      var v0, v1 := d0.value, d1.value;
      var b0: Byte := v0 * 4 + v1 / 16;
      if g[2] == '=' then
        if last && g[3] == '=' then Some([b0]) else None
      else match DecodeChar(g[2])
        case None => None
        case Some(v2) =>
          var b1: Byte := (v1 % 16) * 16 + v2 / 4;
          if g[3] == '=' then
            if last then Some([b0, b1]) else None
          else match DecodeChar(g[3])
            case None => None
            case Some(v3) => Some([b0, b1, (v2 % 4) * 64 + v3])
  }

  function Decode(s: string): Option<seq<Byte>>
    decreases |s|
  {
    if s == [] then Some([])
    else if |s| < 4 then None
    else match DecodeGroup(s[..4], |s| == 4)
      case None => None
      case Some(head) =>
        if |head| < 3 then Some(head)
        else match Decode(s[4..])
          case None => None
          case Some(tail) => Some(head + tail)
  }

  lemma Group3RoundTrip(b0: Byte, b1: Byte, b2: Byte, last: bool)
    ensures DecodeGroup(Group3(b0, b1, b2), last) == Some([b0, b1, b2])
  {
    var v0, v1, v2, v3 := b0 / 4, (b0 % 4) * 16 + b1 / 16, (b1 % 16) * 4 + b2 / 64, b2 % 64;
    DecodeEncodeSextet(v0);
    DecodeEncodeSextet(v1);
    DecodeEncodeSextet(v2);
    DecodeEncodeSextet(v3);
    assert v0 * 4 + v1 / 16 == b0;
    assert (v1 % 16) * 16 + v2 / 4 == b1;
    assert (v2 % 4) * 64 + v3 == b2;
  }

  lemma Group2RoundTrip(b0: Byte, b1: Byte)
    ensures DecodeGroup(Group2(b0, b1), true) == Some([b0, b1])
  {
    var v0, v1, v2 := b0 / 4, (b0 % 4) * 16 + b1 / 16, (b1 % 16) * 4;
    DecodeEncodeSextet(v0);
    DecodeEncodeSextet(v1);
    DecodeEncodeSextet(v2);
    assert v0 * 4 + v1 / 16 == b0;
    assert (v1 % 16) * 16 + v2 / 4 == b1;
  }

  lemma Group1RoundTrip(b0: Byte)
    ensures DecodeGroup(Group1(b0), true) == Some([b0])
  {
    var v0, v1 := b0 / 4, (b0 % 4) * 16;
    DecodeEncodeSextet(v0);
    DecodeEncodeSextet(v1);
    assert v0 * 4 + v1 / 16 == b0;
  }

  lemma DecodeLastGroup(g: string, h: seq<Byte>)
    requires |g| == 4 && DecodeGroup(g, true) == Some(h)
    ensures Decode(g) == Some(h)
  {
    assert g[..4] == g;
    if |h| == 3 {
      assert g[4..] == [];
      assert h + [] == h;
    }
  }

  lemma DecodeFullGroup(g: string, rest: string, h: seq<Byte>, t: seq<Byte>)
    requires |g| == 4 && DecodeGroup(g, rest == []) == Some(h) && |h| == 3
    requires Decode(rest) == Some(t)
    ensures Decode(g + rest) == Some(h + t)
  {
    var s := g + rest;
    assert s[..4] == g;
    assert s[4..] == rest;
    assert (|s| == 4) == (rest == []);
  }

  lemma DecodeEncodeShort(bytes: seq<Byte>)
    requires 1 <= |bytes| <= 2
    ensures Decode(Encode(bytes)) == Some(bytes)
  {
    if |bytes| == 1 {
      Group1RoundTrip(bytes[0]);
      DecodeLastGroup(Group1(bytes[0]), [bytes[0]]);
      assert bytes == [bytes[0]];
    } else {
      Group2RoundTrip(bytes[0], bytes[1]);
      DecodeLastGroup(Group2(bytes[0], bytes[1]), [bytes[0], bytes[1]]);
      assert bytes == [bytes[0], bytes[1]];
    }
  }

  /** Decoding an encoding gives the bytes back, in order. */
  lemma {:induction false} DecodeEncode(bytes: seq<Byte>)
    ensures Decode(Encode(bytes)) == Some(bytes)
    decreases |bytes|
  {
    if 1 <= |bytes| <= 2 {
      DecodeEncodeShort(bytes);
    } else if |bytes| >= 3 {
      var head := [bytes[0], bytes[1], bytes[2]];
      var g := Group3(bytes[0], bytes[1], bytes[2]);
      var rest := Encode(bytes[3..]);
      assert Encode(bytes) == g + rest;
      Group3RoundTrip(bytes[0], bytes[1], bytes[2], rest == []);
      DecodeEncode(bytes[3..]);
      DecodeFullGroup(g, rest, head, bytes[3..]);
      assert bytes == head + bytes[3..];
    }
  }

  /** Encodings of different byte sequences differ. */
  lemma EncodeInjective(a: seq<Byte>, b: seq<Byte>)
    ensures Encode(a) == Encode(b) ==> a == b
  {
    DecodeEncode(a);
    DecodeEncode(b);
  }

  /** The string `reduce((data, byte) => data + String.fromCharCode(byte), "")`
      builds: one character per byte, its code the byte's value. */
  function Latin1(bytes: seq<Byte>): (s: string)
    ensures |s| == |bytes|
  {
    if bytes == [] then "" else Latin1(bytes[..|bytes| - 1]) + [bytes[|bytes| - 1] as char]
  }

  /** `btoa(s)`: the Base64 of the character codes, or an
      InvalidCharacterError (`None`) when some code is above 255. */
  function Btoa(s: string): Option<string>
  {
    if forall i :: 0 <= i < |s| ==> s[i] as int < 256 then
      Some(Encode(seq(|s|, i requires 0 <= i < |s| => s[i] as int)))
    else None
  }

  lemma {:induction false} Latin1Codes(bytes: seq<Byte>)
    ensures forall i :: 0 <= i < |bytes| ==> Latin1(bytes)[i] as int == bytes[i]
  {
    if bytes != [] {
      Latin1Codes(bytes[..|bytes| - 1]);
    }
  }

  /** `btoa` never throws on the byte string, and encodes exactly the bytes. */
  lemma BtoaLatin1(bytes: seq<Byte>)
    ensures Btoa(Latin1(bytes)) == Some(Encode(bytes))
  {
    var s := Latin1(bytes);
    Latin1Codes(bytes);
    assert seq(|s|, i requires 0 <= i < |s| => s[i] as int) == bytes;
  }
}
