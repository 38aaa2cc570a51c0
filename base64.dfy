/** Python's `str.encode('utf-8')` and `base64.encodebytes`, the two steps
    that turn `user:password` into the credentials of a Basic authorization
    header (section 2 of RFC 7617, with the base64 alphabet of section 4 of
    RFC 4648). */
module Base64 {
  import opened Wrappers
  import opened Strings

  type Byte = b: int | 0 <= b < 256

  // ---------------------------------------------------------------------
  // UTF-8

  /** The UTF-8 bytes of one character (a Unicode scalar value). */
  function Utf8Char(c: char): (r: seq<Byte>)
    ensures 1 <= |r| <= 4
    ensures (c as int) < 0x80 <==> |r| == 1
    ensures |r| == 1 ==> r[0] == c as int
  {
    var n := c as int;
    if n < 0x80 then [n]
    else if n < 0x800 then [0xC0 + n / 64, 0x80 + n % 64]
    else if n < 0x10000 then [0xE0 + n / 4096, 0x80 + (n / 64) % 64, 0x80 + n % 64]
    else [0xF0 + n / 262144, 0x80 + (n / 4096) % 64, 0x80 + (n / 64) % 64, 0x80 + n % 64]
  }

  /** `s.encode('utf-8')`. */
  function Utf8(s: string): seq<Byte>
  {
    if s == [] then [] else Utf8(s[..|s| - 1]) + Utf8Char(s[|s| - 1])
  }

  /** The character of a well-formed UTF-8 sequence of one to four bytes. */
  function Utf8Value(bs: seq<Byte>): int
    requires 1 <= |bs| <= 4
  {
    var b0: int := bs[0];
    if |bs| == 1 then b0
    else
      var b1: int := bs[1];
      if |bs| == 2 then (b0 - 0xC0) * 64 + (b1 - 0x80)
      else
        var b2: int := bs[2];
        if |bs| == 3 then (b0 - 0xE0) * 4096 + (b1 - 0x80) * 64 + (b2 - 0x80)
        else
          var b3: int := bs[3];
          (b0 - 0xF0) * 262144 + (b1 - 0x80) * 4096 + (b2 - 0x80) * 64 + (b3 - 0x80)
  }

  /** The first byte of a character's encoding says how many bytes follow, and
      every following byte is a continuation byte. */
  lemma Utf8CharShape(c: char)
    ensures var r := Utf8Char(c);
      (|r| == 1 <==> r[0] < 0x80) && (|r| == 2 <==> 0xC0 <= r[0] < 0xE0)
      && (|r| == 3 <==> 0xE0 <= r[0] < 0xF0) && (|r| == 4 <==> 0xF0 <= r[0])
      && forall i :: 1 <= i < |r| ==> 0x80 <= r[i] < 0xC0
  {
    var n := c as int;
    if n >= 0x10000 {
      assert n < 0x110000;
    }
  }

  /** Decoding the bytes of one character gives back its code point. */
  lemma Utf8CharRoundTrip(c: char)
    ensures Utf8Value(Utf8Char(c)) == c as int
  {
    var n := c as int;
    if 0x80 <= n < 0x800 {
      TwoByteValue(c);
    } else if 0x800 <= n < 0x10000 {
      ThreeByteValue(c);
    } else if 0x10000 <= n {
      FourByteValue(c);
    }
  }

  lemma TwoByteValue(c: char)
    requires 0x80 <= c as int < 0x800
    ensures Utf8Value(Utf8Char(c)) == c as int
  {
    var n := c as int;
    assert Utf8Char(c) == [0xC0 + n / 64, 0x80 + n % 64];
    assert (n / 64) * 64 + n % 64 == n;
  }

  lemma ThreeByteValue(c: char)
    requires 0x800 <= c as int < 0x10000
    ensures Utf8Value(Utf8Char(c)) == c as int
  {
    var n := c as int;
    assert Utf8Char(c) == [0xE0 + n / 4096, 0x80 + (n / 64) % 64, 0x80 + n % 64];
    assert (n / 4096) * 4096 + ((n / 64) % 64) * 64 + n % 64 == n by {
      assert (n / 4096) * 64 + (n / 64) % 64 == n / 64;
    }
  }

  lemma FourByteValue(c: char)
    requires 0x10000 <= c as int
    ensures Utf8Value(Utf8Char(c)) == c as int
  {
    var n := c as int;
    assert n < 0x110000;
    assert Utf8Char(c) == [0xF0 + n / 262144, 0x80 + (n / 4096) % 64, 0x80 + (n / 64) % 64, 0x80 + n % 64];
    assert (n / 262144) * 262144 + ((n / 4096) % 64) * 4096 + ((n / 64) % 64) * 64 + n % 64 == n by {
      assert (n / 262144) * 64 + (n / 4096) % 64 == n / 4096;
      assert (n / 4096) * 64 + (n / 64) % 64 == n / 64;
    }
  }

  /** A text of characters below 128 encodes to its code points. */
  lemma {:induction false} Utf8Ascii(s: string)
    requires forall i :: 0 <= i < |s| ==> (s[i] as int) < 0x80
    ensures |Utf8(s)| == |s| && forall i :: 0 <= i < |s| ==> Utf8(s)[i] == s[i] as int
  {
    if s != [] {
      Utf8Ascii(s[..|s| - 1]);
    }
  }

  // ---------------------------------------------------------------------
  // Base64

  /** The base64 digit of a six-bit value: `A-Z`, `a-z`, `0-9`, `+`, `/`. */
  function Digit(i: int): (c: char)
    requires 0 <= i < 64
  {
    if i < 26 then (65 + i) as char
    else if i < 52 then (71 + i) as char
    else if i < 62 then (i - 4) as char
    else if i == 62 then '+'
    else '/'
  }

  /** The six-bit value of a base64 digit, and -1 for any other character. */
  function Value(c: char): (v: int)
    ensures -1 <= v < 64
  {
    if 'A' <= c <= 'Z' then c as int - 65
    else if 'a' <= c <= 'z' then c as int - 71
    else if '0' <= c <= '9' then c as int + 4
    else if c == '+' then 62
    else if c == '/' then 63
    else -1
  }

  lemma DigitValue(i: int)
    requires 0 <= i < 64
    ensures Value(Digit(i)) == i && Digit(i) != '=' && Digit(i) != '\n'
  {
  }

  /** Three bytes as four digits. */
  function Group(b0: Byte, b1: Byte, b2: Byte): string
  {
    [Digit(b0 / 4), Digit((b0 % 4) * 16 + b1 / 16), Digit((b1 % 16) * 4 + b2 / 64), Digit(b2 % 64)]
  }

  /** `base64.b64encode`: groups of three bytes, the last one or two bytes
      padded with `=`. */
  function Encode(bs: seq<Byte>): (r: string)
    ensures |r| == (|bs| + 2) / 3 * 4
  {
    if |bs| == 0 then ""
    else if |bs| == 1 then [Digit(bs[0] / 4), Digit((bs[0] % 4) * 16), '=', '=']
    else if |bs| == 2 then [Digit(bs[0] / 4), Digit((bs[0] % 4) * 16 + bs[1] / 16), Digit((bs[1] % 16) * 4), '=']
    else Group(bs[0], bs[1], bs[2]) + Encode(bs[3..])
  }

  /** Reading base64 text back: every group of four characters gives three
      bytes, fewer when padded; anything else is not base64. */
  function Decode(s: string): Option<seq<Byte>>
  {
    if s == "" then Some([])
    else if |s| < 4 then None
    else
      var v0, v1, v2, v3 := Value(s[0]), Value(s[1]), Value(s[2]), Value(s[3]);
      if v0 < 0 || v1 < 0 then None
      else if s[2] == '=' && s[3] == '=' then
        if |s| == 4 then Some([v0 * 4 + v1 / 16]) else None
      else if v2 < 0 then None
      else if s[3] == '=' then
        if |s| == 4 then Some([v0 * 4 + v1 / 16, (v1 % 16) * 16 + v2 / 4]) else None
      else if v3 < 0 then None
      else
        match Decode(s[4..])
        case None => None
        case Some(rest) => Some([v0 * 4 + v1 / 16, (v1 % 16) * 16 + v2 / 4, (v2 % 4) * 64 + v3] + rest)
  }

  lemma GroupRoundTrip(b0: Byte, b1: Byte, b2: Byte)
    ensures var g := Group(b0, b1, b2);
      Value(g[0]) * 4 + Value(g[1]) / 16 == b0
      && (Value(g[1]) % 16) * 16 + Value(g[2]) / 4 == b1
      && (Value(g[2]) % 4) * 64 + Value(g[3]) == b2
      && g[2] != '=' && g[3] != '='
      && Value(g[0]) >= 0 && Value(g[1]) >= 0 && Value(g[2]) >= 0 && Value(g[3]) >= 0
  {
    DigitValue(b0 / 4);
    DigitValue((b0 % 4) * 16 + b1 / 16);
    DigitValue((b1 % 16) * 4 + b2 / 64);
    DigitValue(b2 % 64);
    assert ((b0 % 4) * 16 + b1 / 16) / 16 == b0 % 4;
    assert ((b0 % 4) * 16 + b1 / 16) % 16 == b1 / 16;
    assert ((b1 % 16) * 4 + b2 / 64) / 4 == b1 % 16;
    assert ((b1 % 16) * 4 + b2 / 64) % 4 == b2 / 64;
  }

  /** One group of four digits in front of decodable text. */
  lemma GroupDecode(bs: seq<Byte>, rest: string)
    requires |bs| > 2 && Decode(rest) == Some(bs[3..])
    ensures Decode(Group(bs[0], bs[1], bs[2]) + rest) == Some(bs)
  {
    var g := Group(bs[0], bs[1], bs[2]);
    GroupRoundTrip(bs[0], bs[1], bs[2]);
    var s := g + rest;
    assert s[4..] == rest;
    assert s[..4] == g;
    DecodeFull(s, bs);
  }

  /** Decoding a group of four digits that stands for three given bytes, in
      front of decodable text. */
  lemma DecodeFull(s: string, bs: seq<Byte>)
    requires |s| >= 4 && |bs| >= 3
    requires var v0, v1, v2, v3 := Value(s[0]), Value(s[1]), Value(s[2]), Value(s[3]);
      v0 >= 0 && v1 >= 0 && v2 >= 0 && v3 >= 0
      && v0 * 4 + v1 / 16 == bs[0] && (v1 % 16) * 16 + v2 / 4 == bs[1] && (v2 % 4) * 64 + v3 == bs[2]
    requires s[2] != '=' && s[3] != '=' && Decode(s[4..]) == Some(bs[3..])
    ensures Decode(s) == Some(bs)
  {
    assert [bs[0], bs[1], bs[2]] + bs[3..] == bs;
  }

  lemma OneByte(b0: Byte)
    ensures Decode([Digit(b0 / 4), Digit((b0 % 4) * 16), '=', '=']) == Some([b0])
  {
    DigitValue(b0 / 4);
    DigitValue((b0 % 4) * 16);
  }

  lemma TwoBytes(b0: Byte, b1: Byte)
    ensures Decode([Digit(b0 / 4), Digit((b0 % 4) * 16 + b1 / 16), Digit((b1 % 16) * 4), '='])
            == Some([b0, b1])
  {
    DigitValue(b0 / 4);
    DigitValue((b0 % 4) * 16 + b1 / 16);
    DigitValue((b1 % 16) * 4);
    assert ((b0 % 4) * 16 + b1 / 16) / 16 == b0 % 4;
    assert ((b0 % 4) * 16 + b1 / 16) % 16 == b1 / 16;
  }

  /** The step of the round trip for three or more bytes. */
  lemma GroupStep(bs: seq<Byte>)
    requires |bs| > 2 && Decode(Encode(bs[3..])) == Some(bs[3..])
    ensures Decode(Encode(bs)) == Some(bs)
  {
    assert Encode(bs) == Group(bs[0], bs[1], bs[2]) + Encode(bs[3..]);
    GroupDecode(bs, Encode(bs[3..]));
  }

  /** Decoding the encoding of any bytes gives the bytes back. */
  lemma {:induction false} EncodeRoundTrip(bs: seq<Byte>)
    ensures Decode(Encode(bs)) == Some(bs)
  {
    if |bs| == 1 {
      assert Encode(bs) == [Digit(bs[0] / 4), Digit((bs[0] % 4) * 16), '=', '='];
      OneByte(bs[0]);
      assert [bs[0]] == bs;
    } else if |bs| == 2 {
      assert Encode(bs) == [Digit(bs[0] / 4), Digit((bs[0] % 4) * 16 + bs[1] / 16), Digit((bs[1] % 16) * 4), '='];
      TwoBytes(bs[0], bs[1]);
      assert [bs[0], bs[1]] == bs;
    } else if |bs| > 2 {
      EncodeRoundTrip(bs[3..]);
      GroupStep(bs);
    }
  }

  /** The encoding holds base64 digits and `=` only: never a newline. */
  lemma {:induction false} EncodeNoNewline(bs: seq<Byte>)
    ensures '\n' !in Encode(bs)
  {
    if |bs| == 1 {
      DigitValue(bs[0] / 4);
      DigitValue((bs[0] % 4) * 16);
    } else if |bs| == 2 {
      DigitValue(bs[0] / 4);
      DigitValue((bs[0] % 4) * 16 + bs[1] / 16);
      DigitValue((bs[1] % 16) * 4);
    } else if |bs| > 2 {
      DigitValue(bs[0] / 4);
      DigitValue((bs[0] % 4) * 16 + bs[1] / 16);
      DigitValue((bs[1] % 16) * 4 + bs[2] / 64);
      DigitValue(bs[2] % 64);
      EncodeNoNewline(bs[3..]);
    }
  }

  /** The longest line `base64.encodebytes` writes. */
  const LineLength: nat := 76

  /** `base64.encodebytes` on already-encoded text: a newline after every 76
      characters and at the end. */
  function Lines(t: string): (r: string)
    decreases |t|
  {
    if t == "" then ""
    else if |t| <= LineLength then t + "\n"
    else t[..LineLength] + "\n" + Lines(t[LineLength..])
  }

  /** `base64.encodebytes(bs)`. */
  function EncodeBytes(bs: seq<Byte>): string
  {
    Lines(Encode(bs))
  }

  /** Removing the newlines `encodebytes` put in gives the plain encoding. */
  lemma {:induction false} LinesJoined(t: string)
    requires '\n' !in t
    ensures Replace(Lines(t), "\n", "") == t
    decreases |t|
  {
    if t == "" {
      assert Replace("", "\n", "") == "" by { SplitAbsent("", "\n"); }
    } else if |t| <= LineLength {
      assert t + "\n" == t + "\n" + "";
      ReplaceFirst(t, "\n", "", "");
      SplitAbsent("", "\n");
    } else {
      var rest := t[LineLength..];
      assert '\n' !in t[..LineLength];
      ReplaceFirst(t[..LineLength], "\n", Lines(rest), "");
      LinesJoined(rest);
      assert t[..LineLength] + rest == t;
    }
  }

  /** `encodebytes` followed by deleting newlines is plain base64, which
      decodes back to the bytes. */
  lemma EncodeBytesFlat(bs: seq<Byte>)
    ensures Replace(EncodeBytes(bs), "\n", "") == Encode(bs)
    ensures Decode(Replace(EncodeBytes(bs), "\n", "")) == Some(bs)
  {
    EncodeNoNewline(bs);
    LinesJoined(Encode(bs));
    EncodeRoundTrip(bs);
  }
}
