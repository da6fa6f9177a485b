/** Base 64 encoding with the standard alphabet and `=` padding, as in
    section 4 of RFC 4648 (QByteArray::toBase64 with its default options).
    Every three bytes become four characters of six bits each; a final group
    of one or two bytes is padded to four characters with `=`. */
module Base64 {

  import opened Wrappers

  /** A six-bit value. */
  type Sextet = i: int | 0 <= i < 64

  /** The alphabet of RFC 4648, table 1. */
  function EncodeSextet(i: Sextet): (c: char)
    ensures c != '='
  {
    if i < 26 then ('A' as int + i) as char
    else if i < 52 then ('a' as int + i - 26) as char
    else if i < 62 then ('0' as int + i - 52) as char
    else if i == 62 then '+'
    else '/'
  }

  /** The value of an alphabet character; padding and every other character are refused. */
  function DecodeSextet(c: char): (r: Option<Sextet>)
    ensures r.Some? ==> EncodeSextet(r.value) == c
  {
    if 'A' <= c <= 'Z' then Some(c as int - 'A' as int)
    else if 'a' <= c <= 'z' then Some(c as int - 'a' as int + 26)
    else if '0' <= c <= '9' then Some(c as int - '0' as int + 52)
    else if c == '+' then Some(62)
    else if c == '/' then Some(63)
    else None
  }

  lemma SextetRoundTrip(i: Sextet)
    ensures DecodeSextet(EncodeSextet(i)) == Some(i)
  {
  }

  /** Four six-bit values joined back into three bytes. */
  function Join(w: Sextet, x: Sextet, y: Sextet, z: Sextet): seq<Byte>
  {
    [w * 4 + x / 16, (x % 16) * 16 + y / 4, (y % 4) * 64 + z]
  }

  /** Cutting three bytes into six-bit values, most significant bits first, and joining them again. */
  lemma SplitJoin(a: Byte, b: Byte, c: Byte)
    ensures Join(a / 4, (a % 4) * 16 + b / 16, (b % 16) * 4 + c / 64, c % 64) == [a, b, c]
  {
  }

  /** Three bytes as four characters. */
  function EncodeGroup(a: Byte, b: Byte, c: Byte): seq<char>
  {
    [EncodeSextet(a / 4), EncodeSextet((a % 4) * 16 + b / 16),
     EncodeSextet((b % 16) * 4 + c / 64), EncodeSextet(c % 64)]
  }

  function Encode(data: seq<Byte>): seq<char>
    decreases |data|
  {
    if |data| == 0 then []
    else if |data| == 1 then
      [EncodeSextet(data[0] / 4), EncodeSextet((data[0] % 4) * 16), '=', '=']
    else if |data| == 2 then
      [EncodeSextet(data[0] / 4), EncodeSextet((data[0] % 4) * 16 + data[1] / 16),
       EncodeSextet((data[1] % 16) * 4), '=']
    else
      EncodeGroup(data[0], data[1], data[2]) + Encode(data[3..])
  }

  /** The text has four characters for every started group of three bytes. */
  lemma {:induction false} EncodeLength(data: seq<Byte>)
    ensures |Encode(data)| == 4 * ((|data| + 2) / 3)
    decreases |data|
  {
    if |data| > 2 {
      var m := |data| - 3;
      EncodeLength(data[3..]);
      assert |Encode(data)| == 4 + |Encode(data[3..])|;
      assert (m + 2) / 3 + 1 == (m + 5) / 3;
    }
  }

  /** Four characters without padding as three bytes. */
  function DecodeGroup(q: seq<char>): Option<seq<Byte>>
    requires |q| == 4
  {
    match (DecodeSextet(q[0]), DecodeSextet(q[1]), DecodeSextet(q[2]), DecodeSextet(q[3]))
    case (Some(w), Some(x), Some(y), Some(z)) => Some(Join(w, x, y, z))
    case _ => None
  }

  /** The last four characters, which may end in one or two `=`. */
  function DecodeLastGroup(q: seq<char>): Option<seq<Byte>>
    requires |q| == 4
  {
    if q[2] == '=' && q[3] == '=' then
      match (DecodeSextet(q[0]), DecodeSextet(q[1]))
      case (Some(w), Some(x)) => Some(Join(w, x, 0, 0)[..1])
      case _ => None
    else if q[3] == '=' then
      match (DecodeSextet(q[0]), DecodeSextet(q[1]), DecodeSextet(q[2]))
      case (Some(w), Some(x), Some(y)) => Some(Join(w, x, y, 0)[..2])
      case _ => None
    else
      DecodeGroup(q)
  }

  /** The inverse of `Encode`: `None` for text that is not padded base 64. */
  function Decode(s: seq<char>): Option<seq<Byte>>
    decreases |s|
  {
    if |s| == 0 then Some([])
    else if |s| < 4 then None
    else if |s| == 4 then DecodeLastGroup(s)
    else
      var first, rest := DecodeGroup(s[..4]), Decode(s[4..]);
      if first.Some? && rest.Some? then Some(first.value + rest.value) else None
  }

  /** One full group decodes back to its three bytes. */
  lemma GroupRoundTrip(a: Byte, b: Byte, c: Byte)
    ensures DecodeGroup(EncodeGroup(a, b, c)) == Some([a, b, c])
  {
    SextetRoundTrip(a / 4);
    SextetRoundTrip((a % 4) * 16 + b / 16);
    SextetRoundTrip((b % 16) * 4 + c / 64);
    SextetRoundTrip(c % 64);
    SplitJoin(a, b, c);
  }

  /** A final single byte survives its two padding characters. */
  lemma OneByteRoundTrip(a: Byte)
    ensures Decode(Encode([a])) == Some([a])
  {
    var w, x := a / 4, (a % 4) * 16;
    SextetRoundTrip(w);
    SextetRoundTrip(x);
    var q := [EncodeSextet(w), EncodeSextet(x), '=', '='];
    assert Encode([a]) == q;
    assert DecodeLastGroup(q) == Some(Join(w, x, 0, 0)[..1]);
    assert Join(w, x, 0, 0)[..1] == [a];
  }

  /** A final pair of bytes survives its padding character. */
  lemma TwoBytesRoundTrip(a: Byte, b: Byte)
    ensures Decode(Encode([a, b])) == Some([a, b])
  {
    var w, x, y := a / 4, (a % 4) * 16 + b / 16, (b % 16) * 4;
    SextetRoundTrip(w);
    SextetRoundTrip(x);
    SextetRoundTrip(y);
    SplitJoin(a, b, 0);
    var q := [EncodeSextet(w), EncodeSextet(x), EncodeSextet(y), '='];
    assert Encode([a, b]) == q;
    assert DecodeLastGroup(q) == Some(Join(w, x, y, 0)[..2]);
    assert Join(w, x, y, 0)[..2] == [a, b];
  }

  /** A full group in front of more text decodes on its own. */
  lemma DecodeFrontGroup(g: seq<char>, rest: seq<char>)
    requires |g| == 4 && |rest| > 0
    ensures Decode(g + rest) == (if DecodeGroup(g).Some? && Decode(rest).Some?
                                 then Some(DecodeGroup(g).value + Decode(rest).value) else None)
  {
    assert (g + rest)[..4] == g;
    assert (g + rest)[4..] == rest;
  }

  /** Decoding undoes encoding for every byte string. */
  lemma {:induction false} RoundTrip(data: seq<Byte>)
    ensures Decode(Encode(data)) == Some(data)
    decreases |data|
  {
    if |data| == 1 {
      assert data == [data[0]];
      OneByteRoundTrip(data[0]);
    } else if |data| == 2 {
      assert data == [data[0], data[1]];
      TwoBytesRoundTrip(data[0], data[1]);
    } else if |data| == 3 {
      ThreeBytesRoundTrip(data);
    } else if |data| > 3 {
      RoundTrip(data[3..]);
      LongerRoundTrip(data);
    }
  }

  /** Exactly three bytes: one unpadded group. */
  lemma ThreeBytesRoundTrip(data: seq<Byte>)
    requires |data| == 3
    ensures Decode(Encode(data)) == Some(data)
  {
    var g := EncodeGroup(data[0], data[1], data[2]);
    GroupRoundTrip(data[0], data[1], data[2]);
    EncodeFront(data);
    assert data[3..] == [];
    LastGroupRoundTrip(g);
    ThreeSplit(data);
  }

  lemma ThreeSplit(data: seq<Byte>)
    requires |data| == 3
    ensures data == [data[0], data[1], data[2]]
  {
  }

  /** More than three bytes: a full group in front of the encoding of the rest. */
  lemma LongerRoundTrip(data: seq<Byte>)
    requires |data| > 3
    requires Decode(Encode(data[3..])) == Some(data[3..])
    ensures Decode(Encode(data)) == Some(data)
  {
    var g := EncodeGroup(data[0], data[1], data[2]);
    GroupRoundTrip(data[0], data[1], data[2]);
    EncodeFront(data);
    DecodeFrontGroup(g, Encode(data[3..]));
    FrontSplit(data);
  }

  lemma FrontSplit(data: seq<Byte>)
    requires |data| >= 3
    ensures data == [data[0], data[1], data[2]] + data[3..]
  {
  }

  lemma EncodeFront(data: seq<Byte>)
    requires |data| >= 3
    ensures Encode(data) == EncodeGroup(data[0], data[1], data[2]) + Encode(data[3..])
  {
  }

  /** An unpadded group at the end decodes as a full group. */
  lemma LastGroupRoundTrip(g: seq<char>)
    requires |g| == 4 && g[3] != '=' && g[2] != '='
    ensures Decode(g + []) == DecodeGroup(g)
  {
    assert g + [] == g;
  }
}
