/** The 8-bit local encoding used when credentials are turned into bytes
    (QString::toLocal8Bit). The platform's locale is UTF-8, so a string is
    encoded as UTF-8 following RFC 3629: one to four bytes per Unicode
    scalar value. */
module Utf8 {

  import opened Wrappers

  /** The bytes of one scalar value. */
  function EncodeScalar(c: char): (r: seq<Byte>)
    ensures 1 <= |r| <= 4
    ensures (c as int < 0x80) <==> |r| == 1
    ensures c as int < 0x80 ==> r[0] == c as int
    ensures c as int >= 0x80 ==> forall j :: 1 <= j < |r| ==> 0x80 <= r[j] < 0xC0
  {
    var n := c as int;
    if n < 0x80 then
      [n]
    else if n < 0x800 then
      [(0xC0 + n / 0x40), (0x80 + n % 0x40)]
    else if n < 0x1_0000 then
      [(0xE0 + n / 0x1000), (0x80 + (n / 0x40) % 0x40), (0x80 + n % 0x40)]
    else
      [(0xF0 + n / 0x4_0000), (0x80 + (n / 0x1000) % 0x40),
       (0x80 + (n / 0x40) % 0x40), (0x80 + n % 0x40)]
  }

  /** The bytes of a string: the scalar encodings one after another. */
  function Encode(s: string): seq<Byte>
  {
    if s == [] then [] else EncodeScalar(s[0]) + Encode(s[1..])
  }

  /** Encoding distributes over concatenation, so the encoding of
      `user + ":" + password` is the two encodings around the colon's byte. */
  lemma {:induction false} EncodeAppend(a: string, b: string)
    ensures Encode(a + b) == Encode(a) + Encode(b)
  {
    if a == [] {
      assert a + b == b;
    } else {
      assert (a + b)[0] == a[0];
      assert (a + b)[1..] == a[1..] + b;
      EncodeAppend(a[1..], b);
    }
  }

  /** A string of ASCII characters encodes byte for byte. */
  lemma {:induction false} EncodeAscii(s: string)
    requires forall j :: 0 <= j < |s| ==> s[j] as int < 0x80
    ensures |Encode(s)| == |s|
    ensures forall j :: 0 <= j < |s| ==> Encode(s)[j] == s[j] as int
  {
    if s != [] {
      EncodeAscii(s[1..]);
      assert Encode(s) == EncodeScalar(s[0]) + Encode(s[1..]);
      forall j | 1 <= j < |s|
        ensures Encode(s)[j] == s[j] as int
      {
        assert Encode(s)[j] == Encode(s[1..])[j - 1];
        assert s[1..][j - 1] == s[j];
      }
    }
  }
}
