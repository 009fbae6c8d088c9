/**
  UTF-8 as RFC 3629 defines it (the encoding in section 3, the valid byte sequences in section 4), proved to be
  a bijection between texts and the byte strings that decode; and the UTF-16 form JavaScript keeps texts in.
  A Dafny `char` is a Unicode scalar value, so a `string` is a text without surrogates.
 */
module Utf8 {
  import opened Positional
  import opened Wrappers

  // ---------- Encoding ----------

  function EncodeOne(c: char): (bs: seq<byte>)
    ensures 1 <= |bs| <= 4
  {
    var n := c as int;
    if n < 0x80 then [n]
    else if n < 0x800 then [0xC0 + n / 64, 0x80 + n % 64]
    else if n < 0x10000 then [0xE0 + n / 4096, 0x80 + n / 64 % 64, 0x80 + n % 64]
    else [0xF0 + n / 262144, 0x80 + n / 4096 % 64, 0x80 + n / 64 % 64, 0x80 + n % 64]
  }

  function Encode(s: string): seq<byte> {
    if s == "" then [] else EncodeOne(s[0]) + Encode(s[1..])
  }

  // ---------- Decoding ----------

  predicate Tail(b: byte) {
    0x80 <= b <= 0xBF
  }

  /** The valid first and second bytes of a three-byte sequence: no overlong forms, no surrogates. */
  predicate Head3(a: byte, b: byte) {
    || (a == 0xE0 && 0xA0 <= b <= 0xBF)
    || (0xE1 <= a <= 0xEC && Tail(b))
    || (a == 0xED && 0x80 <= b <= 0x9F)
    || (0xEE <= a <= 0xEF && Tail(b))
  }

  /** The same for four bytes: no overlong forms, nothing past U+10FFFF. */
  predicate Head4(a: byte, b: byte) {
    || (a == 0xF0 && 0x90 <= b <= 0xBF)
    || (0xF1 <= a <= 0xF3 && Tail(b))
    || (a == 0xF4 && 0x80 <= b <= 0x8F)
  }

  function Scalar2(a: int, b: int): int {
    (a - 0xC0) * 64 + (b - 0x80)
  }

  function Scalar3(a: int, b: int, c: int): int {
    (a - 0xE0) * 4096 + (b - 0x80) * 64 + (c - 0x80)
  }

  function Scalar4(a: int, b: int, c: int, d: int): int {
    (a - 0xF0) * 262144 + (b - 0x80) * 4096 + (c - 0x80) * 64 + (d - 0x80)
  }

  /** The character a byte string starts with, and how many bytes it takes. */
  function DecodeOne(bs: seq<byte>): (r: Option<(char, nat)>)
    ensures r.Some? ==> 1 <= r.value.1 <= |bs|
  {
    if bs == [] then None
    else if bs[0] < 0x80 then Some((bs[0] as char, 1))
    else if |bs| >= 2 && 0xC2 <= bs[0] <= 0xDF && Tail(bs[1]) then
      Some((Scalar2(bs[0], bs[1]) as char, 2))
    else if |bs| >= 3 && Head3(bs[0], bs[1]) && Tail(bs[2]) then
      Some((Scalar3(bs[0], bs[1], bs[2]) as char, 3))
    else if |bs| >= 4 && Head4(bs[0], bs[1]) && Tail(bs[2]) && Tail(bs[3]) then
      Some((Scalar4(bs[0], bs[1], bs[2], bs[3]) as char, 4))
    else None
  }

  function Decode(bs: seq<byte>): Option<string> {
    if bs == [] then Some("")
    else
      match DecodeOne(bs)
      case None => None
      case Some(head) =>
        match Decode(bs[head.1..])
        case None => None
        case Some(rest) => Some([head.0] + rest)
  }

  // ---------- They are inverse ----------

  lemma Two(n: int, a: int, b: int)
    ensures 0x80 <= n < 0x800 && a == 0xC0 + n / 64 && b == 0x80 + n % 64
      <==> 0xC2 <= a <= 0xDF && 0x80 <= b <= 0xBF && Scalar2(a, b) == n
  {
  }

  lemma ThreeForward(n: int)
    requires 0x800 <= n < 0x10000 && !(0xD800 <= n < 0xE000)
    ensures Head3(0xE0 + n / 4096, 0x80 + n / 64 % 64)
    ensures Scalar3(0xE0 + n / 4096, 0x80 + n / 64 % 64, 0x80 + n % 64) == n
  {
  }

  lemma ThreeBack(a: byte, b: byte, c: byte)
    requires Head3(a, b) && Tail(c)
    ensures var n := Scalar3(a, b, c);
      && 0x800 <= n < 0x10000 && !(0xD800 <= n < 0xE000)
      && a == 0xE0 + n / 4096 && b == 0x80 + n / 64 % 64 && c == 0x80 + n % 64
  {
    var n := Scalar3(a, b, c);
    assert n / 64 == (a - 0xE0) * 64 + (b - 0x80);
  }

  lemma FourForward(n: int)
    requires 0x10000 <= n < 0x110000
    ensures Head4(0xF0 + n / 262144, 0x80 + n / 4096 % 64)
    ensures Scalar4(0xF0 + n / 262144, 0x80 + n / 4096 % 64, 0x80 + n / 64 % 64, 0x80 + n % 64) == n
  {
    var x, y := n / 64, n / 4096;
    assert y == x / 64 && n / 262144 == y / 64;
    assert n == x * 64 + n % 64 && x == y * 64 + x % 64 && y == y / 64 * 64 + y % 64;
  }

  lemma FourBack(a: byte, b: byte, c: byte, d: byte)
    requires Head4(a, b) && Tail(c) && Tail(d)
    ensures var n := Scalar4(a, b, c, d);
      && 0x10000 <= n < 0x110000 && a == 0xF0 + n / 262144
      && b == 0x80 + n / 4096 % 64 && c == 0x80 + n / 64 % 64 && d == 0x80 + n % 64
  {
    var n := Scalar4(a, b, c, d);
    assert n / 64 == (a - 0xF0) * 4096 + (b - 0x80) * 64 + (c - 0x80);
    assert n / 4096 == (a - 0xF0) * 64 + (b - 0x80);
  }

  /** An encoded character is read back, whatever follows it. */
  lemma DecodeOneEncodeOne(c: char, rest: seq<byte>)
    ensures DecodeOne(EncodeOne(c) + rest) == Some((c, |EncodeOne(c)|))
  {
    var n, bs := c as int, EncodeOne(c);
    var all := bs + rest;
    assert forall i :: 0 <= i < |bs| ==> all[i] == bs[i];
    if n < 0x80 {
    } else if n < 0x800 {
      Two(n, all[0], all[1]);
    } else if n < 0x10000 {
      ThreeForward(n);
    } else {
      FourForward(n);
    }
  }

  /** The bytes a character was read from are its encoding. */
  lemma EncodeOneDecodeOne(bs: seq<byte>)
    requires DecodeOne(bs).Some?
    ensures EncodeOne(DecodeOne(bs).value.0) == bs[..DecodeOne(bs).value.1]
  {
    var (c, k) := DecodeOne(bs).value;
    if k == 2 {
      Two(c as int, bs[0], bs[1]);
    } else if k == 3 {
      ThreeBack(bs[0], bs[1], bs[2]);
    } else if k == 4 {
      FourBack(bs[0], bs[1], bs[2], bs[3]);
    }
  }

  lemma {:induction false} DecodeEncode(s: string)
    ensures Decode(Encode(s)) == Some(s)
  {
    if s != "" {
      DecodeOneEncodeOne(s[0], Encode(s[1..]));
      DecodeEncode(s[1..]);
      assert Encode(s)[|EncodeOne(s[0])|..] == Encode(s[1..]);
      assert [s[0]] + s[1..] == s;
    }
  }

  lemma DecodeStep(bs: seq<byte>)
    requires bs != [] && Decode(bs).Some?
    ensures DecodeOne(bs).Some? && Decode(bs[DecodeOne(bs).value.1..]).Some?
    ensures Decode(bs).value == [DecodeOne(bs).value.0] + Decode(bs[DecodeOne(bs).value.1..]).value
  {
  }

  lemma EncodeCons(bs: seq<byte>, c: char, k: nat, rest: string)
    requires k <= |bs| && EncodeOne(c) == bs[..k] && Encode(rest) == bs[k..]
    ensures Encode([c] + rest) == bs
  {
    assert ([c] + rest)[1..] == rest;
  }

  lemma {:induction false} EncodeDecode(bs: seq<byte>)
    requires Decode(bs).Some?
    ensures Encode(Decode(bs).value) == bs
  {
    if bs != [] {
      DecodeStep(bs);
      var (c, k) := DecodeOne(bs).value;
      EncodeDecode(bs[k..]);
      EncodeOneDecodeOne(bs);
      EncodeCons(bs, c, k, Decode(bs[k..]).value);
    }
  }

  // ---------- The form of the encoding ----------

  /** The bits of `b` below `k`, a power of two. */
  function Low(b: int, k: int): int
    requires k > 0
  {
    b % k
  }

  /** The octet sequences of RFC 3629, section 3: how many octets, their high bits, and where the character's bits go.
      */
  lemma Octets(c: char)
    ensures var n, bs := c as int, EncodeOne(c);
      && |bs| == (if n < 0x80 then 1 else if n < 0x800 then 2 else if n < 0x10000 then 3 else 4)
      && (|bs| == 1 ==> bs[0] == n)
      && (|bs| == 2 ==> bs[0] / 32 == 0x6 && n == Low(bs[0], 32) * 64 + Low(bs[1], 64))
      && (|bs| == 3 ==> bs[0] / 16 == 0xE && n == Low(bs[0], 16) * 4096 + Low(bs[1], 64) * 64 + Low(bs[2], 64))
      && (forall i :: 1 <= i < |bs| ==> bs[i] / 64 == 2)
  {
    var n := c as int;
    if 0x800 <= n < 0x10000 { assert n == n / 4096 * 4096 + n / 64 % 64 * 64 + n % 64; }
  }

  lemma FourOctets(c: char)
    requires c as int >= 0x10000
    ensures var n, bs := c as int, EncodeOne(c);
      |bs| == 4 && bs[0] / 8 == 0x1E
      && n == Low(bs[0], 8) * 262144 + Low(bs[1], 64) * 4096 + Low(bs[2], 64) * 64 + Low(bs[3], 64)
  {
    var n := c as int;
    var x, y := n / 64, n / 4096;
    assert y == x / 64 && n / 262144 == y / 64;
    assert n == x * 64 + n % 64 && x == y * 64 + x % 64 && y == y / 64 * 64 + y % 64;
  }

  /** A text is encoded character by character, in order. */
  lemma {:induction false} EncodesInOrder(s: string, t: string)
    ensures Encode(s + t) == Encode(s) + Encode(t)
    ensures |s| == 1 ==> Encode(s) == EncodeOne(s[0])
  {
    if s == "" {
      assert s + t == t;
    } else {
      assert (s + t)[1..] == s[1..] + t;
      EncodesInOrder(s[1..], t);
    }
  }

  // ---------- UTF-16 ----------

  type unit = n: nat | n < 0x10000

  function ToUtf16(s: string): seq<unit> {
    if s == "" then []
    else
      var n := s[0] as int;
      (if n < 0x10000 then [n] else [0xD800 + (n - 0x10000) / 0x400, 0xDC00 + (n - 0x10000) % 0x400])
      + ToUtf16(s[1..])
  }

  function Combined(high: int, low: int): int {
    0x10000 + (high - 0xD800) * 0x400 + (low - 0xDC00)
  }

  /** A JavaScript string as the scalar values it is converted to: a lone surrogate becomes U+FFFD. */
  function FromUtf16(u: seq<unit>): string {
    if u == [] then ""
    else if u[0] < 0xD800 || u[0] > 0xDFFF then [u[0] as char] + FromUtf16(u[1..])
    else if u[0] < 0xDC00 && |u| >= 2 && 0xDC00 <= u[1] <= 0xDFFF then
      [Combined(u[0], u[1]) as char] + FromUtf16(u[2..])
    else [0xFFFD as char] + FromUtf16(u[1..])
  }

  lemma {:induction false} FromToUtf16(s: string)
    ensures FromUtf16(ToUtf16(s)) == s
  {
    if s != "" {
      FromToUtf16(s[1..]);
      var u := ToUtf16(s);
      if s[0] as int < 0x10000 {
        assert u[1..] == ToUtf16(s[1..]);
      } else {
        assert u[2..] == ToUtf16(s[1..]);
      }
    }
  }

  /** The code units of RFC 2781, section 2.1: the character itself, or a high and a low surrogate. */
  lemma CodeUnits(c: char)
    ensures var n, u := c as int, ToUtf16([c]);
      if n < 0x10000 then u == [n]
      else
        && |u| == 2 && 0xD800 <= u[0] < 0xDC00 && 0xDC00 <= u[1] < 0xE000
        && n == 0x10000 + Low(u[0], 0x400) * 0x400 + Low(u[1], 0x400)
  {
    assert ToUtf16([c][1..]) == [];
  }

  lemma {:induction false} UnitsInOrder(s: string, t: string)
    ensures ToUtf16(s + t) == ToUtf16(s) + ToUtf16(t)
  {
    if s == "" {
      assert s + t == t;
    } else {
      assert (s + t)[1..] == s[1..] + t;
      UnitsInOrder(s[1..], t);
    }
  }

  /** A surrogate that is not part of a pair is read as U+FFFD. */
  lemma LoneSurrogate(n: unit, rest: seq<unit>)
    requires 0xD800 <= n < 0xE000 && !(n < 0xDC00 && rest != [] && 0xDC00 <= rest[0] < 0xE000)
    ensures FromUtf16([n] + rest) == [0xFFFD as char] + FromUtf16(rest)
  {
    assert ([n] + rest)[1..] == rest;
  }
}
