/** Bytes as `0x`-hex: printed in lower case, read in either case and with or without the prefix. */
module Hex {
  import opened Positional
  import opened Wrappers

  function DigitChar(d: nat): char
    requires d < 16
  {
    if d < 10 then (48 + d) as char else (87 + d) as char
  }

  function DigitOf(c: char): (d: Option<nat>)
    ensures d.Some? ==> d.value < 16
  {
    if '0' <= c <= '9' then Some(c as int - 48)
    else if 'a' <= c <= 'f' then Some(c as int - 87)
    else if 'A' <= c <= 'F' then Some(c as int - 55)
    else None
  }

  function Encode(bs: seq<byte>): string {
    if bs == [] then "" else [DigitChar(bs[0] / 16), DigitChar(bs[0] % 16)] + Encode(bs[1..])
  }

  function Decode(s: string): Option<seq<byte>> {
    if s == "" then Some([])
    else if |s| == 1 then None
    else
      var hi, lo, rest := DigitOf(s[0]), DigitOf(s[1]), Decode(s[2..]);
      if hi.None? || lo.None? || rest.None? then None else Some([hi.value * 16 + lo.value] + rest.value)
  }

  function ToHex(bs: seq<byte>): string {
    "0x" + Encode(bs)
  }

  predicate Prefixed(s: string) {
    |s| >= 2 && s[0] == '0' && s[1] == 'x'
  }

  /** How Rust reads hex: the prefix is optional, and an odd number of digits is refused. */
  function Parse(s: string): Option<seq<byte>> {
    Decode(if Prefixed(s) then s[2..] else s)
  }

  lemma DigitBack(d: nat)
    requires d < 16
    ensures DigitOf(DigitChar(d)) == Some(d)
  {
  }

  // ---------- What a string of digits writes ----------

  const LOWER: string := "0123456789abcdef"
  const UPPER: string := "0123456789ABCDEF"

  /** `c` is the digit for `d`, in either case. */
  predicate IsDigit(c: char, d: nat) {
    d < 16 && (LOWER[d] == c || UPPER[d] == c)
  }

  ghost predicate IsHexDigit(c: char) {
    exists d: nat :: IsDigit(c, d)
  }

  ghost predicate HexDigits(s: string) {
    forall i :: 0 <= i < |s| ==> IsHexDigit(s[i])
  }

  /** Each byte in two digits, the high one first. */
  predicate Writes(s: string, bs: seq<byte>) {
    && |s| == 2 * |bs|
    && forall i :: 0 <= i < |bs| ==> IsDigit(s[2 * i], bs[i] / 16) && IsDigit(s[2 * i + 1], bs[i] % 16)
  }

  lemma DigitByPlace(c: char, d: nat)
    ensures DigitOf(c) == Some(d) <==> IsDigit(c, d)
  {
  }

  lemma DigitIsRead(c: char)
    ensures DigitOf(c).Some? <==> IsHexDigit(c)
  {
    if DigitOf(c).Some? { DigitByPlace(c, DigitOf(c).value); }
    if IsHexDigit(c) {
      var d: nat :| IsDigit(c, d);
      DigitByPlace(c, d);
    }
  }

  lemma WritesMore(s: string, bs: seq<byte>)
    requires |s| >= 2 && bs != []
    ensures Writes(s, bs) <==> IsDigit(s[0], bs[0] / 16) && IsDigit(s[1], bs[0] % 16) && Writes(s[2..], bs[1..])
  {
    var rest, tail := s[2..], bs[1..];
    if Writes(s, bs) {
      assert IsDigit(s[2 * 0], bs[0] / 16) && IsDigit(s[2 * 0 + 1], bs[0] % 16);
      forall i | 0 <= i < |tail|
        ensures IsDigit(rest[2 * i], tail[i] / 16) && IsDigit(rest[2 * i + 1], tail[i] % 16)
      {
        assert rest[2 * i] == s[2 * (i + 1)] && rest[2 * i + 1] == s[2 * (i + 1) + 1] && tail[i] == bs[i + 1];
      }
    }
    if IsDigit(s[0], bs[0] / 16) && IsDigit(s[1], bs[0] % 16) && Writes(rest, tail) {
      forall i | 0 <= i < |bs| ensures IsDigit(s[2 * i], bs[i] / 16) && IsDigit(s[2 * i + 1], bs[i] % 16) {
        if i > 0 {
          assert rest[2 * (i - 1)] == s[2 * i] && rest[2 * (i - 1) + 1] == s[2 * i + 1] && tail[i - 1] == bs[i];
        }
      }
    }
  }

  lemma DecodesHead(s: string, bs: seq<byte>)
    requires |s| >= 2
    ensures Decode(s) == Some(bs) <==>
              && bs != [] && DigitOf(s[0]) == Some(bs[0] / 16) && DigitOf(s[1]) == Some(bs[0] % 16)
              && Decode(s[2..]) == Some(bs[1..])
  {
    var hi, lo, rest := DigitOf(s[0]), DigitOf(s[1]), Decode(s[2..]);
    if bs != [] { assert bs == [bs[0]] + bs[1..]; }
    if hi.Some? && lo.Some? { HighLow(hi.value, lo.value); }
  }

  lemma HighLow(hi: nat, lo: nat)
    requires hi < 16 && lo < 16
    ensures (hi * 16 + lo) / 16 == hi && (hi * 16 + lo) % 16 == lo
  {
  }

  /** A string is read as some bytes exactly if it writes them, in either case. */
  lemma {:induction false} DecodesIff(s: string, bs: seq<byte>)
    ensures Decode(s) == Some(bs) <==> Writes(s, bs)
  {
    if |s| >= 2 {
      DecodesHead(s, bs);
      if bs != [] {
        DecodesIff(s[2..], bs[1..]);
        WritesMore(s, bs);
        DigitByPlace(s[0], bs[0] / 16);
        DigitByPlace(s[1], bs[0] % 16);
      }
    }
  }

  lemma DigitsOfRest(s: string)
    requires |s| >= 2
    ensures HexDigits(s) <==> IsHexDigit(s[0]) && IsHexDigit(s[1]) && HexDigits(s[2..])
  {
    var rest := s[2..];
    if IsHexDigit(s[0]) && IsHexDigit(s[1]) && HexDigits(rest) {
      forall i | 0 <= i < |s| ensures IsHexDigit(s[i]) {
        if i >= 2 { assert s[i] == rest[i - 2]; }
      }
    }
  }

  /** So it is read exactly if it has an even number of characters, each a hex digit. */
  lemma {:induction false} ReadableIff(s: string)
    ensures Decode(s).Some? <==> |s| % 2 == 0 && HexDigits(s)
  {
    if |s| >= 2 {
      ReadableIff(s[2..]);
      DigitIsRead(s[0]);
      DigitIsRead(s[1]);
      DigitsOfRest(s);
    }
  }

  /** What is printed writes the bytes, in lower case. */
  lemma EncodedIsWritten(bs: seq<byte>)
    ensures Writes(Encode(bs), bs) && forall i :: 0 <= i < |Encode(bs)| ==> Encode(bs)[i] in LOWER
  {
    DecodeEncode(bs);
    DecodesIff(Encode(bs), bs);
    EncodedIsLower(bs);
  }

  lemma {:induction false} EncodedIsLower(bs: seq<byte>)
    ensures forall i :: 0 <= i < |Encode(bs)| ==> Encode(bs)[i] in LOWER
  {
    if bs != [] {
      EncodedIsLower(bs[1..]);
      DigitIsLower(bs[0] / 16);
      DigitIsLower(bs[0] % 16);
    }
  }

  lemma DigitIsLower(d: nat)
    requires d < 16
    ensures DigitChar(d) in LOWER
  {
    assert DigitChar(d) == LOWER[d];
  }

  lemma {:induction false} DecodeEncode(bs: seq<byte>)
    ensures Decode(Encode(bs)) == Some(bs)
  {
    if bs != [] {
      var s, hi, lo := Encode(bs), bs[0] / 16, bs[0] % 16;
      DigitBack(hi);
      DigitBack(lo);
      DecodeEncode(bs[1..]);
      assert s[0] == DigitChar(hi) && s[1] == DigitChar(lo) && s[2..] == Encode(bs[1..]);
      assert hi * 16 + lo == bs[0] && [bs[0]] + bs[1..] == bs;
    }
  }

  /** The same with the prefix, which may be left out. */
  lemma ParsesIff(s: string, bs: seq<byte>)
    ensures Parse(s) == Some(bs) <==> Writes(if |s| >= 2 && s[..2] == "0x" then s[2..] else s, bs)
  {
    assert |s| >= 2 ==> (s[..2] == "0x" <==> s[0] == '0' && s[1] == 'x');
    DecodesIff(if Prefixed(s) then s[2..] else s, bs);
  }

  lemma ParseToHex(bs: seq<byte>)
    ensures Parse(ToHex(bs)) == Some(bs) && Prefixed(ToHex(bs))
  {
    DecodeEncode(bs);
    assert ToHex(bs)[2..] == Encode(bs);
  }
}
