/**
  Base58Check as the Go binding hand-writes it over a big integer, and TRON addresses in that form. The
  checksum is a parameter: any function giving four bytes. A string is its bytes, one `char` each, as the binding
  reads it: of a string that is not ASCII, `BadCharacter` names a byte.
 */
module Base58 {
  import opened Wrappers
  import opened Positional

  // ---------- The alphabet: digits and letters in order, without 0, O, I and l ----------

  const NUMERALS: string := "123456789"
  const A_TO_H: string := "ABCDEFGH"
  const J_TO_N: string := "JKLMN"
  const P_TO_Z: string := "PQRSTU" + "VWXYZ"
  const A_TO_K: string := "abcdef" + "ghijk"
  const M_TO_Z: string := "mnopqrs" + "tuvwxyz"

  const ALPHABET: string := NUMERALS + A_TO_H + J_TO_N + P_TO_Z + A_TO_K + M_TO_Z

  /** The digit a character stands for. */
  function IndexOf(c: char): Option<nat> {
    if '1' <= c <= '9' then Some(c as int - '1' as int)
    else if 'A' <= c <= 'H' then Some(9 + c as int - 'A' as int)
    else if 'J' <= c <= 'N' then Some(17 + c as int - 'J' as int)
    else if 'P' <= c <= 'Z' then Some(22 + c as int - 'P' as int)
    else if 'a' <= c <= 'k' then Some(33 + c as int - 'a' as int)
    else if 'm' <= c <= 'z' then Some(44 + c as int - 'm' as int)
    else None
  }

  /** The same, the other way round. */
  function CodeOf(d: nat): nat {
    if d < 9 then '1' as int + d
    else if d < 17 then 'A' as int + d - 9
    else if d < 22 then 'J' as int + d - 17
    else if d < 33 then 'P' as int + d - 22
    else if d < 44 then 'a' as int + d - 33
    else 'm' as int + d - 44
  }

  lemma UpperRuns(i: nat)
    ensures |NUMERALS + A_TO_H + J_TO_N| == 22 && (i < 22 ==> (NUMERALS + A_TO_H + J_TO_N)[i] as int == CodeOf(i))
  {
  }

  lemma MiddleRuns(i: nat)
    ensures |P_TO_Z| == 11 && |A_TO_K| == 11
    ensures i < 11 ==> P_TO_Z[i] as int == 'P' as int + i && A_TO_K[i] as int == 'a' as int + i
  {
  }

  lemma LastRun(i: nat)
    ensures |M_TO_Z| == 14 && (i < 14 ==> M_TO_Z[i] as int == 'm' as int + i)
  {
  }

  lemma AlphabetIsOrdered(d: nat)
    ensures |ALPHABET| == 58 && (d < 58 ==> ALPHABET[d] as int == CodeOf(d))
  {
    UpperRuns(d);
    var upper, p, a, m := NUMERALS + A_TO_H + J_TO_N, P_TO_Z, A_TO_K, M_TO_Z;
    MiddleRuns(if d >= 33 then d - 33 else if d >= 22 then d - 22 else 0);
    LastRun(if d >= 44 then d - 44 else 0);
    assert ALPHABET == upper + p + a + m;
  }

  lemma CodeIsIndexed(c: char, d: nat)
    ensures IndexOf(c) == Some(d) <==> d < 58 && c as int == CodeOf(d)
  {
  }

  /** The lookup table is the alphabet read backwards: 58 distinct characters, each with its own digit. */
  lemma IndexInvertsAlphabet(c: char, d: nat)
    ensures |ALPHABET| == 58
    ensures IndexOf(c) == Some(d) <==> d < 58 && ALPHABET[d] == c
  {
    AlphabetIsOrdered(d);
    CodeIsIndexed(c, d);
  }

  // ---------- Payloads ----------

  predicate Readable(s: string) {
    forall i :: 0 <= i < |s| ==> IndexOf(s[i]).Some?
  }

  function Read(s: string): (ds: seq<nat>)
    requires Readable(s)
  {
    seq(|s|, i requires 0 <= i < |s| => IndexOf(s[i]).value)
  }

  function Spell(ds: seq<nat>): (s: string)
    requires Digits(58, ds)
  {
    AlphabetIsOrdered(0);
    seq(|ds|, i requires 0 <= i < |ds| => ALPHABET[ds[i]])
  }

  lemma ReadAndSpell(s: string, ds: seq<nat>)
    ensures Readable(s) ==> Digits(58, Read(s))
    ensures Readable(s) && Digits(58, ds) ==> (Read(s) == ds <==> s == Spell(ds))
    ensures Digits(58, ds) ==> Readable(Spell(ds)) && Read(Spell(ds)) == ds
  {
    if Readable(s) {
      forall i | 0 <= i < |s| ensures Read(s)[i] < 58 && ALPHABET[Read(s)[i]] == s[i] {
        IndexInvertsAlphabet(s[i], Read(s)[i]);
      }
    }
    if Digits(58, ds) {
      forall i | 0 <= i < |ds| ensures IndexOf(Spell(ds)[i]) == Some(ds[i]) {
        IndexInvertsAlphabet(ALPHABET[ds[i]], ds[i]);
      }
    }
  }

  function EncodePayload(p: seq<byte>): (s: string) {
    ToDigitsValue(58, Value(256, p));
    ZerosShape(LeadingZeros(p));
    Spell(Zeros(LeadingZeros(p)) + ToDigits(58, Value(256, p)))
  }

  function DecodePayload(s: string): (p: seq<byte>)
    requires Readable(s)
  {
    ToDigitsValue(256, Value(58, Read(s)));
    ZerosShape(LeadingZeros(Read(s)));
    Zeros(LeadingZeros(Read(s))) + ToDigits(256, Value(58, Read(s)))
  }

  lemma DecodeEncodePayload(p: seq<byte>)
    ensures Readable(EncodePayload(p)) && DecodePayload(EncodePayload(p)) == p
  {
    var v := Value(256, p);
    var ds := Zeros(LeadingZeros(p)) + ToDigits(58, v);
    ToDigitsValue(58, v);
    ZerosShape(LeadingZeros(p));
    ReadAndSpell("", ds);
    PrependZeros(58, LeadingZeros(p), ToDigits(58, v));
    Canonical(256, p);
  }

  lemma EncodeDecodePayload(s: string)
    requires Readable(s)
    ensures EncodePayload(DecodePayload(s)) == s
  {
    var ds := Read(s);
    var v := Value(58, ds);
    ReadAndSpell(s, ds);
    ToDigitsValue(256, v);
    PrependZeros(256, LeadingZeros(ds), ToDigits(256, v));
    Canonical(58, ds);
  }

  // ---------- Base58Check ----------

  datatype DecodeError = Empty | BadCharacter(c: char) | TooShort | BadChecksum

  ghost predicate IsChecksum(sum: seq<byte> -> seq<byte>) {
    forall d :: |sum(d)| == 4
  }

  /** The first character that is not in the alphabet. */
  function FirstUnreadable(s: string): (c: char)
    requires !Readable(s)
    ensures c in s && IndexOf(c).None?
  {
    if IndexOf(s[0]).None? then s[0] else FirstUnreadable(s[1..])
  }

  function CheckDecode(sum: seq<byte> -> seq<byte>, s: string): Result<seq<byte>, DecodeError> {
    if s == "" then Err(Empty)
    else if !Readable(s) then Err(BadCharacter(FirstUnreadable(s)))
    else
      var p := DecodePayload(s);
      if |p| < 4 then Err(TooShort)
      else if p[|p| - 4..] != sum(p[..|p| - 4]) then Err(BadChecksum)
      else Ok(p[..|p| - 4])
  }

  function CheckEncode(sum: seq<byte> -> seq<byte>, data: seq<byte>): string {
    EncodePayload(data + sum(data))
  }

  /** Decoding gives back every byte string that was encoded, leading zero bytes included. */
  lemma DecodeEncode(sum: seq<byte> -> seq<byte>, data: seq<byte>)
    requires IsChecksum(sum)
    ensures CheckDecode(sum, CheckEncode(sum, data)) == Ok(data)
  {
    var p := data + sum(data);
    DecodeEncodePayload(p);
    assert DecodePayload("") == [] by { assert Read("") == []; }
    assert p[|p| - 4..] == sum(data) && p[..|p| - 4] == data;
  }

  /** Every string that decodes is the one its bytes encode to, leading '1's included. */
  lemma EncodeDecode(sum: seq<byte> -> seq<byte>, s: string)
    requires CheckDecode(sum, s).Ok?
    ensures CheckEncode(sum, CheckDecode(sum, s).value) == s
  {
    var p := DecodePayload(s);
    assert p == p[..|p| - 4] + p[|p| - 4..];
    EncodeDecodePayload(s);
  }

  // ---------- What is read, and which error is given ----------

  predicate IsAlphanumeric(c: char) {
    '0' <= c <= '9' || 'A' <= c <= 'Z' || 'a' <= c <= 'z'
  }

  /** The alphabet has the digits and letters but for those four that look like others, in ascending order. */
  lemma AlphabetIs(c: char, d: nat, e: nat)
    ensures Known(c) <==> IsAlphanumeric(c) && c != '0' && c != 'O' && c != 'I' && c != 'l'
    ensures |ALPHABET| == 58 && (d < e < 58 ==> ALPHABET[d] < ALPHABET[e])
  {
    KnownIff(c);
    AlphabetIsOrdered(d);
    AlphabetIsOrdered(e);
  }

  /** The string writes the payload in base 58: the same number, and a '1' for each leading zero byte. */
  ghost predicate Spells(s: string, p: seq<byte>) {
    exists ds: seq<nat> ::
      && Digits(58, ds) && s == Spell(ds)
      && Value(58, ds) == Value(256, p) && LeadingZeros(ds) == LeadingZeros(p)
  }

  lemma EncodedSpells(p: seq<byte>)
    ensures Spells(EncodePayload(p), p)
  {
    var v := Value(256, p);
    var ds := Zeros(LeadingZeros(p)) + ToDigits(58, v);
    ToDigitsValue(58, v);
    ZerosShape(LeadingZeros(p));
    PrependZeros(58, LeadingZeros(p), ToDigits(58, v));
    assert Digits(58, ds) && EncodePayload(p) == Spell(ds);
  }

  /** Exactly one string writes a payload. */
  lemma SpelledOnce(s: string, p: seq<byte>)
    requires Spells(s, p)
    ensures Readable(s) && DecodePayload(s) == p
  {
    var ds: seq<nat> :|
      && Digits(58, ds) && s == Spell(ds)
      && Value(58, ds) == Value(256, p) && LeadingZeros(ds) == LeadingZeros(p);
    ReadAndSpell(s, ds);
    Canonical(256, p);
  }

  /** The character is one of the alphabet. */
  ghost predicate Known(c: char) {
    exists d: nat :: d < |ALPHABET| && ALPHABET[d] == c
  }

  lemma KnownIff(c: char)
    ensures IndexOf(c).Some? <==> Known(c)
  {
    if IndexOf(c).Some? { IndexInvertsAlphabet(c, IndexOf(c).value); }
    if Known(c) {
      var d: nat :| d < |ALPHABET| && ALPHABET[d] == c;
      IndexInvertsAlphabet(c, d);
    }
  }

  /** Decoding a string of the alphabet: if it writes a payload, the answer is that payload without its checksum, or the
      error that says what is wrong with it. */
  lemma DecodesPayload(sum: seq<byte> -> seq<byte>, s: string, p: seq<byte>)
    requires s != "" && Spells(s, p)
    ensures CheckDecode(sum, s)
      == if |p| < 4 then Err(TooShort)
         else if p[|p| - 4..] != sum(p[..|p| - 4]) then Err(BadChecksum) else Ok(p[..|p| - 4])
  {
    SpelledOnce(s, p);
  }

  /** The position of the first character that is not of the alphabet, or the length. */
  ghost function Stranger(s: string): (i: nat)
    ensures i <= |s|
  {
    if s == "" || !Known(s[0]) then 0 else 1 + Stranger(s[1..])
  }

  lemma ReadableRest(s: string)
    requires s != ""
    ensures Readable(s) <==> IndexOf(s[0]).Some? && Readable(s[1..])
  {
    if IndexOf(s[0]).Some? && Readable(s[1..]) {
      forall i | 0 <= i < |s| ensures IndexOf(s[i]).Some? {
        if i > 0 { assert s[i] == s[1..][i - 1]; }
      }
    }
  }

  lemma {:induction false} StrangerIsFirst(s: string)
    ensures forall j :: 0 <= j < Stranger(s) ==> Known(s[j])
    ensures Stranger(s) < |s| ==> !Known(s[Stranger(s)])
    ensures Readable(s) <==> Stranger(s) == |s|
    ensures !Readable(s) ==> FirstUnreadable(s) == s[Stranger(s)]
  {
    if s != "" {
      KnownIff(s[0]);
      StrangerIsFirst(s[1..]);
      ReadableRest(s);
    }
  }

  /** Every string of the alphabet writes a payload; any other is refused with its first stranger, and the empty string
      as empty. */
  lemma DecodesOrRefuses(sum: seq<byte> -> seq<byte>, s: string)
    ensures s == "" <==> CheckDecode(sum, s) == Err(Empty)
    ensures Stranger(s) < |s| ==> !Known(s[Stranger(s)]) && CheckDecode(sum, s) == Err(BadCharacter(s[Stranger(s)]))
    ensures Stranger(s) == |s| ==> exists p: seq<byte> :: Spells(s, p)
  {
    StrangerIsFirst(s);
    if Readable(s) {
      EncodeDecodePayload(s);
      EncodedSpells(DecodePayload(s));
    }
  }

  // ---------- TRON addresses ----------

  datatype AddressError = Undecodable(e: DecodeError) | WrongLength(n: nat) | WrongPrefix

  predicate IsTronAddress(a: seq<byte>) {
    |a| == 21 && a[0] == 0x41
  }

  function ParseTronAddress(sum: seq<byte> -> seq<byte>, s: string): (r: Result<seq<byte>, AddressError>)
    ensures r.Ok? ==> IsTronAddress(r.value)
  {
    match CheckDecode(sum, s)
    case Err(e) => Err(Undecodable(e))
    case Ok(payload) =>
      if |payload| != 21 then Err(WrongLength(|payload|))
      else if payload[0] != 0x41 then Err(WrongPrefix)
      else Ok(payload)
  }

  /** What a string that decodes to `p` is as an address. */
  lemma ParsesPayload(sum: seq<byte> -> seq<byte>, p: seq<byte>)
    requires IsChecksum(sum)
    ensures ParseTronAddress(sum, CheckEncode(sum, p))
      == if |p| != 21 then Err(WrongLength(|p|)) else if p[0] != 0x41 then Err(WrongPrefix) else Ok(p)
  {
    DecodeEncode(sum, p);
  }

  lemma {:induction false} PowAdd(b: nat, m: nat, n: nat)
    ensures Pow(b, m + n) == Pow(b, m) * Pow(b, n)
  {
    if m > 0 {
      PowAdd(b, m - 1, n);
      MulAssociative(b, Pow(b, m - 1), Pow(b, n));
    }
  }

  lemma MulAssociative(x: nat, y: nat, z: nat)
    ensures x * (y * z) == (x * y) * z
  {
  }

  lemma Power58()
    ensures Pow(58, 33) == 15599970876632771988160814054146447252125923204784443097088
  {
    assert Pow(58, 3) == 58 * 58 * 58 && Pow(58, 0) == 1;
    PowAdd(58, 3, 0);
    PowAdd(58, 3, 3);
    PowAdd(58, 6, 6);
    PowAdd(58, 12, 12);
    PowAdd(58, 24, 6);
    PowAdd(58, 30, 3);
  }

  lemma Power256()
    ensures Pow(256, 24) == 6277101735386680763835789423207666416102355444464034512896
  {
    assert Pow(256, 3) == 256 * 256 * 256;
    PowAdd(256, 3, 3);
    PowAdd(256, 6, 6);
    PowAdd(256, 12, 12);
  }

  /** A 25-byte payload that starts with 0x41 is worth between 26 and 27 times 58 to the 33rd. */
  lemma TronPayloadValue(p: seq<byte>)
    requires |p| == 25 && p[0] == 0x41
    ensures 26 * Pow(58, 33) <= Value(256, p) < 27 * Pow(58, 33)
  {
    Power58();
    Power256();
    ValueBounds(256, p);
  }

  /** Every TRON address prints as 34 characters starting with 'T', whatever its body and checksum, and parsing
      that gives the address back. */
  lemma TronAddressPrints(sum: seq<byte> -> seq<byte>, a: seq<byte>)
    requires IsChecksum(sum) && IsTronAddress(a)
    ensures var s := CheckEncode(sum, a); |s| == 34 && s[0] == 'T' && ParseTronAddress(sum, s) == Ok(a)
  {
    var p := a + sum(a);
    DecodeEncode(sum, a);
    TronPayloadValue(p);
    LeadingDigit(58, Value(256, p), 26, 33);
    var ds := ToDigits(58, Value(256, p));
    assert LeadingZeros(p) == 0 && Zeros(0) + ds == ds;
    IndexInvertsAlphabet('T', 26);
  }

  /** So every string that parses as a TRON address has that form, and is the address's one spelling. */
  lemma ParsedTronAddress(sum: seq<byte> -> seq<byte>, s: string)
    requires IsChecksum(sum) && ParseTronAddress(sum, s).Ok?
    ensures CheckEncode(sum, ParseTronAddress(sum, s).value) == s && |s| == 34 && s[0] == 'T'
  {
    EncodeDecode(sum, s);
    TronAddressPrints(sum, ParseTronAddress(sum, s).value);
  }

  // ---------- The loops ----------

  function Reversed(s: string): (r: string) {
    seq(|s|, i requires 0 <= i < |s| => s[|s| - 1 - i])
  }

  /** A number's base-58 spelling, without leading '1's. */
  function Base58Of(n: nat): (s: string) {
    ToDigitsValue(58, n);
    Spell(ToDigits(58, n))
  }

  lemma DivideStep(n: nat)
    requires n > 0
    ensures n / 58 < n && n % 58 < |ALPHABET| && Base58Of(n) == Base58Of(n / 58) + [ALPHABET[n % 58]]
  {
    AlphabetIsOrdered(0);
    QuotientSmaller(58, n);
    ToDigitsValue(58, n);
    ToDigitsValue(58, n / 58);
    var ds, d := ToDigits(58, n / 58), n % 58;
    assert ToDigits(58, n) == ds + [d];
    assert Spell(ds + [d]) == Spell(ds) + [ALPHABET[d]];
  }

  /** The divide loop: least significant digit first. It ends because the quotient shrinks. */
  method DivideLoop(value: nat) returns (out: string)
    ensures Reversed(out) == Base58Of(value)
  {
    var n := value;
    out := "";
    assert Base58Of(value) + Reversed("") == Base58Of(value);
    while n > 0
      invariant Base58Of(n) + Reversed(out) == Base58Of(value)
    {
      DivideStep(n);
      var c := ALPHABET[n % 58];
      assert Reversed(out + [c]) == [c] + Reversed(out);
      assert Base58Of(n / 58) + ([c] + Reversed(out)) == (Base58Of(n / 58) + [c]) + Reversed(out);
      out := out + [c];
      n := n / 58;
    }
    assert Base58Of(0) == "";
  }

  /** A '1' for each leading zero byte. */
  method OnesLoop(payload: seq<byte>) returns (ones: string)
    ensures |ones| == LeadingZeros(payload) && forall k :: 0 <= k < |ones| ==> ones[k] == '1'
  {
    ones := "";
    while |ones| < |payload| && payload[|ones|] == 0
      invariant |ones| <= |payload| && LeadingZeros(payload) == |ones| + LeadingZeros(payload[|ones|..])
      invariant forall k :: 0 <= k < |ones| ==> ones[k] == '1'
    {
      assert payload[|ones|..][1..] == payload[|ones| + 1..];
      ones := ones + ['1'];
    }
  }

  /** The swap loop, on the buffer that was built back to front. */
  method ReverseInPlace(a: array<char>)
    modifies a
    ensures a[..] == Reversed(old(a[..]))
  {
    ghost var was := a[..];
    var i, j := 0, a.Length - 1;
    while i < j
      invariant 0 <= i && j == a.Length - 1 - i && i <= j + 1
      invariant forall k :: 0 <= k < i ==> a[k] == was[a.Length - 1 - k]
      invariant forall k :: j < k < a.Length ==> a[k] == was[a.Length - 1 - k]
      invariant forall k :: i <= k <= j ==> a[k] == was[k]
    {
      a[i], a[j] := a[j], a[i];
      i, j := i + 1, j - 1;
    }
  }

  lemma OnesSpellZeros(ones: string)
    requires forall k :: 0 <= k < |ones| ==> ones[k] == '1'
    ensures Digits(58, Zeros(|ones|)) && Reversed(ones) == Spell(Zeros(|ones|))
  {
    ZerosShape(|ones|);
    IndexInvertsAlphabet('1', 0);
  }

  lemma ReversedConcat(s: string, t: string)
    ensures Reversed(s + t) == Reversed(t) + Reversed(s)
  {
  }

  lemma SpellConcat(xs: seq<nat>, ys: seq<nat>)
    requires Digits(58, xs) && Digits(58, ys)
    ensures Digits(58, xs + ys) && Spell(xs + ys) == Spell(xs) + Spell(ys)
  {
    AlphabetIsOrdered(0);
  }

  /** Read backwards, the digits and then the '1's spell the payload. */
  lemma BackwardsIsEncoded(payload: seq<byte>, out: string, ones: string)
    requires Reversed(out) == Base58Of(Value(256, payload))
    requires |ones| == LeadingZeros(payload) && forall k :: 0 <= k < |ones| ==> ones[k] == '1'
    ensures Reversed(out + ones) == EncodePayload(payload)
  {
    ToDigitsValue(58, Value(256, payload));
    OnesSpellZeros(ones);
    ReversedConcat(out, ones);
    SpellConcat(Zeros(|ones|), ToDigits(58, Value(256, payload)));
  }

  /** `base58CheckEncode`. */
  method Base58CheckEncode(sum: seq<byte> -> seq<byte>, data: seq<byte>) returns (s: string)
    ensures s == CheckEncode(sum, data)
  {
    var payload := data + sum(data);
    var out := DivideLoop(Value(256, payload));
    var ones := OnesLoop(payload);
    BackwardsIsEncoded(payload, out, ones);
    out := out + ones;
    var a := new char[|out|](i requires 0 <= i < |out| => out[i]);
    assert a[..] == out;
    ReverseInPlace(a);
    s := a[..];
  }

  /** The leading '1's are the leading zero digits. */
  method LeadingOnes(s: string) returns (zeros: nat)
    requires Readable(s)
    ensures zeros == LeadingZeros(Read(s))
  {
    zeros := 0;
    while zeros < |s| && s[zeros] == '1'
      invariant zeros <= |s| && LeadingZeros(Read(s)) == zeros + LeadingZeros(Read(s)[zeros..])
    {
      assert Read(s)[zeros..][1..] == Read(s)[zeros + 1..];
      zeros := zeros + 1;
    }
    IndexInvertsAlphabet(if zeros < |s| then s[zeros] else '1', 0);
    IndexInvertsAlphabet('1', 0);
  }

  /** `base58CheckDecode`. */
  method Base58CheckDecode(sum: seq<byte> -> seq<byte>, s: string) returns (r: Result<seq<byte>, DecodeError>)
    ensures r == CheckDecode(sum, s)
  {
    if s == "" { return Err(Empty); }
    var n := 0;
    for i := 0 to |s|
      invariant Readable(s[..i]) && n == Value(58, Read(s[..i]))
    {
      var d := IndexOf(s[i]);
      if d.None? {
        FirstUnreadableAt(s, i);
        return Err(BadCharacter(s[i]));
      }
      assert s[..i + 1] == s[..i] + [s[i]];
      assert Read(s[..i + 1]) == Read(s[..i]) + [d.value];
      assert Read(s[..i + 1])[..i] == Read(s[..i]);
      n := n * 58 + d.value;
    }
    assert s[..|s|] == s;
    var zeros := LeadingOnes(s);
    ToDigitsValue(256, n);
    ZerosShape(zeros);
    var payload: seq<byte> := Zeros(zeros) + ToDigits(256, n);
    if |payload| < 4 { return Err(TooShort); }
    var data, check := payload[..|payload| - 4], payload[|payload| - 4..];
    if check != sum(data) { return Err(BadChecksum); }
    r := Ok(data);
  }

  lemma {:induction false} FirstUnreadableAt(s: string, i: nat)
    requires i < |s| && Readable(s[..i]) && IndexOf(s[i]).None?
    ensures !Readable(s) && FirstUnreadable(s) == s[i]
  {
    if i > 0 {
      assert IndexOf(s[..i][0]).Some?;
      assert s[1..][..i - 1] == s[..i][1..];
      FirstUnreadableAt(s[1..], i - 1);
    }
  }
}
