/**
  The bytes of a `personal_sign` call on their way from the transport, through the wire form, to the wallet.
  JavaScript strings are UTF-16; a `string` is what JSON carries.
 */
module MessageBytes {
  import opened EvmWire
  import Hex
  import opened Json
  import opened Positional
  import Utf8
  import opened Wrappers

  // ---------- The transport ----------

  datatype JsMessage = JsText(units: seq<Utf8.unit>) | JsRaw(hex: string)

  /** viem's `hexToBytes`: skips the prefix unread and pads an odd number of digits. */
  function HexToBytes(h: string): Option<seq<byte>>
    requires Hex.Prefixed(h)
  {
    var digits := h[2..];
    Hex.Decode(if |digits| % 2 == 1 then "0" + digits else digits)
  }

  predicate StartsWithBom(bs: seq<byte>) {
    |bs| >= 3 && bs[..3] == [0xEF, 0xBB, 0xBF]
  }

  /** A fatal `TextDecoder`, with or without `ignoreBOM`. */
  function TextDecode(ignoreBom: bool, bs: seq<byte>): Option<string> {
    Utf8.Decode(if !ignoreBom && StartsWithBom(bs) then bs[3..] else bs)
  }

  /** `signableFromHex`. */
  function SignableFromHex(h: string): JsMessage
    requires Hex.Prefixed(h)
  {
    var bs := HexToBytes(h);
    if bs.None? then JsRaw(h)
    else
      var text := TextDecode(true, bs.value);
      if text.None? then JsRaw(h) else JsText(Utf8.ToUtf16(text.value))
  }

  /** The body the client posts. */
  function Body(m: JsMessage, signer: Address): Value {
    var message :=
      match m
      case JsText(units) => Str(Utf8.FromUtf16(units))
      case JsRaw(hex) => Obj(map[RAW := Str(hex)]);
    Obj(map[TYPE := Str("sign_message"), MESSAGE := message, ADDRESS := Str(Hex.ToHex(signer))])
  }

  // ---------- The page ----------

  /** `messageHex`, of a message that the page does not refuse as empty. */
  function MessageHex(message: Option<Value>): Option<string> {
    match message
    case Some(Str(s)) => if s == "" then None else Some(Hex.ToHex(Utf8.Encode(Utf8.FromUtf16(Utf8.ToUtf16(s)))))
    case Some(Obj(_)) => StrOpt(message.value, RAW)
    case _ => None
  }

  /** What the wallet is asked to sign, if the request gets that far. */
  function AskedToSign(c: Codecs, id: string, h: string, signer: Address): Option<string>
    requires Hex.Prefixed(h)
  {
    var r := FromJson(c, Body(SignableFromHex(h), signer));
    if r.Err? then None else MessageHex(Get(Print(c, id, r.value), MESSAGE))
  }

  // ---------- The same bytes ----------

  /** What the bridge makes of a message that was posted. */
  function Received(m: JsMessage): Option<SignableMessage> {
    match m
    case JsText(units) => Some(Text(Utf8.FromUtf16(units)))
    case JsRaw(hex) => if Hex.Parse(hex).Some? then Some(Raw(Hex.Parse(hex).value)) else None
  }

  lemma BodyIsRead(c: Codecs, m: JsMessage, signer: Address)
    ensures FromJson(c, Body(m, signer))
      == if Received(m).Some? then Ok(SignMessage(None, Received(m).value, Some(signer))) else Err(Invalid(RAW))
  {
    var body := Body(m, signer);
    Hex.ParseToHex(signer);
    TypeDispatches(c, body, SignMessage(None, Text(""), None));
    assert OptParsed(body, ADDRESS, ADDRESSES) == Ok(Some(signer));
    assert U64Opt(body, CHAIN_ID) == None;
    MessageIsRead(body, m);
  }

  lemma MessageIsRead(body: Value, m: JsMessage)
    requires Get(body, MESSAGE) == (match m
      case JsText(units) => Some(Str(Utf8.FromUtf16(units)))
      case JsRaw(hex) => Some(Obj(map[RAW := Str(hex)])))
    ensures ReadMessage(body) == if Received(m).Some? then Ok(Received(m).value) else Err(Invalid(RAW))
  {
  }

  lemma MessageIsAsked(c: Codecs, id: string, m: SignableMessage, signer: Address)
    ensures MessageHex(Get(Print(c, id, SignMessage(None, m, Some(signer))), MESSAGE))
      == match m
         case Text(s) => if s == "" then None else Some(Hex.ToHex(Utf8.Encode(s)))
         case Raw(bytes) => Some(Hex.ToHex(bytes))
  {
    GetPrinted(c, id, SignMessage(None, m, Some(signer)), MESSAGE);
    if m.Text? { Utf8.FromToUtf16(m.s); }
  }

  ghost predicate IsText(bs: seq<byte>) {
    exists s: string :: Utf8.Encode(s) == bs
  }

  lemma TextDecodes(bs: seq<byte>)
    ensures IsText(bs) <==> Utf8.Decode(bs).Some?
  {
    if IsText(bs) {
      var s: string :| Utf8.Encode(s) == bs;
      Utf8.DecodeEncode(s);
    }
    if Utf8.Decode(bs).Some? { Utf8.EncodeDecode(bs); }
  }

  /** The digits of a `0x` string, padded to whole bytes. */
  function Padded(h: string): string
    requires Hex.Prefixed(h)
  {
    if |h| % 2 == 1 then "0" + h[2..] else h[2..]
  }

  lemma PaddedDigits(h: string)
    requires Hex.Prefixed(h)
    ensures |Padded(h)| % 2 == 0 && (Hex.HexDigits(Padded(h)) ==> Hex.HexDigits(h[2..]))
  {
    var k := |Padded(h)| - |h[2..]|;
    if Hex.HexDigits(Padded(h)) {
      forall i | 0 <= i < |h[2..]| ensures Hex.IsHexDigit(h[2..][i]) {
        assert Padded(h)[i + k] == h[2..][i];
      }
    }
  }

  /** For any `0x` string at all: the wallet is asked to sign exactly the bytes that the string's digits write, in
      either case, and it is asked just when those are some bytes and either each is written in full or together they
      are UTF-8 text. */
  lemma AskedIsWritten(c: Codecs, id: string, h: string, signer: Address)
    requires Hex.Prefixed(h)
    ensures forall bs: seq<byte> :: Hex.Writes(Padded(h), bs) ==>
              AskedToSign(c, id, h, signer)
                == if bs != [] && (|h| % 2 == 0 || IsText(bs)) then Some("0x" + Hex.Encode(bs)) else None
    ensures !Hex.HexDigits(h[2..]) ==> AskedToSign(c, id, h, signer) == None
  {
    AskedIsDecoded(c, id, h, signer);
    UnwrittenIsUnread(h);
    forall bs: seq<byte> | Hex.Writes(Padded(h), bs)
      ensures HexToBytes(h) == Some(bs) && (IsText(bs) <==> Utf8.Decode(bs).Some?)
    {
      WrittenIsRead(h, bs);
      TextDecodes(bs);
    }
  }

  lemma WrittenIsRead(h: string, bs: seq<byte>)
    requires Hex.Prefixed(h) && Hex.Writes(Padded(h), bs)
    ensures HexToBytes(h) == Some(bs)
  {
    Hex.DecodesIff(Padded(h), bs);
  }

  lemma UnwrittenIsUnread(h: string)
    requires Hex.Prefixed(h)
    ensures !Hex.HexDigits(h[2..]) ==> HexToBytes(h) == None
  {
    Hex.ReadableIff(Padded(h));
    PaddedDigits(h);
  }

  lemma AskedIsDecoded(c: Codecs, id: string, h: string, signer: Address)
    requires Hex.Prefixed(h)
    ensures var bs := HexToBytes(h);
      AskedToSign(c, id, h, signer)
        == if bs.Some? && bs.value != [] && (|h| % 2 == 0 || Utf8.Decode(bs.value).Some?)
           then Some(Hex.ToHex(bs.value)) else None
  {
    var bs, m := HexToBytes(h), SignableFromHex(h);
    BodyIsRead(c, m, signer);
    if Received(m).Some? { MessageIsAsked(c, id, Received(m).value, signer); }
    RawIsWritten(h);
    if bs.Some? && Utf8.Decode(bs.value).Some? { TextIsWritten(bs.value); }
  }

  lemma {:induction false} OddIsUnreadable(s: string)
    requires |s| % 2 == 1
    ensures Hex.Decode(s) == None
  {
    if |s| > 1 { OddIsUnreadable(s[2..]); }
  }

  lemma RawIsWritten(h: string)
    requires Hex.Prefixed(h)
    ensures Hex.Parse(h) == if |h| % 2 == 0 then HexToBytes(h) else None
  {
    if |h| % 2 == 1 { OddIsUnreadable(h[2..]); }
  }

  lemma TextIsWritten(bs: seq<byte>)
    requires Utf8.Decode(bs).Some?
    ensures var s := Utf8.Decode(bs).value;
      Utf8.FromUtf16(Utf8.ToUtf16(s)) == s && Utf8.Encode(s) == bs && (s == "" <==> bs == [])
  {
    Utf8.EncodeDecode(bs);
    Utf8.FromToUtf16(Utf8.Decode(bs).value);
    Utf8.DecodeEncode(Utf8.Decode(bs).value);
  }

  /** Every non-empty byte string is signed as it is, whether it travels as text or as hex. */
  lemma SameBytesAreSigned(c: Codecs, id: string, bytes: seq<byte>, signer: Address)
    requires bytes != []
    ensures Hex.Prefixed(Hex.ToHex(bytes))
    ensures AskedToSign(c, id, Hex.ToHex(bytes), signer) == Some(Hex.ToHex(bytes))
  {
    var h := Hex.ToHex(bytes);
    Hex.ParseToHex(bytes);
    AskedIsDecoded(c, id, h, signer);
    RawIsWritten(h);
  }

  /** `ignoreBOM` is needed: without it, a text re-encodes to its bytes only if they do not start with a byte order
      mark. */
  lemma BomIsLost(bs: seq<byte>, text: string)
    requires TextDecode(false, bs) == Some(text)
    ensures Utf8.Encode(text) == bs <==> !StartsWithBom(bs)
  {
    Utf8.EncodeDecode(if StartsWithBom(bs) then bs[3..] else bs);
  }
}
