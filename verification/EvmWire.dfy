/** EVM requests and their wire form. */
module EvmWire {
  import opened Hex
  import opened Json
  import opened Positional
  import opened Wrappers

  type u256 = n: nat | n < 0x1_0000_0000_0000_0000_0000_0000_0000_0000_0000_0000_0000_0000_0000_0000_0000_0000

  type Address = bs: seq<byte> | |bs| == 20 witness seq(20, _ => 0)

  datatype SignableMessage = Text(s: string) | Raw(bytes: seq<byte>)

  datatype TypedData = TypedData(domain: Value, types: Value, primaryType: string, message: Value)

  datatype Request =
    | Connect(chainId: Option<u64>, address: Option<Address>, rpcUrl: Option<string>, chainName: Option<string>)
    | SendTransaction(chainId: Option<u64>, to: Option<Address>, from: Option<Address>, value: Option<u256>,
        data: Option<seq<byte>>, gasLimit: Option<u256>, maxFeePerGas: Option<u256>,
        maxPriorityFeePerGas: Option<u256>)
    | SignMessage(chainId: Option<u64>, signable: SignableMessage, address: Option<Address>)
    | SignTypedData(chainId: Option<u64>, typedData: TypedData, address: Option<Address>)

  /** 256-bit amounts and URLs print and parse by library code. */
  datatype Codecs = Codecs(wei: Codec<u256>, url: Codec<string>, isUrl: string -> bool)

  ghost predicate LawfulCodecs(c: Codecs) {
    Lawful(c.wei) && LawfulOn(c.url, c.isUrl)
  }

  /** The request's URL, if it has one, is a URL. */
  predicate Formed(c: Codecs, r: Request) {
    r.Connect? && r.rpcUrl.Some? ==> c.isUrl(r.rpcUrl.value)
  }

  function ParseAddress(s: string): Option<Address> {
    var bs := Hex.Parse(s);
    if bs.Some? && |bs.value| == 20 then Some(bs.value) else None
  }

  const ADDRESSES := Codec((a: Address) => Hex.ToHex(a), ParseAddress)
  const HEX_BYTES := Codec(Hex.ToHex, Hex.Parse)

  // ---------- Printing ----------

  function PrintMessage(m: SignableMessage): Value {
    match m
    case Text(s) => Str(s)
    case Raw(bytes) => Obj(map[RAW := Str(Hex.ToHex(bytes))])
  }

  function TypeName(r: Request): string {
    match r
    case Connect(_, _, _, _) => "connect"
    case SendTransaction(_, _, _, _, _, _, _, _) => "send_transaction"
    case SignMessage(_, _, _) => "sign_message"
    case SignTypedData(_, _, _) => "sign_typed_data"
  }

  function SendField(c: Codecs, r: Request, k: Key): Option<Value>
    requires r.SendTransaction?
  {
    match k
    case TO => Printed(ADDRESSES, r.to)
    case FROM => Printed(ADDRESSES, r.from)
    case VALUE => Printed(c.wei, r.value)
    case DATA => Printed(HEX_BYTES, r.data)
    case GAS_LIMIT => Printed(c.wei, r.gasLimit)
    case MAX_FEE_PER_GAS => Printed(c.wei, r.maxFeePerGas)
    case MAX_PRIORITY_FEE_PER_GAS => Printed(c.wei, r.maxPriorityFeePerGas)
    case _ => None
  }

  function OtherField(c: Codecs, r: Request, k: Key): Option<Value>
    requires !r.SendTransaction?
  {
    match k
    case ADDRESS => Printed(ADDRESSES, r.address)
    case RPC_URL => if r.Connect? then Printed(c.url, r.rpcUrl) else None
    case CHAIN_NAME => if r.Connect? then PrintedText(r.chainName) else None
    case DOMAIN => if r.SignTypedData? then Some(r.typedData.domain) else None
    case TYPES => if r.SignTypedData? then Some(r.typedData.types) else None
    case PRIMARY_TYPE => if r.SignTypedData? then Some(Str(r.typedData.primaryType)) else None
    case MESSAGE =>
      if r.SignTypedData? then Some(r.typedData.message)
      else if r.SignMessage? then Some(PrintMessage(r.signable))
      else None
    case _ => None
  }

  /** What a field of a printed request holds. */
  function Field(c: Codecs, id: string, r: Request, k: Key): Option<Value> {
    match k
    case TYPE => Some(Str(TypeName(r)))
    case ID => Some(Str(id))
    case CHAIN_ID => PrintedInt(r.chainId)
    case _ => if r.SendTransaction? then SendField(c, r, k) else OtherField(c, r, k)
  }

  function Print(c: Codecs, id: string, r: Request): Value {
    Object(k => Field(c, id, r, k))
  }

  // ---------- Reading ----------

  function ReadMessage(body: Value): Result<SignableMessage, Error> {
    match Get(body, MESSAGE)
    case Some(Str(s)) => Ok(Text(s))
    case Some(Obj(fields)) =>
      var raw :- ReqParsed(Obj(fields), RAW, HEX_BYTES);
      Ok(Raw(raw))
    case _ => Err(Missing(MESSAGE))
  }

  /** A transaction a wallet can send: one without a recipient deploys a contract, so it needs init code. */
  predicate Sendable(r: Request)
    requires r.SendTransaction?
  {
    r.to.Some? || (r.data.Some? && r.data.value != [])
  }

  function ReadSend(c: Codecs, body: Value): Result<Request, Error> {
    var to :- OptParsed(body, TO, ADDRESSES);
    var from :- OptParsed(body, FROM, ADDRESSES);
    var value :- OptParsed(body, VALUE, c.wei);
    var data :- OptParsed(body, DATA, HEX_BYTES);
    var gasLimit :- OptParsed(body, GAS_LIMIT, c.wei);
    var maxFee :- OptParsed(body, MAX_FEE_PER_GAS, c.wei);
    var maxPriorityFee :- OptParsed(body, MAX_PRIORITY_FEE_PER_GAS, c.wei);
    var r := SendTransaction(U64Opt(body, CHAIN_ID), to, from, value, data, gasLimit, maxFee, maxPriorityFee);
    if Sendable(r) then Ok(r) else Err(Invalid(DATA))
  }

  function ReadConnect(c: Codecs, body: Value): Result<Request, Error> {
    var address :- OptParsed(body, ADDRESS, ADDRESSES);
    var rpcUrl :- OptParsed(body, RPC_URL, c.url);
    Ok(Connect(U64Opt(body, CHAIN_ID), address, rpcUrl, StrOpt(body, CHAIN_NAME)))
  }

  function ReadSignMessage(body: Value): Result<Request, Error> {
    var message :- ReadMessage(body);
    var address :- OptParsed(body, ADDRESS, ADDRESSES);
    Ok(SignMessage(U64Opt(body, CHAIN_ID), message, address))
  }

  function ReadTypedData(body: Value): Result<Request, Error> {
    var primaryType :- StrField(body, PRIMARY_TYPE);
    var data := TypedData(JsonField(body, DOMAIN), JsonField(body, TYPES), primaryType, JsonField(body, MESSAGE));
    var address :- OptParsed(body, ADDRESS, ADDRESSES);
    Ok(SignTypedData(U64Opt(body, CHAIN_ID), data, address))
  }

  function FromJson(c: Codecs, body: Value): Result<Request, Error> {
    var typ :- StrField(body, TYPE);
    if typ == "connect" then ReadConnect(c, body)
    else if typ == "send_transaction" then ReadSend(c, body)
    else if typ == "sign_message" then ReadSignMessage(body)
    else if typ == "sign_typed_data" then ReadTypedData(body)
    else Err(UnknownType)
  }

  // ---------- They undo each other ----------

  /** Every field of `body` holds what printing `r` puts there. */
  ghost predicate IsPrinted(c: Codecs, id: string, r: Request, body: Value) {
    forall k: Key :: !k.Other? ==> Get(body, k) == Field(c, id, r, k)
  }

  lemma GetPrinted(c: Codecs, id: string, r: Request, k: Key)
    requires !k.Other?
    ensures Get(Print(c, id, r), k) == Field(c, id, r, k)
  {
    GetObject(j => Field(c, id, r, j), k);
  }

  lemma PrintIsPrinted(c: Codecs, id: string, r: Request)
    ensures IsPrinted(c, id, r, Print(c, id, r))
  {
    forall k: Key | !k.Other? ensures Get(Print(c, id, r), k) == Field(c, id, r, k) {
      GetPrinted(c, id, r, k);
    }
  }

  lemma ChainBack(c: Codecs, id: string, r: Request, body: Value)
    requires IsPrinted(c, id, r, body)
    ensures U64Opt(body, CHAIN_ID) == r.chainId
  {
  }

  lemma AddressBack(c: Codecs, id: string, r: Request, body: Value, k: Key, a: Option<Address>)
    requires IsPrinted(c, id, r, body) && !k.Other? && Field(c, id, r, k) == Printed(ADDRESSES, a)
    ensures OptParsed(body, k, ADDRESSES) == Ok(a)
  {
    if a.Some? { Hex.ParseToHex(a.value); }
  }

  lemma DataBack(c: Codecs, id: string, r: Request, body: Value)
    requires IsPrinted(c, id, r, body) && r.SendTransaction?
    ensures OptParsed(body, DATA, HEX_BYTES) == Ok(r.data)
  {
    if r.data.Some? { Hex.ParseToHex(r.data.value); }
  }

  lemma WeiBack(c: Codecs, id: string, r: Request, body: Value, k: Key, n: Option<u256>)
    requires IsPrinted(c, id, r, body) && Lawful(c.wei) && !k.Other? && Field(c, id, r, k) == Printed(c.wei, n)
    ensures OptParsed(body, k, c.wei) == Ok(n)
  {
    ReadBack(body, k, c.wei, n);
  }

  /** A message is read back from where it was printed. */
  lemma MessageReadBack(body: Value, m: SignableMessage)
    requires Get(body, MESSAGE) == Some(PrintMessage(m))
    ensures ReadMessage(body) == Ok(m)
  {
    if m.Raw? { Hex.ParseToHex(m.bytes); }
  }

  lemma SendFrom(c: Codecs, body: Value, r: Request)
    requires r.SendTransaction? && U64Opt(body, CHAIN_ID) == r.chainId
    requires OptParsed(body, TO, ADDRESSES) == Ok(r.to) && OptParsed(body, FROM, ADDRESSES) == Ok(r.from)
    requires OptParsed(body, VALUE, c.wei) == Ok(r.value) && OptParsed(body, DATA, HEX_BYTES) == Ok(r.data)
    requires OptParsed(body, GAS_LIMIT, c.wei) == Ok(r.gasLimit)
    requires OptParsed(body, MAX_FEE_PER_GAS, c.wei) == Ok(r.maxFeePerGas)
    requires OptParsed(body, MAX_PRIORITY_FEE_PER_GAS, c.wei) == Ok(r.maxPriorityFeePerGas)
    ensures ReadSend(c, body) == if Sendable(r) then Ok(r) else Err(Invalid(DATA))
  {
  }

  lemma AmountsBack(c: Codecs, id: string, r: Request, body: Value)
    requires IsPrinted(c, id, r, body) && Lawful(c.wei) && r.SendTransaction?
    ensures OptParsed(body, VALUE, c.wei) == Ok(r.value)
    ensures OptParsed(body, GAS_LIMIT, c.wei) == Ok(r.gasLimit)
    ensures OptParsed(body, MAX_FEE_PER_GAS, c.wei) == Ok(r.maxFeePerGas)
    ensures OptParsed(body, MAX_PRIORITY_FEE_PER_GAS, c.wei) == Ok(r.maxPriorityFeePerGas)
  {
    WeiBack(c, id, r, body, VALUE, r.value);
    WeiBack(c, id, r, body, GAS_LIMIT, r.gasLimit);
    WeiBack(c, id, r, body, MAX_FEE_PER_GAS, r.maxFeePerGas);
    WeiBack(c, id, r, body, MAX_PRIORITY_FEE_PER_GAS, r.maxPriorityFeePerGas);
  }

  lemma SendBack(c: Codecs, id: string, r: Request, body: Value)
    requires IsPrinted(c, id, r, body) && LawfulCodecs(c) && r.SendTransaction?
    ensures ReadSend(c, body) == if Sendable(r) then Ok(r) else Err(Invalid(DATA))
  {
    ChainBack(c, id, r, body);
    AddressBack(c, id, r, body, TO, r.to);
    AddressBack(c, id, r, body, FROM, r.from);
    DataBack(c, id, r, body);
    AmountsBack(c, id, r, body);
    SendFrom(c, body, r);
  }

  lemma ConnectTexts(c: Codecs, id: string, r: Request, body: Value)
    requires IsPrinted(c, id, r, body) && LawfulCodecs(c) && Formed(c, r) && r.Connect?
    ensures OptParsed(body, RPC_URL, c.url) == Ok(r.rpcUrl) && StrOpt(body, CHAIN_NAME) == r.chainName
  {
    ReadBack(body, RPC_URL, c.url, r.rpcUrl);
  }

  lemma ConnectBack(c: Codecs, id: string, r: Request, body: Value)
    requires IsPrinted(c, id, r, body) && LawfulCodecs(c) && Formed(c, r) && r.Connect?
    ensures ReadConnect(c, body) == Ok(r)
  {
    ChainBack(c, id, r, body);
    AddressBack(c, id, r, body, ADDRESS, r.address);
    ConnectTexts(c, id, r, body);
  }

  lemma SignMessageBack(c: Codecs, id: string, r: Request, body: Value)
    requires IsPrinted(c, id, r, body) && r.SignMessage?
    ensures ReadSignMessage(body) == Ok(r)
  {
    ChainBack(c, id, r, body);
    MessageReadBack(body, r.signable);
    AddressBack(c, id, r, body, ADDRESS, r.address);
  }

  lemma TypedDataFrom(body: Value, r: Request)
    requires r.SignTypedData? && U64Opt(body, CHAIN_ID) == r.chainId
    requires Get(body, DOMAIN) == Some(r.typedData.domain) && Get(body, TYPES) == Some(r.typedData.types)
    requires Get(body, PRIMARY_TYPE) == Some(Str(r.typedData.primaryType))
    requires Get(body, MESSAGE) == Some(r.typedData.message)
    requires OptParsed(body, ADDRESS, ADDRESSES) == Ok(r.address)
    ensures ReadTypedData(body) == Ok(r)
  {
  }

  lemma TypedDataParts(c: Codecs, id: string, r: Request, body: Value)
    requires IsPrinted(c, id, r, body) && r.SignTypedData?
    ensures && Get(body, DOMAIN) == Some(r.typedData.domain) && Get(body, TYPES) == Some(r.typedData.types)
      && Get(body, PRIMARY_TYPE) == Some(Str(r.typedData.primaryType))
      && Get(body, MESSAGE) == Some(r.typedData.message)
  {
  }

  lemma TypedDataBack(c: Codecs, id: string, r: Request, body: Value)
    requires IsPrinted(c, id, r, body) && r.SignTypedData?
    ensures ReadTypedData(body) == Ok(r)
  {
    ChainBack(c, id, r, body);
    TypedDataParts(c, id, r, body);
    AddressBack(c, id, r, body, ADDRESS, r.address);
    TypedDataFrom(body, r);
  }

  lemma TypeDispatches(c: Codecs, body: Value, r: Request)
    requires Get(body, TYPE) == Some(Str(TypeName(r)))
    ensures FromJson(c, body)
      == if r.Connect? then ReadConnect(c, body)
         else if r.SendTransaction? then ReadSend(c, body)
         else if r.SignMessage? then ReadSignMessage(body)
         else ReadTypedData(body)
  {
  }

  /** Reading a printed request gives the request back, whatever its id, unless it is a transaction that the check
      refuses; and then reading refuses it too. */
  lemma FromJsonPrint(c: Codecs, id: string, r: Request)
    requires LawfulCodecs(c) && Formed(c, r)
    ensures FromJson(c, Print(c, id, r))
      == if r.SendTransaction? && !Sendable(r) then Err(Invalid(DATA)) else Ok(r)
  {
    var body := Print(c, id, r);
    PrintIsPrinted(c, id, r);
    TypeDispatches(c, body, r);
    match r
    case Connect(_, _, _, _) => ConnectBack(c, id, r, body);
    case SendTransaction(_, _, _, _, _, _, _, _) => SendBack(c, id, r, body);
    case SignMessage(_, _, _) => SignMessageBack(c, id, r, body);
    case SignTypedData(_, _, _) => TypedDataBack(c, id, r, body);
  }

  lemma ReadIsSendable(c: Codecs, body: Value)
    requires FromJson(c, body).Ok? && FromJson(c, body).value.SendTransaction?
    ensures Sendable(FromJson(c, body).value)
  {
  }

  lemma ReadIsFormed(c: Codecs, body: Value)
    requires LawfulCodecs(c) && FromJson(c, body).Ok?
    ensures Formed(c, FromJson(c, body).value)
  {
  }

  /** So every body that is read at all prints in a form that is read as the same request. */
  lemma ReadOnceIsReadAgain(c: Codecs, id: string, body: Value, r: Request)
    requires LawfulCodecs(c) && FromJson(c, body) == Ok(r)
    ensures FromJson(c, Print(c, id, r)) == Ok(r)
  {
    if r.SendTransaction? { ReadIsSendable(c, body); }
    ReadIsFormed(c, body);
    FromJsonPrint(c, id, r);
  }
}
