/** TRON requests and their wire form. */
module TronWire {
  import Base58
  import opened Hex
  import opened Json
  import opened Positional
  import opened Wrappers

  datatype Network = Mainnet | Shasta | Nile

  type Address = bs: seq<byte> | |bs| == 21 && bs[0] == 0x41 witness [0x41] + seq(20, _ => 0)

  type Percentage = n: nat | n <= 100

  datatype TypedData = TypedData(domain: Value, types: Value, primaryType: string, message: Value)

  datatype Request =
    | Connect(network: Option<Network>, address: Option<Address>)
    | SendTransaction(network: Option<Network>, to: Address, from: Option<Address>, amount: u64,
        data: Option<seq<byte>>)
    | TriggerContract(network: Option<Network>, contractAddress: Address, from: Option<Address>,
        functionSelector: string, parameters: Option<Value>, feeLimit: Option<u64>, callValue: Option<u64>)
    | DeployContract(network: Option<Network>, from: Option<Address>, contractName: Option<string>, abi: Value,
        bytecode: seq<byte>, parameters: Option<Value>, feeLimit: Option<u64>, callValue: Option<u64>,
        originEnergyLimit: Option<u64>, userFeePercentage: Option<Percentage>)
    | SignMessage(network: Option<Network>, text: string, address: Option<Address>)
    | SignTypedData(network: Option<Network>, typedData: TypedData, address: Option<Address>)

  /** How the domain types print and parse. The last two only ever parse: their printed form is a number. */
  datatype Codecs = Codecs(
    network: Codec<Network>,
    address: Codec<Address>,
    sun: Codec<u64>,
    energyLimit: Codec<u64>,
    percentage: Codec<Percentage>)

  ghost predicate LawfulCodecs(c: Codecs) {
    Lawful(c.network) && Lawful(c.address) && Lawful(c.sun)
  }

  const HEX_BYTES := Codec(Hex.ToHex, Hex.Parse)

  // ---------- Printing ----------

  function TypeName(r: Request): string {
    match r
    case Connect(_, _) => "connect"
    case SendTransaction(_, _, _, _, _) => "send_transaction"
    case TriggerContract(_, _, _, _, _, _, _) => "trigger_contract"
    case DeployContract(_, _, _, _, _, _, _, _, _, _) => "deploy_contract"
    case SignMessage(_, _, _) => "sign_message"
    case SignTypedData(_, _, _) => "sign_typed_data"
  }

  function SendField(c: Codecs, r: Request, k: Key): Option<Value>
    requires r.SendTransaction?
  {
    match k
    case TO => Some(Str(c.address.show(r.to)))
    case FROM => Printed(c.address, r.from)
    case AMOUNT => Some(Str(c.sun.show(r.amount)))
    case DATA => Printed(HEX_BYTES, r.data)
    case _ => None
  }

  function TriggerField(c: Codecs, r: Request, k: Key): Option<Value>
    requires r.TriggerContract?
  {
    match k
    case CONTRACT_ADDRESS => Some(Str(c.address.show(r.contractAddress)))
    case FROM => Printed(c.address, r.from)
    case FUNCTION_SELECTOR => Some(Str(r.functionSelector))
    case PARAMETERS => r.parameters
    case FEE_LIMIT => Printed(c.sun, r.feeLimit)
    case CALL_VALUE => Printed(c.sun, r.callValue)
    case _ => None
  }

  function DeployField(c: Codecs, r: Request, k: Key): Option<Value>
    requires r.DeployContract?
  {
    match k
    case FROM => Printed(c.address, r.from)
    case CONTRACT_NAME => PrintedText(r.contractName)
    case ABI => Some(r.abi)
    case BYTECODE => Some(Str(Hex.ToHex(r.bytecode)))
    case PARAMETERS => r.parameters
    case FEE_LIMIT => Printed(c.sun, r.feeLimit)
    case CALL_VALUE => Printed(c.sun, r.callValue)
    case ORIGIN_ENERGY_LIMIT => PrintedInt(r.originEnergyLimit)
    case USER_FEE_PERCENTAGE => PrintedInt(r.userFeePercentage)
    case _ => None
  }

  function AccountField(c: Codecs, r: Request, k: Key): Option<Value>
    requires r.Connect? || r.SignMessage? || r.SignTypedData?
  {
    match k
    case ADDRESS => Printed(c.address, r.address)
    case DOMAIN => if r.SignTypedData? then Some(r.typedData.domain) else None
    case TYPES => if r.SignTypedData? then Some(r.typedData.types) else None
    case PRIMARY_TYPE => if r.SignTypedData? then Some(Str(r.typedData.primaryType)) else None
    case MESSAGE =>
      if r.SignTypedData? then Some(r.typedData.message)
      else if r.SignMessage? then Some(Str(r.text))
      else None
    case _ => None
  }

  /** What a field of a printed request holds. */
  function Field(c: Codecs, id: string, r: Request, k: Key): Option<Value> {
    match k
    case TYPE => Some(Str(TypeName(r)))
    case ID => Some(Str(id))
    case NETWORK => Printed(c.network, r.network)
    case _ =>
      if r.SendTransaction? then SendField(c, r, k)
      else if r.TriggerContract? then TriggerField(c, r, k)
      else if r.DeployContract? then DeployField(c, r, k)
      else AccountField(c, r, k)
  }

  function Print(c: Codecs, id: string, r: Request): Value {
    Object(k => Field(c, id, r, k))
  }

  // ---------- Reading ----------

  function ReadConnect(c: Codecs, n: Option<Network>, body: Value): Result<Request, Error> {
    var address :- OptParsed(body, ADDRESS, c.address);
    Ok(Connect(n, address))
  }

  function ReadSend(c: Codecs, n: Option<Network>, body: Value): Result<Request, Error> {
    var to :- ReqParsed(body, TO, c.address);
    var from :- OptParsed(body, FROM, c.address);
    var amount :- ReqParsed(body, AMOUNT, c.sun);
    var data :- OptParsed(body, DATA, HEX_BYTES);
    Ok(SendTransaction(n, to, from, amount, data))
  }

  function ReadTrigger(c: Codecs, n: Option<Network>, body: Value): Result<Request, Error> {
    var contractAddress :- ReqParsed(body, CONTRACT_ADDRESS, c.address);
    var from :- OptParsed(body, FROM, c.address);
    var functionSelector :- StrField(body, FUNCTION_SELECTOR);
    var feeLimit :- OptParsed(body, FEE_LIMIT, c.sun);
    var callValue :- OptParsed(body, CALL_VALUE, c.sun);
    Ok(TriggerContract(n, contractAddress, from, functionSelector, Get(body, PARAMETERS), feeLimit, callValue))
  }

  function ReadDeploy(c: Codecs, n: Option<Network>, body: Value): Result<Request, Error> {
    var abi := Get(body, ABI);
    if abi.None? then Err(Missing(ABI))
    else
      var bytecode :- ReqParsed(body, BYTECODE, HEX_BYTES);
      var from :- OptParsed(body, FROM, c.address);
      var feeLimit :- OptParsed(body, FEE_LIMIT, c.sun);
      var callValue :- OptParsed(body, CALL_VALUE, c.sun);
      var energyLimit :- OptParsed(body, ORIGIN_ENERGY_LIMIT, c.energyLimit);
      var percentage :- OptParsed(body, USER_FEE_PERCENTAGE, c.percentage);
      Ok(DeployContract(n, from, StrOpt(body, CONTRACT_NAME), abi.value, bytecode, Get(body, PARAMETERS),
        feeLimit, callValue, energyLimit, percentage))
  }

  function ReadSignMessage(c: Codecs, n: Option<Network>, body: Value): Result<Request, Error> {
    var text :- StrField(body, MESSAGE);
    var address :- OptParsed(body, ADDRESS, c.address);
    Ok(SignMessage(n, text, address))
  }

  function ReadTypedData(c: Codecs, n: Option<Network>, body: Value): Result<Request, Error> {
    var primaryType :- StrField(body, PRIMARY_TYPE);
    var data := TypedData(JsonField(body, DOMAIN), JsonField(body, TYPES), primaryType, JsonField(body, MESSAGE));
    var address :- OptParsed(body, ADDRESS, c.address);
    Ok(SignTypedData(n, data, address))
  }

  function FromJson(c: Codecs, body: Value): Result<Request, Error> {
    var typ :- StrField(body, TYPE);
    var n :- OptParsed(body, NETWORK, c.network);
    if typ == "connect" then ReadConnect(c, n, body)
    else if typ == "send_transaction" then ReadSend(c, n, body)
    else if typ == "trigger_contract" then ReadTrigger(c, n, body)
    else if typ == "deploy_contract" then ReadDeploy(c, n, body)
    else if typ == "sign_message" then ReadSignMessage(c, n, body)
    else if typ == "sign_typed_data" then ReadTypedData(c, n, body)
    else Err(UnknownType)
  }

  // ---------- What reading gives back ----------

  /** The request without the two fields that print as numbers but are read only as strings. */
  function WithoutNumbers(r: Request): Request {
    if r.DeployContract? then r.(originEnergyLimit := None, userFeePercentage := None) else r
  }

  /** Every field of `body` holds what printing `r` puts there. */
  ghost predicate IsPrinted(c: Codecs, id: string, r: Request, body: Value) {
    forall k: Key :: !k.Other? ==> Get(body, k) == Field(c, id, r, k)
  }

  lemma GetPrinted(c: Codecs, id: string, r: Request, k: Key)
    requires !k.Other?
    ensures Get(Print(c, id, r), k) == Field(c, id, r, k)
  {
    GetObject(j => Field(c, id, r, j), k);
  }

  lemma PrintIsPrinted(c: Codecs, id: string, r: Request)
    ensures IsPrinted(c, id, r, Print(c, id, r))
  {
    forall k: Key | !k.Other? ensures Get(Print(c, id, r), k) == Field(c, id, r, k) {
      GetPrinted(c, id, r, k);
    }
  }

  lemma OptBack<T>(c: Codecs, id: string, r: Request, body: Value, k: Key, codec: Codec<T>, o: Option<T>)
    requires IsPrinted(c, id, r, body) && ParsesBack(codec, o) && !k.Other? && Field(c, id, r, k) == Printed(codec, o)
    ensures OptParsed(body, k, codec) == Ok(o)
    ensures o.Some? ==> ReqParsed(body, k, codec) == Ok(o.value)
  {
    ReadBack(body, k, codec, o);
  }

  lemma BytesBack(c: Codecs, id: string, r: Request, body: Value, k: Key, o: Option<seq<byte>>)
    requires IsPrinted(c, id, r, body) && !k.Other? && Field(c, id, r, k) == Printed(HEX_BYTES, o)
    ensures OptParsed(body, k, HEX_BYTES) == Ok(o)
    ensures o.Some? ==> ReqParsed(body, k, HEX_BYTES) == Ok(o.value)
  {
    if o.Some? { Hex.ParseToHex(o.value); }
  }

  lemma NumberIsLost<T>(body: Value, k: Key, codec: Codec<T>, o: Option<nat>)
    requires Get(body, k) == PrintedInt(o)
    ensures OptParsed(body, k, codec) == Ok(None)
  {
  }

  lemma SendBack(c: Codecs, id: string, r: Request, body: Value)
    requires IsPrinted(c, id, r, body) && LawfulCodecs(c) && r.SendTransaction?
    ensures ReadSend(c, r.network, body) == Ok(r)
  {
    OptBack(c, id, r, body, TO, c.address, Some(r.to));
    OptBack(c, id, r, body, FROM, c.address, r.from);
    OptBack(c, id, r, body, AMOUNT, c.sun, Some(r.amount));
    BytesBack(c, id, r, body, DATA, r.data);
  }

  lemma AmountsBack(c: Codecs, id: string, r: Request, body: Value)
    requires IsPrinted(c, id, r, body) && LawfulCodecs(c) && (r.TriggerContract? || r.DeployContract?)
    ensures OptParsed(body, FEE_LIMIT, c.sun) == Ok(r.feeLimit)
    ensures OptParsed(body, CALL_VALUE, c.sun) == Ok(r.callValue)
  {
    OptBack(c, id, r, body, FEE_LIMIT, c.sun, r.feeLimit);
    OptBack(c, id, r, body, CALL_VALUE, c.sun, r.callValue);
  }

  lemma AddressesBack(c: Codecs, id: string, r: Request, body: Value)
    requires IsPrinted(c, id, r, body) && LawfulCodecs(c) && (r.TriggerContract? || r.DeployContract?)
    ensures OptParsed(body, FROM, c.address) == Ok(r.from)
    ensures r.TriggerContract? ==> ReqParsed(body, CONTRACT_ADDRESS, c.address) == Ok(r.contractAddress)
  {
    OptBack(c, id, r, body, FROM, c.address, r.from);
    if r.TriggerContract? { OptBack(c, id, r, body, CONTRACT_ADDRESS, c.address, Some(r.contractAddress)); }
  }

  lemma TriggerTexts(c: Codecs, id: string, r: Request, body: Value)
    requires IsPrinted(c, id, r, body) && r.TriggerContract?
    ensures StrField(body, FUNCTION_SELECTOR) == Ok(r.functionSelector)
    ensures Get(body, PARAMETERS) == r.parameters
  {
  }

  lemma TriggerBack(c: Codecs, id: string, r: Request, body: Value)
    requires IsPrinted(c, id, r, body) && LawfulCodecs(c) && r.TriggerContract?
    ensures ReadTrigger(c, r.network, body) == Ok(r)
  {
    AddressesBack(c, id, r, body);
    TriggerTexts(c, id, r, body);
    AmountsBack(c, id, r, body);
  }

  lemma DeployValues(c: Codecs, id: string, r: Request, body: Value)
    requires IsPrinted(c, id, r, body) && r.DeployContract?
    ensures Get(body, ABI) == Some(r.abi) && Get(body, PARAMETERS) == r.parameters
  {
  }

  lemma DeployTexts(c: Codecs, id: string, r: Request, body: Value)
    requires IsPrinted(c, id, r, body) && r.DeployContract?
    ensures StrOpt(body, CONTRACT_NAME) == r.contractName
    ensures ReqParsed(body, BYTECODE, HEX_BYTES) == Ok(r.bytecode)
  {
    BytesBack(c, id, r, body, BYTECODE, Some(r.bytecode));
  }

  lemma DeployNumbers(c: Codecs, id: string, r: Request, body: Value)
    requires IsPrinted(c, id, r, body) && r.DeployContract?
    ensures OptParsed(body, ORIGIN_ENERGY_LIMIT, c.energyLimit) == Ok(None)
    ensures OptParsed(body, USER_FEE_PERCENTAGE, c.percentage) == Ok(None)
  {
    NumberIsLost(body, ORIGIN_ENERGY_LIMIT, c.energyLimit, r.originEnergyLimit);
    NumberIsLost(body, USER_FEE_PERCENTAGE, c.percentage, r.userFeePercentage);
  }

  lemma DeployBack(c: Codecs, id: string, r: Request, body: Value)
    requires IsPrinted(c, id, r, body) && LawfulCodecs(c) && r.DeployContract?
    ensures ReadDeploy(c, r.network, body) == Ok(WithoutNumbers(r))
  {
    DeployValues(c, id, r, body);
    DeployTexts(c, id, r, body);
    AddressesBack(c, id, r, body);
    AmountsBack(c, id, r, body);
    DeployNumbers(c, id, r, body);
  }

  lemma AccountBack(c: Codecs, id: string, r: Request, body: Value)
    requires IsPrinted(c, id, r, body) && LawfulCodecs(c)
    ensures r.Connect? ==> ReadConnect(c, r.network, body) == Ok(r)
    ensures r.SignMessage? ==> ReadSignMessage(c, r.network, body) == Ok(r)
  {
    if r.Connect? || r.SignMessage? {
      OptBack(c, id, r, body, ADDRESS, c.address, r.address);
    }
  }

  lemma TypedDataParts(c: Codecs, id: string, r: Request, body: Value)
    requires IsPrinted(c, id, r, body) && r.SignTypedData?
    ensures && Get(body, DOMAIN) == Some(r.typedData.domain) && Get(body, TYPES) == Some(r.typedData.types)
      && Get(body, PRIMARY_TYPE) == Some(Str(r.typedData.primaryType))
      && Get(body, MESSAGE) == Some(r.typedData.message)
  {
  }

  lemma TypedDataBack(c: Codecs, id: string, r: Request, body: Value)
    requires IsPrinted(c, id, r, body) && LawfulCodecs(c) && r.SignTypedData?
    ensures ReadTypedData(c, r.network, body) == Ok(r)
  {
    TypedDataParts(c, id, r, body);
    OptBack(c, id, r, body, ADDRESS, c.address, r.address);
  }

  lemma TypeDispatches(c: Codecs, body: Value, r: Request)
    requires Get(body, TYPE) == Some(Str(TypeName(r))) && OptParsed(body, NETWORK, c.network) == Ok(r.network)
    ensures FromJson(c, body)
      == match r
         case Connect(n, _) => ReadConnect(c, n, body)
         case SendTransaction(n, _, _, _, _) => ReadSend(c, n, body)
         case TriggerContract(n, _, _, _, _, _, _) => ReadTrigger(c, n, body)
         case DeployContract(n, _, _, _, _, _, _, _, _, _) => ReadDeploy(c, n, body)
         case SignMessage(n, _, _) => ReadSignMessage(c, n, body)
         case SignTypedData(n, _, _) => ReadTypedData(c, n, body)
  {
  }

  /** Reading a printed request always succeeds, and gives the request back except for a deployment's energy limit
      and fee percentage, which are lost. */
  lemma FromJsonPrint(c: Codecs, id: string, r: Request)
    requires LawfulCodecs(c)
    ensures FromJson(c, Print(c, id, r)) == Ok(WithoutNumbers(r))
  {
    var body := Print(c, id, r);
    PrintIsPrinted(c, id, r);
    OptBack(c, id, r, body, NETWORK, c.network, r.network);
    TypeDispatches(c, body, r);
    match r
    case Connect(_, _) => AccountBack(c, id, r, body);
    case SendTransaction(_, _, _, _, _) => SendBack(c, id, r, body);
    case TriggerContract(_, _, _, _, _, _, _) => TriggerBack(c, id, r, body);
    case DeployContract(_, _, _, _, _, _, _, _, _, _) => DeployBack(c, id, r, body);
    case SignMessage(_, _, _) => AccountBack(c, id, r, body);
    case SignTypedData(_, _, _) => TypedDataBack(c, id, r, body);
  }

  /** The two fields that are lost are printed all the same, as numbers. */
  lemma NumbersArePrinted(c: Codecs, id: string, r: Request)
    requires r.DeployContract?
    ensures Get(Print(c, id, r), ORIGIN_ENERGY_LIMIT)
      == if r.originEnergyLimit.Some? then Some(Int(r.originEnergyLimit.value)) else None
    ensures Get(Print(c, id, r), USER_FEE_PERCENTAGE)
      == if r.userFeePercentage.Some? then Some(Int(r.userFeePercentage.value)) else None
  {
    GetPrinted(c, id, r, ORIGIN_ENERGY_LIMIT);
    GetPrinted(c, id, r, USER_FEE_PERCENTAGE);
  }

  /** So reading undoes printing exactly for the requests that leave both out. */
  lemma FromJsonUndoesPrint(c: Codecs, id: string, r: Request)
    requires LawfulCodecs(c)
    ensures FromJson(c, Print(c, id, r)) == Ok(r)
      <==> (r.DeployContract? ==> r.originEnergyLimit == None && r.userFeePercentage == None)
  {
    FromJsonPrint(c, id, r);
  }

  /** For one: a deployment that limits the deployer's energy to 1 is read as one that does not limit it. */
  lemma EnergyLimitIsLost(c: Codecs, id: string)
    requires LawfulCodecs(c)
    ensures var r := DeployContract(None, None, None, Arr([]), [0x60], None, None, None, Some(1), None);
      FromJson(c, Print(c, id, r)) == Ok(r.(originEnergyLimit := None))
  {
    FromJsonPrint(c, id, DeployContract(None, None, None, Arr([]), [0x60], None, None, None, Some(1), None));
  }

  function ParseBase58(sum: seq<byte> -> seq<byte>, s: string): Option<Address> {
    var r := Base58.ParseTronAddress(sum, s);
    if r.Ok? then Some(r.value) else None
  }

  /** Base58Check is such a way to print and parse addresses, whatever the checksum function. */
  lemma Base58CheckIsLawful(sum: seq<byte> -> seq<byte>, c: Codec<Address>)
    requires Base58.IsChecksum(sum)
    requires forall a: Address :: c.show(a) == Base58.CheckEncode(sum, a)
    requires forall s :: c.parse(s) == ParseBase58(sum, s)
    ensures Lawful(c)
  {
    forall a: Address ensures c.parse(c.show(a)) == Some(a) {
      Base58.TronAddressPrints(sum, a);
    }
  }
}
