/** Bitcoin requests: the constructors and what they check, and the wire form. */
module BtcWire {
  import opened Json
  import opened Wrappers

  datatype Network = Mainnet | Testnet | Testnet4 | Signet | Regtest

  datatype Protocol = Bip322 | Ecdsa

  /** An address as the library parses it, before or after the check against a network. */
  datatype Address = Address(payload: string)

  datatype PsbtInput = PsbtInput(tapScripts: seq<string>)

  datatype Psbt = Psbt(unsignedTx: string, inputs: seq<PsbtInput>)

  /** A fee rate is never zero. */
  type FeeRate = n: u64 | n > 0 witness 1

  datatype Request =
    | Connect(network: Network, address: Option<Address>)
    | SendTransfer(network: Network, to: Address, from: Option<Address>, amount: u64, feeRate: Option<FeeRate>)
    | SignPsbt(network: Network, psbt: Psbt, from: Option<Address>, signInputs: Option<seq<u32>>,
        scriptPathInputs: seq<u32>, finalize: bool, broadcast: bool)
    | SignMessage(network: Network, message: string, address: Option<Address>, protocol: Protocol)

  /** How the domain types print and parse, and which addresses belong to which network. */
  datatype Codecs = Codecs(
    network: Codec<Network>,
    address: Codec<Address>,
    amount: Codec<u64>,
    feeRate: Codec<FeeRate>,
    psbt: Codec<Psbt>,
    protocol: Codec<Protocol>,
    isAddress: Address -> bool,
    isPsbt: Psbt -> bool,
    onNetwork: (Address, Network) -> bool,
    defaultNetwork: Network)

  ghost predicate LawfulCodecs(c: Codecs) {
    && Lawful(c.network) && LawfulOn(c.address, c.isAddress) && Lawful(c.amount) && Lawful(c.feeRate)
    && LawfulOn(c.psbt, c.isPsbt) && Lawful(c.protocol)
  }

  predicate IsAddress(c: Codecs, a: Option<Address>) {
    a.Some? ==> c.isAddress(a.value)
  }

  /** The request's addresses are addresses, and its PSBT is one. */
  predicate Formed(c: Codecs, r: Request) {
    match r
    case Connect(_, address) => IsAddress(c, address)
    case SendTransfer(_, to, from, _, _) => c.isAddress(to) && IsAddress(c, from)
    case SignPsbt(_, psbt, from, _, _, _, _) => c.isPsbt(psbt) && IsAddress(c, from)
    case SignMessage(_, _, address, _) => IsAddress(c, address)
  }

  // ---------- Constructors ----------

  function RequireNetwork(c: Codecs, a: Address, n: Network): Result<Address, Error> {
    if c.onNetwork(a, n) then Ok(a) else Err(Uncheckable("network"))
  }

  function Checked(c: Codecs, a: Option<Address>, n: Network): Result<Option<Address>, Error> {
    if a.Some? && !c.onNetwork(a.value, n) then Err(Uncheckable("network")) else Ok(a)
  }

  function MakeConnect(c: Codecs, n: Network, address: Option<Address>): Result<Request, Error> {
    var address :- Checked(c, address, n);
    Ok(Connect(n, address))
  }

  function MakeSendTransfer(c: Codecs, n: Network, to: Address, from: Option<Address>, amount: u64,
                            feeRate: Option<FeeRate>): Result<Request, Error> {
    var to :- RequireNetwork(c, to, n);
    var from :- Checked(c, from, n);
    Ok(SendTransfer(n, to, from, amount, feeRate))
  }

  function MakeSignMessage(c: Codecs, n: Network, message: string, address: Option<Address>,
                           protocol: Protocol): Result<Request, Error> {
    var address :- Checked(c, address, n);
    Ok(SignMessage(n, message, address, protocol))
  }

  /** Whether an input lists a leaf script; an index out of range does not. */
  predicate SpendsScriptPath(p: Psbt, i: nat) {
    i < |p.inputs| && p.inputs[i].tapScripts != []
  }

  function Listed(signInputs: Option<seq<u32>>): seq<u32> {
    if signInputs.Some? then signInputs.value else []
  }

  function ScriptPathInputs(p: Psbt, indexes: seq<u32>): seq<u32> {
    if indexes == [] then []
    else (if SpendsScriptPath(p, indexes[0]) then [indexes[0]] else []) + ScriptPathInputs(p, indexes[1..])
  }

  predicate InRange(p: Psbt, indexes: seq<u32>) {
    forall i :: 0 <= i < |indexes| ==> indexes[i] < |p.inputs|
  }

  function MakeSignPsbt(c: Codecs, n: Network, psbt: Psbt, from: Option<Address>, signInputs: Option<seq<u32>>,
                        finalize: bool, broadcast: bool): Result<Request, Error> {
    if !InRange(psbt, Listed(signInputs)) then Err(Uncheckable("sign input index"))
    else
      var from :- Checked(c, from, n);
      Ok(SignPsbt(n, psbt, from, signInputs, ScriptPathInputs(psbt, Listed(signInputs)), finalize || broadcast,
        broadcast))
  }

  /** What holds of a request that a constructor built. */
  predicate Built(c: Codecs, r: Request) {
    match r
    case Connect(n, address) => Checked(c, address, n).Ok?
    case SendTransfer(n, to, from, _, _) => RequireNetwork(c, to, n).Ok? && Checked(c, from, n).Ok?
    case SignPsbt(n, psbt, from, signInputs, scriptPathInputs, finalize, broadcast) =>
      && Checked(c, from, n).Ok? && InRange(psbt, Listed(signInputs))
      && scriptPathInputs == ScriptPathInputs(psbt, Listed(signInputs)) && (broadcast ==> finalize)
    case SignMessage(n, _, address, _) => Checked(c, address, n).Ok?
  }

  // ---------- Printing ----------

  function TypeName(r: Request): string {
    match r
    case Connect(_, _) => "connect"
    case SendTransfer(_, _, _, _, _) => "send_transfer"
    case SignPsbt(_, _, _, _, _, _, _) => "sign_psbt"
    case SignMessage(_, _, _, _) => "sign_message"
  }

  function Indexes(ks: seq<u32>): Value {
    Arr(seq(|ks|, i requires 0 <= i < |ks| => Int(ks[i])))
  }

  function TransferField(c: Codecs, r: Request, k: Key): Option<Value>
    requires r.SendTransfer?
  {
    match k
    case TO => Some(Str(c.address.show(r.to)))
    case FROM => Printed(c.address, r.from)
    case AMOUNT => Some(Str(c.amount.show(r.amount)))
    case FEE_RATE => Printed(c.feeRate, r.feeRate)
    case _ => None
  }

  function PsbtField(c: Codecs, r: Request, k: Key): Option<Value>
    requires r.SignPsbt?
  {
    match k
    case PSBT => Some(Str(c.psbt.show(r.psbt)))
    case FROM => Printed(c.address, r.from)
    case SIGN_INPUTS => if r.signInputs.Some? then Some(Indexes(r.signInputs.value)) else None
    case SCRIPT_PATH_INPUTS => if r.scriptPathInputs != [] then Some(Indexes(r.scriptPathInputs)) else None
    case FINALIZE => Some(Bool(r.finalize))
    case BROADCAST => Some(Bool(r.broadcast))
    case _ => None
  }

  function AccountField(c: Codecs, r: Request, k: Key): Option<Value>
    requires r.Connect? || r.SignMessage?
  {
    match k
    case ADDRESS => Printed(c.address, r.address)
    case MESSAGE => if r.SignMessage? then Some(Str(r.message)) else None
    case PROTOCOL => if r.SignMessage? then Some(Str(c.protocol.show(r.protocol))) else None
    case _ => None
  }

  /** What a field of a printed request holds. */
  function Field(c: Codecs, id: string, r: Request, k: Key): Option<Value> {
    match k
    case TYPE => Some(Str(TypeName(r)))
    case ID => Some(Str(id))
    case NETWORK => Some(Str(c.network.show(r.network)))
    case _ =>
      if r.SendTransfer? then TransferField(c, r, k)
      else if r.SignPsbt? then PsbtField(c, r, k)
      else AccountField(c, r, k)
  }

  function Print(c: Codecs, id: string, r: Request): Value {
    Object(k => Field(c, id, r, k))
  }

  // ---------- Reading ----------

  function BoolField(body: Value, k: Key): Result<bool, Error> {
    match Get(body, k)
    case None => Ok(false)
    case Some(Bool(b)) => Ok(b)
    case _ => Err(Invalid(k))
  }

  function ReadIndexes(items: seq<Value>): Result<seq<u32>, Error> {
    if items == [] then Ok([])
    else
      var n := AsU64(items[0]);
      if n.None? || n.value >= 0x1_0000_0000 then Err(Invalid(SIGN_INPUTS))
      else
        var rest :- ReadIndexes(items[1..]);
        Ok([n.value] + rest)
  }

  function SignInputsField(body: Value): Result<Option<seq<u32>>, Error> {
    match Get(body, SIGN_INPUTS)
    case None => Ok(None)
    case Some(Arr(items)) =>
      var ks :- ReadIndexes(items);
      Ok(Some(ks))
    case _ => Err(Invalid(SIGN_INPUTS))
  }

  function ReadNetwork(c: Codecs, body: Value): Result<Network, Error> {
    var n :- OptParsed(body, NETWORK, c.network);
    Ok(if n.Some? then n.value else c.defaultNetwork)
  }

  function ReadConnect(c: Codecs, n: Network, body: Value): Result<Request, Error> {
    var address :- OptParsed(body, ADDRESS, c.address);
    MakeConnect(c, n, address)
  }

  function ReadTransfer(c: Codecs, n: Network, body: Value): Result<Request, Error> {
    var to :- ReqParsed(body, TO, c.address);
    var from :- OptParsed(body, FROM, c.address);
    var amount :- ReqParsed(body, AMOUNT, c.amount);
    var feeRate :- OptParsed(body, FEE_RATE, c.feeRate);
    MakeSendTransfer(c, n, to, from, amount, feeRate)
  }

  function ReadPsbt(c: Codecs, n: Network, body: Value): Result<Request, Error> {
    var psbt :- ReqParsed(body, PSBT, c.psbt);
    var from :- OptParsed(body, FROM, c.address);
    var signInputs :- SignInputsField(body);
    var finalize :- BoolField(body, FINALIZE);
    var broadcast :- BoolField(body, BROADCAST);
    MakeSignPsbt(c, n, psbt, from, signInputs, finalize, broadcast)
  }

  function ReadSignMessage(c: Codecs, n: Network, body: Value): Result<Request, Error> {
    var message :- StrField(body, MESSAGE);
    var address :- OptParsed(body, ADDRESS, c.address);
    var protocol :- OptParsed(body, PROTOCOL, c.protocol);
    MakeSignMessage(c, n, message, address, if protocol.Some? then protocol.value else Bip322)
  }

  function FromJson(c: Codecs, body: Value): Result<Request, Error> {
    var typ :- StrField(body, TYPE);
    var n :- ReadNetwork(c, body);
    if typ == "connect" then ReadConnect(c, n, body)
    else if typ == "send_transfer" then ReadTransfer(c, n, body)
    else if typ == "sign_psbt" then ReadPsbt(c, n, body)
    else if typ == "sign_message" then ReadSignMessage(c, n, body)
    else Err(UnknownType)
  }

  // ---------- They undo each other ----------

  /** Every field of `body` holds what printing `r` puts there. */
  ghost predicate IsPrinted(c: Codecs, id: string, r: Request, body: Value) {
    forall k: Key :: !k.Other? ==> Get(body, k) == Field(c, id, r, k)
  }

  lemma GetPrinted(c: Codecs, id: string, r: Request, k: Key)
    requires !k.Other?
    ensures Get(Print(c, id, r), k) == Field(c, id, r, k)
  {
    GetObject(j => Field(c, id, r, j), k);
  }

  lemma PrintIsPrinted(c: Codecs, id: string, r: Request)
    ensures IsPrinted(c, id, r, Print(c, id, r))
  {
    forall k: Key | !k.Other? ensures Get(Print(c, id, r), k) == Field(c, id, r, k) {
      GetPrinted(c, id, r, k);
    }
  }

  lemma OptBack<T>(c: Codecs, id: string, r: Request, body: Value, k: Key, codec: Codec<T>, o: Option<T>)
    requires IsPrinted(c, id, r, body) && ParsesBack(codec, o) && !k.Other? && Field(c, id, r, k) == Printed(codec, o)
    ensures OptParsed(body, k, codec) == Ok(o)
    ensures o.Some? ==> ReqParsed(body, k, codec) == Ok(o.value)
  {
    ReadBack(body, k, codec, o);
  }

  lemma {:induction false} IndexesBack(ks: seq<u32>)
    ensures ReadIndexes(Indexes(ks).items) == Ok(ks)
  {
    var items := Indexes(ks).items;
    if ks != [] {
      IndexesBack(ks[1..]);
      assert items[1..] == Indexes(ks[1..]).items;
      assert [ks[0]] + ks[1..] == ks;
    }
  }

  /** A request as its constructor would rebuild it. */
  function Rebuilt(c: Codecs, r: Request): Result<Request, Error> {
    match r
    case Connect(n, address) => MakeConnect(c, n, address)
    case SendTransfer(n, to, from, amount, feeRate) => MakeSendTransfer(c, n, to, from, amount, feeRate)
    case SignPsbt(n, psbt, from, signInputs, _, finalize, broadcast) =>
      MakeSignPsbt(c, n, psbt, from, signInputs, finalize, broadcast)
    case SignMessage(n, message, address, protocol) => MakeSignMessage(c, n, message, address, protocol)
  }

  lemma RebuiltIffBuilt(c: Codecs, r: Request)
    ensures Rebuilt(c, r) == Ok(r) <==> Built(c, r)
    ensures Rebuilt(c, r).Ok? ==> Built(c, Rebuilt(c, r).value)
  {
  }

  lemma ConnectBack(c: Codecs, id: string, r: Request, body: Value)
    requires IsPrinted(c, id, r, body) && LawfulCodecs(c) && Formed(c, r) && r.Connect?
    ensures ReadConnect(c, r.network, body) == Rebuilt(c, r)
  {
    OptBack(c, id, r, body, ADDRESS, c.address, r.address);
  }

  lemma PartiesBack(c: Codecs, id: string, r: Request, body: Value)
    requires IsPrinted(c, id, r, body) && LawfulCodecs(c) && Formed(c, r) && r.SendTransfer?
    ensures ReqParsed(body, TO, c.address) == Ok(r.to) && OptParsed(body, FROM, c.address) == Ok(r.from)
  {
    OptBack(c, id, r, body, TO, c.address, Some(r.to));
    OptBack(c, id, r, body, FROM, c.address, r.from);
  }

  lemma AmountsBack(c: Codecs, id: string, r: Request, body: Value)
    requires IsPrinted(c, id, r, body) && LawfulCodecs(c) && r.SendTransfer?
    ensures ReqParsed(body, AMOUNT, c.amount) == Ok(r.amount) && OptParsed(body, FEE_RATE, c.feeRate) == Ok(r.feeRate)
  {
    OptBack(c, id, r, body, AMOUNT, c.amount, Some(r.amount));
    OptBack(c, id, r, body, FEE_RATE, c.feeRate, r.feeRate);
  }

  lemma TransferBack(c: Codecs, id: string, r: Request, body: Value)
    requires IsPrinted(c, id, r, body) && LawfulCodecs(c) && Formed(c, r) && r.SendTransfer?
    ensures ReadTransfer(c, r.network, body) == Rebuilt(c, r)
  {
    PartiesBack(c, id, r, body);
    AmountsBack(c, id, r, body);
  }

  lemma SignMessageBack(c: Codecs, id: string, r: Request, body: Value)
    requires IsPrinted(c, id, r, body) && LawfulCodecs(c) && Formed(c, r) && r.SignMessage?
    ensures ReadSignMessage(c, r.network, body) == Rebuilt(c, r)
  {
    OptBack(c, id, r, body, ADDRESS, c.address, r.address);
    OptBack(c, id, r, body, PROTOCOL, c.protocol, Some(r.protocol));
  }

  lemma SignInputsBack(c: Codecs, id: string, r: Request, body: Value)
    requires IsPrinted(c, id, r, body) && r.SignPsbt?
    ensures SignInputsField(body) == Ok(r.signInputs)
  {
    if r.signInputs.Some? { IndexesBack(r.signInputs.value); }
  }

  lemma FlagsBack(c: Codecs, id: string, r: Request, body: Value)
    requires IsPrinted(c, id, r, body) && r.SignPsbt?
    ensures BoolField(body, FINALIZE) == Ok(r.finalize)
    ensures BoolField(body, BROADCAST) == Ok(r.broadcast)
  {
  }

  lemma PsbtBack(c: Codecs, id: string, r: Request, body: Value)
    requires IsPrinted(c, id, r, body) && LawfulCodecs(c) && Formed(c, r) && r.SignPsbt?
    ensures ReadPsbt(c, r.network, body) == Rebuilt(c, r)
  {
    OptBack(c, id, r, body, PSBT, c.psbt, Some(r.psbt));
    OptBack(c, id, r, body, FROM, c.address, r.from);
    SignInputsBack(c, id, r, body);
    FlagsBack(c, id, r, body);
  }

  lemma TypeDispatches(c: Codecs, body: Value, r: Request)
    requires Get(body, TYPE) == Some(Str(TypeName(r))) && OptParsed(body, NETWORK, c.network) == Ok(Some(r.network))
    ensures FromJson(c, body)
      == if r.Connect? then ReadConnect(c, r.network, body)
         else if r.SendTransfer? then ReadTransfer(c, r.network, body)
         else if r.SignPsbt? then ReadPsbt(c, r.network, body)
         else ReadSignMessage(c, r.network, body)
  {
  }

  lemma FromJsonRebuilds(c: Codecs, id: string, r: Request)
    requires LawfulCodecs(c) && Formed(c, r)
    ensures FromJson(c, Print(c, id, r)) == Rebuilt(c, r)
  {
    var body := Print(c, id, r);
    PrintIsPrinted(c, id, r);
    OptBack(c, id, r, body, NETWORK, c.network, Some(r.network));
    TypeDispatches(c, body, r);
    match r
    case Connect(_, _) => ConnectBack(c, id, r, body);
    case SendTransfer(_, _, _, _, _) => TransferBack(c, id, r, body);
    case SignPsbt(_, _, _, _, _, _, _) => PsbtBack(c, id, r, body);
    case SignMessage(_, _, _, _) => SignMessageBack(c, id, r, body);
  }

  /** Reading a printed request gives the request back, whatever its id, exactly when it is one that a constructor
      can have built. */
  lemma FromJsonPrint(c: Codecs, id: string, r: Request)
    requires LawfulCodecs(c) && Formed(c, r)
    ensures FromJson(c, Print(c, id, r)) == Ok(r) <==> Built(c, r)
  {
    FromJsonRebuilds(c, id, r);
    RebuiltIffBuilt(c, r);
  }

  /** Every request that is read from a body is a built one: its addresses are on its network, its input indexes
      are in range, and broadcasting implies finalizing. */
  lemma ReadIsBuilt(c: Codecs, body: Value, r: Request)
    requires FromJson(c, body) == Ok(r)
    ensures Built(c, r)
  {
  }

  lemma ReadIsFormed(c: Codecs, body: Value, r: Request)
    requires LawfulCodecs(c) && FromJson(c, body) == Ok(r)
    ensures Formed(c, r)
  {
  }

  /** So every body that is read at all prints in a form that is read as the same request. */
  lemma ReadOnceIsReadAgain(c: Codecs, id: string, body: Value, r: Request)
    requires LawfulCodecs(c) && FromJson(c, body) == Ok(r)
    ensures FromJson(c, Print(c, id, r)) == Ok(r)
  {
    ReadIsBuilt(c, body, r);
    ReadIsFormed(c, body, r);
    FromJsonPrint(c, id, r);
  }
}
