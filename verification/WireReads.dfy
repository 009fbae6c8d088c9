/**
  Exactly which documents are read as which requests, field by field. A field is named in a document by what it holds: a
  string that the domain type parses, no string at all, a number, a flag, a list. A string that does not parse is
  neither a value nor none, so a document that has one is refused.
 */
module WireReads {
  import B = BtcWire
  import E = EvmWire
  import Hex
  import opened Json
  import opened Positional
  import T = TronWire
  import opened Wrappers

  // ---------- Fields ----------

  predicate HoldsText(body: Value, k: Key, s: string) {
    Get(body, k) == Some(Str(s))
  }

  predicate HoldsNoText(body: Value, k: Key) {
    Get(body, k).Some? ==> !Get(body, k).value.Str?
  }

  /** The field is a string that writes `x`. */
  predicate Holds<T(==)>(body: Value, k: Key, c: Codec<T>, x: T) {
    Get(body, k).Some? && Get(body, k).value.Str? && c.parse(Get(body, k).value.s) == Some(x)
  }

  predicate MayHold<T(==)>(body: Value, k: Key, c: Codec<T>, o: Option<T>) {
    if o.Some? then Holds(body, k, c, o.value) else HoldsNoText(body, k)
  }

  predicate MayHoldText(body: Value, k: Key, o: Option<string>) {
    if o.Some? then HoldsText(body, k, o.value) else HoldsNoText(body, k)
  }

  /** Bytes in hex, in either case, with or without `0x`. */
  predicate HoldsBytes(body: Value, k: Key, bs: seq<byte>) {
    Get(body, k).Some? && Get(body, k).value.Str?
    && var s := Get(body, k).value.s; Hex.Writes(if |s| >= 2 && s[..2] == "0x" then s[2..] else s, bs)
  }

  predicate MayHoldBytes(body: Value, k: Key, o: Option<seq<byte>>) {
    if o.Some? then HoldsBytes(body, k, o.value) else HoldsNoText(body, k)
  }

  predicate IsU64(v: Option<Value>, n: nat) {
    v == Some(Int(n)) && n < 0x1_0000_0000_0000_0000
  }

  /** A 64-bit number, or anything else for none. */
  ghost predicate MayHoldNumber(body: Value, k: Key, o: Option<nat>) {
    if o.Some? then IsU64(Get(body, k), o.value) else forall n: nat :: !IsU64(Get(body, k), n)
  }

  /** A document is kept as it is, and one that is missing is the empty object. */
  predicate HoldsAny(body: Value, k: Key, v: Value) {
    Get(body, k) == Some(v) || (Get(body, k) == None && v == Obj(map[]))
  }

  lemma TextIff(body: Value, k: Key, s: string, o: Option<string>)
    ensures StrField(body, k) == Ok(s) <==> HoldsText(body, k, s)
    ensures StrOpt(body, k) == o <==> MayHoldText(body, k, o)
  {
  }

  lemma ReqIff<T>(body: Value, k: Key, c: Codec<T>, x: T)
    ensures ReqParsed(body, k, c) == Ok(x) <==> Holds(body, k, c, x)
  {
  }

  lemma OptIff<T>(body: Value, k: Key, c: Codec<T>, o: Option<T>)
    ensures OptParsed(body, k, c) == Ok(o) <==> MayHold(body, k, c, o)
  {
  }

  lemma BytesIff(body: Value, k: Key, c: Codec<seq<byte>>, bs: seq<byte>)
    requires c == E.HEX_BYTES
    ensures ReqParsed(body, k, c) == Ok(bs) <==> HoldsBytes(body, k, bs)
  {
    if Get(body, k).Some? && Get(body, k).value.Str? { Hex.ParsesIff(Get(body, k).value.s, bs); }
  }

  lemma OptBytesIff(body: Value, k: Key, c: Codec<seq<byte>>, o: Option<seq<byte>>)
    requires c == E.HEX_BYTES
    ensures OptParsed(body, k, c) == Ok(o) <==> MayHoldBytes(body, k, o)
  {
    if o.Some? { BytesIff(body, k, c, o.value); }
  }

  lemma OptAddressIff(body: Value, k: Key, o: Option<E.Address>)
    ensures OptParsed(body, k, E.ADDRESSES) == Ok(o) <==> MayHoldBytes(body, k, o)
  {
    if o.Some? && Get(body, k).Some? && Get(body, k).value.Str? { Hex.ParsesIff(Get(body, k).value.s, o.value); }
  }

  lemma NumberIff(body: Value, k: Key, o: Option<u64>)
    ensures U64Opt(body, k) == o <==> MayHoldNumber(body, k, o)
  {
    if U64Opt(body, k).Some? { assert IsU64(Get(body, k), U64Opt(body, k).value); }
  }

  // ---------- EVM ----------

  predicate SaysMessage(v: Option<Value>, m: E.SignableMessage) {
    match m
    case Text(s) => v == Some(Str(s))
    case Raw(bytes) => v.Some? && v.value.Obj? && HoldsBytes(v.value, RAW, bytes)
  }

  ghost predicate SaysSend(c: E.Codecs, body: Value, r: E.Request)
    requires r.SendTransaction?
  {
    && MayHoldBytes(body, TO, r.to) && MayHoldBytes(body, FROM, r.from) && MayHoldBytes(body, DATA, r.data)
    && MayHold(body, VALUE, c.wei, r.value) && MayHold(body, GAS_LIMIT, c.wei, r.gasLimit)
    && MayHold(body, MAX_FEE_PER_GAS, c.wei, r.maxFeePerGas)
    && MayHold(body, MAX_PRIORITY_FEE_PER_GAS, c.wei, r.maxPriorityFeePerGas)
    && (r.to == None ==> r.data.Some? && r.data.value != [])
  }

  ghost predicate SaysEvm(c: E.Codecs, body: Value, r: E.Request) {
    && MayHoldNumber(body, CHAIN_ID, r.chainId)
    && match r
       case Connect(_, address, rpcUrl, chainName) =>
         && HoldsText(body, TYPE, "connect") && MayHoldBytes(body, ADDRESS, address)
         && MayHold(body, RPC_URL, c.url, rpcUrl) && MayHoldText(body, CHAIN_NAME, chainName)
       case SendTransaction(_, _, _, _, _, _, _, _) => HoldsText(body, TYPE, "send_transaction") && SaysSend(c, body, r)
       case SignMessage(_, m, address) =>
         && HoldsText(body, TYPE, "sign_message") && SaysMessage(Get(body, MESSAGE), m)
         && MayHoldBytes(body, ADDRESS, address)
       case SignTypedData(_, data, address) =>
         && HoldsText(body, TYPE, "sign_typed_data") && HoldsText(body, PRIMARY_TYPE, data.primaryType)
         && HoldsAny(body, DOMAIN, data.domain) && HoldsAny(body, TYPES, data.types)
         && HoldsAny(body, MESSAGE, data.message) && MayHoldBytes(body, ADDRESS, address)
  }

  lemma MessageIff(body: Value, m: E.SignableMessage)
    ensures E.ReadMessage(body) == Ok(m) <==> SaysMessage(Get(body, MESSAGE), m)
  {
    if m.Raw? && Get(body, MESSAGE).Some? && Get(body, MESSAGE).value.Obj? {
      BytesIff(Get(body, MESSAGE).value, RAW, E.HEX_BYTES, m.bytes);
    }
  }

  lemma ReadSendIff(c: E.Codecs, body: Value, r: E.Request)
    requires r.SendTransaction?
    ensures E.ReadSend(c, body) == Ok(r) <==> MayHoldNumber(body, CHAIN_ID, r.chainId) && SaysSend(c, body, r)
  {
    NumberIff(body, CHAIN_ID, r.chainId);
    OptAddressIff(body, TO, r.to);
    OptAddressIff(body, FROM, r.from);
    OptBytesIff(body, DATA, E.HEX_BYTES, r.data);
    OptIff(body, VALUE, c.wei, r.value);
    OptIff(body, GAS_LIMIT, c.wei, r.gasLimit);
    OptIff(body, MAX_FEE_PER_GAS, c.wei, r.maxFeePerGas);
    OptIff(body, MAX_PRIORITY_FEE_PER_GAS, c.wei, r.maxPriorityFeePerGas);
  }

  lemma ReadEvmConnectIff(c: E.Codecs, body: Value, r: E.Request)
    requires r.Connect?
    ensures E.ReadConnect(c, body) == Ok(r) <==>
              && MayHoldNumber(body, CHAIN_ID, r.chainId) && MayHoldBytes(body, ADDRESS, r.address)
              && MayHold(body, RPC_URL, c.url, r.rpcUrl) && MayHoldText(body, CHAIN_NAME, r.chainName)
  {
    NumberIff(body, CHAIN_ID, r.chainId);
    OptAddressIff(body, ADDRESS, r.address);
    OptIff(body, RPC_URL, c.url, r.rpcUrl);
    TextIff(body, CHAIN_NAME, "", r.chainName);
  }

  lemma ReadEvmMessageIff(body: Value, r: E.Request)
    requires r.SignMessage?
    ensures E.ReadSignMessage(body) == Ok(r) <==>
              && MayHoldNumber(body, CHAIN_ID, r.chainId) && SaysMessage(Get(body, MESSAGE), r.signable)
              && MayHoldBytes(body, ADDRESS, r.address)
  {
    NumberIff(body, CHAIN_ID, r.chainId);
    MessageIff(body, r.signable);
    OptAddressIff(body, ADDRESS, r.address);
  }

  lemma ReadEvmTypedIff(body: Value, r: E.Request)
    requires r.SignTypedData?
    ensures E.ReadTypedData(body) == Ok(r) <==>
              && MayHoldNumber(body, CHAIN_ID, r.chainId) && HoldsText(body, PRIMARY_TYPE, r.typedData.primaryType)
              && HoldsAny(body, DOMAIN, r.typedData.domain) && HoldsAny(body, TYPES, r.typedData.types)
              && HoldsAny(body, MESSAGE, r.typedData.message) && MayHoldBytes(body, ADDRESS, r.address)
  {
    NumberIff(body, CHAIN_ID, r.chainId);
    TextIff(body, PRIMARY_TYPE, r.typedData.primaryType, None);
    OptAddressIff(body, ADDRESS, r.address);
  }

  lemma EvmType(c: E.Codecs, body: Value, r: E.Request)
    requires E.FromJson(c, body) == Ok(r)
    ensures HoldsText(body, TYPE, E.TypeName(r))
  {
  }

  /** A document is read as an EVM request exactly if it says that request. */
  lemma ReadsEvmIff(c: E.Codecs, body: Value, r: E.Request)
    ensures E.FromJson(c, body) == Ok(r) <==> SaysEvm(c, body, r)
  {
    if E.FromJson(c, body) == Ok(r) { EvmType(c, body, r); }
    if HoldsText(body, TYPE, E.TypeName(r)) {
      E.TypeDispatches(c, body, r);
      match r
      case Connect(_, _, _, _) => ReadEvmConnectIff(c, body, r);
      case SendTransaction(_, _, _, _, _, _, _, _) => ReadSendIff(c, body, r);
      case SignMessage(_, _, _) => ReadEvmMessageIff(body, r);
      case SignTypedData(_, _, _) => ReadEvmTypedIff(body, r);
    }
  }

  // ---------- Bitcoin ----------

  /** A flag, and a missing one is off. */
  predicate Flag(body: Value, k: Key, b: bool) {
    Get(body, k) == Some(Bool(b)) || (Get(body, k) == None && !b)
  }

  /** A list of 32-bit numbers, or no such field. */
  predicate HoldsIndexes(body: Value, k: Key, ks: Option<seq<u32>>) {
    if ks.None? then Get(body, k) == None
    else
      && Get(body, k).Some? && Get(body, k).value.Arr? && |Get(body, k).value.items| == |ks.value|
      && forall i :: 0 <= i < |ks.value| ==> Get(body, k).value.items[i] == Int(ks.value[i])
  }

  /** The listed inputs that list a leaf script, in order and as often as they are listed. */
  function Leaves(p: B.Psbt, ks: seq<u32>): seq<u32> {
    if ks == [] then []
    else
      var k := ks[|ks| - 1];
      Leaves(p, ks[..|ks| - 1]) + if k < |p.inputs| && p.inputs[k].tapScripts != [] then [k] else []
  }

  predicate On(c: B.Codecs, a: Option<B.Address>, n: B.Network) {
    a.Some? ==> c.onNetwork(a.value, n)
  }

  predicate SaysNetwork(c: B.Codecs, body: Value, n: B.Network) {
    Holds(body, NETWORK, c.network, n) || (HoldsNoText(body, NETWORK) && n == c.defaultNetwork)
  }

  predicate SaysTransfer(c: B.Codecs, body: Value, r: B.Request)
    requires r.SendTransfer?
  {
    && Holds(body, TO, c.address, r.to) && MayHold(body, FROM, c.address, r.from)
    && Holds(body, AMOUNT, c.amount, r.amount) && MayHold(body, FEE_RATE, c.feeRate, r.feeRate)
    && c.onNetwork(r.to, r.network) && On(c, r.from, r.network)
  }

  predicate SaysPsbt(c: B.Codecs, body: Value, r: B.Request)
    requires r.SignPsbt?
  {
    && Holds(body, PSBT, c.psbt, r.psbt) && MayHold(body, FROM, c.address, r.from) && On(c, r.from, r.network)
    && HoldsIndexes(body, SIGN_INPUTS, r.signInputs)
    && (r.signInputs.Some? ==> forall k :: k in r.signInputs.value ==> k < |r.psbt.inputs|)
    && r.scriptPathInputs == (if r.signInputs.Some? then Leaves(r.psbt, r.signInputs.value) else [])
    && Flag(body, BROADCAST, r.broadcast)
    && (Flag(body, FINALIZE, r.finalize) || (Flag(body, FINALIZE, false) && r.finalize && r.broadcast))
    && (r.broadcast ==> r.finalize)
  }

  predicate SaysBtcMessage(c: B.Codecs, body: Value, r: B.Request)
    requires r.SignMessage?
  {
    && HoldsText(body, MESSAGE, r.message) && MayHold(body, ADDRESS, c.address, r.address)
    && (Holds(body, PROTOCOL, c.protocol, r.protocol) || (HoldsNoText(body, PROTOCOL) && r.protocol == B.Bip322))
    && On(c, r.address, r.network)
  }

  predicate SaysBtc(c: B.Codecs, body: Value, r: B.Request) {
    && SaysNetwork(c, body, r.network)
    && match r
       case Connect(n, address) =>
         HoldsText(body, TYPE, "connect") && MayHold(body, ADDRESS, c.address, address) && On(c, address, n)
       case SendTransfer(_, _, _, _, _) => HoldsText(body, TYPE, "send_transfer") && SaysTransfer(c, body, r)
       case SignPsbt(_, _, _, _, _, _, _) => HoldsText(body, TYPE, "sign_psbt") && SaysPsbt(c, body, r)
       case SignMessage(_, _, _, _) => HoldsText(body, TYPE, "sign_message") && SaysBtcMessage(c, body, r)
  }

  lemma NetworkIff(c: B.Codecs, body: Value, n: B.Network)
    ensures B.ReadNetwork(c, body) == Ok(n) <==> SaysNetwork(c, body, n)
  {
    OptIff(body, NETWORK, c.network, Some(n));
    OptIff(body, NETWORK, c.network, None);
  }

  lemma FlagIff(body: Value, k: Key, b: bool)
    ensures B.BoolField(body, k) == Ok(b) <==> Flag(body, k, b)
  {
  }

  lemma {:induction false} IndexesIff(items: seq<Value>, ks: seq<u32>)
    ensures B.ReadIndexes(items) == Ok(ks) <==>
              |items| == |ks| && forall i :: 0 <= i < |ks| ==> items[i] == Int(ks[i])
  {
    if items != [] && ks != [] {
      IndexesIff(items[1..], ks[1..]);
      assert ks == [ks[0]] + ks[1..];
      assert (forall i :: 0 <= i < |ks| && i < |items| ==> items[i] == Int(ks[i])) <==>
        items[0] == Int(ks[0]) && forall i :: 0 <= i < |ks| - 1 && i < |items| - 1 ==> items[1..][i] == Int(ks[1..][i]);
    }
  }

  lemma SignInputsIff(body: Value, ks: Option<seq<u32>>)
    ensures B.SignInputsField(body) == Ok(ks) <==> HoldsIndexes(body, SIGN_INPUTS, ks)
  {
    match Get(body, SIGN_INPUTS) {
      case Some(Arr(items)) => if ks.Some? { IndexesIff(items, ks.value); }
      case _ =>
    }
  }

  lemma {:induction false} LeavesAppend(p: B.Psbt, k: u32, ks: seq<u32>)
    ensures Leaves(p, [k] + ks) == Leaves(p, [k]) + Leaves(p, ks)
  {
    var all := [k] + ks;
    if ks == [] {
      assert all == [k] && Leaves(p, ks) == [];
    } else {
      assert all[..|all| - 1] == [k] + ks[..|ks| - 1];
      LeavesAppend(p, k, ks[..|ks| - 1]);
    }
  }

  lemma {:induction false} LeavesAreListed(p: B.Psbt, ks: seq<u32>)
    ensures B.ScriptPathInputs(p, ks) == Leaves(p, ks)
  {
    if ks != [] {
      LeavesAppend(p, ks[0], ks[1..]);
      LeavesAreListed(p, ks[1..]);
      assert [ks[0]] + ks[1..] == ks && [ks[0]][..0] == [];
    }
  }

  lemma RangeIff(p: B.Psbt, ks: seq<u32>)
    ensures B.InRange(p, ks) <==> forall k :: k in ks ==> k < |p.inputs|
  {
    if B.InRange(p, ks) {
      forall k | k in ks ensures k < |p.inputs| {
        var i :| 0 <= i < |ks| && ks[i] == k;
      }
    } else {
      var i :| 0 <= i < |ks| && ks[i] >= |p.inputs|;
      assert ks[i] in ks;
    }
  }

  lemma ReadTransferIff(c: B.Codecs, body: Value, r: B.Request)
    requires r.SendTransfer?
    ensures B.ReadTransfer(c, r.network, body) == Ok(r) <==> SaysTransfer(c, body, r)
  {
    ReqIff(body, TO, c.address, r.to);
    OptIff(body, FROM, c.address, r.from);
    ReqIff(body, AMOUNT, c.amount, r.amount);
    OptIff(body, FEE_RATE, c.feeRate, r.feeRate);
  }

  lemma ReadPsbtIff(c: B.Codecs, body: Value, r: B.Request)
    requires r.SignPsbt?
    ensures B.ReadPsbt(c, r.network, body) == Ok(r) <==> SaysPsbt(c, body, r)
  {
    ReqIff(body, PSBT, c.psbt, r.psbt);
    OptIff(body, FROM, c.address, r.from);
    SignInputsIff(body, r.signInputs);
    FlagIff(body, FINALIZE, r.finalize);
    FlagIff(body, FINALIZE, false);
    FlagIff(body, BROADCAST, r.broadcast);
    RangeIff(r.psbt, B.Listed(r.signInputs));
    LeavesAreListed(r.psbt, B.Listed(r.signInputs));
  }

  lemma ReadBtcMessageIff(c: B.Codecs, body: Value, r: B.Request)
    requires r.SignMessage?
    ensures B.ReadSignMessage(c, r.network, body) == Ok(r) <==> SaysBtcMessage(c, body, r)
  {
    TextIff(body, MESSAGE, r.message, None);
    OptIff(body, ADDRESS, c.address, r.address);
    OptIff(body, PROTOCOL, c.protocol, Some(r.protocol));
    OptIff(body, PROTOCOL, c.protocol, None);
  }

  lemma ReadBtcConnectIff(c: B.Codecs, body: Value, r: B.Request)
    requires r.Connect?
    ensures B.ReadConnect(c, r.network, body) == Ok(r) <==>
              MayHold(body, ADDRESS, c.address, r.address) && On(c, r.address, r.network)
  {
    OptIff(body, ADDRESS, c.address, r.address);
  }

  lemma BtcType(c: B.Codecs, body: Value, r: B.Request)
    requires B.FromJson(c, body) == Ok(r)
    ensures HoldsText(body, TYPE, B.TypeName(r)) && B.ReadNetwork(c, body) == Ok(r.network)
  {
  }

  lemma BtcDispatches(c: B.Codecs, body: Value, r: B.Request)
    requires HoldsText(body, TYPE, B.TypeName(r)) && B.ReadNetwork(c, body) == Ok(r.network)
    ensures B.FromJson(c, body)
      == if r.Connect? then B.ReadConnect(c, r.network, body)
         else if r.SendTransfer? then B.ReadTransfer(c, r.network, body)
         else if r.SignPsbt? then B.ReadPsbt(c, r.network, body)
         else B.ReadSignMessage(c, r.network, body)
  {
  }

  /** A document is read as a Bitcoin request exactly if it says that request, and every address in it is on its network
      and every listed input is one of the PSBT's. */
  lemma ReadsBtcIff(c: B.Codecs, body: Value, r: B.Request)
    ensures B.FromJson(c, body) == Ok(r) <==> SaysBtc(c, body, r)
  {
    NetworkIff(c, body, r.network);
    if B.FromJson(c, body) == Ok(r) { BtcType(c, body, r); }
    if HoldsText(body, TYPE, B.TypeName(r)) && B.ReadNetwork(c, body) == Ok(r.network) {
      BtcDispatches(c, body, r);
      match r
      case Connect(_, _) => ReadBtcConnectIff(c, body, r);
      case SendTransfer(_, _, _, _, _) => ReadTransferIff(c, body, r);
      case SignPsbt(_, _, _, _, _, _, _) => ReadPsbtIff(c, body, r);
      case SignMessage(_, _, _, _) => ReadBtcMessageIff(c, body, r);
    }
  }

  // ---------- TRON ----------

  predicate SaysTronSend(c: T.Codecs, body: Value, r: T.Request)
    requires r.SendTransaction?
  {
    && Holds(body, TO, c.address, r.to) && MayHold(body, FROM, c.address, r.from)
    && Holds(body, AMOUNT, c.sun, r.amount) && MayHoldBytes(body, DATA, r.data)
  }

  predicate SaysTrigger(c: T.Codecs, body: Value, r: T.Request)
    requires r.TriggerContract?
  {
    && Holds(body, CONTRACT_ADDRESS, c.address, r.contractAddress) && MayHold(body, FROM, c.address, r.from)
    && HoldsText(body, FUNCTION_SELECTOR, r.functionSelector) && Get(body, PARAMETERS) == r.parameters
    && MayHold(body, FEE_LIMIT, c.sun, r.feeLimit) && MayHold(body, CALL_VALUE, c.sun, r.callValue)
  }

  predicate SaysDeploy(c: T.Codecs, body: Value, r: T.Request)
    requires r.DeployContract?
  {
    && Get(body, ABI) == Some(r.abi) && HoldsBytes(body, BYTECODE, r.bytecode)
    && MayHoldText(body, CONTRACT_NAME, r.contractName) && Get(body, PARAMETERS) == r.parameters
    && MayHold(body, FROM, c.address, r.from) && MayHold(body, FEE_LIMIT, c.sun, r.feeLimit)
    && MayHold(body, CALL_VALUE, c.sun, r.callValue)
    && MayHold(body, ORIGIN_ENERGY_LIMIT, c.energyLimit, r.originEnergyLimit)
    && MayHold(body, USER_FEE_PERCENTAGE, c.percentage, r.userFeePercentage)
  }

  predicate SaysTypedData(body: Value, data: T.TypedData) {
    && HoldsText(body, PRIMARY_TYPE, data.primaryType) && HoldsAny(body, DOMAIN, data.domain)
    && HoldsAny(body, TYPES, data.types) && HoldsAny(body, MESSAGE, data.message)
  }

  predicate SaysTron(c: T.Codecs, body: Value, r: T.Request) {
    && MayHold(body, NETWORK, c.network, r.network)
    && match r
       case Connect(_, address) => HoldsText(body, TYPE, "connect") && MayHold(body, ADDRESS, c.address, address)
       case SendTransaction(_, _, _, _, _) => HoldsText(body, TYPE, "send_transaction") && SaysTronSend(c, body, r)
       case TriggerContract(_, _, _, _, _, _, _) => HoldsText(body, TYPE, "trigger_contract") && SaysTrigger(c, body, r)
       case DeployContract(_, _, _, _, _, _, _, _, _, _) =>
         HoldsText(body, TYPE, "deploy_contract") && SaysDeploy(c, body, r)
       case SignMessage(_, text, address) =>
         && HoldsText(body, TYPE, "sign_message") && HoldsText(body, MESSAGE, text)
         && MayHold(body, ADDRESS, c.address, address)
       case SignTypedData(_, data, address) =>
         && HoldsText(body, TYPE, "sign_typed_data") && SaysTypedData(body, data)
         && MayHold(body, ADDRESS, c.address, address)
  }

  lemma ReadTronSendIff(c: T.Codecs, body: Value, r: T.Request)
    requires r.SendTransaction?
    ensures T.ReadSend(c, r.network, body) == Ok(r) <==> SaysTronSend(c, body, r)
  {
    ReqIff(body, TO, c.address, r.to);
    OptIff(body, FROM, c.address, r.from);
    ReqIff(body, AMOUNT, c.sun, r.amount);
    OptBytesIff(body, DATA, T.HEX_BYTES, r.data);
  }

  lemma ReadTriggerIff(c: T.Codecs, body: Value, r: T.Request)
    requires r.TriggerContract?
    ensures T.ReadTrigger(c, r.network, body) == Ok(r) <==> SaysTrigger(c, body, r)
  {
    ReqIff(body, CONTRACT_ADDRESS, c.address, r.contractAddress);
    OptIff(body, FROM, c.address, r.from);
    TextIff(body, FUNCTION_SELECTOR, r.functionSelector, None);
    OptIff(body, FEE_LIMIT, c.sun, r.feeLimit);
    OptIff(body, CALL_VALUE, c.sun, r.callValue);
  }

  lemma ReadDeployIff(c: T.Codecs, body: Value, r: T.Request)
    requires r.DeployContract?
    ensures T.ReadDeploy(c, r.network, body) == Ok(r) <==> SaysDeploy(c, body, r)
  {
    BytesIff(body, BYTECODE, T.HEX_BYTES, r.bytecode);
    TextIff(body, CONTRACT_NAME, "", r.contractName);
    OptIff(body, FROM, c.address, r.from);
    OptIff(body, FEE_LIMIT, c.sun, r.feeLimit);
    OptIff(body, CALL_VALUE, c.sun, r.callValue);
    OptIff(body, ORIGIN_ENERGY_LIMIT, c.energyLimit, r.originEnergyLimit);
    OptIff(body, USER_FEE_PERCENTAGE, c.percentage, r.userFeePercentage);
  }

  lemma ReadTronAccountIff(c: T.Codecs, body: Value, r: T.Request)
    requires r.Connect? || r.SignMessage? || r.SignTypedData?
    ensures r.Connect? ==>
              (T.ReadConnect(c, r.network, body) == Ok(r) <==> MayHold(body, ADDRESS, c.address, r.address))
    ensures r.SignMessage? ==>
              (T.ReadSignMessage(c, r.network, body) == Ok(r) <==>
                 HoldsText(body, MESSAGE, r.text) && MayHold(body, ADDRESS, c.address, r.address))
    ensures r.SignTypedData? ==>
              (T.ReadTypedData(c, r.network, body) == Ok(r) <==>
                 SaysTypedData(body, r.typedData) && MayHold(body, ADDRESS, c.address, r.address))
  {
    OptIff(body, ADDRESS, c.address, r.address);
  }

  lemma TronOperations(c: T.Codecs, n: Option<T.Network>, body: Value, r: T.Request)
    ensures T.ReadSend(c, n, body) == Ok(r) ==> r.SendTransaction? && r.network == n
    ensures T.ReadTrigger(c, n, body) == Ok(r) ==> r.TriggerContract? && r.network == n
    ensures T.ReadDeploy(c, n, body) == Ok(r) ==> r.DeployContract? && r.network == n
  {
  }

  lemma TronAccounts(c: T.Codecs, n: Option<T.Network>, body: Value, r: T.Request)
    ensures T.ReadConnect(c, n, body) == Ok(r) ==> r.Connect? && r.network == n
    ensures T.ReadSignMessage(c, n, body) == Ok(r) ==> r.SignMessage? && r.network == n
    ensures T.ReadTypedData(c, n, body) == Ok(r) ==> r.SignTypedData? && r.network == n
  {
  }

  lemma TronType(c: T.Codecs, body: Value, r: T.Request)
    requires T.FromJson(c, body) == Ok(r)
    ensures HoldsText(body, TYPE, T.TypeName(r)) && OptParsed(body, NETWORK, c.network) == Ok(r.network)
  {
    var n := OptParsed(body, NETWORK, c.network).value;
    TronOperations(c, n, body, r);
    TronAccounts(c, n, body, r);
  }

  /** A document is read as a TRON request exactly if it says that request. */
  lemma ReadsTronIff(c: T.Codecs, body: Value, r: T.Request)
    ensures T.FromJson(c, body) == Ok(r) <==> SaysTron(c, body, r)
  {
    OptIff(body, NETWORK, c.network, r.network);
    if T.FromJson(c, body) == Ok(r) { TronType(c, body, r); }
    if HoldsText(body, TYPE, T.TypeName(r)) && OptParsed(body, NETWORK, c.network) == Ok(r.network) {
      T.TypeDispatches(c, body, r);
      match r
      case SendTransaction(_, _, _, _, _) => ReadTronSendIff(c, body, r);
      case TriggerContract(_, _, _, _, _, _, _) => ReadTriggerIff(c, body, r);
      case DeployContract(_, _, _, _, _, _, _, _, _, _) => ReadDeployIff(c, body, r);
      case _ => ReadTronAccountIff(c, body, r);
    }
  }
}
