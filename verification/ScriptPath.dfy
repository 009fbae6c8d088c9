/** Taproot script-path inputs, from the PSBT to the options Unisat is called with. */
module ScriptPath {
  import opened BtcWire
  import opened Json
  import opened Wrappers

  /** One entry of Unisat's `toSignInputs`. */
  datatype ToSign = ToSign(index: int, address: string, disableTweakSigner: bool)

  datatype Options = Options(autoFinalized: bool, toSignInputs: Option<seq<ToSign>>)

  function ArrayField(request: Value, k: Key): Option<seq<Value>> {
    match Get(request, k)
    case Some(Arr(items)) => Some(items)
    case _ => None
  }

  function Index(v: Value): int {
    if v.Int? then v.n else 0
  }

  /** The options the Bitcoin page's Unisat driver builds from the request document. */
  function UnisatOptions(request: Value, from: string): Options {
    var scriptPath := match ArrayField(request, SCRIPT_PATH_INPUTS) case Some(items) => items case None => [];
    Options(
      Get(request, FINALIZE) == Some(Bool(true)),
      match ArrayField(request, SIGN_INPUTS)
      case None => None
      case Some(items) =>
        Some(seq(|items|, i requires 0 <= i < |items| => ToSign(Index(items[i]), from, items[i] in scriptPath))))
  }

  lemma {:induction false} ScriptPathMembers(p: Psbt, ks: seq<u32>, k: u32)
    ensures k in ScriptPathInputs(p, ks) <==> k in ks && SpendsScriptPath(p, k)
  {
    if ks != [] { ScriptPathMembers(p, ks[1..], k); }
  }

  lemma IndexesMembers(ks: seq<u32>, k: u32)
    ensures Int(k) in Indexes(ks).items <==> k in ks
  {
    var items := Indexes(ks).items;
    if k in ks {
      var i :| 0 <= i < |ks| && ks[i] == k;
      assert items[i] == Int(k);
    }
  }

  /** `sign_psbt` accepts a list of inputs exactly when each is one of the PSBT's, and the signer is on the
      network. */
  lemma SignPsbtAccepts(c: Codecs, n: Network, psbt: Psbt, from: Option<Address>, signInputs: Option<seq<u32>>,
                        finalize: bool, broadcast: bool)
    ensures MakeSignPsbt(c, n, psbt, from, signInputs, finalize, broadcast).Ok? <==>
      && (from.Some? ==> c.onNetwork(from.value, n))
      && (signInputs.Some? ==> forall k :: k in signInputs.value ==> k < |psbt.inputs|)
  {
    var ks := Listed(signInputs);
    if InRange(psbt, ks) {
      forall k | k in ks ensures k < |psbt.inputs| {
        var i :| 0 <= i < |ks| && ks[i] == k;
      }
    } else {
      var i :| 0 <= i < |ks| && ks[i] >= |psbt.inputs|;
      assert ks[i] in signInputs.value;
    }
  }

  lemma ArraysOf(c: Codecs, id: string, r: Request)
    requires r.SignPsbt?
    ensures ArrayField(Print(c, id, r), SIGN_INPUTS)
      == if r.signInputs.Some? then Some(Indexes(r.signInputs.value).items) else None
    ensures ArrayField(Print(c, id, r), SCRIPT_PATH_INPUTS)
      == if r.scriptPathInputs != [] then Some(Indexes(r.scriptPathInputs).items) else None
  {
    GetPrinted(c, id, r, SIGN_INPUTS);
    GetPrinted(c, id, r, SCRIPT_PATH_INPUTS);
  }

  lemma OptionsOf(c: Codecs, id: string, r: Request, address: string)
    requires r.SignPsbt?
    ensures var o, path := UnisatOptions(Print(c, id, r), address), r.scriptPathInputs;
      && o.autoFinalized == r.finalize && (o.toSignInputs.None? <==> r.signInputs.None?)
      && (r.signInputs.Some? ==>
            && |o.toSignInputs.value| == |r.signInputs.value|
            && forall i :: 0 <= i < |r.signInputs.value| ==>
                 o.toSignInputs.value[i]
                   == ToSign(r.signInputs.value[i], address, r.signInputs.value[i] in path))
  {
    ArraysOf(c, id, r);
    GetPrinted(c, id, r, FINALIZE);
    if r.signInputs.Some? {
      forall i | 0 <= i < |r.signInputs.value|
        ensures Int(r.signInputs.value[i]) in Indexes(r.scriptPathInputs).items
          <==> r.signInputs.value[i] in r.scriptPathInputs
      {
        IndexesMembers(r.scriptPathInputs, r.signInputs.value[i]);
      }
    }
  }

  /** From the PSBT to the wallet: for every request `sign_psbt` builds, Unisat gets one entry per listed index, in
      order and duplicates included, each in range, and marked to sign untweaked exactly when that input lists a
      leaf script. Unlisted, no input is named. Unisat finalizes when asked to, or to broadcast. */
  lemma MarkingIsExact(c: Codecs, id: string, n: Network, psbt: Psbt, from: Option<Address>,
                       signInputs: Option<seq<u32>>, finalize: bool, broadcast: bool, r: Request, address: string)
    requires MakeSignPsbt(c, n, psbt, from, signInputs, finalize, broadcast) == Ok(r)
    ensures var o := UnisatOptions(Print(c, id, r), address);
      && o.autoFinalized == (finalize || broadcast) && (o.toSignInputs.None? <==> signInputs.None?)
      && (signInputs.Some? ==>
            && |o.toSignInputs.value| == |signInputs.value|
            && forall i :: 0 <= i < |signInputs.value| ==>
                 var entry := o.toSignInputs.value[i];
                 && entry.index == signInputs.value[i] && entry.address == address
                 && entry.index < |psbt.inputs|
                 && (entry.disableTweakSigner <==> psbt.inputs[entry.index].tapScripts != []))
  {
    OptionsOf(c, id, r, address);
    if signInputs.Some? {
      var ks := signInputs.value;
      forall i | 0 <= i < |ks|
        ensures ks[i] < |psbt.inputs| && (ks[i] in r.scriptPathInputs <==> psbt.inputs[ks[i]].tapScripts != [])
      {
        ScriptPathMembers(psbt, ks, ks[i]);
      }
    }
  }
}
