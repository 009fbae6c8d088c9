/**
  How the EVM page gets the wallet onto a request's chain before it asks for a transaction or a signature. The
  wallet is arbitrary: any function from the calls made so far, with their answers, to the next answer.
 */
module ChainSwitch {
  import Amounts
  import opened Wrappers

  // ---------- The wallet ----------

  /** A provider error: its code, and the code of the original error it wraps, if it wraps one. */
  datatype WalletError = WalletError(code: int, nested: Option<int>)

  datatype Call =
    | ChainId                                     // eth_chainId
    | Switch(id: nat)                             // wallet_switchEthereumChain
    | Add(id: nat, chain: ChainInfo)              // wallet_addEthereumChain
    | Operation(name: string, params: string)   // eth_sendTransaction, personal_sign, eth_signTypedData_v4

  /** A chain number, any other result, or a throw. */
  datatype Answer = Number(n: nat) | Text(s: string) | Threw(error: WalletError)

  datatype Entry = Entry(call: Call, answer: Answer)

  type Wallet = (seq<Entry>, Call) -> Answer

  const CHAIN_NOT_ADDED: int := 4902

  predicate IsUnknownChain(e: WalletError) {
    e.code == CHAIN_NOT_ADDED || e.nested == Some(CHAIN_NOT_ADDED)
  }

  // ---------- What describes a chain ----------

  datatype ChainInfo = ChainInfo(name: string, symbol: string, rpcUrls: seq<string>, explorer: Option<string>)

  /** The request's chain and custom network; "" is an absent text, and a chain id of 0 counts as none. */
  datatype Request = Request(chainId: nat, rpcUrl: string, chainName: string)

  /** What the built-in table and the chain registry have on a chain. */
  datatype Known = Known(builtin: Option<ChainInfo>, registry: Option<ChainInfo>)

  /** The request's own endpoint beats the built-in table, which beats the registry. */
  function DescribeChain(id: nat, q: Request, known: Known): Option<ChainInfo> {
    if q.rpcUrl != "" then
      var builtin := known.builtin;
      var name :=
        if q.chainName != "" then q.chainName
        else if builtin.Some? && builtin.value.name != "" then builtin.value.name
        else "Chain " + Amounts.Decimal(id, 1);
      var symbol := if builtin.Some? && builtin.value.symbol != "" then builtin.value.symbol else "ETH";
      Some(ChainInfo(name, symbol, [q.rpcUrl], if builtin.Some? then builtin.value.explorer else None))
    else if known.builtin.Some? then known.builtin
    else known.registry
  }

  /** What a wallet without the chain is offered: the request's own endpoint if it has one, under its own name, the
      built-in one, or the chain's number, with the built-in symbol, if any, and explorer; otherwise what the built-in
      table has on the chain, and failing that the registry. */
  lemma ChainIsDescribed(id: nat, q: Request, known: Known)
    ensures q.rpcUrl == "" ==>
              DescribeChain(id, q, known) == if known.builtin.Some? then known.builtin else known.registry
    ensures q.rpcUrl != "" ==>
              && DescribeChain(id, q, known).Some?
              && var d, b := DescribeChain(id, q, known).value, known.builtin;
                 && d.rpcUrls == [q.rpcUrl] && d.explorer == (if b.Some? then b.value.explorer else None)
                 && (q.chainName != "" ==> d.name == q.chainName)
                 && (q.chainName == "" && b.Some? && b.value.name != "" ==> d.name == b.value.name)
                 && (q.chainName == "" && (b.None? || b.value.name == "") ==>
                       d.name[..6] == "Chain " && Amounts.IsPlain(d.name[6..]) && Amounts.Numeral(d.name[6..]) == id)
                 && d.symbol == if b.Some? && b.value.symbol != "" then b.value.symbol else "ETH"
  {
    Amounts.DecimalIsPlain(id);
    var name := "Chain " + Amounts.Decimal(id, 1);
    assert name[..6] == "Chain " && name[6..] == Amounts.Decimal(id, 1);
  }

  function Additions(chain: Option<ChainInfo>): nat {
    if chain.Some? then 1 else 0
  }

  // ---------- The calls of a log ----------

  /** The wallet's last word is that it is on the chain. */
  predicate Confirmed(log: seq<Entry>, id: nat) {
    log != [] && log[|log| - 1] == Entry(ChainId, Number(id))
  }

  function Switches(log: seq<Entry>): nat {
    if log == [] then 0 else Switches(log[..|log| - 1]) + if log[|log| - 1].call.Switch? then 1 else 0
  }

  function Adds(log: seq<Entry>): nat {
    if log == [] then 0 else Adds(log[..|log| - 1]) + if log[|log| - 1].call.Add? then 1 else 0
  }

  /** Every operation in the log comes right after a confirmation. */
  predicate Guarded(log: seq<Entry>, id: nat) {
    forall k :: 0 <= k < |log| && log[k].call.Operation? ==> k > 0 && log[k - 1] == Entry(ChainId, Number(id))
  }

  /** What chain switching may append: calls about that chain only, additions only as `chain` describes it, and so
      many switches and additions. */
  predicate Appends(was: seq<Entry>, log: seq<Entry>, id: nat, chain: Option<ChainInfo>, switches: nat, adds: nat) {
    && was <= log
    && (forall k :: |was| <= k < |log| ==>
          var c := log[k].call;
          c.ChainId? || (c.Switch? && c.id == id) || (c.Add? && c.id == id && Some(c.chain) == chain))
    && Switches(log) == Switches(was) + switches
    && Adds(log) == Adds(was) + adds
  }

  /** The wallet is asked to switch only right after it has said that it is not on the chain, or has failed to say. */
  predicate SwitchesAsNeeded(was: seq<Entry>, log: seq<Entry>, id: nat) {
    forall k :: |was| <= k < |log| && log[k].call.Switch? ==>
      k > |was| && log[k - 1].call.ChainId? && log[k - 1].answer != Number(id)
  }

  lemma AppendOne(log: seq<Entry>, e: Entry)
    ensures Switches(log + [e]) == Switches(log) + if e.call.Switch? then 1 else 0
    ensures Adds(log + [e]) == Adds(log) + if e.call.Add? then 1 else 0
  {
    assert (log + [e])[..|log|] == log;
  }

  lemma AppendMore(was: seq<Entry>, mid: seq<Entry>, log: seq<Entry>, id: nat, chain: Option<ChainInfo>,
                   switches: nat, adds: nat, moreSwitches: nat, moreAdds: nat)
    requires Appends(was, mid, id, chain, switches, adds)
    requires Appends(mid, log, id, chain, moreSwitches, moreAdds) || Appends(mid, log, id, None, moreSwitches, moreAdds)
    ensures Appends(was, log, id, chain, switches + moreSwitches, adds + moreAdds)
  {
  }

  // ---------- The cascade ----------

  datatype Failure = MissingChain(id: nat) | WalletThrew(error: WalletError)

  /** The wallet threw, and not because it does not know the chain. */
  predicate Refused(a: Answer) {
    a.Threw? && a.error.code != 4902 && a.error.nested != Some(4902)
  }

  /** Why switching may end without a confirmation: after two switches and, if something describes the chain, one
      addition, the network is missing; or the wallet refused a switch for another reason than not knowing the chain,
      and that error is passed on. */
  ghost predicate GaveUp(was: seq<Entry>, log: seq<Entry>, id: nat, chain: Option<ChainInfo>, f: Failure) {
    && !Confirmed(log, id)
    && match f
       case MissingChain(i) => i == id && Appends(was, log, id, chain, 2, Additions(chain))
       case WalletThrew(e) =>
         |log| >= |was| + 2 && log[|log| - 2] == Entry(Switch(id), Threw(e)) && Refused(Threw(e))
  }

  /** Why a chain may not be ensured: the first query threw, or switching gave up. */
  ghost predicate Unensured(was: seq<Entry>, log: seq<Entry>, id: nat, chain: Option<ChainInfo>, f: Failure) {
    GaveUp(was, log, id, chain, f) || (f.WalletThrew? && log == was + [Entry(ChainId, Threw(f.error))])
  }

  method Rpc(wallet: Wallet, was: seq<Entry>, call: Call) returns (log: seq<Entry>, a: Answer)
    ensures a == wallet(was, call) && log == was + [Entry(call, a)]
    ensures Switches(log) == Switches(was) + if call.Switch? then 1 else 0
    ensures Adds(log) == Adds(was) + if call.Add? then 1 else 0
  {
    a := wallet(was, call);
    log := was + [Entry(call, a)];
    AppendOne(was, Entry(call, a));
  }

  method OnChain(wallet: Wallet, was: seq<Entry>, id: nat) returns (log: seq<Entry>, on: bool)
    ensures log == was + [Entry(ChainId, wallet(was, ChainId))] && Appends(was, log, id, None, 0, 0)
    ensures on <==> Confirmed(log, id)
  {
    var a;
    log, a := Rpc(wallet, was, ChainId);
    on := a == Number(id);
  }

  /** True exactly if the wallet's last word is that it is on the chain; false without a word if the wallet does not
      know the chain, and if it is somewhere else after a switch; and the error that the switch threw if it threw one
      and is somewhere else. A wallet that threw and is on the chain all the same is asked once more. */
  method TrySwitch(wallet: Wallet, was: seq<Entry>, id: nat) returns (log: seq<Entry>, r: Result<bool, WalletError>)
    ensures Appends(was, log, id, None, 1, 0) && |log| > |was| && log[|was|].call == Switch(id)
    ensures forall k :: |was| < k < |log| ==> log[k].call.ChainId?
    ensures r == Ok(true) <==> Confirmed(log, id)
    ensures r.Err? ==> |log| == |was| + 2 && log[|was|].answer == Threw(r.error)
    ensures var a := log[|was|].answer;
      if !a.Threw? then |log| == |was| + 2
      else if a.error.code == 4902 || a.error.nested == Some(4902) then |log| == |was| + 1 && r == Ok(false)
      else if |log| > |was| + 1 && log[|was| + 1].answer == Number(id) then |log| == |was| + 3 && r.Ok?
      else |log| == |was| + 2 && r == Err(a.error)
  {
    var a, on;
    log, a := Rpc(wallet, was, Switch(id));
    if a.Threw? {
      if IsUnknownChain(a.error) { return log, Ok(false); }
      log, on := OnChain(wallet, log, id);
      if !on { return log, Err(a.error); }
    }
    log, on := OnChain(wallet, log, id);
    r := Ok(on);
  }

  /** Makes one call if something describes the chain and none otherwise; never fails. */
  method AddChain(wallet: Wallet, was: seq<Entry>, id: nat, q: Request, known: Known) returns (log: seq<Entry>)
    ensures var chain := DescribeChain(id, q, known);
      log == if chain.Some? then was + [Entry(Add(id, chain.value), wallet(was, Add(id, chain.value)))] else was
    ensures var chain := DescribeChain(id, q, known);
      Appends(was, log, id, chain, 0, Additions(chain))
  {
    var chain := DescribeChain(id, q, known);
    log := was;
    if chain.Some? {
      var ignored;
      log, ignored := Rpc(wallet, was, Add(id, chain.value));
    }
  }

  /** The second half of `switchChain`, for a wallet that did not switch at once: add the network and switch again. */
  method AddAndSwitch(wallet: Wallet, was: seq<Entry>, id: nat, q: Request, known: Known)
    returns (log: seq<Entry>, r: Result<(), Failure>)
    ensures var chain := DescribeChain(id, q, known);
      exists switches :: switches <= 1 && Appends(was, log, id, chain, switches, Additions(chain))
    ensures SwitchesAsNeeded(was, log, id)
    ensures r.Ok? <==> Confirmed(log, id)
    ensures r.Err? && r.error.MissingChain? ==>
              var chain := DescribeChain(id, q, known);
              r.error.id == id && Appends(was, log, id, chain, 1, Additions(chain))
    ensures r.Err? && r.error.WalletThrew? ==>
              && |log| >= |was| + 2 && log[|log| - 2] == Entry(Switch(id), Threw(r.error.error))
              && Refused(Threw(r.error.error))
  {
    ghost var chain := DescribeChain(id, q, known);
    ghost var adds := Additions(chain);
    var on, switched;
    log := AddChain(wallet, was, id, q, known);
    ghost var added := log;
    log, on := OnChain(wallet, log, id);
    AppendMore(was, added, log, id, chain, 0, adds, 0, 0);
    if on { return log, Ok(()); }
    ghost var asked := log;
    log, switched := TrySwitch(wallet, log, id);
    AppendMore(was, asked, log, id, chain, 0, adds, 1, 0);
    if switched.Err? { return log, Err(WalletThrew(switched.error)); }
    if switched.value { return log, Ok(()); }
    r := Err(MissingChain(id));
  }

  /** Returns exactly when the wallet's last word is that it is on the chain, after at most two switches and one
      addition; with none at all for a wallet that is there already. A switch is tried before any addition, and a wallet
      that refuses it and stays elsewhere ends the matter. */
  method SwitchChain(wallet: Wallet, was: seq<Entry>, id: nat, q: Request, known: Known)
    returns (log: seq<Entry>, r: Result<(), Failure>)
    ensures exists switches, adds ::
              switches <= 2 && adds <= 1 && Appends(was, log, id, DescribeChain(id, q, known), switches, adds)
    ensures r.Ok? <==> Confirmed(log, id)
    ensures SwitchesAsNeeded(was, log, id)
    ensures |log| > |was| && log[|was|].call.ChainId?
    ensures log[|was|].answer == Number(id) ==> |log| == |was| + 1
    ensures |log| > |was| + 1 ==> log[|was| + 1].call == Switch(id)
    ensures |log| > |was| + 1 && Refused(log[|was| + 1].answer) ==>
              && |log| > |was| + 2
              && (log[|was| + 2].answer != Number(id) ==>
                    |log| == |was| + 3 && r == Err(WalletThrew(log[|was| + 1].answer.error)))
    ensures r.Err? ==> GaveUp(was, log, id, DescribeChain(id, q, known), r.error)
  {
    ghost var chain := DescribeChain(id, q, known);
    ghost var adds := Additions(chain);
    var on, switched;
    log, on := OnChain(wallet, was, id);
    AppendMore(was, was, log, id, chain, 0, 0, 0, 0);
    if on { return log, Ok(()); }
    ghost var asked := log;
    log, switched := TrySwitch(wallet, log, id);
    AppendMore(was, asked, log, id, chain, 0, 0, 1, 0);
    if switched.Err? { return log, Err(WalletThrew(switched.error)); }
    if switched.value { return log, Ok(()); }
    ghost var tried := log;
    log, r := AddAndSwitch(wallet, log, id, q, known);
    ghost var switches :| switches <= 1 && Appends(tried, log, id, chain, switches, adds);
    AppendMore(was, tried, log, id, chain, 1, 0, switches, adds);
  }

  /** Does nothing for a request without a chain; otherwise returns exactly when the wallet's last word is that it is
      on the request's chain. */
  method EnsureChain(wallet: Wallet, was: seq<Entry>, q: Request, known: Known)
    returns (log: seq<Entry>, r: Result<(), Failure>)
    ensures q.chainId == 0 ==> r.Ok? && log == was
    ensures q.chainId != 0 ==> (r.Ok? <==> Confirmed(log, q.chainId))
    ensures SwitchesAsNeeded(was, log, q.chainId)
    ensures r.Err? ==> Unensured(was, log, q.chainId, DescribeChain(q.chainId, q, known), r.error)
    ensures exists switches, adds ::
              && switches <= 2 && adds <= 1
              && Appends(was, log, q.chainId, DescribeChain(q.chainId, q, known), switches, adds)
  {
    ghost var chain := DescribeChain(q.chainId, q, known);
    log := was;
    assert Appends(was, log, q.chainId, chain, 0, 0);
    if q.chainId == 0 { return log, Ok(()); }
    var a;
    log, a := Rpc(wallet, was, ChainId);
    assert Appends(was, log, q.chainId, chain, 0, 0);
    if a.Threw? { return log, Err(WalletThrew(a.error)); }
    if a == Number(q.chainId) { return log, Ok(()); }
    ghost var queried := log;
    log, r := SwitchChain(wallet, log, q.chainId, q, known);
    ghost var switches, adds :|
      switches <= 2 && adds <= 1 && Appends(queried, log, q.chainId, chain, switches, adds);
    AppendMore(was, queried, log, q.chainId, chain, 0, 0, switches, adds);
  }

  /** What an operation may append: at most two switches and one addition, which names the request's own endpoint if
      it has one; the operation itself only at the end; and for a request with a chain, a log in which every operation
      comes right after a confirmation stays such a log. */
  ghost predicate Operated(was: seq<Entry>, log: seq<Entry>, q: Request) {
    && was <= log
    && (q.chainId != 0 && Guarded(was, q.chainId) ==> Guarded(log, q.chainId))
    && (forall k :: |was| <= k < |log| - 1 ==> !log[k].call.Operation?)
    && (forall k :: |was| <= k < |log| && log[k].call.Add? && q.rpcUrl != "" ==>
          log[k].call.chain.rpcUrls == [q.rpcUrl])
    && Switches(log) <= Switches(was) + 2 && Adds(log) <= Adds(was) + 1
  }

  lemma EnsuredIsOperated(was: seq<Entry>, log: seq<Entry>, q: Request, known: Known, switches: nat, adds: nat)
    requires switches <= 2 && adds <= 1
    requires Appends(was, log, q.chainId, DescribeChain(q.chainId, q, known), switches, adds)
    ensures Operated(was, log, q) && forall k :: |was| <= k < |log| ==> !log[k].call.Operation?
  {
  }

  lemma OperationIsOperated(was: seq<Entry>, log: seq<Entry>, q: Request, e: Entry)
    requires Operated(was, log, q) && forall k :: |was| <= k < |log| ==> !log[k].call.Operation?
    requires e.call.Operation? && (q.chainId != 0 ==> Confirmed(log, q.chainId))
    ensures Operated(was, log + [e], q)
  {
    AppendOne(log, e);
  }

  /** `sendTx`, `signMessage` and `signTypedData`: the operation is called as the last call or not at all, and for a
      request with a chain only right after the wallet said it is on that chain. */
  method Operate(wallet: Wallet, was: seq<Entry>, q: Request, known: Known, operation: Call)
    returns (log: seq<Entry>, r: Result<Answer, Failure>)
    requires operation.Operation?
    ensures Operated(was, log, q) && (q.chainId == 0 ==> |log| == |was| + 1)
    ensures r.Ok? ==> log != was && log[|log| - 1] == Entry(operation, r.value) && !r.value.Threw?
    ensures r.Err? ==>
              || (r.error.WalletThrew? && log != was && log[|log| - 1] == Entry(operation, Threw(r.error.error)))
              || (q.chainId != 0 && Unensured(was, log, q.chainId, DescribeChain(q.chainId, q, known), r.error))
  {
    ghost var chain := DescribeChain(q.chainId, q, known);
    var ensured, a;
    log, ensured := EnsureChain(wallet, was, q, known);
    ghost var switches, adds :| switches <= 2 && adds <= 1 && Appends(was, log, q.chainId, chain, switches, adds);
    EnsuredIsOperated(was, log, q, known, switches, adds);
    if ensured.Err? { return log, Err(ensured.error); }
    ghost var ready := log;
    log, a := Rpc(wallet, log, operation);
    OperationIsOperated(was, ready, q, Entry(operation, a));
    r := if a.Threw? then Err(WalletThrew(a.error)) else Ok(a);
  }

  /** However many operations a page submits for a request with a chain, each comes right after the wallet said it is
      on that chain. */
  lemma {:induction false} EveryOperationIsGuarded(q: Request, logs: seq<seq<Entry>>, n: nat)
    requires q.chainId != 0 && n < |logs| && logs[0] == []
    requires forall k :: 0 <= k < |logs| - 1 ==> Operated(logs[k], logs[k + 1], q)
    ensures Guarded(logs[n], q.chainId)
  {
    if n > 0 {
      EveryOperationIsGuarded(q, logs, n - 1);
      assert Operated(logs[n - 1], logs[n - 1 + 1], q);
    }
  }
}
