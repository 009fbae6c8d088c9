/**
  Account pinning, from the control API to the wallet. A `serve` process that is configured with an account binds
  every request to it; the page reads the bound account from the request's wire form and gates on it.
 */
module Pinning {
  import B = BtcWire
  import ConnectFlow
  import E = EvmWire
  import opened Json
  import Outgoing
  import P = Approval
  import PinnedSigner
  import T = TronWire
  import opened Wrappers

  // ---------- Binding a request ----------

  /** An account field that is bound in place. */
  class Field<A(==)> {
    var value: Option<A>

    constructor (named: Option<A>)
      ensures value == named
    {
      value := named;
    }

    /** `expect_account`. */
    method ExpectAccount(account: A) returns (r: Result<(), Error>)
      modifies this
      ensures r.Ok? <==> Expect(old(value), account).Ok?
      ensures if r.Ok? then Expect(old(value), account) == Ok(value) else value == old(value)
    {
      if value.None? {
        value := Some(account);
        return Ok(());
      }
      if value.value == account { return Ok(()); }
      return Err(Uncheckable("account"));
    }
  }

  /** The bound field: only a field that names another account is refused. */
  function Expect<A(==)>(field: Option<A>, account: A): (r: Result<Option<A>, Error>)
    ensures r.Ok? <==> field == None || field == Some(account)
    ensures r.Ok? ==> r.value == Some(account)
  {
    if field.None? || field.value == account then Ok(Some(account)) else Err(Uncheckable("account"))
  }

  function BtcAccount(r: B.Request): Option<B.Address> {
    if r.Connect? || r.SignMessage? then r.address else r.from
  }

  function BindBtc(r: B.Request, account: Option<B.Address>): B.Request {
    if r.Connect? || r.SignMessage? then r.(address := account) else r.(from := account)
  }

  function ExpectingBtc(c: B.Codecs, r: B.Request, account: B.Address): Result<B.Request, Error> {
    var account :- B.RequireNetwork(c, account, r.network);
    var field :- Expect(BtcAccount(r), account);
    Ok(BindBtc(r, field))
  }

  function EvmAccount(r: E.Request): Option<E.Address> {
    if r.SendTransaction? then r.from else r.address
  }

  function BindEvm(r: E.Request, account: Option<E.Address>): E.Request {
    if r.SendTransaction? then r.(from := account) else r.(address := account)
  }

  function ExpectingEvm(r: E.Request, account: E.Address): Result<E.Request, Error> {
    var field :- Expect(EvmAccount(r), account);
    Ok(BindEvm(r, field))
  }

  function TronAccount(r: T.Request): Option<T.Address> {
    if r.Connect? || r.SignMessage? || r.SignTypedData? then r.address else r.from
  }

  function BindTron(r: T.Request, account: Option<T.Address>): T.Request {
    if r.Connect? || r.SignMessage? || r.SignTypedData? then r.(address := account) else r.(from := account)
  }

  function ExpectingTron(r: T.Request, account: T.Address): Result<T.Request, Error> {
    var field :- Expect(TronAccount(r), account);
    Ok(BindTron(r, field))
  }

  // `ControlState::request`, for each chain.

  function ServeBtc(c: B.Codecs, account: Option<B.Address>, body: Value): Result<B.Request, Error> {
    var r :- B.FromJson(c, body);
    if account.Some? then ExpectingBtc(c, r, account.value) else Ok(r)
  }

  function ServeEvm(c: E.Codecs, account: Option<E.Address>, body: Value): Result<E.Request, Error> {
    var r :- E.FromJson(c, body);
    if account.Some? then ExpectingEvm(r, account.value) else Ok(r)
  }

  function ServeTron(c: T.Codecs, account: Option<T.Address>, body: Value): Result<T.Request, Error> {
    var r :- T.FromJson(c, body);
    if account.Some? then ExpectingTron(r, account.value) else Ok(r)
  }

  // ---------- What the page reads ----------

  predicate IsTxType(typ: string) {
    || typ == "send_transaction" || typ == "trigger_contract" || typ == "deploy_contract"
    || typ == "send_transfer" || typ == "sign_psbt"
  }

  predicate Truthy(v: Option<Value>) {
    match v
    case None => false
    case Some(Null) => false
    case Some(Bool(b)) => b
    case Some(Int(n)) => n != 0
    case Some(Float(x)) => x != 0.0
    case Some(Str(s)) => s != ""
    case Some(_) => true
  }

  function Text(o: Option<string>): string {
    if o.Some? then o.value else ""
  }

  /** A request document as the page takes it. */
  function PageRequest(chain: P.Chain, body: Value): P.Request {
    var typ := Text(StrOpt(body, TYPE));
    var kind := if typ == "connect" then P.Connect else if IsTxType(typ) then P.Transaction else P.Message;
    P.Request(chain, kind, Text(StrOpt(body, if IsTxType(typ) then FROM else ADDRESS)), Truthy(Get(body, MESSAGE)),
              typ == "send_transfer")
  }

  // ---------- Served requests are pinned ----------

  lemma BtcTypes(r: B.Request)
    ensures IsTxType(B.TypeName(r)) <==> r.SendTransfer? || r.SignPsbt?
    ensures B.TypeName(r) == "connect" <==> r.Connect?
  {
  }

  lemma EvmTypes(r: E.Request)
    ensures IsTxType(E.TypeName(r)) <==> r.SendTransaction?
    ensures E.TypeName(r) == "connect" <==> r.Connect?
  {
  }

  lemma TronTypes(r: T.Request)
    ensures IsTxType(T.TypeName(r)) <==> r.SendTransaction? || r.TriggerContract? || r.DeployContract?
    ensures T.TypeName(r) == "connect" <==> r.Connect?
  {
  }

  lemma BtcBody(c: B.Codecs, id: string, r: B.Request, body: Value)
    requires B.IsPrinted(c, id, r, body)
    ensures StrOpt(body, ID) == Some(id)
    ensures StrOpt(body, TYPE) == Some(B.TypeName(r))
    ensures StrOpt(body, if IsTxType(B.TypeName(r)) then FROM else ADDRESS)
      == if BtcAccount(r).Some? then Some(c.address.show(BtcAccount(r).value)) else None
  {
    BtcTypes(r);
  }

  /** The page reads a Bitcoin request's account from the field that holds it, takes it for what it is, hands on what
      the wallet returned for a transfer or a message, and has something to sign unless the message is empty. */
  lemma BtcPage(c: B.Codecs, id: string, r: B.Request)
    ensures var q := PageRequest(P.Btc, B.Print(c, id, r));
      && (q.kind.Connect? <==> r.Connect?)
      && (q.kind.Transaction? <==> r.SendTransfer? || r.SignPsbt?)
      && (P.MayReturnNull(q) <==> r.SendTransfer? || r.SignMessage?)
      && (r.SignMessage? ==> (q.signable <==> r.message != ""))
      && StrOpt(B.Print(c, id, r), ID) == Some(id)
      && q.pinned == if BtcAccount(r).Some? then c.address.show(BtcAccount(r).value) else ""
  {
    BtcTypes(r);
    B.PrintIsPrinted(c, id, r);
    BtcBody(c, id, r, B.Print(c, id, r));
  }

  lemma EvmBody(c: E.Codecs, id: string, r: E.Request, body: Value)
    requires E.IsPrinted(c, id, r, body)
    ensures StrOpt(body, ID) == Some(id)
    ensures StrOpt(body, TYPE) == Some(E.TypeName(r))
    ensures StrOpt(body, if IsTxType(E.TypeName(r)) then FROM else ADDRESS)
      == if EvmAccount(r).Some? then Some(E.ADDRESSES.show(EvmAccount(r).value)) else None
  {
    EvmTypes(r);
  }

  lemma EvmSignable(c: E.Codecs, id: string, r: E.Request)
    requires r.SignMessage?
    ensures Truthy(Get(E.Print(c, id, r), MESSAGE)) <==> r.signable != E.Text("")
  {
    E.GetPrinted(c, id, r, MESSAGE);
  }

  lemma EvmPage(c: E.Codecs, id: string, r: E.Request)
    ensures var q := PageRequest(P.Evm, E.Print(c, id, r));
      && (q.kind.Connect? <==> r.Connect?) && (q.kind.Transaction? <==> r.SendTransaction?)
      && (P.MayReturnNull(q) <==> !r.Connect?)
      && (r.SignMessage? ==> (q.signable <==> r.signable != E.Text("")))
      && StrOpt(E.Print(c, id, r), ID) == Some(id)
      && q.pinned == if EvmAccount(r).Some? then E.ADDRESSES.show(EvmAccount(r).value) else ""
  {
    EvmTypes(r);
    E.PrintIsPrinted(c, id, r);
    EvmBody(c, id, r, E.Print(c, id, r));
    if r.SignMessage? { EvmSignable(c, id, r); }
  }

  lemma TronBody(c: T.Codecs, id: string, r: T.Request, body: Value)
    requires T.IsPrinted(c, id, r, body)
    ensures StrOpt(body, ID) == Some(id)
    ensures StrOpt(body, TYPE) == Some(T.TypeName(r))
    ensures StrOpt(body, if IsTxType(T.TypeName(r)) then FROM else ADDRESS)
      == if TronAccount(r).Some? then Some(c.address.show(TronAccount(r).value)) else None
  {
    TronTypes(r);
  }

  lemma TronPage(c: T.Codecs, id: string, r: T.Request)
    ensures var q := PageRequest(P.Tron, T.Print(c, id, r));
      && (q.kind.Connect? <==> r.Connect?)
      && (q.kind.Transaction? <==> r.SendTransaction? || r.TriggerContract? || r.DeployContract?)
      && (P.MayReturnNull(q) <==> r.SignMessage? || r.SignTypedData?)
      && (r.SignMessage? ==> (q.signable <==> r.text != ""))
      && StrOpt(T.Print(c, id, r), ID) == Some(id)
      && q.pinned == if TronAccount(r).Some? then c.address.show(TronAccount(r).value) else ""
  {
    TronTypes(r);
    T.PrintIsPrinted(c, id, r);
    TronBody(c, id, r, T.Print(c, id, r));
  }

  /** An unbound process serves every body that can be read, as it is. A body is served to a bound process exactly when
      it can be read, the account is on its network and it names no account or that one; what is served is the request
      itself, with that account and otherwise as it was read. */
  lemma ServedBtc(c: B.Codecs, account: B.Address, body: Value)
    ensures var read, served := B.FromJson(c, body), ServeBtc(c, Some(account), body);
      && (served.Ok? <==> && read.Ok? && c.onNetwork(account, read.value.network)
                          && (BtcAccount(read.value) == None || BtcAccount(read.value) == Some(account)))
      && (served.Ok? ==>
            && BtcAccount(served.value) == Some(account) && B.Built(c, served.value)
            && var r := read.value;
               served.value == if r.Connect? || r.SignMessage? then r.(address := Some(account))
                               else r.(from := Some(account)))
    ensures ServeBtc(c, None, body) == B.FromJson(c, body)
  {
    var read := B.FromJson(c, body);
    if read.Ok? { B.ReadIsBuilt(c, body, read.value); }
  }

  lemma ServedEvm(c: E.Codecs, account: E.Address, body: Value)
    ensures var read, served := E.FromJson(c, body), ServeEvm(c, Some(account), body);
      && (served.Ok? <==> read.Ok? && (EvmAccount(read.value) == None || EvmAccount(read.value) == Some(account)))
      && (served.Ok? ==>
            && EvmAccount(served.value) == Some(account)
            && var r := read.value;
               served.value == if r.SendTransaction? then r.(from := Some(account)) else r.(address := Some(account)))
    ensures ServeEvm(c, None, body) == E.FromJson(c, body)
  {
  }

  lemma ServedTron(c: T.Codecs, account: T.Address, body: Value)
    ensures var read, served := T.FromJson(c, body), ServeTron(c, Some(account), body);
      && (served.Ok? <==> read.Ok? && (TronAccount(read.value) == None || TronAccount(read.value) == Some(account)))
      && (served.Ok? ==>
            && TronAccount(served.value) == Some(account)
            && var r := read.value;
               served.value == if r.Connect? || r.SignMessage? || r.SignTypedData? then r.(address := Some(account))
                               else r.(from := Some(account)))
    ensures ServeTron(c, None, body) == T.FromJson(c, body)
  {
  }

  // ---------- Down to the wallet ----------

  /** Operation `k` names `account`, and was submitted as the wallet named that account too. */
  ghost predicate SignedAs(chain: P.Chain, states: seq<P.Page>, events: seq<P.Event>, n: nat, k: nat, account: string)
    requires n < |states| && k < |states[n].ops|
  {
    exists c: nat, a: string ::
      && c < n && Outgoing.ToldAt(states, events, c, k, a)
      && states[n].ops[k] == P.Operation(account, a) && P.Match(chain, a, account)
  }

  ghost predicate SignsAs(chain: P.Chain, states: seq<P.Page>, events: seq<P.Event>, n: nat, account: string)
    requires n < |states|
  {
    forall k :: 0 <= k < |states[n].ops| ==> SignedAs(chain, states, events, n, k, account)
  }

  lemma PinnedSignsAs(q: P.Request, states: seq<P.Page>, events: seq<P.Event>, n: nat)
    requires !q.kind.Connect? && !q.chain.Evm? && q.pinned != "" && P.IsRun(q, states, events) && n < |states|
    ensures SignsAs(q.chain, states, events, n, q.pinned)
  {
    forall k | 0 <= k < |states[n].ops| ensures SignedAs(q.chain, states, events, n, k, q.pinned) {
      var c, a := PinnedSigner.SubmittedOnThePinnedAccount(q, states, events, n, k);
    }
  }

  /** Every account a page has posted is `account`. */
  ghost predicate ConnectsAs(chain: P.Chain, s: P.Page, account: string) {
    forall k :: 0 <= k < |s.outbox| && s.outbox[k].Deliver? ==>
      s.outbox[k].result.Some? && P.Match(chain, ConnectFlow.AccountOf(s.outbox[k].result.value), account)
  }

  /** On the Bitcoin page, in every run of a request served to a bound process: a connect delivers the bound account
      only, and any other request submits operations for the bound account only, as the wallet names that account. */
  lemma BoundBtcRequest(c: B.Codecs, id: string, account: B.Address, body: Value, r: B.Request, q: P.Request,
      states: seq<P.Page>, events: seq<P.Event>, n: nat)
    requires ServeBtc(c, Some(account), body) == Ok(r) && c.address.show(account) != ""
    requires q == PageRequest(P.Btc, B.Print(c, id, r)) && P.IsRun(q, states, events) && n < |states|
    ensures var s, shown := states[n], c.address.show(account);
      if r.Connect? then ConnectsAs(P.Btc, s, shown) && s.ops == []
      else SignsAs(P.Btc, states, events, n, shown)
  {
    ServedBtc(c, account, body);
    BtcPage(c, id, r);
    if r.Connect? {
      ConnectFlow.ConnectDeliversThePinnedAccount(q, states, events, n);
    } else {
      PinnedSignsAs(q, states, events, n);
    }
  }

  /** The same on the TRON page. */
  lemma BoundTronRequest(c: T.Codecs, id: string, account: T.Address, body: Value, r: T.Request, q: P.Request,
      states: seq<P.Page>, events: seq<P.Event>, n: nat)
    requires ServeTron(c, Some(account), body) == Ok(r) && c.address.show(account) != ""
    requires q == PageRequest(P.Tron, T.Print(c, id, r)) && P.IsRun(q, states, events) && n < |states|
    ensures var s, shown := states[n], c.address.show(account);
      if r.Connect? then ConnectsAs(P.Tron, s, shown) && s.ops == []
      else SignsAs(P.Tron, states, events, n, shown)
  {
    ServedTron(c, account, body);
    TronPage(c, id, r);
    if r.Connect? {
      ConnectFlow.ConnectDeliversThePinnedAccount(q, states, events, n);
    } else {
      PinnedSignsAs(q, states, events, n);
    }
  }

  /** On the EVM page, where the wallet arbitrates a mismatch and the user may pick another account: a connect
      delivers the bound account only, and until the user clicks "Change" every operation names it. */
  lemma BoundEvmRequest(c: E.Codecs, id: string, account: E.Address, body: Value, r: E.Request, q: P.Request,
      states: seq<P.Page>, events: seq<P.Event>, n: nat)
    requires ServeEvm(c, Some(account), body) == Ok(r)
    requires q == PageRequest(P.Evm, E.Print(c, id, r)) && P.IsRun(q, states, events) && n < |states|
    ensures var s, shown := states[n], E.ADDRESSES.show(account);
      if r.Connect? then ConnectsAs(P.Evm, s, shown) && s.ops == []
      else
        (forall k :: 0 <= k < n ==> events[k] != P.Click(P.Swap)) ==>
        forall k :: 0 <= k < |s.ops| ==> s.ops[k].from == shown
  {
    ServedEvm(c, account, body);
    EvmPage(c, id, r);
    if r.Connect? {
      ConnectFlow.ConnectDeliversThePinnedAccount(q, states, events, n);
    } else if forall k :: 0 <= k < n ==> events[k] != P.Click(P.Swap) {
      PinnedSigner.OnlyThePinnedAccountSigns(q, states, events, n);
    }
  }
}
