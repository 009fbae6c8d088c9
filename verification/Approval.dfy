/**
  The browser approval page as a transition system.

  The page is single-threaded JavaScript: between two awaits it runs alone, and at an await any other
  handler, wallet event or click may run. A handler invocation is therefore a task, and a task is the
  await it stands at. Every function below that takes a slot `i` is the piece of code that runs from one
  await of that task to the next. `Step` picks any click the painted buttons allow, any answer to an
  outstanding call and any wallet event, so a sequence of steps is any interleaving at all.
 */
module Approval {
  import opened Wrappers

  // ---------- The request and the page's chain adapter ----------

  datatype Chain = Evm | Tron | Btc

  datatype Kind = Connect | Transaction | Message

  /** What the page reads of the request: `pinned` is the account it names ("" for none), `signable` is false when
      a message request carries nothing the page can hand to the wallet, and `transfer` tells a Bitcoin transfer
      from a PSBT. */
  datatype Request = Request(chain: Chain, kind: Kind, pinned: string, signable: bool, transfer: bool)

  function LowerChar(c: char): char {
    if 'A' <= c <= 'Z' then (c as int + 32) as char else c
  }

  function Lower(s: string): string {
    if s == "" then "" else [LowerChar(s[0])] + Lower(s[1..])
  }

  predicate IsBech32(s: string) {
    var l := Lower(s);
    "bc1" <= l || "tb1" <= l || "bcrt1" <= l
  }

  /** Whether two spellings name one account: EVM hex and bech32 ignore case, base58 does not. */
  predicate Match(chain: Chain, a: string, b: string) {
    match chain
    case Evm => Lower(a) == Lower(b)
    case Tron => a == b
    case Btc => if IsBech32(a) && IsBech32(b) then Lower(a) == Lower(b) else a == b
  }

  // Adapter capabilities: only the EVM page prompts for an account change, lets the wallet arbitrate a
  // mismatch and switches chains after connecting; only the Bitcoin page adds a key to the account; the TRON
  // page hears of no account change.
  predicate HandlesMismatch(q: Request) { q.chain.Evm? }

  predicate HasPrompt(q: Request) { q.chain.Evm? }

  predicate HasOnConnected(q: Request) { q.chain.Evm? }

  predicate HasConnectResult(q: Request) { q.chain.Btc? }

  predicate HasAccountEvents(q: Request) { !q.chain.Tron? }

  /** Whether the adapter hands on what the wallet returned, be it null. For a transaction the TRON page insists on a
      hash, and for a PSBT the Bitcoin page builds a document. */
  predicate MayReturnNull(q: Request) {
    match q.chain
    case Evm => !q.kind.Connect?
    case Tron => q.kind.Message?
    case Btc => q.kind.Message? || (q.kind.Transaction? && q.transfer)
  }

  // ---------- Page state ----------

  datatype View = Idle | Connecting | Switching | Signing | WrongAddress | Failed | Success

  /** What the page delivers: the wallet's text, or the Bitcoin page's account document. */
  datatype Value = Text(text: string) | Account(address: string, publicKey: string)

  /** A request body the page has posted: a result (`None` is null), or an error that remembers the view its click
      came in. */
  datatype Post =
    | Deliver(result: Option<Value>)
    | Refuse(error: string, code: Option<string>, clickedIn: View)

  /** A wallet operation the page submitted: the signer it named and the account it had acquired. */
  datatype Operation = Operation(from: string, acquired: string)

  /** The await a handler invocation stands at. */
  datatype Task =
    | Done
    | AcquireCurrent                             // acquireAccount: currentAddress()
    | AcquireRequest                             // acquireAccount: requestAccounts()
    | Operating                                  // sendTx(), signMessage() or signTypedData()
    | Rereading(expected: string, denied: bool)  // enterWrongAddressAfterFailure: currentAddress()
    | Failing                                    // that re-read said the failure is not a mismatch
    | ConnectRequest                             // handleConnect: requestAccounts()
    | ConnectSwitch(address: string)             // finishConnect: onConnected()
    | ConnectResult(address: string)             // finishConnect: connectResult()
    | Delivering(post: nat, settles: bool)       // deliverSettled: the POST, of a settled result or of null
    | Refusing(post: nat)                        // rejectWith: the POST
    | Prompting(byUser: bool)                    // runAccountChangePrompt: requestAccountChange()
    | Prompted(byUser: bool, answer: Option<string>)  // the prompt returned to its caller

  /** The buttons the last render left clickable. */
  datatype Buttons = Buttons(go: bool, change: bool, swap: bool, reject: bool)

  /** The page's variables. */
  datatype Ui = Ui(
    view: View,
    connected: string,
    picked: string,
    settled: Option<Value>,
    finished: bool,
    changing: bool,
    unsupported: bool,
    listening: bool,
    following: bool,
    wallet: bool,
    awaitingWallet: bool,
    buttons: Buttons)

  /** The page with its outstanding handlers, and the history of what left it: the operations submitted
      to the wallet, what the wallet fulfilled them with (`None` is null) and the bodies posted to the bridge. */
  datatype Page = Page(ui: Ui, tasks: seq<Task>, ops: seq<Operation>, successes: seq<Option<Value>>, outbox: seq<Post>)

  function Expected(q: Request, u: Ui): string {
    if u.picked != "" then u.picked else q.pinned
  }

  predicate PromptSupported(q: Request, u: Ui) {
    HasPrompt(q) && !u.unsupported
  }

  predicate CanPrompt(q: Request, u: Ui) {
    PromptSupported(q, u) && !u.changing && !u.finished
  }

  // ---------- Rendering: which buttons can be clicked ----------

  predicate SwapOffered(q: Request, u: Ui) {
    && PromptSupported(q, u) && u.connected != ""
    && !(q.kind.Connect? && q.pinned != "")
    && (u.view.Idle? || u.view.Failed?)
  }

  function ConnectButtons(q: Request, u: Ui): Buttons {
    if !u.wallet || u.view.Success? then Buttons(false, false, false, false)
    else if u.view.WrongAddress? || u.view.Failed? then Buttons(true, false, false, true)
    else Buttons(!u.view.Connecting? && !u.view.Switching?, false, SwapOffered(q, u) && !u.changing, true)
  }

  function SignButtons(q: Request, u: Ui): Buttons {
    if u.view.WrongAddress? then Buttons(false, PromptSupported(q, u) && !u.changing, false, true)
    else if !u.wallet || u.view.Success? then Buttons(false, false, false, false)
    else Buttons(!u.view.Connecting? && !u.view.Signing?, false, SwapOffered(q, u) && !u.changing, true)
  }

  function Paint(q: Request, u: Ui): Ui {
    u.(buttons := if q.kind.Connect? then ConnectButtons(q, u) else SignButtons(q, u))
  }

  /** The page after its first render: nothing running, whatever account the wallet already shows. */
  function Loaded(q: Request, connected: string, wallet: bool): Page {
    Page(Paint(q, Ui(Idle, connected, "", None, false, false, false, false, wallet, wallet, !wallet,
                     Buttons(false, false, false, false))), [], [], [], [])
  }

  // ---------- Code between awaits ----------

  /** How a handler leaves the thread: at the next await (or `Done`), having submitted a wallet
      operation, or having posted to the bridge. */
  datatype Move =
    | Wait(ui: Ui, next: Task)
    | Submitted(ui: Ui, op: Operation)
    | Posted(ui: Ui, body: Post)

  const USER_REJECTED: int := 4001
  const METHOD_NOT_FOUND: int := -32601

  function ShowError(q: Request, u: Ui): Move {
    Wait(Paint(q, u.(view := Failed)), Done)
  }

  function DeliverSettled(u: Ui): Move {
    Posted(u, Deliver(u.settled))
  }

  /** Ends a handler by opening the account-change prompt, when one may open. */
  function OpenPrompt(q: Request, u: Ui, byUser: bool): Move {
    if CanPrompt(q, u) then Wait(Paint(q, u.(changing := true)), Prompting(byUser)) else Wait(u, Done)
  }

  function EnterWrongAddress(q: Request, u: Ui): Ui {
    Paint(q, u.(view := WrongAddress)).(listening := Expected(q, u) != "")
  }

  function AfterFailure(q: Request, u: Ui, code: int): Move {
    Wait(u, if Expected(q, u) == "" then Failing else Rereading(Expected(q, u), code == USER_REJECTED))
  }

  function HandleSign(q: Request, u: Ui): Move {
    if u.settled.Some? then DeliverSettled(u)
    else Wait(Paint(q, u.(view := Connecting)), AcquireCurrent)
  }

  /** True if the page itself refuses to submit for `expected` as the wallet is on `account`. */
  predicate Gated(q: Request, account: string, expected: string) {
    && !HandlesMismatch(q)
    && (if q.kind.Transaction? then expected != "" && !Match(q.chain, account, expected)
        else !Match(q.chain, account, if expected != "" then expected else account))
  }

  function Submit(q: Request, u: Ui, account: string): Move {
    var u1 := u.(connected := account);
    var expected := Expected(q, u1);
    if Gated(q, account, expected) then OpenPrompt(q, EnterWrongAddress(q, u1), false)
    else
      var u2 := Paint(q, u1.(view := Signing));
      if q.kind.Message? && !q.signable then AfterFailure(q, u2, 0)
      else Submitted(u2, Operation(if expected != "" then expected else account, account))
  }

  /** Settles what the wallet returned, then delivers it; null leaves nothing settled and is delivered all the same. */
  function Settle(u: Ui, v: Option<Value>): Move {
    DeliverSettled(u.(settled := v))
  }

  function AfterSwitch(q: Request, u: Ui, address: string): Move {
    var u1 := u.(listening := false);
    if HasConnectResult(q) then Wait(u1, ConnectResult(address)) else Settle(u1, Some(Text(address)))
  }

  function FinishConnect(q: Request, u: Ui, address: string): Move {
    var u1 := u.(connected := address);
    if HasOnConnected(q) then Wait(Paint(q, u1.(view := Switching)), ConnectSwitch(address))
    else AfterSwitch(q, u1, address)
  }

  function HandleConnect(q: Request, u: Ui): Move {
    Wait(Paint(q, u.(view := Connecting)), ConnectRequest)
  }

  function Connected(q: Request, u: Ui, address: string): Move {
    var u1 := u.(connected := address);
    if q.pinned != "" && !Match(q.chain, address, q.pinned) then OpenPrompt(q, EnterWrongAddress(q, u1), false)
    else FinishConnect(q, u1, address)
  }

  function ConnectAs(q: Request, u: Ui, address: string): Move {
    FinishConnect(q, u.(view := Connecting), address)
  }

  /** Takes up the request again in the wrong-address view, if the new account `matches`. */
  function TakeUp(q: Request, u: Ui, matches: bool): Move {
    if !matches then Wait(Paint(q, u), Done)
    else
      var u1 := u.(view := Connecting, listening := false);
      if q.kind.Connect? then ConnectAs(q, u1, u.connected) else HandleSign(q, u1)
  }

  function MaybeResume(q: Request, u: Ui, address: string): Move {
    if address == "" || u.finished || !u.view.WrongAddress? then Wait(u, Done)
    else TakeUp(q, u.(connected := address), Match(q.chain, address, Expected(q, u)))
  }

  function ConnectDespiteNoPrompt(q: Request, u: Ui): Move {
    if !HandlesMismatch(q) || !q.kind.Connect? || !u.view.WrongAddress? || u.finished then Wait(u, Done)
    else ConnectAs(q, u.(listening := false), Expected(q, u))
  }

  /** What the opener of the account-change prompt does with its answer (`None` is the wallet saying it
      has no such prompt, "" is nothing changed). */
  function PromptAnswered(q: Request, u: Ui, byUser: bool, answer: Option<string>): Move {
    if !byUser then
      if answer.None? then ConnectDespiteNoPrompt(q, u)
      else if answer.value == "" then Wait(u, Done)
      else MaybeResume(q, u, answer.value)
    else if answer.None? || answer.value == "" || u.finished then Wait(u, Done)
    else if q.kind.Connect? then ConnectAs(q, u.(connected := answer.value), answer.value)
    else Wait(Paint(q, u.(connected := answer.value, picked := answer.value)), Done)
  }

  const WRONG_WALLET_ADDRESS: string := "WRONG_WALLET_ADDRESS"

  function RejectReason(q: Request): string {
    match q.kind
    case Connect => "User cancelled"
    case Transaction => "User rejected transaction"
    case Message => "User rejected signing"
  }

  function Refusal(q: Request, u: Ui): Post {
    if u.view.WrongAddress?
    then
      Refuse("Wrong wallet address: expected " + Expected(q, u) + ", got " + u.connected, Some(WRONG_WALLET_ADDRESS),
             u.view)
    else Refuse(RejectReason(q), None, u.view)
  }

  function EndRejected(q: Request, u: Ui): Move {
    Posted(u.(finished := true, listening := false, following := false), Refusal(q, u))
  }

  // ---------- Answers ----------

  datatype Answer = Got(value: string) | Null | Threw(code: int) | Http(status: nat) | Tick

  /** Whether `a` can be the answer `t` is waiting for. */
  predicate Answers(t: Task, a: Answer) {
    match t
    case Done => false
    case Failing => a.Tick?
    case Prompted(_, _) => a.Tick?
    case Operating => a.Got? || a.Null? || a.Threw?
    case Prompting(_) => a.Got? || a.Null? || a.Threw?
    case Delivering(_, _) => a.Http? || a.Threw?
    case Refusing(_) => a.Http? || a.Threw?
    case _ => a.Got? || a.Threw?
  }

  /** What an operation that the wallet fulfilled returned. */
  function ResultOf(a: Answer): Option<Value>
    requires a.Got? || a.Null?
  {
    if a.Got? then Some(Text(a.value)) else None
  }

  function Acquired(q: Request, u: Ui, t: Task, a: Answer): Move
    requires (t.AcquireCurrent? || t.AcquireRequest?) && Answers(t, a)
  {
    if a.Threw? then AfterFailure(q, u, a.code)
    else if t.AcquireCurrent? && a.value == "" then Wait(u, AcquireRequest)
    else Submit(q, u, a.value)
  }

  /** The failure is a plain one when the account still `matches`, and a mismatch otherwise. */
  function Rechecked(q: Request, u: Ui, matches: bool, denied: bool): Move {
    if matches then Wait(u, Failing)
    else if denied then Wait(EnterWrongAddress(q, u), Done)
    else OpenPrompt(q, EnterWrongAddress(q, u), false)
  }

  function Reread(q: Request, u: Ui, expected: string, denied: bool, a: Answer): Move {
    var connected := if a.Got? && a.value != "" then a.value else u.connected;
    Rechecked(q, u.(connected := connected), Match(q.chain, connected, expected), denied)
  }

  function PromptClosed(q: Request, u: Ui, byUser: bool, a: Answer): Move
    requires Answers(Prompting(byUser), a)
  {
    Wait(Paint(q, u.(changing := false, unsupported := u.unsupported || a.Null? || a == Threw(METHOD_NOT_FOUND))),
         Prompted(byUser, if a.Null? then None else if a.Got? then Some(a.value) else Some("")))
  }

  function Resumed(q: Request, u: Ui, t: Task, a: Answer): Move
    requires Answers(t, a)
  {
    match t
    case AcquireCurrent => Acquired(q, u, t, a)
    case AcquireRequest => Acquired(q, u, t, a)
    case Operating => if a.Threw? then AfterFailure(q, u, a.code) else Settle(u, ResultOf(a))
    case Rereading(expected, denied) => Reread(q, u, expected, denied, a)
    case Failing => ShowError(q, u)
    case ConnectRequest => if a.Threw? then ShowError(q, u) else Connected(q, u, a.value)
    case ConnectSwitch(address) => if a.Threw? then ShowError(q, u) else AfterSwitch(q, u, address)
    case ConnectResult(address) => if a.Threw? then ShowError(q, u) else Settle(u, Some(Account(address, a.value)))
    case Delivering(_, _) => if a == Http(200) then Wait(Paint(q, u.(view := Success)), Done) else ShowError(q, u)
    case Refusing(_) => Wait(u, Done)
    case Prompting(byUser) => PromptClosed(q, u, byUser, a)
    case Prompted(byUser, answer) => PromptAnswered(q, u, byUser, answer)
  }

  // ---------- Steps ----------

  datatype Button = Go | Change | Swap | Reject

  datatype Event =
    | Click(button: Button)
    | Resume(slot: nat, answer: Answer)
    | AccountsChanged(address: string)   // to the wrong-address listener
    | Followed(address: string)          // to the listener that tracks the selected account
    | ChainReady                         // the wallet reached the request's chain
    | WalletAppeared
    | LateWallet(address: string)

  predicate Enabled(q: Request, s: Page, e: Event) {
    match e
    case Click(Go) => s.ui.buttons.go
    case Click(Change) => s.ui.buttons.change
    case Click(Swap) => s.ui.buttons.swap
    case Click(Reject) => s.ui.buttons.reject
    case Resume(i, a) =>
      i < |s.tasks| && Answers(s.tasks[i], a) && (s.tasks[i].Operating? && a.Null? ==> MayReturnNull(q))
    case AccountsChanged(_) => HasAccountEvents(q) && s.ui.listening
    case Followed(_) => HasAccountEvents(q) && s.ui.following
    case ChainReady => !q.chain.Tron?
    case WalletAppeared => true
    case LateWallet(_) => s.ui.wallet && s.ui.awaitingWallet
  }

  function Clicked(q: Request, u: Ui, b: Button): Move {
    match b
    case Go => if q.kind.Connect? then HandleConnect(q, u) else HandleSign(q, u)
    case Change => if q.kind.Connect? then OpenPrompt(q, u, false) else HandleSign(q, u)
    case Swap => OpenPrompt(q, u, true)
    case Reject => EndRejected(q, u)
  }

  function FollowSelected(q: Request, u: Ui, address: string): Ui {
    if u.finished || u.settled.Some? || u.view.WrongAddress? || address == "" then u
    else Paint(q, u.(connected := address, picked := if u.picked != "" then address else u.picked))
  }

  function ClearStaleError(q: Request, u: Ui): Ui {
    if !u.view.Failed? || u.finished then u else Paint(q, u.(view := Idle))
  }

  /** The code an event runs. A click or an account event starts a handler of its own. */
  function Moved(q: Request, s: Page, e: Event): Move
    requires Enabled(q, s, e)
  {
    match e
    case Click(b) => Clicked(q, s.ui, b)
    case Resume(i, a) => Resumed(q, s.ui, s.tasks[i], a)
    case AccountsChanged(address) => MaybeResume(q, s.ui, address)
    case Followed(address) => Wait(FollowSelected(q, s.ui, address), Done)
    case ChainReady => Wait(ClearStaleError(q, s.ui), Done)
    case WalletAppeared => Wait(s.ui.(wallet := true), Done)
    case LateWallet(address) =>
      Wait(Paint(q, s.ui.(awaitingWallet := false, connected := address, following := true)), Done)
  }

  /** The slot whose handler an event runs: an outstanding one, or a new one. */
  function Slot(s: Page, e: Event): nat {
    if e.Resume? then e.slot else |s.tasks|
  }

  function Put(tasks: seq<Task>, i: nat, t: Task): seq<Task>
    requires i <= |tasks|
  {
    if i < |tasks| then tasks[i := t] else tasks + [t]
  }

  function Parked(s: Page, m: Move): Task {
    match m
    case Wait(_, next) => next
    case Submitted(_, _) => Operating
    case Posted(_, body) =>
      if body.Deliver? then Delivering(|s.outbox|, body.result.Some?) else Refusing(|s.outbox|)
  }

  function Applied(s: Page, i: nat, m: Move): Page
    requires i <= |s.tasks|
  {
    Page(m.ui,
         Put(s.tasks, i, Parked(s, m)),
         if m.Submitted? then s.ops + [m.op] else s.ops,
         s.successes,
         if m.Posted? then s.outbox + [m.body] else s.outbox)
  }

  /** What the wallet returned, when the event is an operation's success. */
  function Obtained(s: Page, e: Event): seq<Option<Value>> {
    if e.Resume? && e.slot < |s.tasks| && s.tasks[e.slot].Operating? && (e.answer.Got? || e.answer.Null?)
    then [ResultOf(e.answer)]
    else []
  }

  function Step(q: Request, s: Page, e: Event): Page
    requires Enabled(q, s, e)
  {
    Applied(s, Slot(s, e), Moved(q, s, e)).(successes := s.successes + Obtained(s, e))
  }

  ghost predicate StepAt(q: Request, states: seq<Page>, events: seq<Event>, n: nat)
    requires n < |events| && |states| == |events| + 1
  {
    Enabled(q, states[n], events[n]) && states[n + 1] == Step(q, states[n], events[n])
  }

  /** A stretch of a run: any interleaving, from any page. */
  ghost predicate IsPath(q: Request, states: seq<Page>, events: seq<Event>) {
    && |states| == |events| + 1
    && (forall n :: 0 <= n < |events| ==> StepAt(q, states, events, n))
  }

  /** A run of the page: any interleaving of the events the page and its surroundings allow. */
  ghost predicate IsRun(q: Request, states: seq<Page>, events: seq<Event>) {
    && IsPath(q, states, events)
    && (exists connected, wallet :: states[0] == Loaded(q, connected, wallet))
  }
}
