/**
  Connect requests: several handlers can run at once and "Try Again" starts over, so nothing is settled
  once. What holds in every run is that a pinned request only ever settles and posts an account matching
  the pinned one, and that a busy view always has a handler behind it.
 */
module ConnectFlow {
  import opened Wrappers
  import opened Approval
  import opened SingleFlight

  predicate Connects(t: Task) { InConnect(t) || t.Delivering? }

  predicate Waiting(v: View) { v.Connecting? || v.Switching? }

  /** The account a connect result names. */
  function AccountOf(v: Value): string {
    match v
    case Text(text) => text
    case Account(address, _) => address
  }

  predicate Pinned(q: Request, account: string) {
    q.pinned != "" ==> Match(q.chain, account, q.pinned)
  }

  /** What a connect may settle: a matching account, as a document on the Bitcoin page and as text elsewhere. */
  predicate Connection(q: Request, v: Value) {
    Pinned(q, AccountOf(v)) && (v.Account? <==> HasConnectResult(q))
  }

  // ---------- One handler's code ----------

  predicate ConnectUi(q: Request, u: Ui) {
    && u.picked == ""
    && (u.settled.Some? ==> Connection(q, u.settled.value))
    && (u.buttons.swap ==> q.pinned == "")
    && !u.buttons.change
    && !u.view.Signing?
  }

  predicate ConnectTask(q: Request, t: Task) {
    && !InWallet(t)
    && (t.ConnectSwitch? ==> Pinned(q, t.address))
    && (t.ConnectResult? ==> Pinned(q, t.address) && HasConnectResult(q))
    && (t.Prompting? && t.byUser ==> q.pinned == "")
    && (t.Prompted? && t.byUser ==> q.pinned == "")
  }

  predicate ConnectMove(q: Request, u: Ui, t: Task, m: Move) {
    var u', t' := m.ui, Next(m);
    && ConnectUi(q, u') && ConnectTask(q, t')
    && (m.Posted? && m.body.Deliver? ==> m.body.result.Some? && Connection(q, m.body.result.value))
    && (m.Wait? ==> !m.next.Delivering? && !m.next.Refusing?) && !m.Submitted?
    && (u'.view.Success? ==> u.view.Success? || t.Delivering?)
    && (Waiting(u'.view) ==> Connects(t') || (u'.view == u.view && !Connects(t)))
  }

  /** From `u`, with at most the listener changed, settling and delivering a connection. */
  lemma SettleIsConnectMove(q: Request, u: Ui, t: Task, u1: Ui, v: Value)
    requires ConnectUi(q, u1) && u1.view == u.view && Connection(q, v)
    ensures ConnectMove(q, u, t, Settle(u1, Some(v)))
  {
  }

  lemma FetchIsConnectMove(q: Request, u: Ui, t: Task, u1: Ui, address: string)
    requires ConnectUi(q, u1) && u1.view == u.view && Pinned(q, address) && HasConnectResult(q)
    ensures ConnectMove(q, u, t, Wait(u1, ConnectResult(address)))
  {
  }

  lemma AfterSwitchIsConnectMove(q: Request, u: Ui, t: Task, address: string)
    requires q.kind.Connect? && ConnectUi(q, u) && Pinned(q, address)
    ensures ConnectMove(q, u, t, AfterSwitch(q, u, address))
  {
    var u1 := u.(listening := false);
    if HasConnectResult(q) {
      FetchIsConnectMove(q, u, t, u1, address);
    } else {
      assert AccountOf(Text(address)) == address;
      SettleIsConnectMove(q, u, t, u1, Text(address));
    }
  }

  lemma FinishIsConnectMove(q: Request, u: Ui, t: Task, address: string)
    requires q.kind.Connect? && ConnectUi(q, u) && Pinned(q, address)
    ensures ConnectMove(q, u, t, FinishConnect(q, u, address))
  {
    if !HasOnConnected(q) { AfterSwitchIsConnectMove(q, u.(connected := address), t, address); }
  }

  lemma RefusedIsConnectMove(q: Request, u: Ui, t: Task)
    requires q.kind.Connect? && ConnectUi(q, u)
    ensures ConnectMove(q, u, t, OpenPrompt(q, EnterWrongAddress(q, u), false))
  {
  }

  /** `handleConnect` once the wallet named an account that `matches` the pinned one. */
  lemma ConnectedIsConnectMove(q: Request, u: Ui, t: Task, address: string)
    requires q.kind.Connect? && ConnectUi(q, u)
    ensures ConnectMove(q, u, t, Connected(q, u, address))
  {
    var u1 := u.(connected := address);
    if Pinned(q, address) {
      FinishIsConnectMove(q, u1, t, address);
    } else {
      RefusedIsConnectMove(q, u1, t);
    }
  }

  lemma RepaintIsConnectMove(q: Request, u: Ui, t: Task)
    requires q.kind.Connect? && ConnectUi(q, u) && !Connects(t)
    ensures ConnectMove(q, u, t, Wait(Paint(q, u), Done))
  {
  }

  lemma TakeUpIsConnectMove(q: Request, u: Ui, t: Task, matches: bool)
    requires q.kind.Connect? && ConnectUi(q, u) && (matches ==> Pinned(q, u.connected)) && !Connects(t)
    ensures ConnectMove(q, u, t, TakeUp(q, u, matches))
  {
    if matches {
      FinishIsConnectMove(q, u.(view := Connecting, listening := false), t, u.connected);
    } else {
      RepaintIsConnectMove(q, u, t);
    }
  }

  lemma StaysIsConnectMove(q: Request, u: Ui, t: Task)
    requires ConnectUi(q, u) && !Connects(t)
    ensures ConnectMove(q, u, t, Wait(u, Done))
  {
  }

  lemma MaybeResumeIsConnectMove(q: Request, u: Ui, t: Task, address: string)
    requires q.kind.Connect? && ConnectUi(q, u) && !Connects(t)
    ensures ConnectMove(q, u, t, MaybeResume(q, u, address))
  {
    if address == "" || u.finished || !u.view.WrongAddress? {
      StaysIsConnectMove(q, u, t);
    } else {
      TakenUpIsConnectMove(q, u, t, address, Match(q.chain, address, q.pinned));
    }
  }

  lemma TakenUpIsConnectMove(q: Request, u: Ui, t: Task, address: string, matches: bool)
    requires q.kind.Connect? && ConnectUi(q, u) && (matches ==> Pinned(q, address)) && u.view.WrongAddress?
    requires !Connects(t)
    ensures ConnectMove(q, u, t, TakeUp(q, u.(connected := address), matches))
  {
    TakeUpIsConnectMove(q, u.(connected := address), t, matches);
  }

  lemma DespiteNoPromptIsConnectMove(q: Request, u: Ui, t: Task)
    requires q.kind.Connect? && ConnectUi(q, u) && !Connects(t)
    ensures ConnectMove(q, u, t, ConnectDespiteNoPrompt(q, u))
  {
    if u.view.WrongAddress? {
      FinishIsConnectMove(q, u.(listening := false, view := Connecting), t, Expected(q, u));
    }
  }

  lemma PickedIsConnectMove(q: Request, u: Ui, t: Task, address: string)
    requires q.kind.Connect? && ConnectUi(q, u) && q.pinned == "" && !Connects(t)
    ensures ConnectMove(q, u, t, ConnectAs(q, u.(connected := address), address))
  {
    FinishIsConnectMove(q, u.(connected := address, view := Connecting), t, address);
  }

  lemma PromptAnsweredIsConnectMove(q: Request, u: Ui, t: Task)
    requires q.kind.Connect? && ConnectUi(q, u) && ConnectTask(q, t) && t.Prompted?
    ensures ConnectMove(q, u, t, PromptAnswered(q, u, t.byUser, t.answer))
  {
    if t.answer.None? {
      DespiteNoPromptIsConnectMove(q, u, t);
    } else if t.byUser {
      PickedIsConnectMove(q, u, t, t.answer.value);
    } else {
      MaybeResumeIsConnectMove(q, u, t, t.answer.value);
    }
  }

  lemma OtherIsConnectMove(q: Request, u: Ui, t: Task, a: Answer)
    requires q.kind.Connect? && ConnectUi(q, u) && ConnectTask(q, t) && Answers(t, a)
    requires t.Refusing? || t.Prompting?
    ensures ConnectMove(q, u, t, Resumed(q, u, t, a))
  {
  }

  lemma DeliveredIsConnectMove(q: Request, u: Ui, t: Task)
    requires q.kind.Connect? && ConnectUi(q, u) && t.Delivering?
    ensures ConnectMove(q, u, t, Wait(Paint(q, u.(view := Success)), Done))
  {
  }

  lemma FailedIsConnectMove(q: Request, u: Ui, t: Task)
    requires q.kind.Connect? && ConnectUi(q, u)
    ensures ConnectMove(q, u, t, ShowError(q, u))
  {
  }

  /** After the account is known, a connect ends in an error or goes on. */
  lemma SwitchedIsConnectMove(q: Request, u: Ui, t: Task, a: Answer)
    requires q.kind.Connect? && ConnectUi(q, u) && ConnectTask(q, t) && Answers(t, a)
    requires t.ConnectSwitch? || t.ConnectResult?
    ensures ConnectMove(q, u, t, Resumed(q, u, t, a))
  {
    if a.Threw? {
      FailedIsConnectMove(q, u, t);
    } else if t.ConnectSwitch? {
      AfterSwitchIsConnectMove(q, u, t, t.address);
    } else {
      assert AccountOf(Account(t.address, a.value)) == t.address;
      SettleIsConnectMove(q, u, t, u, Account(t.address, a.value));
    }
  }

  lemma ResumedIsConnectMove(q: Request, u: Ui, t: Task, a: Answer)
    requires q.kind.Connect? && ConnectUi(q, u) && ConnectTask(q, t) && Answers(t, a)
    ensures ConnectMove(q, u, t, Resumed(q, u, t, a))
  {
    match t {
      case ConnectRequest => if a.Got? { ConnectedIsConnectMove(q, u, t, a.value); }
      case ConnectSwitch(_) => SwitchedIsConnectMove(q, u, t, a);
      case ConnectResult(_) => SwitchedIsConnectMove(q, u, t, a);
      case Prompted(_, _) => PromptAnsweredIsConnectMove(q, u, t);
      case Delivering(_, _) => DeliveredIsConnectMove(q, u, t); FailedIsConnectMove(q, u, t);
      case _ => OtherIsConnectMove(q, u, t, a);
    }
  }

  lemma ClickedIsConnectMove(q: Request, u: Ui, b: Button)
    requires q.kind.Connect? && ConnectUi(q, u) && (b.Change? ==> u.buttons.change) && (b.Swap? ==> u.buttons.swap)
    ensures ConnectMove(q, u, Done, Clicked(q, u, b))
  {
  }

  lemma MovedIsConnectMove(q: Request, s: Page, e: Event)
    requires q.kind.Connect? && ConnectUi(q, s.ui) && Enabled(q, s, e) && ConnectTask(q, Started(s, e))
    ensures ConnectMove(q, s.ui, Started(s, e), Moved(q, s, e))
  {
    match e {
      case Click(b) => ClickedIsConnectMove(q, s.ui, b);
      case Resume(i, a) => ResumedIsConnectMove(q, s.ui, s.tasks[i], a);
      case AccountsChanged(address) => MaybeResumeIsConnectMove(q, s.ui, Done, address);
      case _ =>
    }
  }

  // ---------- The whole page ----------

  /** `c` is a connecting handler or a delivery, whenever the view is a busy one. */
  ghost predicate ConnectInv(q: Request, s: Page, c: nat) {
    && ConnectUi(q, s.ui)
    && (forall i :: 0 <= i < |s.tasks| ==> ConnectTask(q, s.tasks[i]))
    && (forall k :: 0 <= k < |s.outbox| && s.outbox[k].Deliver? ==>
          s.outbox[k].result.Some? && Connection(q, s.outbox[k].result.value))
    && (Waiting(s.ui.view) ==> c < |s.tasks| && Connects(s.tasks[c]))
    && s.ops == []
  }

  lemma StepKeepsConnectInv(q: Request, s: Page, c: nat, e: Event)
    requires q.kind.Connect? && ConnectInv(q, s, c) && Enabled(q, s, e)
    ensures ConnectInv(q, Step(q, s, e), if Connects(Next(Moved(q, s, e))) then Slot(s, e) else c)
  {
    MovedIsConnectMove(q, s, e);
    var s' := Step(q, s, e);
    forall i | 0 <= i < |s'.tasks| ensures ConnectTask(q, s'.tasks[i]) {
      if i != Slot(s, e) { assert s'.tasks[i] == s.tasks[i]; }
    }
  }

  lemma {:induction false} RunKeepsConnectInv(q: Request, states: seq<Page>, events: seq<Event>, n: nat)
    returns (c: nat)
    requires q.kind.Connect? && IsRun(q, states, events) && n < |states|
    ensures ConnectInv(q, states[n], c)
  {
    if n == 0 {
      c := 0;
    } else {
      c := RunKeepsConnectInv(q, states, events, n - 1);
      assert StepAt(q, states, events, n - 1);
      StepKeepsConnectInv(q, states[n - 1], c, events[n - 1]);
      c := if Connects(Next(Moved(q, states[n - 1], events[n - 1]))) then Slot(states[n - 1], events[n - 1]) else c;
    }
  }

  /** On every page, a connect request that pins an address settles and posts matching addresses only, and
      never submits a wallet operation. */
  lemma ConnectDeliversThePinnedAccount(q: Request, states: seq<Page>, events: seq<Event>, n: nat)
    requires q.kind.Connect? && q.pinned != "" && IsRun(q, states, events) && n < |states|
    ensures forall k :: 0 <= k < |states[n].outbox| && states[n].outbox[k].Deliver? ==>
              states[n].outbox[k].result.Some? && Match(q.chain, AccountOf(states[n].outbox[k].result.value), q.pinned)
    ensures states[n].ui.settled.Some? ==> Match(q.chain, AccountOf(states[n].ui.settled.value), q.pinned)
    ensures states[n].ops == []
  {
    var _ := RunKeepsConnectInv(q, states, events, n);
  }

  /** When no connecting handler and no delivery is outstanding, a connect page shows a view to act on. */
  lemma ConnectNeverStuck(q: Request, states: seq<Page>, events: seq<Event>, n: nat)
    requires q.kind.Connect? && IsRun(q, states, events) && n < |states|
    requires forall i :: 0 <= i < |states[n].tasks| ==> !Connects(states[n].tasks[i])
    ensures var v := states[n].ui.view; v.Idle? || v.Failed? || v.WrongAddress? || v.Success?
  {
    var _ := RunKeepsConnectInv(q, states, events, n);
  }
}
