/**
  Which account a connect delivers, pinned or not: the one its handler was given last, by the wallet's answer, by a
  prompt, by an account event, or, where the wallet cannot prompt, by the request.
 */
module GivenAccount {
  import opened Wrappers
  import opened Approval
  import opened ConnectFlow
  import opened Outgoing

  // ---------- What the events say ----------

  /** The account an event gives the handler it runs: the wallet names one, a prompt answers with one or with none, or
      the wallet selects one. */
  function GivenBy(q: Request, s: Page, e: Event): Option<string> {
    match e
    case AccountsChanged(address) => Some(address)
    case Resume(i, Got(address)) =>
      if i < |s.tasks| && (s.tasks[i].ConnectRequest? || s.tasks[i].Prompting?) then Some(address) else None
    case Resume(i, Null) => if i < |s.tasks| && s.tasks[i].Prompting? then Some(q.pinned) else None
    case _ => None
  }

  /** The account that the handler in slot `i` was given last, in the first `n` steps. */
  ghost function LastGiven(q: Request, states: seq<Page>, events: seq<Event>, n: nat, i: nat): Option<string>
    requires n <= |events| < |states|
  {
    if n == 0 then None
    else
      var s, e := states[n - 1], events[n - 1];
      if Slot(s, e) == i && GivenBy(q, s, e).Some? then GivenBy(q, s, e)
      else LastGiven(q, states, events, n - 1, i)
  }

  /** The result for an account: the account itself, or the Bitcoin page's document with the account's key. */
  function ResultFor(chain: Chain, account: string, key: string): Value {
    if chain.Btc? then Account(account, key) else Text(account)
  }

  function AnswerText(e: Event): string {
    if e.Resume? && e.answer.Got? then e.answer.value else ""
  }

  // ---------- One handler's code ----------

  /** What a handler carries with it is the account it was given. */
  predicate Carries(q: Request, t: Task, given: Option<string>) {
    && (t.ConnectSwitch? ==> q.chain.Evm? && given == Some(t.address))
    && (t.ConnectResult? ==> q.chain.Btc? && given == Some(t.address))
    && (t.Prompting? || t.Prompted? ==> q.chain.Evm?)
    && (t.Prompted? && t.answer.None? ==> given == Some(q.pinned))
    && (t.Prompted? && t.answer.Some? && t.answer.value != "" ==> given == t.answer)
  }

  predicate GivenMove(q: Request, given: Option<string>, key: string, m: Move) {
    && Carries(q, SingleFlight.Next(m), given)
    && (m.Posted? && m.body.Deliver? ==>
          given.Some? && m.body.result == Some(ResultFor(q.chain, given.value, key)))
  }

  lemma FinishIsGivenMove(q: Request, u: Ui, address: string, key: string)
    ensures GivenMove(q, Some(address), key, FinishConnect(q, u, address))
  {
  }

  lemma AfterSwitchIsGivenMove(q: Request, u: Ui, address: string, key: string)
    requires q.chain.Evm?
    ensures GivenMove(q, Some(address), key, AfterSwitch(q, u, address))
  {
  }

  lemma ConnectedIsGivenMove(q: Request, u: Ui, address: string, key: string)
    ensures GivenMove(q, Some(address), key, Connected(q, u, address))
  {
    FinishIsGivenMove(q, u.(connected := address), address, key);
  }

  lemma MaybeResumeIsGivenMove(q: Request, u: Ui, address: string, key: string)
    requires q.kind.Connect?
    ensures GivenMove(q, Some(address), key, MaybeResume(q, u, address))
  {
    FinishIsGivenMove(q, u.(connected := address, view := Connecting, listening := false), address, key);
  }

  lemma PromptAnsweredIsGivenMove(q: Request, u: Ui, t: Task, given: Option<string>, key: string)
    requires q.kind.Connect? && u.picked == "" && t.Prompted? && Carries(q, t, given)
    ensures GivenMove(q, given, key, PromptAnswered(q, u, t.byUser, t.answer))
  {
    if t.answer.None? {
      FinishIsGivenMove(q, u.(listening := false, view := Connecting), q.pinned, key);
    } else if t.answer.value != "" {
      if t.byUser {
        FinishIsGivenMove(q, u.(connected := t.answer.value, view := Connecting), t.answer.value, key);
      } else {
        MaybeResumeIsGivenMove(q, u, t.answer.value, key);
      }
    }
  }

  lemma OtherIsGivenMove(q: Request, u: Ui, t: Task, a: Answer, given: Option<string>, key: string)
    requires q.kind.Connect? && ConnectTask(q, t) && Answers(t, a)
    requires t.Delivering? || t.Refusing?
    ensures GivenMove(q, given, key, Resumed(q, u, t, a))
  {
  }

  lemma PromptClosedIsGivenMove(q: Request, u: Ui, t: Task, a: Answer, given: Option<string>, key: string)
    requires q.chain.Evm? && t.Prompting? && Answers(t, a) && (a.Got? || a.Null?)
    requires given == (if a.Got? then Some(a.value) else Some(q.pinned))
    ensures GivenMove(q, given, key, Resumed(q, u, t, a))
  {
  }

  lemma PromptThrewIsGivenMove(q: Request, u: Ui, t: Task, a: Answer, given: Option<string>, key: string)
    requires q.chain.Evm? && t.Prompting? && a.Threw?
    ensures GivenMove(q, given, key, Resumed(q, u, t, a))
  {
  }

  /** The wallet has switched chains, or has given the account's key. */
  lemma SwitchedIsGivenMove(q: Request, u: Ui, t: Task, a: Answer, given: Option<string>)
    requires Answers(t, a) && Carries(q, t, given) && (t.ConnectSwitch? || t.ConnectResult?)
    ensures GivenMove(q, given, if a.Got? then a.value else "", Resumed(q, u, t, a))
  {
    if a.Got? && t.ConnectSwitch? { AfterSwitchIsGivenMove(q, u, t.address, a.value); }
  }

  /** What an outstanding handler was given before, together with what its answer gives it. */
  function Given(before: Option<string>, now: Option<string>): Option<string> {
    if now.Some? then now else before
  }

  lemma ResumedIsGivenMove(q: Request, s: Page, i: nat, a: Answer, before: Option<string>)
    requires q.kind.Connect? && ConnectUi(q, s.ui) && i < |s.tasks| && Answers(s.tasks[i], a)
    requires ConnectTask(q, s.tasks[i]) && Carries(q, s.tasks[i], before)
    ensures var e := Resume(i, a);
            GivenMove(q, Given(before, GivenBy(q, s, e)), AnswerText(e), Resumed(q, s.ui, s.tasks[i], a))
  {
    var t, given := s.tasks[i], Given(before, GivenBy(q, s, Resume(i, a)));
    var key := AnswerText(Resume(i, a));
    match t {
      case ConnectRequest => if a.Got? { ConnectedIsGivenMove(q, s.ui, a.value, key); }
      case ConnectSwitch(_) => SwitchedIsGivenMove(q, s.ui, t, a, given);
      case ConnectResult(_) => SwitchedIsGivenMove(q, s.ui, t, a, given);
      case Prompting(_) =>
        if a.Threw? {
          PromptThrewIsGivenMove(q, s.ui, t, a, given, key);
        } else {
          PromptClosedIsGivenMove(q, s.ui, t, a, given, key);
        }
      case Prompted(_, _) => PromptAnsweredIsGivenMove(q, s.ui, t, given, key);
      case _ => OtherIsGivenMove(q, s.ui, t, a, given, key);
    }
  }

  lemma ClickedIsGivenMove(q: Request, u: Ui, b: Button, given: Option<string>)
    requires q.kind.Connect?
    ensures GivenMove(q, given, "", Clicked(q, u, b))
  {
  }

  lemma MovedIsGivenMove(q: Request, s: Page, e: Event, before: Option<string>)
    requires q.kind.Connect? && ConnectUi(q, s.ui) && Enabled(q, s, e)
    requires e.Resume? ==> ConnectTask(q, s.tasks[e.slot]) && Carries(q, s.tasks[e.slot], before)
    ensures GivenMove(q, Given(before, GivenBy(q, s, e)), AnswerText(e), Moved(q, s, e))
  {
    match e {
      case Click(b) => ClickedIsGivenMove(q, s.ui, b, before);
      case Resume(i, a) => ResumedIsGivenMove(q, s, i, a, before);
      case AccountsChanged(address) => MaybeResumeIsGivenMove(q, s.ui, address, "");
      case _ =>
    }
  }

  // ---------- Whole runs ----------

  lemma StepCarries(q: Request, states: seq<Page>, events: seq<Event>, n: nat, i: nat)
    requires q.kind.Connect? && IsRun(q, states, events) && n < |events| && i < |states[n + 1].tasks|
    requires i < |states[n].tasks| ==> Carries(q, states[n].tasks[i], LastGiven(q, states, events, n, i))
    ensures StepAt(q, states, events, n) && Carries(q, states[n + 1].tasks[i], LastGiven(q, states, events, n + 1, i))
    ensures Slot(states[n], events[n]) == i ==>
              var m := Moved(q, states[n], events[n]);
              GivenMove(q, LastGiven(q, states, events, n + 1, i), AnswerText(events[n]), m)
  {
    var s, e := states[n], events[n];
    assert StepAt(q, states, events, n);
    var c := RunKeepsConnectInv(q, states, events, n);
    if Slot(s, e) == i {
      MovedIsGivenMove(q, s, e, LastGiven(q, states, events, n, i));
    } else {
      assert states[n + 1].tasks[i] == s.tasks[i];
    }
  }

  lemma {:induction false} RunCarries(q: Request, states: seq<Page>, events: seq<Event>, n: nat, i: nat)
    requires q.kind.Connect? && IsRun(q, states, events) && n < |states| && i < |states[n].tasks|
    ensures Carries(q, states[n].tasks[i], LastGiven(q, states, events, n, i))
  {
    assert StepAt(q, states, events, n - 1);
    if i < |states[n - 1].tasks| { RunCarries(q, states, events, n - 1, i); }
    StepCarries(q, states, events, n - 1, i);
  }

  /** Step `c` runs handler `i`, which has by then been given `account`, and posts its result as body `k`. */
  ghost predicate DeliversAt(q: Request, states: seq<Page>, events: seq<Event>, c: nat, k: nat, i: nat,
                             account: string) {
    && c < |events| < |states| && |states[c].outbox| == k && Slot(states[c], events[c]) == i
    && LastGiven(q, states, events, c + 1, i) == Some(account)
  }

  /** In every run of a connect, whatever it pins: each result posted is that of one handler, for the account which that
      handler was given last. On the Bitcoin page the wallet has just answered with the key that goes with it. */
  lemma {:induction false} DeliversTheGivenAccount(q: Request, states: seq<Page>, events: seq<Event>, n: nat, k: nat)
    returns (c: nat, i: nat, account: string)
    requires q.kind.Connect? && IsRun(q, states, events) && n < |states|
    requires k < |states[n].outbox| && states[n].outbox[k].Deliver?
    ensures c < n && DeliversAt(q, states, events, c, k, i, account)
    ensures !q.chain.Btc? ==> states[n].outbox[k].result == Some(Text(account))
    ensures q.chain.Btc? ==>
              && i < |states[c].tasks| && states[c].tasks[i] == ConnectResult(account) && events[c].answer.Got?
              && states[n].outbox[k].result == Some(Account(account, events[c].answer.value))
  {
    var s, e := states[n - 1], events[n - 1];
    assert StepAt(q, states, events, n - 1);
    if k < |s.outbox| {
      c, i, account := DeliversTheGivenAccount(q, states, events, n - 1, k);
    } else {
      c, i := n - 1, Slot(s, e);
      account := PostsTheGivenAccount(q, states, events, n - 1);
    }
  }

  lemma PostsTheGivenAccount(q: Request, states: seq<Page>, events: seq<Event>, n: nat) returns (account: string)
    requires q.kind.Connect? && IsRun(q, states, events) && n < |events|
    requires Enabled(q, states[n], events[n]) && Moved(q, states[n], events[n]).Posted?
    requires Moved(q, states[n], events[n]).body.Deliver?
    ensures var i, body := Slot(states[n], events[n]), Moved(q, states[n], events[n]).body;
            && LastGiven(q, states, events, n + 1, i) == Some(account)
            && body.result == Some(ResultFor(q.chain, account, AnswerText(events[n])))
            && (q.chain.Btc? ==> && i < |states[n].tasks| && states[n].tasks[i] == ConnectResult(account)
                                 && events[n].answer.Got?)
  {
    var s, e, i := states[n], events[n], Slot(states[n], events[n]);
    assert StepAt(q, states, events, n);
    if i < |s.tasks| { RunCarries(q, states, events, n, i); }
    StepCarries(q, states, events, n, i);
    account := LastGiven(q, states, events, n + 1, i).value;
    var c := RunKeepsConnectInv(q, states, events, n);
    if q.chain.Btc? { BitcoinPosts(q, s, e); }
  }

  /** The Bitcoin page posts a result only when it has the key. */
  lemma BitcoinPosts(q: Request, s: Page, e: Event)
    requires q.kind.Connect? && q.chain.Btc? && Enabled(q, s, e)
    requires Moved(q, s, e).Posted? && Moved(q, s, e).body.Deliver?
    requires e.Resume? ==> ConnectTask(q, s.tasks[e.slot]) && !s.tasks[e.slot].ConnectSwitch?
    ensures e.Resume? && s.tasks[e.slot].ConnectResult? && e.answer.Got?
  {
  }

  // ---------- Exactly when one is delivered ----------

  /** The wallet has given all that the result takes: on the EVM page the chain, on the Bitcoin page the key, and on the
      TRON page a fitting account. */
  predicate Completes(q: Request, s: Page, e: Event) {
    && e.Resume? && e.slot < |s.tasks| && e.answer.Got?
    && match q.chain
       case Evm => s.tasks[e.slot].ConnectSwitch?
       case Btc => s.tasks[e.slot].ConnectResult?
       case Tron => s.tasks[e.slot].ConnectRequest? && Pinned(q, e.answer.value)
  }

  predicate Delivers(m: Move) {
    m.Posted? && m.body.Deliver?
  }

  lemma MaybeResumeDelivers(q: Request, u: Ui, address: string)
    requires q.kind.Connect? && !q.chain.Tron?
    ensures !Delivers(MaybeResume(q, u, address))
  {
  }

  lemma ConnectedDelivers(q: Request, u: Ui, address: string)
    requires q.kind.Connect?
    ensures Delivers(Connected(q, u, address)) <==> q.chain.Tron? && Pinned(q, address)
  {
  }

  lemma PromptAnsweredDelivers(q: Request, u: Ui, byUser: bool, answer: Option<string>)
    requires q.kind.Connect? && q.chain.Evm?
    ensures !Delivers(PromptAnswered(q, u, byUser, answer))
  {
    if answer.Some? && !byUser { MaybeResumeDelivers(q, u, answer.value); }
  }

  lemma SwitchedDelivers(q: Request, u: Ui, t: Task, a: Answer, given: Option<string>)
    requires q.kind.Connect? && Answers(t, a) && Carries(q, t, given) && (t.ConnectSwitch? || t.ConnectResult?)
    ensures Delivers(Resumed(q, u, t, a)) <==> a.Got?
  {
  }

  lemma ResumedDelivers(q: Request, s: Page, i: nat, a: Answer, given: Option<string>)
    requires q.kind.Connect? && i < |s.tasks| && Answers(s.tasks[i], a)
    requires ConnectTask(q, s.tasks[i]) && Carries(q, s.tasks[i], given)
    ensures Delivers(Resumed(q, s.ui, s.tasks[i], a)) <==> Completes(q, s, Resume(i, a))
  {
    match s.tasks[i] {
      case ConnectRequest => if a.Got? { ConnectedDelivers(q, s.ui, a.value); }
      case ConnectSwitch(_) => SwitchedDelivers(q, s.ui, s.tasks[i], a, given);
      case ConnectResult(_) => SwitchedDelivers(q, s.ui, s.tasks[i], a, given);
      case Prompted(byUser, answer) => PromptAnsweredDelivers(q, s.ui, byUser, answer);
      case _ =>
    }
  }

  lemma MovedDelivers(q: Request, s: Page, e: Event, given: Option<string>)
    requires q.kind.Connect? && Enabled(q, s, e)
    requires e.Resume? ==> ConnectTask(q, s.tasks[e.slot]) && Carries(q, s.tasks[e.slot], given)
    ensures Delivers(Moved(q, s, e)) <==> Completes(q, s, e)
  {
    match e {
      case Resume(i, a) => ResumedDelivers(q, s, i, a, given);
      case AccountsChanged(address) => MaybeResumeDelivers(q, s.ui, address);
      case _ =>
    }
  }

  lemma CompletionStopsListening(q: Request, s: Page, e: Event)
    requires q.kind.Connect? && !q.chain.Btc? && Enabled(q, s, e) && Completes(q, s, e)
    ensures !Moved(q, s, e).ui.listening
  {
  }

  /** In every run of a connect a result is posted exactly when the wallet has given all that it takes. */
  lemma DeliversIff(q: Request, states: seq<Page>, events: seq<Event>, n: nat)
    requires q.kind.Connect? && IsRun(q, states, events) && n < |events|
    ensures var was, now := states[n].outbox, states[n + 1].outbox;
            && (|now| == |was| + 1 && now[|was|].Deliver? <==> Completes(q, states[n], events[n]))
            && (Completes(q, states[n], events[n]) && !q.chain.Btc? ==> !states[n + 1].ui.listening)
  {
    var s, e := states[n], events[n];
    assert StepAt(q, states, events, n);
    var c := RunKeepsConnectInv(q, states, events, n);
    if e.Resume? {
      RunCarries(q, states, events, n, e.slot);
      MovedDelivers(q, s, e, LastGiven(q, states, events, n, e.slot));
      if Completes(q, s, e) && !q.chain.Btc? { CompletionStopsListening(q, s, e); }
    } else {
      MovedDelivers(q, s, e, None);
    }
  }

  /** In every run of a connect, a click on the action starts a handler that asks the wallet for its account, and takes
      the button away. */
  lemma ActionConnects(q: Request, states: seq<Page>, events: seq<Event>, n: nat)
    requires q.kind.Connect? && IsRun(q, states, events) && n < |events| && events[n] == Click(Go)
    ensures var s, t := states[n], states[n + 1];
            && t.tasks == s.tasks + [ConnectRequest] && t.ui.view.Connecting? && !t.ui.buttons.go
            && t.outbox == s.outbox && t.ui.settled == s.ui.settled
  {
    assert StepAt(q, states, events, n);
  }

  lemma MismatchAsks(q: Request, u: Ui)
    ensures var m := OpenPrompt(q, EnterWrongAddress(q, u), false);
            && m.Wait? && m.ui.view.WrongAddress?
            && m.next == if q.chain.Evm? && !u.unsupported && !u.changing && !u.finished then Prompting(false) else Done
  {
  }

  lemma FinishLeads(q: Request, u: Ui, account: string)
    ensures var m := FinishConnect(q, u, account);
            && (q.chain.Evm? ==> m.Wait? && m.next == ConnectSwitch(account) && m.ui.view.Switching?)
            && (q.chain.Btc? ==> m.Wait? && m.next == ConnectResult(account) && !m.ui.listening)
  {
  }

  lemma ConnectedGoesOn(q: Request, u: Ui, account: string)
    ensures var m := Connected(q, u, account);
            && (!Pinned(q, account) ==>
                  && m.Wait? && m.ui.view.WrongAddress?
                  && m.next == if q.chain.Evm? && !u.unsupported && !u.changing && !u.finished
                               then Prompting(false) else Done)
            && (Pinned(q, account) && q.chain.Evm? ==>
                  m.Wait? && m.next == ConnectSwitch(account) && m.ui.view.Switching?)
            && (Pinned(q, account) && q.chain.Btc? ==>
                  m.Wait? && m.next == ConnectResult(account) && !m.ui.listening)
  {
    if Pinned(q, account) {
      FinishLeads(q, u.(connected := account), account);
    } else {
      MismatchAsks(q, u.(connected := account));
    }
  }

  /** And a handler that is told its account goes on with it, unless it is not the pinned one; that ends in the
      wrong-address view, where the wallet is asked to change accounts if it can be. */
  lemma ToldAccountGoesOn(q: Request, states: seq<Page>, events: seq<Event>, n: nat, i: nat, account: string)
    requires q.kind.Connect? && IsRun(q, states, events) && n < |events| && events[n] == Resume(i, Got(account))
    requires i < |states[n].tasks| && states[n].tasks[i].ConnectRequest?
    ensures i < |states[n + 1].tasks|
    ensures !Pinned(q, account) ==>
              var u := states[n].ui;
              && states[n + 1].ui.view.WrongAddress?
              && states[n + 1].tasks[i] == (if q.chain.Evm? && !u.unsupported && !u.changing && !u.finished
                                            then Prompting(false) else Done)
    ensures Pinned(q, account) && q.chain.Evm? ==>
              states[n + 1].tasks[i] == ConnectSwitch(account) && states[n + 1].ui.view.Switching?
    ensures Pinned(q, account) && q.chain.Btc? ==>
              states[n + 1].tasks[i] == ConnectResult(account) && !states[n + 1].ui.listening
  {
    assert StepAt(q, states, events, n);
    ConnectedGoesOn(q, states[n].ui, account);
  }

  /** The account with which news makes a connect go on, if it does: one that matches, for as long as the page shows the
      wrong-address view and the user has not rejected; whatever account the user picked; and the pinned one, if the
      wallet cannot be asked. */
  function GoesOnWith(q: Request, s: Page, e: Event): Option<string> {
    match e
    case AccountsChanged(address) => if Waits(q, s) && Fitting(q, address) then Some(address) else None
    case Resume(i, _) =>
      if i >= |s.tasks| || !s.tasks[i].Prompted? then None
      else
        (match s.tasks[i]
         case Prompted(true, Some(address)) => if address != "" && !s.ui.finished then Some(address) else None
         case Prompted(false, Some(address)) => if Waits(q, s) && Fitting(q, address) then Some(address) else None
         case Prompted(false, None) => if Waits(q, s) then Some(q.pinned) else None
         case _ => None)
    case _ => None
  }

  predicate Waits(q: Request, s: Page) {
    s.ui.view.WrongAddress? && !s.ui.finished
  }

  predicate Fitting(q: Request, address: string) {
    address != "" && Match(q.chain, address, q.pinned)
  }

  /** Where a connect stands that has just gone on with an account. */
  function Onward(q: Request, address: Option<string>): Task {
    if address.None? then Done
    else if q.chain.Evm? then ConnectSwitch(address.value)
    else ConnectResult(address.value)
  }

  lemma FinishGoesOn(q: Request, u: Ui, address: string)
    requires !q.chain.Tron?
    ensures FinishConnect(q, u, address).Wait? && FinishConnect(q, u, address).next == Onward(q, Some(address))
  {
  }

  lemma MaybeResumeGoesOn(q: Request, s: Page, address: string)
    requires q.kind.Connect? && !q.chain.Tron? && s.ui.picked == ""
    ensures var m := MaybeResume(q, s.ui, address);
            m.Wait? && m.next == Onward(q, if Waits(q, s) && Fitting(q, address) then Some(address) else None)
  {
    FinishGoesOn(q, s.ui.(connected := address, view := Connecting, listening := false), address);
  }

  lemma AnswerGoesOn(q: Request, s: Page, byUser: bool, answer: Option<string>, i: nat)
    requires q.kind.Connect? && q.chain.Evm? && s.ui.picked == ""
    requires i < |s.tasks| && s.tasks[i] == Prompted(byUser, answer)
    ensures var m := PromptAnswered(q, s.ui, byUser, answer);
            m.Wait? && m.next == Onward(q, GoesOnWith(q, s, Resume(i, Tick)))
  {
    if answer.None? {
      FinishGoesOn(q, s.ui.(listening := false, view := Connecting), q.pinned);
    } else if byUser {
      FinishGoesOn(q, s.ui.(connected := answer.value, view := Connecting), answer.value);
    } else {
      MaybeResumeGoesOn(q, s, answer.value);
    }
  }

  /** In every run of a connect: exactly what news of an account, from a listener or from a prompt, makes of it. */
  lemma NewsGoesOn(q: Request, states: seq<Page>, events: seq<Event>, n: nat)
    requires q.kind.Connect? && IsRun(q, states, events) && n < |events|
    requires events[n].AccountsChanged? || (events[n].Resume? && events[n].slot < |states[n].tasks|
                                            && states[n].tasks[events[n].slot].Prompted?)
    ensures var i := Slot(states[n], events[n]);
            i < |states[n + 1].tasks| && states[n + 1].tasks[i] == Onward(q, GoesOnWith(q, states[n], events[n]))
  {
    var s, e := states[n], events[n];
    assert StepAt(q, states, events, n);
    var c := RunKeepsConnectInv(q, states, events, n);
    if e.Resume? {
      RunCarries(q, states, events, n, e.slot);
      AnswerGoesOn(q, s, s.tasks[e.slot].byUser, s.tasks[e.slot].answer, e.slot);
    } else {
      MaybeResumeGoesOn(q, s, e.address);
    }
  }
}
