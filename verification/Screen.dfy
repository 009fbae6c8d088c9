/**
  What the user and the wallet can do next: in every run of a sign or transaction request the buttons are those that the
  view calls for, and the page listens to the wallet when it says it does. So a page with nothing outstanding is one
  the user can act on.
 */
module Screen {
  import opened Wrappers
  import opened Approval
  import opened SingleFlight
  import opened ConnectFlow
  import opened Outgoing

  // ---------- Sign and transaction requests ----------

  /** The page can ask the wallet to change accounts. */
  predicate CanAsk(q: Request, u: Ui) {
    q.chain.Evm? && !u.unsupported && !u.changing
  }

  /** Once the page has met the wallet: the buttons and the two listeners. */
  predicate Drawn(q: Request, u: Ui) {
    && (u.buttons.go <==> u.view.Idle? || u.view.Failed?)
    && (u.buttons.change <==> u.view.WrongAddress? && CanAsk(q, u))
    && (u.buttons.swap <==> (u.view.Idle? || u.view.Failed?) && u.connected != "" && CanAsk(q, u))
    && (u.buttons.reject <==> !u.view.Success?)
    && (u.following <==> !u.finished)
    && (u.view.WrongAddress? && !u.finished ==> u.listening)
  }

  /** There is an account the request is to be signed with, and a handler that reads the account again knows one. */
  predicate Meant(q: Request, u: Ui, t: Task) {
    t.Rereading? ==> Expected(q, u) != ""
  }

  predicate DrawnMove(q: Request, u: Ui, m: Move) {
    && Drawn(q, m.ui) && Meant(q, m.ui, Next(m)) && m.ui.wallet && !m.ui.awaitingWallet
    && (Expected(q, u) != "" ==> Expected(q, m.ui) != "")
  }

  /** The page has met its wallet. */
  predicate Met(q: Request, u: Ui) {
    Drawn(q, u) && u.wallet && !u.awaitingWallet
  }

  lemma PaintDraws(q: Request, u: Ui)
    requires !q.kind.Connect? && u.wallet && (u.following <==> !u.finished)
    requires (u.view.WrongAddress? && !u.finished ==> u.listening) && !u.view.Switching?
    ensures Drawn(q, Paint(q, u))
  {
  }

  lemma WrongAddressIsDrawnMove(q: Request, u: Ui, connected: string)
    requires !q.kind.Connect? && Met(q, u) && Expected(q, u) != ""
    ensures DrawnMove(q, u, Wait(EnterWrongAddress(q, u.(connected := connected)), Done))
    ensures DrawnMove(q, u, OpenPrompt(q, EnterWrongAddress(q, u.(connected := connected)), false))
  {
  }

  lemma GateMeansOne(q: Request, account: string, expected: string)
    requires Gated(q, account, expected)
    ensures expected != ""
  {
    MatchesItself(q.chain, account);
  }

  lemma SigningIsDrawnMove(q: Request, u: Ui, account: string)
    requires !q.kind.Connect? && Met(q, u)
    ensures Met(q, Paint(q, u.(connected := account, view := Signing)))
    ensures Expected(q, Paint(q, u.(connected := account, view := Signing))) == Expected(q, u)
  {
    PaintDraws(q, u.(connected := account, view := Signing));
  }

  lemma SubmitIsDrawnMove(q: Request, u: Ui, account: string)
    requires !q.kind.Connect? && Met(q, u)
    ensures DrawnMove(q, u, Submit(q, u, account))
  {
    if Gated(q, account, Expected(q, u)) {
      GateMeansOne(q, account, Expected(q, u));
      WrongAddressIsDrawnMove(q, u, account);
    } else {
      SigningIsDrawnMove(q, u, account);
    }
  }

  lemma RecheckedIsDrawnMove(q: Request, u: Ui, connected: string, matches: bool, denied: bool)
    requires !q.kind.Connect? && Met(q, u) && Expected(q, u) != "" && Busy(u.view)
    ensures DrawnMove(q, u, Rechecked(q, u.(connected := connected), matches, denied))
  {
    WrongAddressIsDrawnMove(q, u, connected);
  }

  lemma RereadIsDrawnMove(q: Request, u: Ui, t: Task, a: Answer)
    requires !q.kind.Connect? && Met(q, u) && SignTask(u, t) && Meant(q, u, t) && t.Rereading?
    ensures DrawnMove(q, u, Reread(q, u, t.expected, t.denied, a))
  {
    var connected := if a.Got? && a.value != "" then a.value else u.connected;
    RecheckedIsDrawnMove(q, u, connected, Match(q.chain, connected, t.expected), t.denied);
  }

  lemma TakeUpIsDrawnMove(q: Request, u: Ui, connected: string, matches: bool)
    requires !q.kind.Connect? && Met(q, u) && SignUi(u) && u.view.WrongAddress?
    ensures DrawnMove(q, u, TakeUp(q, u.(connected := connected), matches))
  {
  }

  lemma MaybeResumeIsDrawnMove(q: Request, u: Ui, address: string)
    requires !q.kind.Connect? && Met(q, u) && SignUi(u)
    ensures DrawnMove(q, u, MaybeResume(q, u, address))
  {
    if u.view.WrongAddress? { TakeUpIsDrawnMove(q, u, address, Match(q.chain, address, Expected(q, u))); }
  }

  lemma PickedIsDrawnMove(q: Request, u: Ui, address: string)
    requires !q.kind.Connect? && Met(q, u) && SignUi(u) && address != ""
    ensures DrawnMove(q, u, Wait(Paint(q, u.(connected := address, picked := address)), Done))
  {
    PaintDraws(q, u.(connected := address, picked := address));
  }

  lemma PromptAnsweredIsDrawnMove(q: Request, u: Ui, byUser: bool, answer: Option<string>)
    requires !q.kind.Connect? && Met(q, u) && SignUi(u)
    ensures DrawnMove(q, u, PromptAnswered(q, u, byUser, answer))
  {
    if answer.Some? && answer.value != "" {
      if byUser { PickedIsDrawnMove(q, u, answer.value); } else { MaybeResumeIsDrawnMove(q, u, answer.value); }
    }
  }

  lemma PromptClosedIsDrawnMove(q: Request, u: Ui, byUser: bool, a: Answer)
    requires !q.kind.Connect? && Met(q, u) && SignUi(u) && Answers(Prompting(byUser), a)
    ensures DrawnMove(q, u, PromptClosed(q, u, byUser, a))
  {
    PaintDraws(q, u.(changing := false, unsupported := u.unsupported || a.Null? || a == Threw(METHOD_NOT_FOUND)));
  }

  lemma OtherIsDrawnMove(q: Request, u: Ui, t: Task, a: Answer)
    requires !q.kind.Connect? && Met(q, u) && Answers(t, a)
    requires t.Operating? || t.Failing? || t.Delivering? || t.Refusing?
    ensures DrawnMove(q, u, Resumed(q, u, t, a))
  {
  }

  lemma ResumedIsDrawnMove(q: Request, u: Ui, t: Task, a: Answer)
    requires !q.kind.Connect? && Met(q, u) && SignUi(u) && SignTask(u, t) && Meant(q, u, t) && Answers(t, a)
    ensures DrawnMove(q, u, Resumed(q, u, t, a))
  {
    match t {
      case AcquireCurrent => if a.Got? { SubmitIsDrawnMove(q, u, a.value); }
      case AcquireRequest => if a.Got? { SubmitIsDrawnMove(q, u, a.value); }
      case Rereading(_, _) => RereadIsDrawnMove(q, u, t, a);
      case Prompting(byUser) => PromptClosedIsDrawnMove(q, u, byUser, a);
      case Prompted(byUser, answer) => PromptAnsweredIsDrawnMove(q, u, byUser, answer);
      case _ => OtherIsDrawnMove(q, u, t, a);
    }
  }

  lemma ClickedIsDrawnMove(q: Request, u: Ui, b: Button)
    requires !q.kind.Connect? && Met(q, u) && SignUi(u)
    ensures DrawnMove(q, u, Clicked(q, u, b))
  {
    PaintDraws(q, u.(changing := true));
    PaintDraws(q, u.(view := Connecting));
  }

  lemma FollowedIsDrawnMove(q: Request, u: Ui, address: string)
    requires !q.kind.Connect? && Met(q, u) && SignUi(u)
    ensures DrawnMove(q, u, Wait(FollowSelected(q, u, address), Done))
  {
  }

  lemma MovedIsDrawnMove(q: Request, s: Page, e: Event)
    requires !q.kind.Connect? && Met(q, s.ui) && SignUi(s.ui) && Enabled(q, s, e)
    requires SignTask(s.ui, Started(s, e)) && Meant(q, s.ui, Started(s, e))
    ensures DrawnMove(q, s.ui, Moved(q, s, e))
  {
    match e {
      case Click(b) => ClickedIsDrawnMove(q, s.ui, b);
      case Resume(i, a) => ResumedIsDrawnMove(q, s.ui, s.tasks[i], a);
      case AccountsChanged(address) => MaybeResumeIsDrawnMove(q, s.ui, address);
      case Followed(address) => FollowedIsDrawnMove(q, s.ui, address);
      case _ =>
    }
  }

  /** The page waits for a wallet: nothing can be clicked and nothing runs. */
  predicate Unmet(s: Page) {
    && s.ui.awaitingWallet && s.ui.view.Idle? && s.ui.buttons == Buttons(false, false, false, false)
    && !s.ui.listening && !s.ui.following && !s.ui.finished
    && forall i :: 0 <= i < |s.tasks| ==> s.tasks[i].Done?
  }

  ghost predicate ScreenInv(q: Request, s: Page) {
    if s.ui.awaitingWallet then Unmet(s)
    else Met(q, s.ui) && forall i :: 0 <= i < |s.tasks| ==> Meant(q, s.ui, s.tasks[i])
  }

  lemma UnmetStep(q: Request, s: Page, e: Event)
    requires !q.kind.Connect? && Unmet(s) && Enabled(q, s, e)
    ensures ScreenInv(q, Step(q, s, e))
  {
    var s' := Step(q, s, e);
    match e {
      case LateWallet(address) =>
        PaintDraws(q, s.ui.(awaitingWallet := false, connected := address, following := true));
      case _ =>
    }
    assert forall i :: 0 <= i < |s'.tasks| ==> s'.tasks[i].Done?;
  }

  lemma StepKeepsScreen(q: Request, s: Page, w: nat, e: Event)
    requires !q.kind.Connect? && SignInv(s, w) && ScreenInv(q, s) && Enabled(q, s, e)
    ensures ScreenInv(q, Step(q, s, e))
  {
    if s.ui.awaitingWallet {
      UnmetStep(q, s, e);
    } else {
      assert SignTask(s.ui, Started(s, e));
      MovedIsDrawnMove(q, s, e);
      var s' := Step(q, s, e);
      forall i | 0 <= i < |s'.tasks| ensures Meant(q, s'.ui, s'.tasks[i]) {
        if i != Slot(s, e) { assert s'.tasks[i] == s.tasks[i] && Meant(q, s.ui, s.tasks[i]); }
      }
    }
  }

  lemma StartsDrawn(q: Request, connected: string, wallet: bool)
    requires !q.kind.Connect?
    ensures ScreenInv(q, Loaded(q, connected, wallet))
  {
  }

  lemma {:induction false} RunKeepsScreen(q: Request, states: seq<Page>, events: seq<Event>, n: nat)
    requires !q.kind.Connect? && IsRun(q, states, events) && n < |states|
    ensures ScreenInv(q, states[n])
  {
    if n == 0 {
      var connected: string, wallet: bool :| states[0] == Loaded(q, connected, wallet);
      StartsDrawn(q, connected, wallet);
    } else {
      RunKeepsScreen(q, states, events, n - 1);
      assert StepAt(q, states, events, n - 1);
      var w, _ := RunKeepsSignInv(q, states, events, n - 1);
      StepKeepsScreen(q, states[n - 1], w, events[n - 1]);
    }
  }

  /** In every run, once the page has met the wallet: exactly the view decides what can be clicked, and the page hears
      of account changes in the wrong-address view until the request is rejected. */
  lemma ButtonsShow(q: Request, states: seq<Page>, events: seq<Event>, n: nat)
    requires !q.kind.Connect? && IsRun(q, states, events) && n < |states| && !states[n].ui.awaitingWallet
    ensures var s, v := states[n], states[n].ui.view;
            var ask := q.chain.Evm? && !s.ui.unsupported && !s.ui.changing;
            && (Enabled(q, s, Click(Go)) <==> v.Idle? || v.Failed?)
            && (Enabled(q, s, Click(Change)) <==> v.WrongAddress? && ask)
            && (Enabled(q, s, Click(Swap)) <==> (v.Idle? || v.Failed?) && s.ui.connected != "" && ask)
            && (Enabled(q, s, Click(Reject)) <==> !v.Success?)
            && (v.WrongAddress? && !s.ui.finished && !q.chain.Tron? ==>
                  forall address :: Enabled(q, s, AccountsChanged(address)))
  {
    RunKeepsScreen(q, states, events, n);
  }

  /** So with no wallet or bridge call of a handler outstanding the page shows success, or the user can click Reject
      and, unless the wallet is on a wrong account, the action. */
  lemma CanAct(q: Request, states: seq<Page>, events: seq<Event>, n: nat)
    requires !q.kind.Connect? && IsRun(q, states, events) && n < |states| && !states[n].ui.awaitingWallet
    requires forall i :: 0 <= i < |states[n].tasks| ==> !InWallet(states[n].tasks[i]) && !states[n].tasks[i].Delivering?
    ensures var s, v := states[n], states[n].ui.view;
            v.Success? || (Enabled(q, s, Click(Reject)) && (v.WrongAddress? || Enabled(q, s, Click(Go))))
  {
    NeverStuck(q, states, events, n);
    ButtonsShow(q, states, events, n);
  }

  // ---------- Connect requests ----------

  /** In the views that wait for the user the buttons are all there; a resumed connect may leave some on while it is at
      work. */
  predicate Offered(q: Request, u: Ui) {
    && u.wallet && !u.awaitingWallet && u.picked == ""
    && (u.view.Idle? || u.view.Failed? || u.view.WrongAddress? ==> u.buttons.go && u.buttons.reject)
    && (u.view.Idle? ==> (u.buttons.swap <==> u.connected != "" && q.pinned == "" && CanAsk(q, u)))
    && (u.view.Success? ==> u.buttons == Buttons(false, false, false, false))
    && (u.following <==> !u.finished)
  }

  lemma PaintOffers(q: Request, u: Ui)
    requires q.kind.Connect? && u.wallet && !u.awaitingWallet && u.picked == "" && (u.following <==> !u.finished)
    ensures Offered(q, Paint(q, u))
  {
  }

  lemma AfterSwitchOffers(q: Request, u: Ui, address: string)
    requires q.kind.Connect? && Offered(q, u)
    ensures Offered(q, AfterSwitch(q, u, address).ui)
  {
  }

  lemma FinishOffers(q: Request, u: Ui, address: string)
    requires q.kind.Connect? && Offered(q, u)
    ensures Offered(q, FinishConnect(q, u, address).ui)
  {
    PaintOffers(q, u.(connected := address, view := Switching));
    if !q.chain.Evm? { AfterSwitchOffers(q, u.(connected := address), address); }
  }

  lemma MismatchToldOffers(q: Request, u: Ui, address: string)
    requires q.kind.Connect? && Offered(q, u)
    ensures Offered(q, OpenPrompt(q, EnterWrongAddress(q, u.(connected := address)), false).ui)
  {
    PaintOffers(q, u.(connected := address, view := WrongAddress));
    PaintOffers(q, EnterWrongAddress(q, u.(connected := address)).(changing := true));
  }

  lemma ConnectingOffers(q: Request, u: Ui, address: string)
    requires q.kind.Connect? && Offered(q, u)
    ensures Offered(q, ConnectAs(q, u, address).ui)
  {
    FinishOffers(q, u.(view := Connecting), address);
  }

  lemma MaybeResumeOffers(q: Request, u: Ui, address: string)
    requires q.kind.Connect? && Offered(q, u)
    ensures Offered(q, MaybeResume(q, u, address).ui)
  {
    if u.view.WrongAddress? {
      PaintOffers(q, u.(connected := address));
      ConnectingOffers(q, u.(connected := address, view := Connecting, listening := false), address);
    }
  }

  lemma PromptAnsweredOffers(q: Request, u: Ui, byUser: bool, answer: Option<string>)
    requires q.kind.Connect? && Offered(q, u)
    ensures Offered(q, PromptAnswered(q, u, byUser, answer).ui)
  {
    if answer.None? {
      ConnectingOffers(q, u.(listening := false), Expected(q, u));
    } else if byUser {
      PickedOffers(q, u, answer.value);
    } else {
      MaybeResumeOffers(q, u, answer.value);
    }
  }

  lemma PickedOffers(q: Request, u: Ui, address: string)
    requires q.kind.Connect? && Offered(q, u)
    ensures Offered(q, ConnectAs(q, u.(connected := address), address).ui)
  {
    ConnectingOffers(q, u, address);
    assert FinishConnect(q, u.(connected := address, view := Connecting), address)
      == FinishConnect(q, u.(view := Connecting), address);
  }

  lemma PromptClosedOffers(q: Request, u: Ui, byUser: bool, a: Answer)
    requires q.kind.Connect? && Offered(q, u) && Answers(Prompting(byUser), a)
    ensures Offered(q, PromptClosed(q, u, byUser, a).ui)
  {
    PaintOffers(q, u.(changing := false, unsupported := u.unsupported || a.Null? || a == Threw(METHOD_NOT_FOUND)));
  }

  lemma ConnectedOffers(q: Request, u: Ui, address: string)
    requires q.kind.Connect? && Offered(q, u)
    ensures Offered(q, Connected(q, u, address).ui)
  {
    if q.pinned != "" && !Match(q.chain, address, q.pinned) {
      MismatchToldOffers(q, u, address);
    } else {
      FinishOffers(q, u, address);
      assert FinishConnect(q, u.(connected := address), address) == FinishConnect(q, u, address);
    }
  }

  lemma OtherOffers(q: Request, u: Ui, t: Task, a: Answer)
    requires q.kind.Connect? && Offered(q, u) && Answers(t, a)
    requires t.ConnectSwitch? || t.ConnectResult? || t.Delivering? || t.Refusing?
    ensures Offered(q, Resumed(q, u, t, a).ui)
  {
    PaintOffers(q, u.(view := Failed));
    PaintOffers(q, u.(view := Success));
    if t.ConnectSwitch? { AfterSwitchOffers(q, u, t.address); }
  }

  lemma ResumedOffers(q: Request, u: Ui, t: Task, a: Answer)
    requires q.kind.Connect? && Offered(q, u) && ConnectTask(q, t) && Answers(t, a)
    ensures Offered(q, Resumed(q, u, t, a).ui)
  {
    match t {
      case ConnectRequest => if a.Got? { ConnectedOffers(q, u, a.value); } else { PaintOffers(q, u.(view := Failed)); }
      case Prompting(byUser) => PromptClosedOffers(q, u, byUser, a);
      case Prompted(byUser, answer) => PromptAnsweredOffers(q, u, byUser, answer);
      case _ => OtherOffers(q, u, t, a);
    }
  }

  lemma ClickedOffers(q: Request, u: Ui, b: Button)
    requires q.kind.Connect? && Offered(q, u)
    ensures Offered(q, Clicked(q, u, b).ui)
  {
    PaintOffers(q, u.(view := Connecting));
    PaintOffers(q, u.(changing := true));
  }

  lemma MovedOffers(q: Request, s: Page, e: Event)
    requires q.kind.Connect? && Offered(q, s.ui) && Enabled(q, s, e) && ConnectTask(q, Started(s, e))
    ensures Offered(q, Moved(q, s, e).ui)
  {
    match e {
      case Click(b) => ClickedOffers(q, s.ui, b);
      case Resume(i, a) => ResumedOffers(q, s.ui, s.tasks[i], a);
      case AccountsChanged(address) => MaybeResumeOffers(q, s.ui, address);
      case Followed(address) => PaintOffers(q, s.ui.(connected := address));
      case ChainReady => PaintOffers(q, s.ui.(view := Idle));
      case _ =>
    }
  }

  ghost predicate OfferInv(q: Request, s: Page) {
    if s.ui.awaitingWallet then Unmet(s) && s.ui.picked == "" else Offered(q, s.ui)
  }

  lemma UnmetConnectStep(q: Request, s: Page, e: Event)
    requires q.kind.Connect? && Unmet(s) && s.ui.picked == "" && Enabled(q, s, e)
    ensures OfferInv(q, Step(q, s, e))
  {
    var s' := Step(q, s, e);
    match e {
      case LateWallet(address) =>
        PaintOffers(q, s.ui.(awaitingWallet := false, connected := address, following := true));
      case _ =>
    }
    assert forall i :: 0 <= i < |s'.tasks| ==> s'.tasks[i].Done?;
  }

  lemma {:induction false} RunOffers(q: Request, states: seq<Page>, events: seq<Event>, n: nat)
    requires q.kind.Connect? && IsRun(q, states, events) && n < |states|
    ensures OfferInv(q, states[n])
  {
    if n == 0 {
      var connected: string, wallet: bool :| states[0] == Loaded(q, connected, wallet);
      StartsOffered(q, connected, wallet);
    } else {
      var s, e := states[n - 1], events[n - 1];
      RunOffers(q, states, events, n - 1);
      assert StepAt(q, states, events, n - 1);
      var c := RunKeepsConnectInv(q, states, events, n - 1);
      if s.ui.awaitingWallet {
        UnmetConnectStep(q, s, e);
      } else {
        assert ConnectTask(q, Started(s, e));
        MovedOffers(q, s, e);
      }
    }
  }

  lemma StartsOffered(q: Request, connected: string, wallet: bool)
    requires q.kind.Connect?
    ensures OfferInv(q, Loaded(q, connected, wallet))
  {
  }

  /** In every run of a connect, once the page has met the wallet: with no connecting handler and no delivery
      outstanding the page shows success, or the user can click both Cancel and the action; and at first also "Change",
      if there is an account to change from, the request leaves it open and the wallet can be asked. */
  lemma CanActOnConnect(q: Request, states: seq<Page>, events: seq<Event>, n: nat)
    requires q.kind.Connect? && IsRun(q, states, events) && n < |states| && !states[n].ui.awaitingWallet
    requires forall i :: 0 <= i < |states[n].tasks| ==> !Connects(states[n].tasks[i])
    ensures var s := states[n];
            && (s.ui.view.Success? || (Enabled(q, s, Click(Reject)) && Enabled(q, s, Click(Go))))
            && (s.ui.view.Idle? ==>
                  (Enabled(q, s, Click(Swap)) <==>
                     s.ui.connected != "" && q.pinned == "" && q.chain.Evm? && !s.ui.unsupported && !s.ui.changing))
  {
    ConnectNeverStuck(q, states, events, n);
    RunOffers(q, states, events, n);
  }
}
