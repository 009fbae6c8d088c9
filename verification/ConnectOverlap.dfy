/**
  Which connects keep one handler at a time. A connect has no guard like a sign request's: "Change" answers start a
  delivery whatever the view, and the Bitcoin page resumes without repainting, so the button it left clickable starts
  another handler.
 */
module ConnectOverlap {
  import opened Wrappers
  import opened Approval
  import opened SingleFlight
  import opened ConnectFlow
  import opened Outgoing

  /** By chain, and by whether the request pins an address. */
  predicate KeepsOneHandler(q: Request) {
    match q.chain
    case Evm => q.pinned != ""
    case Tron => true
    case Btc => q.pinned == ""
  }

  predicate Overlaps(s: Page) {
    exists i, j :: 0 <= i < j < |s.tasks| && Connects(s.tasks[i]) && Connects(s.tasks[j])
  }

  // ---------- One handler ----------

  predicate LoneUi(q: Request, u: Ui) {
    && (u.buttons.go ==> !Waiting(u.view))
    && (u.buttons.swap ==> q.pinned == "")
    && !u.buttons.change
    && (q.chain.Btc? ==> !u.view.WrongAddress?)
  }

  predicate LoneTask(q: Request, u: Ui, t: Task) {
    && (Connects(t) ==> Waiting(u.view))
    && (t.Prompting? || t.Prompted? ==> HasPrompt(q) && !t.byUser)
    && !Acquiring(t) && !t.Operating? && !t.Rereading? && !t.Failing?
  }

  predicate LoneMove(q: Request, u: Ui, t: Task, m: Move) {
    var u', t' := m.ui, Next(m);
    && LoneUi(q, u') && LoneTask(q, u', t')
    && (Connects(t') ==> Connects(t) || !Waiting(u.view))
    && (!Connects(t) && Waiting(u.view) ==> Waiting(u'.view))
  }

  /** The EVM page repaints as it starts to switch chains, so it does not matter what was painted before. */
  lemma SwitchIsLoneMove(q: Request, u: Ui, t: Task, u1: Ui, address: string)
    requires q.kind.Connect? && q.chain.Evm? && q.pinned != "" && (Connects(t) || !Waiting(u.view))
    ensures LoneMove(q, u, t, FinishConnect(q, u1, address))
  {
  }

  lemma FetchesIsLoneMove(q: Request, u: Ui, t: Task, u1: Ui, address: string)
    requires LoneUi(q, u1) && Waiting(u1.view) && Connects(t)
    ensures LoneMove(q, u, t, Wait(u1, ConnectResult(address)))
  {
  }

  lemma SettlesIsLoneMove(q: Request, u: Ui, t: Task, u1: Ui, v: Value)
    requires LoneUi(q, u1) && Waiting(u1.view) && Connects(t)
    ensures LoneMove(q, u, t, Settle(u1, Some(v)))
  {
  }

  lemma AfterSwitchIsLoneMove(q: Request, u: Ui, t: Task, u1: Ui, address: string)
    requires LoneUi(q, u1) && Waiting(u1.view) && Connects(t)
    ensures LoneMove(q, u, t, AfterSwitch(q, u1, address))
  {
    var u2 := u1.(listening := false);
    FetchesIsLoneMove(q, u, t, u2, address);
    SettlesIsLoneMove(q, u, t, u2, Text(address));
  }

  lemma MismatchIsLoneMove(q: Request, u: Ui, t: Task, u1: Ui)
    requires q.kind.Connect? && KeepsOneHandler(q) && q.pinned != "" && Connects(t)
    ensures LoneMove(q, u, t, OpenPrompt(q, EnterWrongAddress(q, u1), false))
  {
  }

  lemma ConnectedIsLoneMove(q: Request, u: Ui, t: Task, address: string)
    requires q.kind.Connect? && KeepsOneHandler(q) && LoneUi(q, u) && LoneTask(q, u, t) && t.ConnectRequest?
    ensures LoneMove(q, u, t, Connected(q, u, address))
  {
    var u1 := u.(connected := address);
    if q.pinned != "" && !Match(q.chain, address, q.pinned) {
      MismatchIsLoneMove(q, u, t, u1);
    } else if q.chain.Evm? {
      SwitchIsLoneMove(q, u, t, u1, address);
    } else {
      AfterSwitchIsLoneMove(q, u, t, u1, address);
    }
  }

  lemma StaysIsLoneMove(q: Request, u: Ui, t: Task)
    requires LoneUi(q, u) && !Connects(t)
    ensures LoneMove(q, u, t, Wait(u, Done))
  {
  }

  lemma RepaintIsLoneMove(q: Request, u: Ui, t: Task, u1: Ui)
    requires q.kind.Connect? && !q.chain.Btc? && u1.view == u.view && !Connects(t)
    ensures LoneMove(q, u, t, Wait(Paint(q, u1), Done))
  {
  }

  lemma TakeUpIsLoneMove(q: Request, u: Ui, t: Task, connected: string, matches: bool)
    requires q.kind.Connect? && q.chain.Evm? && q.pinned != "" && u.view.WrongAddress? && (t.Done? || t.Prompted?)
    ensures LoneMove(q, u, t, TakeUp(q, u.(connected := connected), matches))
  {
    if matches {
      SwitchIsLoneMove(q, u, t, u.(connected := connected, view := Connecting, listening := false), connected);
    } else {
      RepaintIsLoneMove(q, u, t, u.(connected := connected));
    }
  }

  lemma MaybeResumeIsLoneMove(q: Request, u: Ui, t: Task, address: string)
    requires q.kind.Connect? && KeepsOneHandler(q) && LoneUi(q, u) && !q.chain.Tron? && (t.Done? || t.Prompted?)
    ensures LoneMove(q, u, t, MaybeResume(q, u, address))
  {
    if address == "" || u.finished || !u.view.WrongAddress? {
      StaysIsLoneMove(q, u, t);
    } else {
      TakeUpIsLoneMove(q, u, t, address, Match(q.chain, address, Expected(q, u)));
    }
  }

  lemma DespiteNoPromptIsLoneMove(q: Request, u: Ui, t: Task)
    requires q.kind.Connect? && KeepsOneHandler(q) && LoneUi(q, u) && t.Prompted? && HasPrompt(q)
    ensures LoneMove(q, u, t, ConnectDespiteNoPrompt(q, u))
  {
    if !u.view.WrongAddress? || u.finished {
      StaysIsLoneMove(q, u, t);
    } else {
      SwitchIsLoneMove(q, u, t, u.(listening := false, view := Connecting), Expected(q, u));
    }
  }

  lemma EndsIsLoneMove(q: Request, u: Ui, t: Task, v: View)
    requires q.kind.Connect? && Connects(t) && (v.Failed? || v.Success?)
    ensures LoneMove(q, u, t, Wait(Paint(q, u.(view := v)), Done))
  {
  }

  lemma SwitchedIsLoneMove(q: Request, u: Ui, t: Task, a: Answer)
    requires q.kind.Connect? && LoneUi(q, u) && LoneTask(q, u, t) && Answers(t, a)
    requires t.ConnectSwitch? || t.ConnectResult? || t.Delivering?
    ensures LoneMove(q, u, t, Resumed(q, u, t, a))
  {
    if a.Threw? || t.Delivering? {
      EndsIsLoneMove(q, u, t, if a == Http(200) then Success else Failed);
    } else if t.ConnectSwitch? {
      AfterSwitchIsLoneMove(q, u, t, u, t.address);
    } else {
      SettlesIsLoneMove(q, u, t, u, Account(t.address, a.value));
    }
  }

  lemma OtherIsLoneMove(q: Request, u: Ui, t: Task, a: Answer)
    requires q.kind.Connect? && KeepsOneHandler(q) && LoneUi(q, u) && LoneTask(q, u, t) && Answers(t, a)
    requires t.Refusing? || t.Prompting?
    ensures LoneMove(q, u, t, Resumed(q, u, t, a))
  {
  }

  lemma ResumedIsLoneMove(q: Request, u: Ui, t: Task, a: Answer)
    requires q.kind.Connect? && KeepsOneHandler(q) && LoneUi(q, u) && LoneTask(q, u, t) && Answers(t, a)
    ensures LoneMove(q, u, t, Resumed(q, u, t, a))
  {
    match t {
      case ConnectRequest =>
        if a.Got? { ConnectedIsLoneMove(q, u, t, a.value); } else { EndsIsLoneMove(q, u, t, Failed); }
      case Prompted(_, answer) =>
        if answer.None? {
          DespiteNoPromptIsLoneMove(q, u, t);
        } else {
          MaybeResumeIsLoneMove(q, u, t, answer.value);
        }
      case Refusing(_) => OtherIsLoneMove(q, u, t, a);
      case Prompting(_) => OtherIsLoneMove(q, u, t, a);
      case _ => SwitchedIsLoneMove(q, u, t, a);
    }
  }

  lemma ClickedIsLoneMove(q: Request, u: Ui, b: Button)
    requires q.kind.Connect? && KeepsOneHandler(q) && LoneUi(q, u)
    requires (b.Go? ==> u.buttons.go) && (b.Change? ==> u.buttons.change) && (b.Swap? ==> u.buttons.swap)
    ensures LoneMove(q, u, Done, Clicked(q, u, b))
  {
  }

  lemma MovedIsLoneMove(q: Request, s: Page, e: Event)
    requires q.kind.Connect? && KeepsOneHandler(q) && LoneUi(q, s.ui) && Enabled(q, s, e)
    requires LoneTask(q, s.ui, Started(s, e))
    ensures LoneMove(q, s.ui, Started(s, e), Moved(q, s, e))
  {
    match e {
      case Click(b) => ClickedIsLoneMove(q, s.ui, b);
      case Resume(i, a) => ResumedIsLoneMove(q, s.ui, s.tasks[i], a);
      case AccountsChanged(address) => MaybeResumeIsLoneMove(q, s.ui, Done, address);
      case _ =>
    }
  }

  /** `c` is the one connecting handler or delivery, or there is none and `c` is past `tasks`. */
  ghost predicate LoneInv(q: Request, s: Page, c: nat) {
    && LoneUi(q, s.ui)
    && (forall i :: 0 <= i < |s.tasks| ==> LoneTask(q, s.ui, s.tasks[i]))
    && (c < |s.tasks| ==> Connects(s.tasks[c]))
    && (forall i :: 0 <= i < |s.tasks| && Connects(s.tasks[i]) ==> i == c)
  }

  function NextLone(s: Page, c: nat, i: nat, t: Task): nat {
    if Connects(t) then i else if c < |s.tasks| && c != i then c else |s.tasks| + 1
  }

  lemma StepKeepsLoneInv(q: Request, s: Page, c: nat, e: Event)
    requires q.kind.Connect? && KeepsOneHandler(q) && LoneInv(q, s, c) && Enabled(q, s, e)
    ensures LoneInv(q, Step(q, s, e), NextLone(s, c, Slot(s, e), Next(Moved(q, s, e))))
  {
    var m, i, s' := Moved(q, s, e), Slot(s, e), Step(q, s, e);
    assert LoneTask(q, s.ui, Started(s, e));
    MovedIsLoneMove(q, s, e);
    forall j | 0 <= j < |s'.tasks|
      ensures LoneTask(q, s'.ui, s'.tasks[j]) && (Connects(s'.tasks[j]) ==> j == NextLone(s, c, i, Next(m)))
    {
      if j != i { assert s'.tasks[j] == s.tasks[j] && LoneTask(q, s.ui, s.tasks[j]); }
    }
  }

  lemma {:induction false} RunKeepsLoneInv(q: Request, states: seq<Page>, events: seq<Event>, n: nat) returns (c: nat)
    requires q.kind.Connect? && KeepsOneHandler(q) && IsRun(q, states, events) && n < |states|
    ensures LoneInv(q, states[n], c)
  {
    if n == 0 {
      c := 0;
    } else {
      var s, e := states[n - 1], events[n - 1];
      c := RunKeepsLoneInv(q, states, events, n - 1);
      assert StepAt(q, states, events, n - 1);
      StepKeepsLoneInv(q, s, c, e);
      c := NextLone(s, c, Slot(s, e), Next(Moved(q, s, e)));
    }
  }

  // ---------- Two handlers ----------

  lemma LongerNeverMatches(chain: Chain, a: string)
    ensures !Match(chain, a + "x", a)
  {
    LowerLength(a);
    LowerLength(a + "x");
  }

  lemma {:induction false} LowerLength(s: string)
    ensures |Lower(s)| == |s|
  {
    if s != "" { LowerLength(s[1..]); }
  }

  lemma RunClicksConnect(q: Request, states: seq<Page>, events: seq<Event>)
    returns (longer: seq<Page>, more: seq<Event>)
    requires q.kind.Connect? && IsRun(q, states, events) && Last(states).ui.buttons.go
    ensures IsRun(q, longer, more) && Last(longer).tasks == Last(states).tasks + [ConnectRequest]
    ensures var u, u' := Last(states).ui, Last(longer).ui;
            u'.wallet == u.wallet && u'.finished == u.finished && u'.picked == u.picked
  {
    longer, more := AddStep(q, states, events, Click(Go));
  }

  /** The Bitcoin page asks for another account, and repaints with "Try Again". */
  lemma RunMismatches(q: Request, states: seq<Page>, events: seq<Event>) returns (longer: seq<Page>, more: seq<Event>)
    requires q.kind.Connect? && q.chain.Btc? && q.pinned != "" && IsRun(q, states, events)
    requires var s := Last(states); s.tasks == [ConnectRequest] && s.ui.wallet && !s.ui.finished && s.ui.picked == ""
    ensures IsRun(q, longer, more)
    ensures var t := Last(longer);
            && t.tasks == [Done] && t.ui.view.WrongAddress? && t.ui.listening && t.ui.buttons.go && !t.ui.finished
            && t.ui.picked == ""
  {
    LongerNeverMatches(q.chain, q.pinned);
    longer, more := AddStep(q, states, events, Resume(0, Got(q.pinned + "x")));
  }

  /** When the wallet then selects the pinned account, the page goes on without repainting. */
  lemma RunResumes(q: Request, states: seq<Page>, events: seq<Event>) returns (longer: seq<Page>, more: seq<Event>)
    requires q.kind.Connect? && q.chain.Btc? && q.pinned != "" && IsRun(q, states, events)
    requires var s := Last(states);
      && s.tasks == [Done] && s.ui.view.WrongAddress? && s.ui.listening && s.ui.buttons.go && !s.ui.finished
      && s.ui.picked == ""
    ensures IsRun(q, longer, more)
    ensures Last(longer).tasks == [Done, ConnectResult(q.pinned)] && Last(longer).ui.buttons.go
  {
    MatchesItself(q.chain, q.pinned);
    longer, more := AddStep(q, states, events, AccountsChanged(q.pinned));
  }

  lemma BitcoinOverlaps(q: Request) returns (states: seq<Page>, events: seq<Event>)
    requires q.kind.Connect? && q.chain.Btc? && q.pinned != ""
    ensures IsRun(q, states, events) && Overlaps(Last(states))
  {
    states, events := StartRun(q, "");
    states, events := RunClicksConnect(q, states, events);
    states, events := RunMismatches(q, states, events);
    states, events := RunResumes(q, states, events);
    states, events := RunClicksConnect(q, states, events);
    assert Connects(Last(states).tasks[1]) && Connects(Last(states).tasks[2]);
  }

  lemma RunClicksSwap(q: Request, states: seq<Page>, events: seq<Event>) returns (longer: seq<Page>, more: seq<Event>)
    requires q.kind.Connect? && q.chain.Evm? && q.pinned == ""
    requires IsRun(q, states, events) && states == [Loaded(q, "a", true)]
    ensures IsRun(q, longer, more)
    ensures Last(longer).tasks == [Prompting(true)] && Last(longer).ui.buttons.go && !Last(longer).ui.finished
  {
    longer, more := AddStep(q, states, events, Click(Swap));
  }

  lemma RunPromptReturns(q: Request, states: seq<Page>, events: seq<Event>)
    returns (longer: seq<Page>, more: seq<Event>)
    requires IsRun(q, states, events) && Last(states).tasks == [Prompting(true), ConnectRequest]
    ensures IsRun(q, longer, more) && Last(longer).tasks == [Prompted(true, Some("b")), ConnectRequest]
    ensures Last(longer).ui.finished == Last(states).ui.finished
  {
    longer, more := AddStep(q, states, events, Resume(0, Got("b")));
  }

  lemma RunAnswerConnects(q: Request, states: seq<Page>, events: seq<Event>)
    returns (longer: seq<Page>, more: seq<Event>)
    requires q.kind.Connect? && q.chain.Evm? && IsRun(q, states, events) && !Last(states).ui.finished
    requires Last(states).tasks == [Prompted(true, Some("b")), ConnectRequest]
    ensures IsRun(q, longer, more) && Last(longer).tasks == [ConnectSwitch("b"), ConnectRequest]
  {
    longer, more := AddStep(q, states, events, Resume(0, Tick));
  }

  lemma EvmOverlaps(q: Request) returns (states: seq<Page>, events: seq<Event>)
    requires q.kind.Connect? && q.chain.Evm? && q.pinned == ""
    ensures IsRun(q, states, events) && Overlaps(Last(states))
  {
    states, events := StartRun(q, "a");
    states, events := RunClicksSwap(q, states, events);
    states, events := RunClicksConnect(q, states, events);
    states, events := RunPromptReturns(q, states, events);
    states, events := RunAnswerConnects(q, states, events);
    assert Connects(Last(states).tasks[0]) && Connects(Last(states).tasks[1]);
  }

  // ---------- Exactly ----------

  ghost predicate MayOverlap(q: Request) {
    exists states: seq<Page>, events: seq<Event> :: IsRun(q, states, events) && Overlaps(Last(states))
  }

  /** A connect can have two handlers at work at once exactly on the EVM page when it pins no address and on the Bitcoin
      page when it does. */
  lemma OverlapsIff(q: Request)
    requires q.kind.Connect?
    ensures MayOverlap(q) <==> !KeepsOneHandler(q)
  {
    if KeepsOneHandler(q) {
      forall states: seq<Page>, events: seq<Event> | IsRun(q, states, events) ensures !Overlaps(Last(states)) {
        var _ := RunKeepsLoneInv(q, states, events, |events|);
      }
    } else if q.chain.Evm? {
      var states, events := EvmOverlaps(q);
    } else {
      var states, events := BitcoinOverlaps(q);
    }
  }
}
