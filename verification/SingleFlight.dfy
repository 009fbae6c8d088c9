/**
  Sign and transaction requests: however clicks, wallet events and answers interleave, one handler at a
  time is in its wallet phase, one wallet operation succeeds, and what it returned is what is delivered.
 */
module SingleFlight {
  import opened Wrappers
  import opened Approval

  /** The handler is past its settled-result guard and has not settled; delivering null settles nothing. */
  predicate InWallet(t: Task) {
    || t.AcquireCurrent? || t.AcquireRequest? || t.Operating? || t.Rereading? || t.Failing?
    || (t.Delivering? && !t.settles)
  }

  predicate InConnect(t: Task) {
    t.ConnectRequest? || t.ConnectSwitch? || t.ConnectResult?
  }

  /** The views that promise the user an answer is on its way. */
  predicate Busy(v: View) { v.Connecting? || v.Signing? }

  // ---------- One handler's code, on the page's variables alone ----------

  predicate SignUi(u: Ui) {
    && (u.settled.Some? ==> !u.view.WrongAddress? && !u.view.Connecting?)
    && (u.buttons.go ==> u.view.Idle? || u.view.Failed?)
    && (u.buttons.change ==> u.view.WrongAddress?)
    && !u.view.Switching?
    && (!u.wallet ==> u.view.Idle? && u.settled.None? && !u.buttons.go && !u.buttons.swap)
  }

  predicate SignTask(u: Ui, t: Task) {
    && (InWallet(t) ==> u.settled.None? && Busy(u.view))
    && (t.Operating? ==> u.view.Signing?)
    && (t.Delivering? && t.settles ==> u.settled.Some?)
    && !InConnect(t)
  }

  function Next(m: Move): Task {
    match m
    case Wait(_, next) => next
    case Submitted(_, _) => Operating
    case Posted(_, body) => if body.Deliver? then Delivering(0, body.result.Some?) else Refusing(0)
  }

  /** What a stretch of a sign handler's code that started as `t` may do. */
  predicate SignMove(u: Ui, t: Task, m: Move) {
    var u', t' := m.ui, Next(m);
    && SignUi(u') && SignTask(u', t')
    && (InWallet(t') ==> InWallet(t) || !Busy(u.view))
    && (!InWallet(t) && u.settled.None? && Busy(u.view) ==> u'.settled.None? && u'.view == u.view)
    && (u.settled.Some? ==> u'.settled == u.settled && !InWallet(t'))
    && (u.settled.None? && u'.settled.Some? ==> t.Operating?)
    && (m.Posted? && m.body.Deliver? ==> u'.settled == m.body.result && (m.body.result.None? ==> t.Operating?))
    && (m.Wait? ==> !m.next.Delivering? && !m.next.Operating? && !m.next.Refusing?)
    && (u'.view.Success? ==> u.view.Success? || t.Delivering?)
    && (Busy(u'.view) && u'.settled.None? ==> InWallet(t') || (Busy(u.view) && u.settled.None? && !InWallet(t)))
    && (Busy(u'.view) && u'.settled.Some? ==> t'.Delivering? || (Busy(u.view) && u.settled.Some? && !t.Delivering?))
  }

  lemma WrongAddressIsSignMove(q: Request, u: Ui, t: Task, connected: string)
    requires !q.kind.Connect? && SignUi(u) && SignTask(u, t) && InWallet(t)
    ensures SignMove(u, t, Wait(EnterWrongAddress(q, u.(connected := connected)), Done))
    ensures SignMove(u, t, OpenPrompt(q, EnterWrongAddress(q, u.(connected := connected)), false))
  {
  }

  lemma SubmitIsSignMove(q: Request, u: Ui, t: Task, account: string)
    requires !q.kind.Connect? && SignUi(u) && SignTask(u, t) && (t.AcquireCurrent? || t.AcquireRequest?)
    ensures SignMove(u, t, Submit(q, u, account))
  {
    var u1 := u.(connected := account);
    if Gated(q, account, Expected(q, u1)) {
      WrongAddressIsSignMove(q, u, t, account);
    }
  }

  lemma RecheckedIsSignMove(q: Request, u: Ui, t: Task, connected: string, matches: bool, denied: bool)
    requires !q.kind.Connect? && SignUi(u) && SignTask(u, t) && t.Rereading?
    ensures SignMove(u, t, Rechecked(q, u.(connected := connected), matches, denied))
  {
    WrongAddressIsSignMove(q, u, t, connected);
  }

  lemma RereadIsSignMove(q: Request, u: Ui, t: Task, a: Answer)
    requires !q.kind.Connect? && SignUi(u) && SignTask(u, t) && t.Rereading? && Answers(t, a)
    ensures SignMove(u, t, Resumed(q, u, t, a))
  {
    var connected := if a.Got? && a.value != "" then a.value else u.connected;
    RecheckedIsSignMove(q, u, t, connected, Match(q.chain, connected, t.expected), t.denied);
  }

  lemma TakeUpIsSignMove(q: Request, u: Ui, t: Task, connected: string, matches: bool)
    requires !q.kind.Connect? && SignUi(u) && (t.Done? || t.Prompted?) && u.view.WrongAddress?
    ensures SignMove(u, t, TakeUp(q, u.(connected := connected), matches))
  {
  }

  lemma MaybeResumeIsSignMove(q: Request, u: Ui, t: Task, address: string)
    requires !q.kind.Connect? && SignUi(u) && (t.Done? || t.Prompted?)
    ensures SignMove(u, t, MaybeResume(q, u, address))
  {
    if u.view.WrongAddress? {
      TakeUpIsSignMove(q, u, t, address, Match(q.chain, address, Expected(q, u)));
    }
  }

  lemma StaysIsSignMove(u: Ui, t: Task)
    requires SignUi(u) && (t.Done? || t.Prompted?)
    ensures SignMove(u, t, Wait(u, Done))
  {
  }

  lemma PickedIsSignMove(q: Request, u: Ui, t: Task, address: string)
    requires !q.kind.Connect? && SignUi(u) && (t.Done? || t.Prompted?)
    ensures SignMove(u, t, Wait(Paint(q, u.(connected := address, picked := address)), Done))
  {
  }

  lemma PromptAnsweredIsSignMove(q: Request, u: Ui, t: Task)
    requires !q.kind.Connect? && SignUi(u) && t.Prompted?
    ensures SignMove(u, t, PromptAnswered(q, u, t.byUser, t.answer))
  {
    if t.answer.None? || t.answer.value == "" {
      StaysIsSignMove(u, t);
    } else if t.byUser {
      StaysIsSignMove(u, t);
      PickedIsSignMove(q, u, t, t.answer.value);
    } else {
      MaybeResumeIsSignMove(q, u, t, t.answer.value);
    }
  }

  lemma OperatedIsSignMove(q: Request, u: Ui, t: Task, a: Answer)
    requires !q.kind.Connect? && SignUi(u) && SignTask(u, t) && Answers(t, a) && (t.Operating? || t.Failing?)
    ensures SignMove(u, t, Resumed(q, u, t, a))
  {
  }

  lemma DeliveredIsSignMove(q: Request, u: Ui, t: Task)
    requires !q.kind.Connect? && SignUi(u) && SignTask(u, t) && t.Delivering?
    ensures SignMove(u, t, ShowError(q, u)) && SignMove(u, t, Wait(Paint(q, u.(view := Success)), Done))
  {
  }

  lemma OtherIsSignMove(q: Request, u: Ui, t: Task, a: Answer)
    requires !q.kind.Connect? && SignUi(u) && SignTask(u, t) && Answers(t, a) && (t.Refusing? || t.Prompting?)
    ensures SignMove(u, t, Resumed(q, u, t, a))
  {
  }

  lemma ResumedIsSignMove(q: Request, u: Ui, t: Task, a: Answer)
    requires !q.kind.Connect? && SignUi(u) && SignTask(u, t) && Answers(t, a)
    ensures SignMove(u, t, Resumed(q, u, t, a))
  {
    match t {
      case AcquireCurrent => if a.Got? && a.value != "" { SubmitIsSignMove(q, u, t, a.value); }
      case AcquireRequest => if a.Got? { SubmitIsSignMove(q, u, t, a.value); }
      case Rereading(expected, denied) => RereadIsSignMove(q, u, t, a);
      case Operating => OperatedIsSignMove(q, u, t, a);
      case Failing => OperatedIsSignMove(q, u, t, a);
      case Delivering(_, _) => DeliveredIsSignMove(q, u, t);
      case Prompted(_, _) => PromptAnsweredIsSignMove(q, u, t);
      case _ => OtherIsSignMove(q, u, t, a);
    }
  }

  lemma ClickedIsSignMove(q: Request, u: Ui, b: Button)
    requires !q.kind.Connect? && SignUi(u) && (b.Go? ==> u.buttons.go) && (b.Change? ==> u.buttons.change)
    ensures SignMove(u, Done, Clicked(q, u, b))
  {
  }

  /** The handler an event continues: an outstanding one, or one it starts. */
  function Started(s: Page, e: Event): Task {
    if e.Resume? && e.slot < |s.tasks| then s.tasks[e.slot] else Done
  }

  lemma MovedIsSignMove(q: Request, s: Page, e: Event)
    requires !q.kind.Connect? && SignUi(s.ui) && Enabled(q, s, e) && SignTask(s.ui, Started(s, e))
    ensures SignMove(s.ui, Started(s, e), Moved(q, s, e))
  {
    match e {
      case Click(b) => ClickedIsSignMove(q, s.ui, b);
      case Resume(i, a) => ResumedIsSignMove(q, s.ui, s.tasks[i], a);
      case AccountsChanged(address) => MaybeResumeIsSignMove(q, s.ui, Done, address);
      case _ =>
    }
  }

  // ---------- The whole page ----------

  /** `w` is the one handler in its wallet phase, or there is none and `w` is past `tasks`. */
  ghost predicate Flight(s: Page, w: nat) {
    && (forall i :: 0 <= i < |s.tasks| ==> SignTask(s.ui, s.tasks[i]))
    && (w < |s.tasks| ==> InWallet(s.tasks[w]))
    && (forall i :: 0 <= i < |s.tasks| && InWallet(s.tasks[i]) ==> i == w)
  }

  /** Of everything the wallet returned only the last can be anything but null, and if it is, it is what is settled. */
  predicate LastSettles(returned: seq<Option<Value>>, settled: Option<Value>) {
    && (forall k :: 0 <= k < |returned| && returned[k].Some? ==> k == |returned| - 1 && returned[k] == settled)
    && (settled.Some? ==> returned != [] && returned[|returned| - 1] == settled)
  }

  /** A result that is posted was returned by the wallet, and is the settled one unless it is null. */
  predicate Returned(s: Page, result: Option<Value>) {
    result in s.successes && (result.Some? ==> s.ui.settled == result)
  }

  ghost predicate SettledOnce(s: Page) {
    && LastSettles(s.successes, s.ui.settled)
    && (forall k :: 0 <= k < |s.outbox| && s.outbox[k].Deliver? ==> Returned(s, s.outbox[k].result))
  }

  ghost predicate SignInv(s: Page, w: nat) {
    SignUi(s.ui) && Flight(s, w) && SettledOnce(s)
  }

  function NextFlight(s: Page, w: nat, i: nat, t: Task): nat {
    if InWallet(t) then i else if w < |s.tasks| && w != i then w else |s.tasks| + 1
  }

  lemma AppliedKeepsFlight(s: Page, w: nat, i: nat, t: Task, m: Move)
    requires SignUi(s.ui) && Flight(s, w) && i <= |s.tasks| && t == (if i < |s.tasks| then s.tasks[i] else Done)
    requires SignMove(s.ui, t, m)
    ensures Flight(Applied(s, i, m), NextFlight(s, w, i, Next(m)))
  {
    var s' := Applied(s, i, m);
    forall j | 0 <= j < |s'.tasks|
      ensures SignTask(s'.ui, s'.tasks[j]) && (InWallet(s'.tasks[j]) ==> j == NextFlight(s, w, i, Next(m)))
    {
      if j != i { assert s'.tasks[j] == s.tasks[j]; }
    }
  }

  lemma StepKeepsSettledOnce(q: Request, s: Page, w: nat, e: Event)
    requires !q.kind.Connect? && SignInv(s, w) && Enabled(q, s, e)
    ensures SettledOnce(Step(q, s, e))
  {
    var t, m, s' := Started(s, e), Moved(q, s, e), Step(q, s, e);
    assert SignTask(s.ui, t);
    MovedIsSignMove(q, s, e);
    assert LastSettles(s'.successes, s'.ui.settled);
    if m.Posted? && m.body.Deliver? { assert Returned(s', m.body.result); }
    forall k | 0 <= k < |s.outbox| && s.outbox[k].Deliver? ensures Returned(s', s.outbox[k].result) {
      assert Returned(s, s.outbox[k].result);
    }
  }

  lemma StepKeepsSignInv(q: Request, s: Page, w: nat, e: Event)
    requires !q.kind.Connect? && SignInv(s, w) && Enabled(q, s, e)
    ensures SignInv(Step(q, s, e), NextFlight(s, w, Slot(s, e), Next(Moved(q, s, e))))
  {
    MovedIsSignMove(q, s, e);
    StepKeepsSettledOnce(q, s, w, e);
    AppliedKeepsFlight(s, w, Slot(s, e), Started(s, e), Moved(q, s, e));
  }

  /** A busy view is waiting for handler `w` before the result is settled, and for delivery `d` after. */
  predicate Awaits(s: Page, w: nat, d: nat) {
    Busy(s.ui.view) ==>
      if s.ui.settled.None? then w < |s.tasks| && InWallet(s.tasks[w])
      else d < |s.tasks| && s.tasks[d].Delivering?
  }

  lemma StepKeepsAwaits(q: Request, s: Page, w: nat, d: nat, e: Event)
    requires !q.kind.Connect? && SignInv(s, w) && Awaits(s, w, d) && Enabled(q, s, e)
    ensures var i, t := Slot(s, e), Next(Moved(q, s, e));
            Awaits(Step(q, s, e), NextFlight(s, w, i, t), if t.Delivering? then i else d)
  {
    MovedIsSignMove(q, s, e);
  }

  // ---------- Whole runs ----------

  lemma {:induction false} RunKeepsSignInv(q: Request, states: seq<Page>, events: seq<Event>, n: nat)
    returns (w: nat, d: nat)
    requires !q.kind.Connect? && IsRun(q, states, events) && n < |states|
    ensures SignInv(states[n], w) && Awaits(states[n], w, d)
  {
    if n == 0 {
      w, d := 0, 0;
    } else {
      var s, e := states[n - 1], events[n - 1];
      w, d := RunKeepsSignInv(q, states, events, n - 1);
      assert StepAt(q, states, events, n - 1);
      StepKeepsSignInv(q, s, w, e);
      StepKeepsAwaits(q, s, w, d, e);
      var i, t := Slot(s, e), Next(Moved(q, s, e));
      w, d := NextFlight(s, w, i, t), if t.Delivering? then i else d;
    }
  }

  /** Where the adapter lets no null through, the wallet's null is not among the results. */
  lemma {:induction false} RunReturnsNoNull(q: Request, states: seq<Page>, events: seq<Event>, n: nat)
    requires !MayReturnNull(q) && IsRun(q, states, events) && n < |states|
    ensures None !in states[n].successes
  {
    if n > 0 {
      RunReturnsNoNull(q, states, events, n - 1);
      assert StepAt(q, states, events, n - 1);
      StepReturnsNoNull(q, states[n - 1], events[n - 1]);
    }
  }

  lemma StepReturnsNoNull(q: Request, s: Page, e: Event)
    requires !MayReturnNull(q) && None !in s.successes && Enabled(q, s, e)
    ensures None !in Step(q, s, e).successes
  {
    assert None !in Obtained(s, e);
  }

  lemma OneUnlessNull(returned: seq<Option<Value>>, settled: Option<Value>)
    requires LastSettles(returned, settled)
    ensures None !in returned ==> |returned| <= 1
  {
    if |returned| > 1 { assert returned[0] == None; }
  }

  /** At every point of every run, at most one handler is between its guard and its end. Of what the wallet returned,
      only the last can be anything but null, and then it is settled; so as long as the wallet fulfils nothing with
      null, at most one operation succeeds, and where the adapter lets no null through that is so with any wallet.
      Every result posted is one that the wallet returned, and unless it is null it is the settled one. */
  lemma OneHandlerOneSuccess(q: Request, states: seq<Page>, events: seq<Event>, n: nat)
    requires !q.kind.Connect? && IsRun(q, states, events) && n < |states|
    ensures var s := states[n];
            && (forall i, j :: 0 <= i < j < |s.tasks| ==> !(InWallet(s.tasks[i]) && InWallet(s.tasks[j])))
            && LastSettles(s.successes, s.ui.settled)
            && (None !in s.successes || !MayReturnNull(q) ==> |s.successes| <= 1)
            && (forall k :: 0 <= k < |s.outbox| && s.outbox[k].Deliver? ==> Returned(s, s.outbox[k].result))
  {
    var _, _ := RunKeepsSignInv(q, states, events, n);
    OneUnlessNull(states[n].successes, states[n].ui.settled);
    if !MayReturnNull(q) { RunReturnsNoNull(q, states, events, n); }
  }

  predicate SameSettled(s: Page, t: Page) {
    t.ui.settled == s.ui.settled && t.ops == s.ops && t.successes == s.successes
  }

  lemma StepKeepsSettled(q: Request, s: Page, w: nat, e: Event)
    requires !q.kind.Connect? && SignInv(s, w) && s.ui.settled.Some? && Enabled(q, s, e)
    ensures SameSettled(s, Step(q, s, e))
  {
    assert SignTask(s.ui, Started(s, e));
    MovedIsSignMove(q, s, e);
    var m := Moved(q, s, e);
    assert !m.Submitted? && !Started(s, e).Operating?;
  }

  lemma {:induction false} RunKeepsSettled(q: Request, states: seq<Page>, events: seq<Event>, m: nat, n: nat)
    requires !q.kind.Connect? && IsRun(q, states, events) && m <= n < |states| && states[m].ui.settled.Some?
    ensures SameSettled(states[m], states[n])
  {
    if m < n {
      RunKeepsSettled(q, states, events, m, n - 1);
      var w, _ := RunKeepsSignInv(q, states, events, n - 1);
      assert StepAt(q, states, events, n - 1);
      StepKeepsSettled(q, states[n - 1], w, events[n - 1]);
    }
  }

  /** Once a result is settled it never changes, no handler enters its wallet phase and no wallet operation
      is submitted again, so every retry after a failed delivery posts that same result. */
  lemma SettledForGood(q: Request, states: seq<Page>, events: seq<Event>, m: nat, n: nat)
    requires !q.kind.Connect? && IsRun(q, states, events) && m <= n < |states| && states[m].ui.settled.Some?
    ensures states[n].ui.settled == states[m].ui.settled
    ensures states[n].ops == states[m].ops && states[n].successes == states[m].successes
    ensures forall i :: 0 <= i < |states[n].tasks| ==> !InWallet(states[n].tasks[i])
  {
    RunKeepsSettled(q, states, events, m, n);
    var _, _ := RunKeepsSignInv(q, states, events, n);
  }

  /** The page is never stuck: while it shows a busy view, some handler has a wallet or bridge call
      outstanding, or is about to run. When none has, the user sees a view to act on, or success. */
  lemma NeverStuck(q: Request, states: seq<Page>, events: seq<Event>, n: nat)
    requires !q.kind.Connect? && IsRun(q, states, events) && n < |states|
    requires forall i :: 0 <= i < |states[n].tasks| ==> !InWallet(states[n].tasks[i]) && !states[n].tasks[i].Delivering?
    ensures var v := states[n].ui.view; v.Idle? || v.Failed? || v.WrongAddress? || v.Success?
  {
    var _, _ := RunKeepsSignInv(q, states, events, n);
  }
}
