/**
  What the page makes of each answer and each click, at every step of every run of a sign or transaction request: which
  failures it takes for a wrong account, what it resumes, what a delivery and a click lead to.
 */
module Reactions {
  import opened Wrappers
  import opened Approval
  import ConnectFlow
  import opened SingleFlight
  import opened Outgoing
  import opened PickedSigner

  /** The account the request is to be signed with by step `n`: the one picked, else the pinned one. */
  ghost function Intended(q: Request, states: seq<Page>, events: seq<Event>, n: nat): string
    requires n <= |events| < |states|
  {
    if LastPick(states, events, n) != "" then LastPick(states, events, n) else q.pinned
  }

  // ---------- Failures ----------

  /** Step `c` failed handler `i`: the wallet refused, or the request has nothing to submit. `denied` tells whether the
      user said no. */
  ghost predicate FailedAt(q: Request, states: seq<Page>, events: seq<Event>, c: nat, i: nat, denied: bool) {
    && c < |events| < |states| && events[c].Resume? && events[c].slot == i && i < |states[c].tasks|
    && (states[c].tasks[i].Operating? || Acquiring(states[c].tasks[i]))
    && if events[c].answer.Threw? then denied <==> events[c].answer.code == 4001
       else !denied && Acquiring(states[c].tasks[i]) && !Submittable(q)
  }

  predicate NoReread(m: Move) {
    !Next(m).Rereading?
  }

  lemma MaybeResumeRereadsNothing(q: Request, u: Ui, address: string)
    ensures NoReread(MaybeResume(q, u, address))
  {
  }

  lemma PromptAnsweredRereadsNothing(q: Request, u: Ui, byUser: bool, answer: Option<string>)
    ensures NoReread(PromptAnswered(q, u, byUser, answer))
  {
    if answer.Some? && !byUser { MaybeResumeRereadsNothing(q, u, answer.value); }
  }

  lemma SubmitRereads(q: Request, u: Ui, account: string)
    requires !NoReread(Submit(q, u, account))
    ensures !Submittable(q) && Next(Submit(q, u, account)) == Rereading(Expected(q, u), false) && Expected(q, u) != ""
  {
  }

  lemma AcquiredRereads(q: Request, u: Ui, t: Task, a: Answer)
    requires Answers(t, a) && Acquiring(t) && !NoReread(Acquired(q, u, t, a))
    ensures a.Threw? || !Submittable(q)
    ensures Next(Acquired(q, u, t, a)) == Rereading(Expected(q, u), a.Threw? && a.code == 4001) && Expected(q, u) != ""
  {
    if a.Got? && (a.value != "" || t.AcquireRequest?) { SubmitRereads(q, u, a.value); }
  }

  lemma RereadRereadsNothing(q: Request, u: Ui, expected: string, denied: bool, a: Answer)
    ensures NoReread(Reread(q, u, expected, denied, a))
  {
    var connected := if a.Got? && a.value != "" then a.value else u.connected;
    RecheckedJudges(q, u.(connected := connected), Match(q.chain, connected, expected), denied);
  }

  lemma ResumedRereads(q: Request, u: Ui, t: Task, a: Answer)
    requires Answers(t, a) && !InConnect(t) && !NoReread(Resumed(q, u, t, a))
    ensures t.Operating? || Acquiring(t)
    ensures a.Threw? || (Acquiring(t) && !Submittable(q))
    ensures Next(Resumed(q, u, t, a)) == Rereading(Expected(q, u), a.Threw? && a.code == 4001) && Expected(q, u) != ""
  {
    match t {
      case AcquireCurrent => AcquiredRereads(q, u, t, a);
      case AcquireRequest => AcquiredRereads(q, u, t, a);
      case Rereading(expected, denied) => RereadRereadsNothing(q, u, expected, denied, a);
      case Prompted(byUser, answer) => PromptAnsweredRereadsNothing(q, u, byUser, answer);
      case _ =>
    }
  }

  lemma MovedRereads(q: Request, s: Page, e: Event)
    requires !q.kind.Connect? && Enabled(q, s, e) && !InConnect(Started(s, e)) && !NoReread(Moved(q, s, e))
    ensures e.Resume?
  {
    if e.AccountsChanged? { MaybeResumeRereadsNothing(q, s.ui, e.address); }
  }

  lemma StepRereads(q: Request, s: Page, e: Event, i: nat)
    requires !q.kind.Connect? && Enabled(q, s, e) && !InConnect(Started(s, e)) && Slot(s, e) == i
    requires Step(q, s, e).tasks[i].Rereading?
    ensures e.Resume? && i < |s.tasks| && (s.tasks[i].Operating? || Acquiring(s.tasks[i]))
    ensures e.answer.Threw? || (Acquiring(s.tasks[i]) && !Submittable(q))
    ensures Step(q, s, e).tasks[i] == Rereading(Expected(q, s.ui), e.answer.Threw? && e.answer.code == 4001)
    ensures Expected(q, s.ui) != ""
  {
    MovedRereads(q, s, e);
    ResumedRereads(q, s.ui, s.tasks[i], e.answer);
  }

  /** A handler reads the account again only because it failed, with an account intended at that moment, and it
      remembers both that account and whether the user said no. */
  lemma {:induction false} RereadsAfterFailure(q: Request, states: seq<Page>, events: seq<Event>, n: nat, i: nat)
    returns (c: nat)
    requires !q.kind.Connect? && IsRun(q, states, events) && n < |states|
    requires i < |states[n].tasks| && states[n].tasks[i].Rereading?
    ensures c < n && FailedAt(q, states, events, c, i, states[n].tasks[i].denied)
    ensures states[n].tasks[i].expected == Intended(q, states, events, c) != ""
  {
    var s, e := states[n - 1], events[n - 1];
    assert StepAt(q, states, events, n - 1);
    if i < |s.tasks| && s.tasks[i] == states[n].tasks[i] && Slot(s, e) != i {
      c := RereadsAfterFailure(q, states, events, n - 1, i);
    } else {
      c := n - 1;
      var w, _ := RunKeepsSignInv(q, states, events, c);
      RunPicks(q, states, events, c);
      assert SignTask(s.ui, Started(s, e));
      StepRereads(q, s, e, i);
    }
  }

  /** The account the page knows of once it has read it again. */
  function ReadAgain(s: Page, a: Answer): string {
    if a.Got? && a.value != "" then a.value else s.ui.connected
  }

  /** Where a handler ends that has read the account again: the failure is shown, or the wallet is asked, or the user is
      left with the wrong-address view. */
  function Judged(q: Request, u: Ui, matches: bool, denied: bool): Task {
    if matches then Failing
    else if !denied && q.chain.Evm? && !u.unsupported && !u.changing && !u.finished then Prompting(false)
    else Done
  }

  lemma StepJudges(q: Request, s: Page, i: nat, a: Answer, matches: bool)
    requires i < |s.tasks| && s.tasks[i].Rereading? && Enabled(q, s, Resume(i, a))
    requires matches == Match(q.chain, ReadAgain(s, a), s.tasks[i].expected)
    ensures var s' := Step(q, s, Resume(i, a));
            && s'.tasks[i] == Judged(q, s.ui, matches, s.tasks[i].denied)
            && s'.ui.view == (if matches then s.ui.view else WrongAddress)
  {
    RereadIsRechecked(q, s, i, a, matches);
    RecheckedJudges(q, s.ui.(connected := ReadAgain(s, a)), matches, s.tasks[i].denied);
  }

  lemma RereadIsRechecked(q: Request, s: Page, i: nat, a: Answer, matches: bool)
    requires i < |s.tasks| && s.tasks[i].Rereading? && Enabled(q, s, Resume(i, a))
    requires matches == Match(q.chain, ReadAgain(s, a), s.tasks[i].expected)
    ensures Moved(q, s, Resume(i, a))
      == Rechecked(q, s.ui.(connected := ReadAgain(s, a)), matches, s.tasks[i].denied)
  {
  }

  lemma RecheckedJudges(q: Request, u: Ui, matches: bool, denied: bool)
    ensures var m := Rechecked(q, u, matches, denied);
            && m.Wait? && m.next == Judged(q, u, matches, denied)
            && m.ui.view == (if matches then u.view else WrongAddress)
  {
  }

  /** In every run: a failure is taken for a wrong account exactly if the account that is read again does not match the
      one intended when the handler failed. The page then asks the wallet to change accounts exactly if it can and the
      user did not say no. Otherwise the failure is shown as it is. */
  lemma FailureIsJudged(q: Request, states: seq<Page>, events: seq<Event>, n: nat, i: nat, a: Answer)
    returns (c: nat, denied: bool)
    requires !q.kind.Connect? && IsRun(q, states, events) && n < |events| && events[n] == Resume(i, a)
    requires i < |states[n].tasks| && states[n].tasks[i].Rereading?
    ensures c < n && FailedAt(q, states, events, c, i, denied)
    ensures var s, t := states[n], states[n + 1];
            var mistaken := !Match(q.chain, ReadAgain(s, a), Intended(q, states, events, c));
            var asks := mistaken && !denied && q.chain.Evm? && !s.ui.unsupported && !s.ui.changing && !s.ui.finished;
            && i < |t.tasks| && t.tasks[i] == (if asks then Prompting(false) else if mistaken then Done else Failing)
            && t.ui.view == (if mistaken then WrongAddress else s.ui.view)
  {
    c := RereadsAfterFailure(q, states, events, n, i);
    denied := states[n].tasks[i].denied;
    assert StepAt(q, states, events, n);
    StepJudges(q, states[n], i, a, Match(q.chain, ReadAgain(states[n], a), states[n].tasks[i].expected));
  }

  /** And a handler that fails does read the account again, whenever an account is intended; else, and after a reading
      that matches, the error view follows. */
  lemma FailureIsLookedInto(q: Request, states: seq<Page>, events: seq<Event>, n: nat, i: nat, a: Answer)
    requires !q.kind.Connect? && IsRun(q, states, events) && n < |events| && events[n] == Resume(i, a)
    requires i < |states[n].tasks| && i < |states[n + 1].tasks|
    ensures var t, t' := states[n].tasks[i], states[n + 1].tasks[i];
            && (a.Threw? && (t.Operating? || Acquiring(t)) ==>
                  t' == if Intended(q, states, events, n) == "" then Failing
                        else Rereading(Intended(q, states, events, n), a.code == 4001))
            && (t.Failing? ==> t'.Done? && states[n + 1].ui.view.Failed?)
  {
    assert StepAt(q, states, events, n);
    RunPicks(q, states, events, n);
  }

  // ---------- Resuming ----------

  /** The event tells a handler, its own or a new one, that the wallet is on an account: a listener, or the page's own
      prompt. */
  predicate Tells(s: Page, e: Event, address: string) {
    || e == AccountsChanged(address)
    || (e.Resume? && e.slot < |s.tasks| && s.tasks[e.slot] == Prompted(false, Some(address)))
  }

  lemma MaybeResumeResumes(q: Request, u: Ui, address: string, matches: bool)
    requires !q.kind.Connect? && u.settled.None? && matches == Match(q.chain, address, Expected(q, u))
    ensures var m := MaybeResume(q, u, address);
            && Next(m) == (if u.view.WrongAddress? && !u.finished && address != "" && matches then AcquireCurrent
                           else Done)
            && (m.ui.view == if Next(m).AcquireCurrent? then Connecting else u.view)
            && (Next(m).AcquireCurrent? ==> !m.ui.listening)
  {
  }

  lemma NoResumeWhenSettled(q: Request, u: Ui, address: string)
    requires !u.view.WrongAddress?
    ensures MaybeResume(q, u, address) == Wait(u, Done)
  {
  }

  lemma StepResumes(q: Request, s: Page, e: Event, address: string)
    requires !q.kind.Connect? && SignUi(s.ui) && Enabled(q, s, e) && Tells(s, e, address)
    ensures var s', i, resumes := Step(q, s, e), Slot(s, e),
              s.ui.view.WrongAddress? && !s.ui.finished && address != "" && Match(q.chain, address, Expected(q, s.ui));
            && s'.tasks[i] == (if resumes then AcquireCurrent else Done)
            && s'.ui.view == (if resumes then Connecting else s.ui.view) && (resumes ==> !s'.ui.listening)
  {
    if s.ui.view.WrongAddress? {
      MaybeResumeResumes(q, s.ui, address, Match(q.chain, address, Expected(q, s.ui)));
    } else {
      NoResumeWhenSettled(q, s.ui, address);
    }
  }

  /** In every run, news of an account starts the request over exactly if the page shows the wrong-address view, the
      user has not rejected, and the account matches the one intended. Whichever comes first takes the view away from
      the others. */
  lemma ResumesIff(q: Request, states: seq<Page>, events: seq<Event>, n: nat, address: string)
    requires !q.kind.Connect? && IsRun(q, states, events) && n < |events| && Tells(states[n], events[n], address)
    ensures var s, t, i := states[n], states[n + 1], Slot(states[n], events[n]);
            var resumes := s.ui.view.WrongAddress? && !s.ui.finished && address != ""
                           && Match(q.chain, address, Intended(q, states, events, n));
            && i < |t.tasks| && t.tasks[i] == (if resumes then AcquireCurrent else Done)
            && t.ui.view == (if resumes then Connecting else s.ui.view) && (resumes ==> !t.ui.listening)
  {
    assert StepAt(q, states, events, n);
    RunPicks(q, states, events, n);
    var w, _ := RunKeepsSignInv(q, states, events, n);
    StepResumes(q, states[n], events[n], address);
  }

  // ---------- Clicks and deliveries ----------

  /** In every run, a click on the action or on "Change Account" posts the settled result again if there is one, and
      submits nothing; otherwise it starts a handler, which posts nothing yet. */
  lemma ActionRetriesOrStarts(q: Request, states: seq<Page>, events: seq<Event>, n: nat)
    requires !q.kind.Connect? && IsRun(q, states, events) && n < |events|
    requires events[n] == Click(Go) || events[n] == Click(Change)
    ensures var s, t := states[n], states[n + 1];
            && t.ops == s.ops && |t.tasks| == |s.tasks| + 1
            && (if s.ui.settled.Some? then
                  t.outbox == s.outbox + [Deliver(s.ui.settled)]
                  && t.tasks[|s.tasks|] == Delivering(|s.outbox|, true)
                else t.outbox == s.outbox && t.tasks[|s.tasks|] == AcquireCurrent && t.ui.view.Connecting?)
  {
    assert StepAt(q, states, events, n);
  }

  /** In every run of any request, a delivery that is answered 200 shows success, and any other shows the error. */
  lemma DeliveryShows(q: Request, states: seq<Page>, events: seq<Event>, n: nat, i: nat, a: Answer)
    requires IsRun(q, states, events) && n < |events| && events[n] == Resume(i, a)
    requires i < |states[n].tasks| && states[n].tasks[i].Delivering?
    ensures states[n + 1].ui.view == if a == Http(200) then Success else Failed
    ensures states[n + 1].ui.settled == states[n].ui.settled
  {
    assert StepAt(q, states, events, n);
  }

  /** In every run of any request, each click on Reject or Cancel posts one refusal and stops the listeners: in the
      wrong-address view with the code and both accounts, in any other with the request's own reason and no code. */
  lemma RejectPosts(q: Request, states: seq<Page>, events: seq<Event>, n: nat)
    requires IsRun(q, states, events) && n < |events| && events[n] == Click(Reject)
    ensures var s, t := states[n], states[n + 1];
            && t.ui.finished && !t.ui.listening && !t.ui.following && |t.outbox| == |s.outbox| + 1
            && t.outbox[..|s.outbox|] == s.outbox && t.outbox[|s.outbox|].Refuse?
            && var intended := if s.ui.picked != "" then s.ui.picked else q.pinned;
               if s.ui.view.WrongAddress? then
                 t.outbox[|s.outbox|].code == Some("WRONG_WALLET_ADDRESS")
                 && t.outbox[|s.outbox|].error
                    == "Wrong wallet address: expected " + intended + ", got " + s.ui.connected
               else
                 t.outbox[|s.outbox|].code == None
                 && t.outbox[|s.outbox|].error == (if q.kind.Connect? then "User cancelled"
                                                   else if q.kind.Transaction? then "User rejected transaction"
                                                   else "User rejected signing")
  {
    assert StepAt(q, states, events, n);
  }

  // ---------- Prompts ----------

  /** In every run of any request, a prompt that returns is closed, and the page gives prompting up exactly if the
      wallet has shown that it cannot. */
  lemma PromptReturns(q: Request, states: seq<Page>, events: seq<Event>, n: nat, i: nat, a: Answer)
    requires IsRun(q, states, events) && n < |events| && events[n] == Resume(i, a)
    requires i < |states[n].tasks| && states[n].tasks[i].Prompting?
    ensures var s, t := states[n], states[n + 1];
            && i < |t.tasks| && !t.ui.changing
            && (t.ui.unsupported <==> s.ui.unsupported || a == Null || a == Threw(-32601))
            && t.tasks[i] == Prompted(s.tasks[i].byUser, if a.Got? then Some(a.value) else if a.Null? then None
                                                         else Some(""))
  {
    assert StepAt(q, states, events, n);
  }

  /** In every run of any request, a click on "Change" asks the wallet, unless the user has rejected. */
  lemma ChangeAsks(q: Request, states: seq<Page>, events: seq<Event>, n: nat)
    requires IsRun(q, states, events) && n < |events| && events[n] == Click(Swap)
    requires !states[n].ui.finished && !states[n].ui.changing && !states[n].ui.unsupported && q.chain.Evm?
    ensures var s, t := states[n], states[n + 1];
            |t.tasks| == |s.tasks| + 1 && t.tasks[|s.tasks|] == Prompting(true) && t.ui.changing
  {
    assert StepAt(q, states, events, n);
  }

  // ---------- The account the page knows of ----------

  /** The wallet names an account to a handler that asked for it, to one that reads it again, or as the answer to a
      prompt that still matters; a connect settles for the pinned one, as the wallet cannot be asked; or the wallet
      selects another one while the page listens. */
  function ConnectedAfter(q: Request, s: Page, e: Event, connected: string): string {
    match e
    case Resume(i, a) =>
      if i >= |s.tasks| then connected
      else if Told(s, e) || (s.tasks[i].ConnectRequest? && a.Got?) then Named(e)
      else if s.tasks[i].Rereading? && Named(e) != "" then Named(e)
      else if s.tasks[i].Prompted? then AnsweredWith(q, s, s.tasks[i], connected)
      else connected
    case AccountsChanged(address) => if address != "" && Waits(s) then address else connected
    case Followed(address) =>
      if address != "" && !s.ui.finished && s.ui.settled.None? && !s.ui.view.WrongAddress? then address else connected
    case LateWallet(address) => address
    case _ => connected
  }

  /** The page waits for the right account. */
  predicate Waits(s: Page) {
    s.ui.view.WrongAddress? && !s.ui.finished
  }

  function AnsweredWith(q: Request, s: Page, t: Task, connected: string): string
    requires t.Prompted?
  {
    match t.answer
    case Some(address) => if address != "" && (Waits(s) || (t.byUser && !s.ui.finished)) then address else connected
    case None => if q.kind.Connect? && q.chain.Evm? && !t.byUser && Waits(s) then q.pinned else connected
  }

  /** The account the page knows of after `n` steps, read off the events. */
  ghost function LastKnown(q: Request, states: seq<Page>, events: seq<Event>, n: nat): string
    requires n <= |events| < |states|
  {
    if n == 0 then states[0].ui.connected
    else ConnectedAfter(q, states[n - 1], events[n - 1], LastKnown(q, states, events, n - 1))
  }

  lemma SubmitConnects(q: Request, u: Ui, account: string)
    ensures Submit(q, u, account).ui.connected == account
  {
    if Gated(q, account, Expected(q, u)) { MismatchConnects(q, u, account); }
  }

  lemma MismatchConnects(q: Request, u: Ui, account: string)
    ensures OpenPrompt(q, EnterWrongAddress(q, u.(connected := account)), false).ui.connected == account
  {
  }

  lemma FinishConnects(q: Request, u: Ui, address: string)
    ensures FinishConnect(q, u, address).ui.connected == address
  {
  }

  lemma ConnectedConnects(q: Request, u: Ui, address: string)
    ensures Connected(q, u, address).ui.connected == address
  {
    MismatchConnects(q, u, address);
    FinishConnects(q, u.(connected := address), address);
  }

  lemma TakeUpConnects(q: Request, u: Ui, matches: bool)
    ensures TakeUp(q, u, matches).ui.connected == u.connected
  {
    FinishConnects(q, u.(view := Connecting, listening := false), u.connected);
  }

  lemma MaybeResumeConnects(q: Request, s: Page, address: string)
    ensures MaybeResume(q, s.ui, address).ui.connected
      == if address != "" && Waits(s) then address else s.ui.connected
  {
    if address != "" && Waits(s) {
      TakeUpConnects(q, s.ui.(connected := address), Match(q.chain, address, Expected(q, s.ui)));
    }
  }

  lemma AnsweredConnects(q: Request, s: Page, t: Task)
    requires t.Prompted? && (q.kind.Connect? ==> s.ui.picked == "")
    ensures PromptAnswered(q, s.ui, t.byUser, t.answer).ui.connected == AnsweredWith(q, s, t, s.ui.connected)
  {
    if t.answer.None? {
      FinishConnects(q, s.ui.(listening := false, view := Connecting), q.pinned);
    } else if t.byUser {
      FinishConnects(q, s.ui.(connected := t.answer.value, view := Connecting), t.answer.value);
    } else {
      MaybeResumeConnects(q, s, t.answer.value);
    }
  }

  lemma ResumedConnects(q: Request, s: Page, i: nat, a: Answer)
    requires i < |s.tasks| && Answers(s.tasks[i], a) && (q.kind.Connect? ==> s.ui.picked == "")
    ensures Resumed(q, s.ui, s.tasks[i], a).ui.connected == ConnectedAfter(q, s, Resume(i, a), s.ui.connected)
  {
    match s.tasks[i] {
      case AcquireCurrent => if a.Got? && a.value != "" { SubmitConnects(q, s.ui, a.value); }
      case AcquireRequest => if a.Got? { SubmitConnects(q, s.ui, a.value); }
      case ConnectRequest => if a.Got? { ConnectedConnects(q, s.ui, a.value); }
      case Rereading(expected, denied) => RereadKeepsPicked(q, s.ui, expected, denied, a);
      case Prompted(_, _) => AnsweredConnects(q, s, s.tasks[i]);
      case _ =>
    }
  }

  lemma MovedConnects(q: Request, s: Page, e: Event)
    requires Enabled(q, s, e) && (q.kind.Connect? ==> s.ui.picked == "")
    ensures Moved(q, s, e).ui.connected == ConnectedAfter(q, s, e, s.ui.connected)
  {
    match e {
      case Resume(i, a) => ResumedConnects(q, s, i, a);
      case AccountsChanged(address) => MaybeResumeConnects(q, s, address);
      case _ =>
    }
  }

  /** In every run of any request the account the page shows, and names when it refuses, is the one it was told last. */
  lemma {:induction false} KnowsTheLastAccount(q: Request, states: seq<Page>, events: seq<Event>, n: nat)
    requires IsRun(q, states, events) && n < |states|
    ensures states[n].ui.connected == LastKnown(q, states, events, n)
  {
    if n > 0 {
      var s, e := states[n - 1], events[n - 1];
      KnowsTheLastAccount(q, states, events, n - 1);
      if q.kind.Connect? { var c := ConnectFlow.RunKeepsConnectInv(q, states, events, n - 1); }
      assert StepAt(q, states, events, n - 1);
      MovedConnects(q, s, e);
    }
  }

  /** In every run of any request: a chain that the wallet has reached clears an error, unless the user has rejected;
      and a wallet that comes late is shown with its account. Neither starts, submits or posts anything. */
  lemma WalletNews(q: Request, states: seq<Page>, events: seq<Event>, n: nat)
    requires IsRun(q, states, events) && n < |events|
    requires events[n].ChainReady? || events[n].LateWallet? || events[n].WalletAppeared?
    ensures var s, t, e := states[n], states[n + 1], events[n];
            && t.tasks == s.tasks + [Done] && t.ops == s.ops && t.outbox == s.outbox && t.ui.settled == s.ui.settled
            && t.ui.view == (if e.ChainReady? && s.ui.view.Failed? && !s.ui.finished then Idle else s.ui.view)
            && (e.LateWallet? ==> t.ui.connected == e.address && t.ui.following && !t.ui.awaitingWallet)
            && (e.WalletAppeared? ==> t.ui == s.ui.(wallet := true))
  {
    assert StepAt(q, states, events, n);
  }
}
