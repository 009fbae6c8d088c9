/**
  The account a sign or transaction request is signed with when the user may click "Change": the account the prompt
  gave last, followed when the wallet selects another; else the pinned one; else the one the wallet is on.
 */
module PickedSigner {
  import opened Wrappers
  import opened Approval
  import opened SingleFlight
  import opened Outgoing
  import PinnedSigner

  /** The account that is picked after an event, when `picked` was before it: an answer to a prompt the user opened, or
      an account selected in the wallet while one is picked and the page follows it. */
  function PickedAfter(s: Page, e: Event, picked: string): string {
    match e
    case Resume(i, _) =>
      if i < |s.tasks| && s.tasks[i].Prompted? && s.tasks[i].byUser && s.tasks[i].answer.Some?
         && s.tasks[i].answer.value != "" && !s.ui.finished
      then s.tasks[i].answer.value
      else picked
    case Followed(address) =>
      if picked != "" && address != "" && !s.ui.finished && s.ui.settled.None? && !s.ui.view.WrongAddress?
      then address
      else picked
    case _ => picked
  }

  /** The account picked so far, read off the events. */
  ghost function LastPick(states: seq<Page>, events: seq<Event>, n: nat): string
    requires n <= |events| < |states|
  {
    if n == 0 then "" else PickedAfter(states[n - 1], events[n - 1], LastPick(states, events, n - 1))
  }

  // ---------- What changes the picked account ----------

  lemma SubmitKeepsPicked(q: Request, u: Ui, account: string)
    ensures Submit(q, u, account).ui.picked == u.picked
  {
    if Gated(q, account, Expected(q, u)) {
      MismatchKeepsPicked(q, u, account);
    } else {
      FailureKeepsPicked(q, Paint(q, u.(connected := account, view := Signing)), 0);
    }
  }

  lemma MismatchKeepsPicked(q: Request, u: Ui, account: string)
    ensures OpenPrompt(q, EnterWrongAddress(q, u.(connected := account)), false).ui.picked == u.picked
  {
  }

  lemma FailureKeepsPicked(q: Request, u: Ui, code: int)
    ensures AfterFailure(q, u, code).ui.picked == u.picked
  {
  }

  lemma MaybeResumeKeepsPicked(q: Request, u: Ui, address: string)
    requires !q.kind.Connect?
    ensures MaybeResume(q, u, address).ui.picked == u.picked
  {
  }

  lemma RecheckedKeepsPicked(q: Request, u: Ui, matches: bool, denied: bool)
    ensures Rechecked(q, u, matches, denied).ui.picked == u.picked
    ensures Rechecked(q, u, matches, denied).ui.connected == u.connected
  {
  }

  lemma RereadKeepsPicked(q: Request, u: Ui, expected: string, denied: bool, a: Answer)
    ensures Reread(q, u, expected, denied, a).ui.picked == u.picked
    ensures Reread(q, u, expected, denied, a).ui.connected == if a.Got? && a.value != "" then a.value else u.connected
  {
    var connected := if a.Got? && a.value != "" then a.value else u.connected;
    RecheckedKeepsPicked(q, u.(connected := connected), Match(q.chain, connected, expected), denied);
  }

  lemma AcquiredKeepsPicked(q: Request, u: Ui, t: Task, a: Answer)
    requires Acquiring(t) && Answers(t, a)
    ensures Acquired(q, u, t, a).ui.picked == u.picked
  {
    if a.Got? { SubmitKeepsPicked(q, u, a.value); }
  }

  lemma AnsweredPicks(q: Request, u: Ui, byUser: bool, answer: Option<string>)
    requires !q.kind.Connect?
    ensures PromptAnswered(q, u, byUser, answer).ui.picked
      == if byUser && answer.Some? && answer.value != "" && !u.finished then answer.value else u.picked
  {
    if answer.Some? && !byUser { MaybeResumeKeepsPicked(q, u, answer.value); }
  }

  lemma ResumedPicks(q: Request, s: Page, i: nat, a: Answer)
    requires !q.kind.Connect? && i < |s.tasks| && Answers(s.tasks[i], a) && !InConnect(s.tasks[i])
    ensures Resumed(q, s.ui, s.tasks[i], a).ui.picked == PickedAfter(s, Resume(i, a), s.ui.picked)
  {
    match s.tasks[i] {
      case AcquireCurrent => AcquiredKeepsPicked(q, s.ui, s.tasks[i], a);
      case AcquireRequest => AcquiredKeepsPicked(q, s.ui, s.tasks[i], a);
      case Rereading(expected, denied) => RereadKeepsPicked(q, s.ui, expected, denied, a);
      case Prompted(byUser, answer) => AnsweredPicks(q, s.ui, byUser, answer);
      case _ =>
    }
  }

  lemma MovedPicks(q: Request, s: Page, e: Event)
    requires !q.kind.Connect? && Enabled(q, s, e) && !InConnect(Started(s, e))
    ensures Moved(q, s, e).ui.picked == PickedAfter(s, e, s.ui.picked)
  {
    match e {
      case Resume(i, a) => ResumedPicks(q, s, i, a);
      case AccountsChanged(address) => MaybeResumeKeepsPicked(q, s.ui, address);
      case _ =>
    }
  }

  // ---------- Whole runs ----------

  lemma {:induction false} RunPicks(q: Request, states: seq<Page>, events: seq<Event>, n: nat)
    requires !q.kind.Connect? && IsRun(q, states, events) && n < |states|
    ensures states[n].ui.picked == LastPick(states, events, n)
  {
    if n > 0 {
      var s, e := states[n - 1], events[n - 1];
      RunPicks(q, states, events, n - 1);
      var w, _ := RunKeepsSignInv(q, states, events, n - 1);
      assert StepAt(q, states, events, n - 1);
      assert SignTask(s.ui, Started(s, e));
      MovedPicks(q, s, e);
    }
  }

  /** The account an operation is to name. */
  function Signer(q: Request, picked: string, acquired: string): string {
    if picked != "" then picked else if q.pinned != "" then q.pinned else acquired
  }

  // ---------- Exactly when one is submitted ----------

  /** The page lets the request go ahead on the account: the TRON and Bitcoin pages insist on the pinned one. */
  predicate Fits(q: Request, account: string) {
    q.chain.Evm? || q.pinned == "" || Match(q.chain, account, q.pinned)
  }

  /** A handler that waits for its account is told one; the first answer may be none. */
  predicate Told(s: Page, e: Event) {
    && e.Resume? && e.slot < |s.tasks| && e.answer.Got?
    && (s.tasks[e.slot].AcquireRequest? || (s.tasks[e.slot].AcquireCurrent? && e.answer.value != ""))
  }

  /** The wallet shows no account. */
  predicate NamesNone(s: Page, e: Event) {
    e.Resume? && e.slot < |s.tasks| && s.tasks[e.slot].AcquireCurrent? && e.answer == Got("")
  }

  /** The account an answer names. */
  function Named(e: Event): string {
    if e.Resume? && e.answer.Got? then e.answer.value else ""
  }

  lemma SubmitIffFits(q: Request, u: Ui, account: string)
    requires !q.kind.Connect? && (!q.chain.Evm? ==> u.picked == "")
    ensures var m := Submit(q, u, account);
            && (m.Submitted? <==> Fits(q, account) && Submittable(q))
            && (m.Submitted? ==> m.op == Operation(Signer(q, u.picked, account), account) && m.ui.view.Signing?)
            && (!Fits(q, account) ==> m.ui.view.WrongAddress?)
  {
    MatchesItself(q.chain, account);
  }

  lemma StepSubmitsIff(q: Request, s: Page, e: Event)
    requires !q.kind.Connect? && Enabled(q, s, e) && (!q.chain.Evm? ==> s.ui.picked == "")
    ensures Step(q, s, e).ops
      == if Told(s, e) && Fits(q, e.answer.value) && Submittable(q)
         then s.ops + [Operation(Signer(q, s.ui.picked, e.answer.value), e.answer.value)] else s.ops
    ensures Told(s, e) && !Fits(q, e.answer.value) ==> Step(q, s, e).ui.view.WrongAddress?
    ensures Step(q, s, e).ops != s.ops ==> Step(q, s, e).ui.view.Signing?
    ensures NamesNone(s, e) ==> Step(q, s, e).tasks == s.tasks[e.slot := AcquireRequest]
  {
    if Told(s, e) {
      SubmitIffFits(q, s.ui, e.answer.value);
    } else if Moved(q, s, e).Submitted? {
      MovedSubmits(q, s, e);
    }
  }

  /** In every run, an operation is submitted exactly when a handler that waits for its account is told one that the
      page lets the request go ahead on, and there is something to submit. A handler told another ends in the
      wrong-address view, and one told none asks for one. */
  lemma SubmitsIff(q: Request, states: seq<Page>, events: seq<Event>, n: nat)
    requires !q.kind.Connect? && IsRun(q, states, events) && n < |events|
    ensures var s, e, a := states[n], events[n], Named(events[n]);
            && states[n + 1].ops == (if Told(s, e) && Fits(q, a) && Submittable(q)
                                     then s.ops + [Operation(Signer(q, LastPick(states, events, n), a), a)] else s.ops)
            && (states[n + 1].ops != s.ops ==> states[n + 1].ui.view.Signing?)
            && (Told(s, e) && !Fits(q, a) ==> states[n + 1].ui.view.WrongAddress?)
            && (NamesNone(s, e) ==> states[n + 1].tasks == s.tasks[e.slot := AcquireRequest])
  {
    assert StepAt(q, states, events, n);
    RunPicks(q, states, events, n);
    if !q.chain.Evm? { PinnedSigner.OnlyThePinnedAccountSigns(q, states, events, n); }
    StepSubmitsIff(q, states[n], events[n]);
  }

  /** So, on every page and whatever is clicked, each operation was submitted at some step `c` at which the wallet named
      an account `a`; and it names the account picked by then, else the pinned one, else `a`. */
  lemma {:induction false} OperationsNameTheSigner(q: Request, states: seq<Page>, events: seq<Event>, n: nat, k: nat)
    returns (c: nat, a: string)
    requires !q.kind.Connect? && IsRun(q, states, events) && n < |states| && k < |states[n].ops|
    ensures c < n && |states[c + 1].ops| == k + 1 && ToldAt(states, events, c, k, a)
    ensures states[n].ops[k] == Operation(Signer(q, LastPick(states, events, c), a), a)
  {
    SubmitsIff(q, states, events, n - 1);
    if k < |states[n - 1].ops| {
      c, a := OperationsNameTheSigner(q, states, events, n - 1, k);
    } else {
      c, a := n - 1, Named(events[n - 1]);
    }
  }
}
