/**
  The pinned account in sign and transaction requests. Unless the user picks another account with "Change",
  every operation names the pinned one; on the TRON and Bitcoin pages, which have no such button and gate a
  mismatch themselves, the wallet is also on that account when the operation is submitted.
 */
module PinnedSigner {
  import opened Approval
  import opened SingleFlight
  import opened Outgoing

  /** No account has been picked and no prompt could still pick one. */
  predicate Unpicked(q: Request, u: Ui) {
    && u.picked == ""
    && (u.buttons.swap ==> HasPrompt(q))
  }

  predicate PicksNothing(t: Task) {
    && (t.Prompting? ==> !t.byUser)
    && (t.Prompted? ==> !t.byUser)
  }

  predicate PinnedOperation(q: Request, op: Operation) {
    q.pinned != "" ==> op.from == q.pinned && (!HandlesMismatch(q) ==> Match(q.chain, op.acquired, q.pinned))
  }

  predicate PinnedMove(q: Request, m: Move) {
    && Unpicked(q, m.ui)
    && PicksNothing(Next(m))
    && (m.Submitted? ==> PinnedOperation(q, m.op))
  }

  lemma MismatchIsPinnedMove(q: Request, u: Ui)
    requires !q.kind.Connect? && Unpicked(q, u)
    ensures PinnedMove(q, OpenPrompt(q, EnterWrongAddress(q, u), false))
  {
  }

  /** What the gate lets through. */
  lemma UngatedIsPinned(q: Request, account: string)
    requires !q.kind.Connect? && !Gated(q, account, q.pinned)
    ensures PinnedOperation(q, Operation(if q.pinned != "" then q.pinned else account, account))
  {
  }

  lemma SubmitIsPinnedMove(q: Request, u: Ui, account: string)
    requires !q.kind.Connect? && Unpicked(q, u)
    ensures PinnedMove(q, Submit(q, u, account))
  {
    if Gated(q, account, q.pinned) {
      MismatchIsPinnedMove(q, u.(connected := account));
    } else {
      UngatedIsPinned(q, account);
    }
  }

  lemma RecheckedIsPinnedMove(q: Request, u: Ui, matches: bool, denied: bool)
    requires !q.kind.Connect? && Unpicked(q, u)
    ensures PinnedMove(q, Rechecked(q, u, matches, denied))
  {
  }

  lemma TakeUpIsPinnedMove(q: Request, u: Ui, matches: bool)
    requires !q.kind.Connect? && Unpicked(q, u)
    ensures PinnedMove(q, TakeUp(q, u, matches))
  {
  }

  lemma MaybeResumeIsPinnedMove(q: Request, u: Ui, address: string)
    requires !q.kind.Connect? && Unpicked(q, u)
    ensures PinnedMove(q, MaybeResume(q, u, address))
  {
    TakeUpIsPinnedMove(q, u.(connected := address), Match(q.chain, address, Expected(q, u)));
  }

  lemma RereadIsPinnedMove(q: Request, u: Ui, expected: string, denied: bool, a: Answer)
    requires !q.kind.Connect? && Unpicked(q, u)
    ensures PinnedMove(q, Reread(q, u, expected, denied, a))
  {
    var connected := if a.Got? && a.value != "" then a.value else u.connected;
    RecheckedIsPinnedMove(q, u.(connected := connected), Match(q.chain, connected, expected), denied);
  }

  lemma AcquiredIsPinnedMove(q: Request, u: Ui, t: Task, a: Answer)
    requires !q.kind.Connect? && Unpicked(q, u) && (t.AcquireCurrent? || t.AcquireRequest?) && Answers(t, a)
    ensures PinnedMove(q, Acquired(q, u, t, a))
  {
    if a.Got? { SubmitIsPinnedMove(q, u, a.value); }
  }

  lemma OtherIsPinnedMove(q: Request, u: Ui, t: Task, a: Answer)
    requires !q.kind.Connect? && Unpicked(q, u) && PicksNothing(t) && !InConnect(t) && Answers(t, a)
    requires t.Refusing? || t.Prompting?
    ensures PinnedMove(q, Resumed(q, u, t, a))
  {
  }

  lemma DeliveredIsPinnedMove(q: Request, u: Ui)
    requires !q.kind.Connect? && Unpicked(q, u)
    ensures PinnedMove(q, ShowError(q, u)) && PinnedMove(q, Wait(Paint(q, u.(view := Success)), Done))
  {
  }

  lemma OperatedIsPinnedMove(q: Request, u: Ui, t: Task, a: Answer)
    requires !q.kind.Connect? && Unpicked(q, u) && Answers(t, a) && (t.Operating? || t.Failing?)
    ensures PinnedMove(q, Resumed(q, u, t, a))
  {
  }

  lemma ResumedIsPinnedMove(q: Request, u: Ui, t: Task, a: Answer)
    requires !q.kind.Connect? && Unpicked(q, u) && PicksNothing(t) && !InConnect(t) && Answers(t, a)
    ensures PinnedMove(q, Resumed(q, u, t, a))
  {
    match t {
      case AcquireCurrent => AcquiredIsPinnedMove(q, u, t, a);
      case AcquireRequest => AcquiredIsPinnedMove(q, u, t, a);
      case Rereading(expected, denied) => RereadIsPinnedMove(q, u, expected, denied, a);
      case Prompted(_, answer) => if answer.Some? { MaybeResumeIsPinnedMove(q, u, answer.value); }
      case Delivering(_, _) => DeliveredIsPinnedMove(q, u);
      case Operating => OperatedIsPinnedMove(q, u, t, a);
      case Failing => OperatedIsPinnedMove(q, u, t, a);
      case _ => OtherIsPinnedMove(q, u, t, a);
    }
  }

  lemma MovedIsPinnedMove(q: Request, s: Page, e: Event)
    requires !q.kind.Connect? && Unpicked(q, s.ui) && Enabled(q, s, e) && (HasPrompt(q) ==> e != Click(Swap))
    requires PicksNothing(Started(s, e)) && !InConnect(Started(s, e))
    ensures PinnedMove(q, Moved(q, s, e))
  {
    match e {
      case Resume(i, a) => ResumedIsPinnedMove(q, s.ui, s.tasks[i], a);
      case AccountsChanged(address) => MaybeResumeIsPinnedMove(q, s.ui, address);
      case _ =>
    }
  }

  ghost predicate PinnedInv(q: Request, s: Page) {
    && Unpicked(q, s.ui)
    && (forall i :: 0 <= i < |s.tasks| ==> PicksNothing(s.tasks[i]))
    && (forall k :: 0 <= k < |s.ops| ==> PinnedOperation(q, s.ops[k]))
  }

  lemma StepKeepsPinnedInv(q: Request, s: Page, w: nat, e: Event)
    requires !q.kind.Connect? && SignInv(s, w) && PinnedInv(q, s) && Enabled(q, s, e)
    requires (HasPrompt(q) ==> e != Click(Swap))
    ensures PinnedInv(q, Step(q, s, e))
  {
    MovedIsPinnedMove(q, s, e);
    var s' := Step(q, s, e);
    forall i | 0 <= i < |s'.tasks| ensures PicksNothing(s'.tasks[i]) {
      if i != Slot(s, e) { assert s'.tasks[i] == s.tasks[i]; }
    }
  }

  /** In a run where the user never clicks "Change", a pinned request submits operations for the pinned
      account only, and on the pages that gate mismatches only while the acquired account matches it. On
      those pages the button does not exist, so there this holds of every run. */
  lemma {:induction false} OnlyThePinnedAccountSigns(q: Request, states: seq<Page>, events: seq<Event>, n: nat)
    requires !q.kind.Connect? && IsRun(q, states, events) && n < |states|
    requires q.chain.Evm? ==> forall k :: 0 <= k < n ==> events[k] != Click(Swap)
    ensures PinnedInv(q, states[n])
    ensures q.pinned != "" ==> forall k :: 0 <= k < |states[n].ops| ==> states[n].ops[k].from == q.pinned
    ensures q.pinned != "" && !q.chain.Evm? ==>
              forall k :: 0 <= k < |states[n].ops| ==> Match(q.chain, states[n].ops[k].acquired, q.pinned)
  {
    if n > 0 {
      OnlyThePinnedAccountSigns(q, states, events, n - 1);
      assert StepAt(q, states, events, n - 1);
      var w, _ := RunKeepsSignInv(q, states, events, n - 1);
      StepKeepsPinnedInv(q, states[n - 1], w, events[n - 1]);
    }
    forall k | 0 <= k < |states[n].ops| && q.pinned != ""
      ensures states[n].ops[k].from == q.pinned
      ensures !q.chain.Evm? ==> Match(q.chain, states[n].ops[k].acquired, q.pinned)
    {
      assert PinnedOperation(q, states[n].ops[k]);
    }
  }

  /** So each operation of such a run was submitted as the wallet named an account, for the pinned one; and on the TRON
      and Bitcoin pages what the wallet named matches it. */
  lemma SubmittedOnThePinnedAccount(q: Request, states: seq<Page>, events: seq<Event>, n: nat, k: nat)
    returns (c: nat, a: string)
    requires !q.kind.Connect? && q.pinned != "" && IsRun(q, states, events) && n < |states| && k < |states[n].ops|
    requires q.chain.Evm? ==> forall k :: 0 <= k < n ==> events[k] != Click(Swap)
    ensures c < n && |states[c + 1].ops| == k + 1 && ToldAt(states, events, c, k, a)
    ensures states[n].ops[k] == Operation(q.pinned, a)
    ensures !q.chain.Evm? ==> Match(q.chain, a, q.pinned)
  {
    a := states[n].ops[k].acquired;
    c := AcquiredIsTheAnswer(q, states, events, n, k);
    OnlyThePinnedAccountSigns(q, states, events, n);
  }
}
