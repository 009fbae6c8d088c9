/**
  The account-change prompt is shared by every handler of the page: one is open at a time, and none opens
  once the wallet has shown that it has no such prompt.
 */
module AccountPrompt {
  import opened Approval
  import opened SingleFlight

  predicate PromptMove(u: Ui, t: Task, m: Move) {
    var u', t' := m.ui, Next(m);
    && (t'.Prompting? ==>
          !t.Prompting? && !u.changing && !u.finished && !u.unsupported && u'.changing && !u'.unsupported)
    && (t.Prompting? ==> !u'.changing)
    && (!t.Prompting? && !t'.Prompting? ==> u'.changing == u.changing)
    && (!t.Prompting? ==> u'.unsupported == u.unsupported)
    && (u.unsupported ==> u'.unsupported)
  }

  lemma FinishIsPromptMove(q: Request, u: Ui, t: Task, address: string)
    requires !t.Prompting?
    ensures PromptMove(u, t, FinishConnect(q, u, address))
  {
  }

  lemma TakeUpIsPromptMove(q: Request, u: Ui, t: Task, matches: bool)
    requires !t.Prompting?
    ensures PromptMove(u, t, TakeUp(q, u, matches))
  {
    if matches && q.kind.Connect? { FinishIsPromptMove(q, u.(view := Connecting, listening := false), t, u.connected); }
  }

  lemma MaybeResumeIsPromptMove(q: Request, u: Ui, t: Task, address: string)
    requires !t.Prompting?
    ensures PromptMove(u, t, MaybeResume(q, u, address))
  {
    TakeUpIsPromptMove(q, u.(connected := address), t, Match(q.chain, address, Expected(q, u)));
  }

  lemma NoPromptIsPromptMove(q: Request, u: Ui, t: Task)
    requires !t.Prompting?
    ensures PromptMove(u, t, ConnectDespiteNoPrompt(q, u))
  {
    FinishIsPromptMove(q, u.(listening := false, view := Connecting), t, Expected(q, u));
  }

  lemma PickedIsPromptMove(q: Request, u: Ui, t: Task, address: string)
    requires !t.Prompting?
    ensures PromptMove(u, t, ConnectAs(q, u.(connected := address), address))
    ensures PromptMove(u, t, Wait(Paint(q, u.(connected := address, picked := address)), Done))
  {
    FinishIsPromptMove(q, u.(connected := address, view := Connecting), t, address);
  }

  lemma PromptAnsweredIsPromptMove(q: Request, u: Ui, t: Task)
    requires t.Prompted?
    ensures PromptMove(u, t, PromptAnswered(q, u, t.byUser, t.answer))
  {
    if t.answer.None? {
      NoPromptIsPromptMove(q, u, t);
    } else if t.byUser {
      PickedIsPromptMove(q, u, t, t.answer.value);
    } else {
      MaybeResumeIsPromptMove(q, u, t, t.answer.value);
    }
  }

  lemma RefusedIsPromptMove(q: Request, u: Ui, t: Task)
    requires !t.Prompting?
    ensures PromptMove(u, t, OpenPrompt(q, EnterWrongAddress(q, u), false))
  {
  }

  lemma ConnectedIsPromptMove(q: Request, u: Ui, t: Task, address: string)
    requires !t.Prompting?
    ensures PromptMove(u, t, Connected(q, u, address))
  {
    RefusedIsPromptMove(q, u.(connected := address), t);
    FinishIsPromptMove(q, u.(connected := address), t, address);
  }

  lemma SubmitIsPromptMove(q: Request, u: Ui, t: Task, account: string)
    requires !t.Prompting?
    ensures PromptMove(u, t, Submit(q, u, account))
  {
    RefusedIsPromptMove(q, u.(connected := account), t);
  }

  lemma RecheckedIsPromptMove(q: Request, u: Ui, t: Task, matches: bool, denied: bool)
    requires !t.Prompting?
    ensures PromptMove(u, t, Rechecked(q, u, matches, denied))
  {
  }

  lemma RereadIsPromptMove(q: Request, u: Ui, t: Task, expected: string, denied: bool, a: Answer)
    requires !t.Prompting?
    ensures PromptMove(u, t, Reread(q, u, expected, denied, a))
  {
    var connected := if a.Got? && a.value != "" then a.value else u.connected;
    RecheckedIsPromptMove(q, u.(connected := connected), t, Match(q.chain, connected, expected), denied);
  }

  lemma AcquiredIsPromptMove(q: Request, u: Ui, t: Task, a: Answer)
    requires (t.AcquireCurrent? || t.AcquireRequest?) && Answers(t, a)
    ensures PromptMove(u, t, Acquired(q, u, t, a))
  {
    if a.Got? { SubmitIsPromptMove(q, u, t, a.value); }
  }

  lemma OtherIsPromptMove(q: Request, u: Ui, t: Task, a: Answer)
    requires Answers(t, a) && !t.AcquireCurrent? && !t.AcquireRequest? && !t.Rereading? && !t.ConnectRequest?
    requires !t.Prompted?
    ensures PromptMove(u, t, Resumed(q, u, t, a))
  {
  }

  lemma ResumedIsPromptMove(q: Request, u: Ui, t: Task, a: Answer)
    requires Answers(t, a)
    ensures PromptMove(u, t, Resumed(q, u, t, a))
  {
    match t {
      case AcquireCurrent => AcquiredIsPromptMove(q, u, t, a);
      case AcquireRequest => AcquiredIsPromptMove(q, u, t, a);
      case Rereading(expected, denied) => RereadIsPromptMove(q, u, t, expected, denied, a);
      case ConnectRequest => if a.Got? { ConnectedIsPromptMove(q, u, t, a.value); }
      case Prompted(_, _) => PromptAnsweredIsPromptMove(q, u, t);
      case _ => OtherIsPromptMove(q, u, t, a);
    }
  }

  lemma MovedIsPromptMove(q: Request, s: Page, e: Event)
    requires Enabled(q, s, e)
    ensures PromptMove(s.ui, Started(s, e), Moved(q, s, e))
  {
    match e {
      case Resume(i, a) => ResumedIsPromptMove(q, s.ui, s.tasks[i], a);
      case AccountsChanged(address) => MaybeResumeIsPromptMove(q, s.ui, Done, address);
      case _ =>
    }
  }

  /** `p` is the open prompt, or none is and `p` is past `tasks`. */
  ghost predicate PromptInv(s: Page, p: nat) {
    && (forall i :: 0 <= i < |s.tasks| && s.tasks[i].Prompting? ==> i == p)
    && (p < |s.tasks| ==> s.tasks[p].Prompting?)
    && (p < |s.tasks| <==> s.ui.changing)
    && (s.ui.changing ==> !s.ui.unsupported)
  }

  function NextPrompt(s: Page, p: nat, i: nat, t: Task): nat {
    if t.Prompting? then i else if p < |s.tasks| && p != i then p else |s.tasks| + 1
  }

  lemma StepKeepsPromptInv(q: Request, s: Page, p: nat, e: Event)
    requires PromptInv(s, p) && Enabled(q, s, e)
    ensures PromptInv(Step(q, s, e), NextPrompt(s, p, Slot(s, e), Next(Moved(q, s, e))))
  {
    MovedIsPromptMove(q, s, e);
    var s' := Step(q, s, e);
    forall i | 0 <= i < |s'.tasks| && s'.tasks[i].Prompting?
      ensures i == NextPrompt(s, p, Slot(s, e), Next(Moved(q, s, e)))
    {
      if i != Slot(s, e) { assert s'.tasks[i] == s.tasks[i]; }
    }
  }

  lemma {:induction false} RunKeepsPromptInv(q: Request, states: seq<Page>, events: seq<Event>, n: nat) returns (p: nat)
    requires IsRun(q, states, events) && n < |states|
    ensures PromptInv(states[n], p)
  {
    if n == 0 {
      p := 0;
    } else {
      var s, e := states[n - 1], events[n - 1];
      p := RunKeepsPromptInv(q, states, events, n - 1);
      assert StepAt(q, states, events, n - 1);
      StepKeepsPromptInv(q, s, p, e);
      p := NextPrompt(s, p, Slot(s, e), Next(Moved(q, s, e)));
    }
  }

  lemma StepKeepsUnsupported(q: Request, s: Page, e: Event)
    requires Enabled(q, s, e) && s.ui.unsupported
    ensures Step(q, s, e).ui.unsupported
  {
    MovedIsPromptMove(q, s, e);
  }

  lemma {:induction false} UnsupportedForGood(q: Request, states: seq<Page>, events: seq<Event>, m: nat, n: nat)
    requires IsRun(q, states, events) && m <= n < |states| && states[m].ui.unsupported
    ensures states[n].ui.unsupported
  {
    if m < n {
      UnsupportedForGood(q, states, events, m, n - 1);
      assert StepAt(q, states, events, n - 1);
      StepKeepsUnsupported(q, states[n - 1], events[n - 1]);
    }
  }

  /** At most one account-change prompt is open, the page knows whether one is, and once the wallet has
      proved incapable no prompt is open and none ever opens again. */
  lemma OnePromptAtATime(q: Request, states: seq<Page>, events: seq<Event>, m: nat, n: nat)
    requires IsRun(q, states, events) && m <= n < |states|
    ensures forall i, j :: 0 <= i < j < |states[n].tasks| ==>
              !(states[n].tasks[i].Prompting? && states[n].tasks[j].Prompting?)
    ensures states[n].ui.changing <==> exists i :: 0 <= i < |states[n].tasks| && states[n].tasks[i].Prompting?
    ensures states[m].ui.unsupported ==> states[n].ui.unsupported
    ensures states[m].ui.unsupported ==> forall i :: 0 <= i < |states[n].tasks| ==> !states[n].tasks[i].Prompting?
  {
    var _ := RunKeepsPromptInv(q, states, events, n);
    if states[m].ui.unsupported { UnsupportedForGood(q, states, events, m, n); }
  }
}
