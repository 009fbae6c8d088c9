/**
  What leaves the page: only a handler that has just been told the account submits an operation, and only a click
  on Reject or Cancel posts a refusal.
 */
module Outgoing {
  import opened Wrappers
  import opened Approval
  import opened SingleFlight

  /** The handler waits for the account it is to submit for. */
  predicate Acquiring(t: Task) {
    t.AcquireCurrent? || t.AcquireRequest?
  }

  /** The page has something to hand to the wallet. */
  predicate Submittable(q: Request) {
    q.kind.Message? ==> q.signable
  }

  predicate NoRefusal(m: Move) {
    m.Posted? ==> m.body.Deliver?
  }

  predicate Plain(m: Move) {
    NoRefusal(m) && !m.Submitted?
  }

  lemma SubmitGoesOut(q: Request, u: Ui, account: string)
    ensures var m := Submit(q, u, account);
            NoRefusal(m) && (m.Submitted? ==> Submittable(q) && m.op.acquired == account)
  {
  }

  lemma FinishIsPlain(q: Request, u: Ui, address: string)
    ensures Plain(FinishConnect(q, u, address))
  {
  }

  lemma ConnectedIsPlain(q: Request, u: Ui, address: string)
    ensures Plain(Connected(q, u, address))
  {
    FinishIsPlain(q, u.(connected := address), address);
  }

  lemma RereadIsPlain(q: Request, u: Ui, expected: string, denied: bool, a: Answer)
    ensures Plain(Reread(q, u, expected, denied, a))
  {
  }

  lemma MaybeResumeIsPlain(q: Request, u: Ui, address: string)
    ensures Plain(MaybeResume(q, u, address))
  {
    FinishIsPlain(q, u.(connected := address, view := Connecting, listening := false), address);
  }

  lemma PromptAnsweredIsPlain(q: Request, u: Ui, byUser: bool, answer: Option<string>)
    ensures Plain(PromptAnswered(q, u, byUser, answer))
  {
    if answer.None? {
      FinishIsPlain(q, u.(listening := false, view := Connecting), Expected(q, u));
    } else if byUser {
      FinishIsPlain(q, u.(connected := answer.value, view := Connecting), answer.value);
    } else {
      MaybeResumeIsPlain(q, u, answer.value);
    }
  }

  lemma AcquiredGoesOut(q: Request, u: Ui, t: Task, a: Answer)
    requires Acquiring(t) && Answers(t, a)
    ensures var m := Acquired(q, u, t, a);
            NoRefusal(m) && (m.Submitted? ==> Submittable(q) && a == Got(m.op.acquired))
  {
    if a.Got? { SubmitGoesOut(q, u, a.value); }
  }

  lemma ResumedIsPlain(q: Request, u: Ui, t: Task, a: Answer)
    requires Answers(t, a) && !Acquiring(t)
    ensures Plain(Resumed(q, u, t, a))
  {
    match t {
      case ConnectRequest => if a.Got? { ConnectedIsPlain(q, u, a.value); }
      case Rereading(expected, denied) => RereadIsPlain(q, u, expected, denied, a);
      case Prompted(byUser, answer) => PromptAnsweredIsPlain(q, u, byUser, answer);
      case _ =>
    }
  }

  /** Only the answer to an account request submits an operation, on the account it names. */
  lemma MovedSubmits(q: Request, s: Page, e: Event)
    requires Enabled(q, s, e) && Moved(q, s, e).Submitted?
    ensures e.Resume? && Acquiring(s.tasks[e.slot]) && e.answer == Got(Moved(q, s, e).op.acquired) && Submittable(q)
  {
    match e {
      case Resume(i, a) =>
        if Acquiring(s.tasks[i]) {
          AcquiredGoesOut(q, s.ui, s.tasks[i], a);
        } else {
          ResumedIsPlain(q, s.ui, s.tasks[i], a);
        }
      case AccountsChanged(address) => MaybeResumeIsPlain(q, s.ui, address);
      case _ =>
    }
  }

  lemma MovedPostsNoRefusal(q: Request, s: Page, e: Event)
    requires Enabled(q, s, e) && e != Click(Reject)
    ensures NoRefusal(Moved(q, s, e))
  {
    match e {
      case Resume(i, a) =>
        if Acquiring(s.tasks[i]) {
          AcquiredGoesOut(q, s.ui, s.tasks[i], a);
        } else {
          ResumedIsPlain(q, s.ui, s.tasks[i], a);
        }
      case AccountsChanged(address) => MaybeResumeIsPlain(q, s.ui, address);
      case _ =>
    }
  }

  // ---------- The answer an operation was submitted on ----------

  /** At step `c`, with `k` operations submitted, a handler that waits for its account is told `a`. */
  ghost predicate ToldAt(states: seq<Page>, events: seq<Event>, c: nat, k: nat, a: string) {
    && c < |events| < |states| && |states[c].ops| == k
    && events[c].Resume? && events[c].slot < |states[c].tasks| && Acquiring(states[c].tasks[events[c].slot])
    && events[c].answer == Got(a)
  }

  /** Every operation of every run was submitted at the step at which the wallet named the account that it holds for
      the one acquired. */
  lemma {:induction false} AcquiredIsTheAnswer(q: Request, states: seq<Page>, events: seq<Event>, n: nat, k: nat)
    returns (c: nat)
    requires IsRun(q, states, events) && n < |states| && k < |states[n].ops|
    ensures c < n && |states[c + 1].ops| == k + 1 && ToldAt(states, events, c, k, states[n].ops[k].acquired)
  {
    var s, e := states[n - 1], events[n - 1];
    assert StepAt(q, states, events, n - 1);
    if k < |s.ops| {
      c := AcquiredIsTheAnswer(q, states, events, n - 1, k);
    } else {
      c := n - 1;
      MovedSubmits(q, s, e);
    }
  }

  // ---------- The answer a result came with ----------

  /** The wallet fulfils the operation of an outstanding handler with a text, or with null. */
  predicate Fulfils(s: Page, e: Event, r: Option<Value>) {
    && e.Resume? && e.slot < |s.tasks| && s.tasks[e.slot].Operating?
    && ((e.answer.Got? && r == Some(Text(e.answer.value))) || (e.answer.Null? && r == None))
  }

  /** Every result in the page's history is what the wallet fulfilled an operation with at its own step. */
  lemma {:induction false} ResultIsTheAnswer(q: Request, states: seq<Page>, events: seq<Event>, n: nat, k: nat)
    returns (c: nat)
    requires IsRun(q, states, events) && n < |states| && k < |states[n].successes|
    ensures c < n && |states[c].successes| == k && Fulfils(states[c], events[c], states[n].successes[k])
  {
    assert StepAt(q, states, events, n - 1);
    if k < |states[n - 1].successes| {
      c := ResultIsTheAnswer(q, states, events, n - 1, k);
    } else {
      c := n - 1;
    }
  }

  // ---------- An account that gets past every gate ----------

  lemma MatchesItself(chain: Chain, a: string)
    ensures Match(chain, a, a)
  {
  }

  /** The expected account, or any where none is expected. */
  function Welcome(q: Request, u: Ui): (a: string)
    ensures a != "" && (Expected(q, u) != "" ==> a == Expected(q, u))
  {
    if Expected(q, u) != "" then Expected(q, u) else "account"
  }

  lemma WelcomeIsSubmitted(q: Request, u: Ui)
    requires Submittable(q)
    ensures Submit(q, u, Welcome(q, u)).Submitted?
  {
    var account := Welcome(q, u);
    MatchesItself(q.chain, account);
    assert !Gated(q, account, Expected(q, u));
  }

  /** A handler that waits for its account submits as soon as the wallet names that one. */
  lemma AcquiringSubmits(q: Request, s: Page, i: nat)
    requires Submittable(q) && i < |s.tasks| && Acquiring(s.tasks[i])
    ensures var e := Resume(i, Got(Welcome(q, s.ui)));
            && Enabled(q, s, e) && |Step(q, s, e).ops| == |s.ops| + 1
            && Step(q, s, e).tasks == s.tasks[i := Operating] && Step(q, s, e).successes == s.successes
            && Step(q, s, e).outbox == s.outbox
            && Step(q, s, e).ui.settled == s.ui.settled && Step(q, s, e).ui.wallet == s.ui.wallet
  {
    WelcomeIsSubmitted(q, s.ui);
    assert Acquired(q, s.ui, s.tasks[i], Got(Welcome(q, s.ui))) == Submit(q, s.ui, Welcome(q, s.ui));
  }

  /** A click on Sign with nothing settled starts a handler. */
  lemma ClickAcquires(q: Request, s: Page)
    requires !q.kind.Connect? && Enabled(q, s, Click(Go)) && s.ui.settled.None?
    ensures var t := Step(q, s, Click(Go));
            && t.tasks == s.tasks + [AcquireCurrent] && t.ops == s.ops && t.successes == s.successes
            && t.outbox == s.outbox && t.ui.settled == s.ui.settled && t.ui.wallet == s.ui.wallet
            && (s.ui.wallet ==> t.ui.buttons.reject)
  {
  }

  // ---------- Building runs ----------

  function Last(states: seq<Page>): Page
    requires states != []
  {
    states[|states| - 1]
  }

  lemma StartRun(q: Request, connected: string) returns (states: seq<Page>, events: seq<Event>)
    ensures IsRun(q, states, events) && states == [Loaded(q, connected, true)] && events == []
  {
    states, events := [Loaded(q, connected, true)], [];
  }

  lemma AddStep(q: Request, states: seq<Page>, events: seq<Event>, e: Event)
    returns (longer: seq<Page>, more: seq<Event>)
    requires IsRun(q, states, events) && Enabled(q, Last(states), e)
    ensures IsRun(q, longer, more) && longer == states + [Step(q, Last(states), e)] && more == events + [e]
  {
    longer, more := states + [Step(q, Last(states), e)], events + [e];
    forall n | 0 <= n < |more| ensures StepAt(q, longer, more, n) {
      if n < |events| { assert StepAt(q, states, events, n); }
    }
    assert longer[0] == states[0];
  }

  lemma RunClicksSign(q: Request, states: seq<Page>, events: seq<Event>) returns (longer: seq<Page>, more: seq<Event>)
    requires !q.kind.Connect? && IsRun(q, states, events) && Last(states).ui.buttons.go && Last(states).ui.settled.None?
    ensures IsRun(q, longer, more) && |longer| == |states| + 1 && more == events + [Click(Go)]
    ensures var s, t := Last(states), Last(longer);
            && t.tasks == s.tasks + [AcquireCurrent] && t.ops == s.ops && t.successes == s.successes
            && t.outbox == s.outbox && t.ui.settled == s.ui.settled && t.ui.wallet == s.ui.wallet
            && (s.ui.wallet ==> t.ui.buttons.reject)
  {
    ClickAcquires(q, Last(states));
    longer, more := AddStep(q, states, events, Click(Go));
  }

  lemma RunSubmits(q: Request, states: seq<Page>, events: seq<Event>, i: nat)
    returns (longer: seq<Page>, more: seq<Event>)
    requires Submittable(q) && IsRun(q, states, events) && i < |Last(states).tasks| && Acquiring(Last(states).tasks[i])
    ensures IsRun(q, longer, more) && |longer| == |states| + 1 && longer[..|states|] == states
    ensures more[..|events|] == events
    ensures var s, t := Last(states), Last(longer);
            && |t.ops| == |s.ops| + 1 && t.tasks == s.tasks[i := Operating] && t.successes == s.successes
            && t.ui.settled == s.ui.settled && t.ui.wallet == s.ui.wallet
  {
    AcquiringSubmits(q, Last(states), i);
    longer, more := AddStep(q, states, events, Resume(i, Got(Welcome(q, Last(states).ui))));
  }
}
