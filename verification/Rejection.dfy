/**
  Reject and Cancel: what they post, and that nothing the page does on its own accord afterwards starts a
  handler. A handler that was already past its guard when the click landed does go on.
 */
module Rejection {
  import opened Wrappers
  import opened Approval
  import opened SingleFlight
  import opened ConnectFlow
  import opened Outgoing

  /** A handler that works towards a result: it waits for the wallet or for its delivery. */
  predicate Handler(t: Task) { InWallet(t) || Connects(t) }

  // ---------- After the click ----------

  /** What code that runs after Reject, other than a click's, may do. */
  predicate FinishedMove(t: Task, m: Move) {
    && m.ui.finished
    && (Handler(Next(m)) ==> Handler(t))
    && (m.Submitted? || Acquiring(Next(m)) ==> Acquiring(t))
    && (m.Posted? ==> m.body.Deliver?)
    && (m.Posted? ==> Handler(t))
    && !Next(m).Prompting?
  }

  lemma MismatchIsFinishedMove(q: Request, u: Ui, t: Task)
    requires u.finished
    ensures FinishedMove(t, OpenPrompt(q, EnterWrongAddress(q, u), false))
  {
  }

  lemma SubmitIsFinishedMove(q: Request, u: Ui, t: Task, account: string)
    requires u.finished && Acquiring(t)
    ensures FinishedMove(t, Submit(q, u, account))
  {
    MismatchIsFinishedMove(q, u.(connected := account), t);
  }

  lemma RecheckedIsFinishedMove(q: Request, u: Ui, t: Task, matches: bool, denied: bool)
    requires u.finished && InWallet(t)
    ensures FinishedMove(t, Rechecked(q, u, matches, denied))
  {
    MismatchIsFinishedMove(q, u, t);
  }

  lemma FinishIsFinishedMove(q: Request, u: Ui, t: Task, address: string)
    requires u.finished && Handler(t)
    ensures FinishedMove(t, FinishConnect(q, u, address))
  {
  }

  lemma ConnectedIsFinishedMove(q: Request, u: Ui, t: Task, address: string)
    requires u.finished && Handler(t)
    ensures FinishedMove(t, Connected(q, u, address))
  {
    MismatchIsFinishedMove(q, u.(connected := address), t);
    FinishIsFinishedMove(q, u.(connected := address), t, address);
  }

  lemma RereadIsFinishedMove(q: Request, u: Ui, t: Task, expected: string, denied: bool, a: Answer)
    requires u.finished && InWallet(t)
    ensures FinishedMove(t, Reread(q, u, expected, denied, a))
  {
    var connected := if a.Got? && a.value != "" then a.value else u.connected;
    RecheckedIsFinishedMove(q, u.(connected := connected), t, Match(q.chain, connected, expected), denied);
  }

  lemma AcquiredIsFinishedMove(q: Request, u: Ui, t: Task, a: Answer)
    requires u.finished && (t.AcquireCurrent? || t.AcquireRequest?) && Answers(t, a)
    ensures FinishedMove(t, Acquired(q, u, t, a))
  {
    if a.Got? { SubmitIsFinishedMove(q, u, t, a.value); }
  }

  lemma OtherIsFinishedMove(q: Request, u: Ui, t: Task, a: Answer)
    requires u.finished && Answers(t, a)
    requires t.Delivering? || t.Refusing? || t.Prompting? || t.Prompted?
    ensures FinishedMove(t, Resumed(q, u, t, a))
  {
  }

  lemma WorkedIsFinishedMove(q: Request, u: Ui, t: Task, a: Answer)
    requires u.finished && Answers(t, a) && (t.Operating? || t.Failing? || t.ConnectSwitch? || t.ConnectResult?)
    ensures FinishedMove(t, Resumed(q, u, t, a))
  {
  }

  lemma ResumedIsFinishedMove(q: Request, u: Ui, t: Task, a: Answer)
    requires u.finished && Answers(t, a)
    ensures FinishedMove(t, Resumed(q, u, t, a))
  {
    match t {
      case AcquireCurrent => AcquiredIsFinishedMove(q, u, t, a);
      case AcquireRequest => AcquiredIsFinishedMove(q, u, t, a);
      case Rereading(expected, denied) => RereadIsFinishedMove(q, u, t, expected, denied, a);
      case ConnectRequest => if a.Got? { ConnectedIsFinishedMove(q, u, t, a.value); }
      case Operating => WorkedIsFinishedMove(q, u, t, a);
      case Failing => WorkedIsFinishedMove(q, u, t, a);
      case ConnectSwitch(_) => WorkedIsFinishedMove(q, u, t, a);
      case ConnectResult(_) => WorkedIsFinishedMove(q, u, t, a);
      case _ => OtherIsFinishedMove(q, u, t, a);
    }
  }

  lemma MovedIsFinishedMove(q: Request, s: Page, e: Event)
    requires s.ui.finished && Enabled(q, s, e) && !e.Click?
    ensures FinishedMove(Started(s, e), Moved(q, s, e))
  {
    if e.Resume? { ResumedIsFinishedMove(q, s.ui, s.tasks[e.slot], e.answer); }
  }

  lemma FinishedForGood(q: Request, s: Page, e: Event)
    requires s.ui.finished && Enabled(q, s, e)
    ensures Step(q, s, e).ui.finished
  {
    if !e.Click? { MovedIsFinishedMove(q, s, e); }
  }

  /** What a page that the user leaves alone after a Reject may have come to: every handler at work and every open
      prompt was there before, and nothing but results was posted since. */
  ghost predicate WindsDown(s: Page, t: Page) {
    && t.ui.finished && |s.tasks| <= |t.tasks|
    && (forall i :: 0 <= i < |t.tasks| && Handler(t.tasks[i]) ==> i < |s.tasks| && Handler(s.tasks[i]))
    && (forall i :: 0 <= i < |t.tasks| && t.tasks[i].Prompting? ==> i < |s.tasks| && s.tasks[i].Prompting?)
    && s.outbox <= t.outbox
    && (forall k :: |s.outbox| <= k < |t.outbox| ==> t.outbox[k].Deliver?)
  }

  lemma StepWindsDown(q: Request, s: Page, e: Event)
    requires s.ui.finished && Enabled(q, s, e) && !e.Click?
    ensures WindsDown(s, Step(q, s, e))
  {
    MovedIsFinishedMove(q, s, e);
    var t := Step(q, s, e);
    forall i | 0 <= i < |t.tasks|
      ensures (Handler(t.tasks[i]) ==> i < |s.tasks| && Handler(s.tasks[i]))
      ensures (t.tasks[i].Prompting? ==> i < |s.tasks| && s.tasks[i].Prompting?)
    {
      if i != Slot(s, e) { assert t.tasks[i] == s.tasks[i]; }
    }
  }

  lemma KeepsWindingDown(s: Page, t: Page, u: Page)
    requires WindsDown(s, t) && WindsDown(t, u)
    ensures WindsDown(s, u)
  {
    assert forall k :: 0 <= k < |t.outbox| ==> u.outbox[k] == t.outbox[k];
  }

  /** From a Reject on, as long as the user clicks nothing more: every handler still at work was past its
      guard when the click landed, no account-change prompt opens, and the page posts no refusal of its own.
      No account event, prompt answer or recovery from a failed operation starts anything. */
  lemma {:induction false} NothingStartsAfterReject(q: Request, states: seq<Page>, events: seq<Event>, m: nat, n: nat)
    requires IsRun(q, states, events) && m <= n < |states| && states[m].ui.finished
    requires forall k :: m <= k < n ==> !events[k].Click?
    ensures WindsDown(states[m], states[n])
  {
    if m < n {
      NothingStartsAfterReject(q, states, events, m, n - 1);
      assert StepAt(q, states, events, n - 1);
      StepWindsDown(q, states[n - 1], events[n - 1]);
      KeepsWindingDown(states[m], states[n - 1], states[n]);
    }
  }

  lemma StepIsQuiet(q: Request, s: Page, e: Event)
    requires s.ui.finished && Enabled(q, s, e) && !e.Click?
    requires forall i :: 0 <= i < |s.tasks| ==> !Handler(s.tasks[i])
    ensures Step(q, s, e).ops == s.ops && Step(q, s, e).outbox == s.outbox
  {
    MovedIsFinishedMove(q, s, e);
    assert !Handler(Started(s, e));
  }

  /** With no handler at work after a Reject, and no further click, the page submits nothing more to the
      wallet and posts nothing more to the bridge. */
  lemma {:induction false} QuietAfterReject(q: Request, states: seq<Page>, events: seq<Event>, m: nat, n: nat)
    requires IsRun(q, states, events) && m <= n < |states| && states[m].ui.finished
    requires forall k :: m <= k < n ==> !events[k].Click?
    requires forall i :: 0 <= i < |states[m].tasks| ==> !Handler(states[m].tasks[i])
    ensures states[n].ops == states[m].ops && states[n].outbox == states[m].outbox
  {
    if m < n {
      QuietAfterReject(q, states, events, m, n - 1);
      NothingStartsAfterReject(q, states, events, m, n - 1);
      assert StepAt(q, states, events, n - 1);
      StepIsQuiet(q, states[n - 1], events[n - 1]);
    }
  }

  // ---------- What still reaches the wallet ----------

  /** A handler that was past its guard waits for the account it will submit for. */
  predicate AboutToSubmit(q: Request, s: Page) {
    Submittable(q) && exists i :: 0 <= i < |s.tasks| && Acquiring(s.tasks[i])
  }

  predicate ClickFree(events: seq<Event>) {
    forall k :: 0 <= k < |events| ==> !events[k].Click?
  }

  /** Some continuation without a click submits an operation. */
  ghost predicate MaySubmit(q: Request, s: Page) {
    exists states: seq<Page>, events: seq<Event> ::
      IsPath(q, states, events) && states[0] == s && ClickFree(events) && |states[|events|].ops| > |s.ops|
  }

  lemma StepSubmitsNothing(q: Request, s: Page, e: Event)
    requires s.ui.finished && !AboutToSubmit(q, s) && Enabled(q, s, e) && !e.Click?
    ensures var t := Step(q, s, e); t.ui.finished && !AboutToSubmit(q, t) && t.ops == s.ops
  {
    MovedIsFinishedMove(q, s, e);
    if Moved(q, s, e).Submitted? { MovedSubmits(q, s, e); }
  }

  lemma {:induction false} PathSubmitsNothing(q: Request, states: seq<Page>, events: seq<Event>, n: nat)
    requires IsPath(q, states, events) && n < |states| && ClickFree(events)
    requires states[0].ui.finished && !AboutToSubmit(q, states[0])
    ensures states[n].ui.finished && !AboutToSubmit(q, states[n]) && states[n].ops == states[0].ops
  {
    if n > 0 {
      PathSubmitsNothing(q, states, events, n - 1);
      assert StepAt(q, states, events, n - 1);
      StepSubmitsNothing(q, states[n - 1], events[n - 1]);
    }
  }

  lemma AboutToSubmitMay(q: Request, s: Page)
    requires AboutToSubmit(q, s)
    ensures MaySubmit(q, s)
  {
    var i :| 0 <= i < |s.tasks| && Acquiring(s.tasks[i]);
    var e := Resume(i, Got(Welcome(q, s.ui)));
    AcquiringSubmits(q, s, i);
    var states, events := [s, Step(q, s, e)], [e];
    assert StepAt(q, states, events, 0);
    assert IsPath(q, states, events) && states[|events|] == Step(q, s, e);
  }

  /** The handlers do not look at the flag themselves. So once the user has clicked Reject, and without another click,
      the page can still submit an operation exactly if some handler was waiting for its account, for a request that
      gives the page something to submit. */
  lemma SubmitsAfterRejectIff(q: Request, s: Page)
    requires s.ui.finished
    ensures MaySubmit(q, s) <==> AboutToSubmit(q, s)
  {
    if AboutToSubmit(q, s) {
      AboutToSubmitMay(q, s);
    } else {
      forall states: seq<Page>, events: seq<Event> | IsPath(q, states, events) && states[0] == s && ClickFree(events)
        ensures states[|events|].ops == s.ops
      {
        PathSubmitsNothing(q, states, events, |events|);
      }
    }
  }

  lemma StepSubmitsOne(q: Request, s: Page, w: nat, e: Event)
    requires !q.kind.Connect? && SignInv(s, w) && s.ui.finished && Enabled(q, s, e) && !e.Click?
    ensures var t := Step(q, s, e);
            && t.ui.finished
            && (t.ops == s.ops || (|t.ops| == |s.ops| + 1 && !AboutToSubmit(q, t)))
  {
    var t := Step(q, s, e);
    MovedIsFinishedMove(q, s, e);
    if Moved(q, s, e).Submitted? {
      MovedSubmits(q, s, e);
      forall i | 0 <= i < |t.tasks| ensures !Acquiring(t.tasks[i]) {
        if i != e.slot { assert t.tasks[i] == s.tasks[i] && InWallet(s.tasks[e.slot]); }
      }
    }
  }

  lemma {:induction false} RunSubmitsOne(q: Request, states: seq<Page>, events: seq<Event>, m: nat, n: nat)
    requires !q.kind.Connect? && IsRun(q, states, events) && m <= n < |states| && states[m].ui.finished
    requires forall k :: m <= k < n ==> !events[k].Click?
    ensures states[n].ui.finished
    ensures states[n].ops == states[m].ops || (|states[n].ops| == |states[m].ops| + 1 && !AboutToSubmit(q, states[n]))
  {
    if m < n {
      var s, e := states[n - 1], events[n - 1];
      RunSubmitsOne(q, states, events, m, n - 1);
      assert StepAt(q, states, events, n - 1);
      if AboutToSubmit(q, s) {
        var w, _ := RunKeepsSignInv(q, states, events, n - 1);
        StepSubmitsOne(q, s, w, e);
      } else {
        StepSubmitsNothing(q, s, e);
      }
    }
  }

  /** On a sign or transaction request that is at most one operation, in all the time until the next click. */
  lemma OneOperationAfterReject(q: Request, states: seq<Page>, events: seq<Event>, m: nat, n: nat)
    requires !q.kind.Connect? && IsRun(q, states, events) && m <= n < |states| && states[m].ui.finished
    requires forall k :: m <= k < n ==> !events[k].Click?
    ensures |states[n].ops| <= |states[m].ops| + 1
  {
    RunSubmitsOne(q, states, events, m, n);
  }

  lemma RunRejects(q: Request, states: seq<Page>, events: seq<Event>) returns (longer: seq<Page>, more: seq<Event>)
    requires IsRun(q, states, events) && Last(states).ui.buttons.reject
    ensures IsRun(q, longer, more) && |longer| == |states| + 1 && longer[..|states|] == states
    ensures more == events + [Click(Reject)]
    ensures var s, t := Last(states), Last(longer);
            && t.ui.finished && t.ops == s.ops && |t.outbox| == |s.outbox| + 1
            && t.tasks == s.tasks + [Refusing(|s.outbox|)]
  {
    longer, more := AddStep(q, states, events, Click(Reject));
  }

  /** The wallet shows no account yet, so the handler has to ask for one. */
  lemma RunShowsNone(q: Request, states: seq<Page>, events: seq<Event>, i: nat)
    returns (longer: seq<Page>, more: seq<Event>)
    requires IsRun(q, states, events) && i < |Last(states).tasks| && Last(states).tasks[i].AcquireCurrent?
    ensures IsRun(q, longer, more) && |longer| == |states| + 1 && more == events + [Resume(i, Got(""))]
    ensures var s, t := Last(states), Last(longer);
            t == s.(tasks := s.tasks[i := AcquireRequest])
  {
    longer, more := AddStep(q, states, events, Resume(i, Got("")));
  }

  /** For one, on any sign or transaction request with something to submit: the user clicks Sign, the wallet shows no
      account and is asked for one, the user clicks Reject, the wallet answers with its account after all, and the
      operation is submitted although the refusal has been posted. */
  lemma RejectDoesNotStopAHandler(q: Request) returns (states: seq<Page>, events: seq<Event>)
    requires !q.kind.Connect? && Submittable(q)
    ensures IsRun(q, states, events) && |events| == 4 && events[2] == Click(Reject)
    ensures states[2].tasks == [AcquireRequest]
    ensures states[3].ui.finished && states[3].ops == [] && |states[3].outbox| == 1 && |states[4].ops| == 1
  {
    states, events := StartRun(q, "");
    states, events := RunClicksSign(q, states, events);
    states, events := RunShowsNone(q, states, events, 0);
    states, events := RunRejects(q, states, events);
    ghost var refused := states;
    states, events := RunSubmits(q, states, events, 0);
    assert states[3] == states[..4][3] && states[2] == refused[..3][2] && events[2] == events[..3][2];
  }

  // ---------- What is posted ----------

  /** The user clicked Reject or Cancel in state `s`, and this is what that posted. */
  predicate RefusedIn(q: Request, s: Page, e: Event, post: Post) {
    e == Click(Reject) && post == Refusal(q, s.ui)
  }

  lemma StepPosts(q: Request, s: Page, e: Event, k: nat)
    requires Enabled(q, s, e) && k < |Step(q, s, e).outbox| && Step(q, s, e).outbox[k].Refuse?
    ensures if k < |s.outbox| then Step(q, s, e).outbox[k] == s.outbox[k]
            else k == |s.outbox| && RefusedIn(q, s, e, Step(q, s, e).outbox[k])
  {
    if e != Click(Reject) { MovedPostsNoRefusal(q, s, e); }
  }

  /** Every refusal a run posts was posted by its own click on Reject or Cancel, never by a wallet error;
      it carries WRONG_WALLET_ADDRESS exactly when that click came in the wrong-address view, and no other code. */
  lemma {:induction false} RefusalsAreClicks(q: Request, states: seq<Page>, events: seq<Event>, n: nat, k: nat)
    returns (c: nat)
    requires IsRun(q, states, events) && n < |states| && k < |states[n].outbox| && states[n].outbox[k].Refuse?
    ensures c < n && RefusedIn(q, states[c], events[c], states[n].outbox[k]) && |states[c].outbox| == k
    ensures states[n].outbox[k].code == if states[c].ui.view.WrongAddress? then Some(WRONG_WALLET_ADDRESS) else None
  {
    assert StepAt(q, states, events, n - 1);
    StepPosts(q, states[n - 1], events[n - 1], k);
    if k < |states[n - 1].outbox| {
      c := RefusalsAreClicks(q, states, events, n - 1, k);
    } else {
      c := n - 1;
    }
  }
}
