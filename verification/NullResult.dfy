/**
  A wallet that fulfils an operation with null. The page writes null for "nothing settled", so it delivers the null
  and, if that fails, starts the operation over. This is the one way in which a second operation can succeed.
 */
module NullResult {
  import opened Wrappers
  import opened Approval
  import opened SingleFlight
  import opened Outgoing

  /** Some continuation leads to more than `count` fulfilled operations. */
  ghost predicate MaySucceed(q: Request, s: Page, count: nat) {
    exists states: seq<Page>, events: seq<Event> ::
      IsPath(q, states, events) && states[0] == s && |states[|events|].successes| > count
  }

  lemma SucceededAlready(q: Request, s: Page, count: nat)
    requires |s.successes| > count
    ensures MaySucceed(q, s, count)
  {
    assert IsPath(q, [s], []);
  }

  lemma StepMaySucceed(q: Request, s: Page, e: Event, t: Page, count: nat)
    requires Enabled(q, s, e) && Step(q, s, e) == t && MaySucceed(q, t, count)
    ensures MaySucceed(q, s, count)
  {
    var states: seq<Page>, events: seq<Event> :|
      IsPath(q, states, events) && states[0] == t && |states[|events|].successes| > count;
    var longer, more := [s] + states, [e] + events;
    forall n | 0 <= n < |more| ensures StepAt(q, longer, more, n) {
      if n > 0 { assert StepAt(q, states, events, n - 1); }
    }
    assert IsPath(q, longer, more) && longer[|more|] == states[|events|];
  }

  // ---------- After null ----------

  lemma {:induction false} OperatingIsSubmittable(q: Request, states: seq<Page>, events: seq<Event>, n: nat, i: nat)
    requires !q.kind.Connect? && IsRun(q, states, events) && n < |states|
    requires i < |states[n].tasks| && states[n].tasks[i].Operating?
    ensures Submittable(q)
  {
    var s, e := states[n - 1], events[n - 1];
    assert StepAt(q, states, events, n - 1);
    if i < |s.tasks| && s.tasks[i].Operating? {
      OperatingIsSubmittable(q, states, events, n - 1, i);
    } else {
      var w, _ := RunKeepsSignInv(q, states, events, n - 1);
      StartsOperating(q, s, w, e, i);
    }
  }

  lemma StartsOperating(q: Request, s: Page, w: nat, e: Event, i: nat)
    requires !q.kind.Connect? && SignInv(s, w) && Enabled(q, s, e)
    requires i < |Step(q, s, e).tasks| && Step(q, s, e).tasks[i].Operating?
    requires !(i < |s.tasks| && s.tasks[i].Operating?)
    ensures Submittable(q)
  {
    assert SignTask(s.ui, Started(s, e));
    MovedIsSignMove(q, s, e);
    assert i == Slot(s, e) && Moved(q, s, e).Submitted?;
    MovedSubmits(q, s, e);
  }

  lemma OperatingMaySucceed(q: Request, s: Page, i: nat)
    requires i < |s.tasks| && s.tasks[i].Operating?
    ensures MaySucceed(q, s, |s.successes|)
  {
    var e := Resume(i, Got("result"));
    SucceededAlready(q, Step(q, s, e), |s.successes|);
    StepMaySucceed(q, s, e, Step(q, s, e), |s.successes|);
  }

  lemma AcquiringMaySucceed(q: Request, s: Page, i: nat)
    requires Submittable(q) && i < |s.tasks| && Acquiring(s.tasks[i])
    ensures MaySucceed(q, s, |s.successes|)
  {
    var e := Resume(i, Got(Welcome(q, s.ui)));
    AcquiringSubmits(q, s, i);
    OperatingMaySucceed(q, Step(q, s, e), i);
    StepMaySucceed(q, s, e, Step(q, s, e), |s.successes|);
  }

  lemma ClickMaySucceed(q: Request, s: Page)
    requires !q.kind.Connect? && Submittable(q) && Enabled(q, s, Click(Go)) && s.ui.settled.None?
    ensures MaySucceed(q, s, |s.successes|)
  {
    ClickAcquires(q, s);
    AcquiringMaySucceed(q, Step(q, s, Click(Go)), |s.tasks|);
    StepMaySucceed(q, s, Click(Go), Step(q, s, Click(Go)), |s.successes|);
  }

  /** When the delivery of null fails, the page offers to start over. */
  lemma FailedNullReopens(q: Request, s: Page, w: nat, i: nat)
    requires !q.kind.Connect? && SignInv(s, w) && i < |s.tasks| && s.tasks[i].Delivering? && !s.tasks[i].settles
    ensures Enabled(q, s, Resume(i, Http(500)))
    ensures var t := Step(q, s, Resume(i, Http(500)));
            Enabled(q, t, Click(Go)) && t.ui.settled.None? && t.successes == s.successes
  {
    assert SignTask(s.ui, s.tasks[i]);
  }

  lemma NullMaySucceedAgain(q: Request, s: Page, w: nat, i: nat)
    requires !q.kind.Connect? && Submittable(q) && SignInv(s, w)
    requires i < |s.tasks| && s.tasks[i].Delivering? && !s.tasks[i].settles
    ensures MaySucceed(q, s, |s.successes|)
  {
    var e := Resume(i, Http(500));
    FailedNullReopens(q, s, w, i);
    ClickMaySucceed(q, Step(q, s, e));
    StepMaySucceed(q, s, e, Step(q, s, e), |s.successes|);
  }

  // ---------- After anything else ----------

  lemma {:induction false} PathKeepsSettled(q: Request, states: seq<Page>, events: seq<Event>, n: nat, w: nat)
    returns (v: nat)
    requires !q.kind.Connect? && IsPath(q, states, events) && n < |states|
    requires SignInv(states[0], w) && states[0].ui.settled.Some?
    ensures SignInv(states[n], v) && SameSettled(states[0], states[n])
  {
    v := w;
    if n > 0 {
      var u := PathKeepsSettled(q, states, events, n - 1, w);
      var s, e := states[n - 1], events[n - 1];
      assert StepAt(q, states, events, n - 1);
      StepKeepsSettled(q, s, u, e);
      StepKeepsSignInv(q, s, u, e);
      v := NextFlight(s, u, Slot(s, e), Next(Moved(q, s, e)));
    }
  }

  lemma SettledSucceedsNoMore(q: Request, s: Page, w: nat)
    requires !q.kind.Connect? && SignInv(s, w) && s.ui.settled.Some?
    ensures !MaySucceed(q, s, |s.successes|)
  {
    forall states: seq<Page>, events: seq<Event> | IsPath(q, states, events) && states[0] == s
      ensures |states[|events|].successes| == |s.successes|
    {
      var _ := PathKeepsSettled(q, states, events, |events|, w);
    }
  }

  // ---------- Exactly ----------

  lemma FulfilledStep(q: Request, s: Page, w: nat, e: Event)
    requires !q.kind.Connect? && SignInv(s, w) && Enabled(q, s, e) && Obtained(s, e) != []
    ensures var t := Step(q, s, e);
            if e.answer.Null? then e.slot < |t.tasks| && t.tasks[e.slot].Delivering? && !t.tasks[e.slot].settles
            else t.ui.settled.Some?
  {
  }

  /** In every run, after the wallet has fulfilled an operation it can fulfil another exactly if what it returned
      was null. */
  lemma SucceedsAgainIffNull(q: Request, states: seq<Page>, events: seq<Event>, n: nat)
    requires !q.kind.Connect? && IsRun(q, states, events) && n < |events| && Obtained(states[n], events[n]) != []
    ensures MaySucceed(q, states[n + 1], |states[n + 1].successes|) <==> events[n].answer.Null?
  {
    var s, e := states[n], events[n];
    assert StepAt(q, states, events, n);
    var w, _ := RunKeepsSignInv(q, states, events, n);
    var v, _ := RunKeepsSignInv(q, states, events, n + 1);
    FulfilledStep(q, s, w, e);
    if e.answer.Null? {
      OperatingIsSubmittable(q, states, events, n, e.slot);
      NullMaySucceedAgain(q, states[n + 1], v, e.slot);
    } else {
      SettledSucceedsNoMore(q, states[n + 1], v);
    }
  }

  // ---------- For one ----------

  lemma RunReturns(q: Request, states: seq<Page>, events: seq<Event>, i: nat, a: Answer)
    returns (longer: seq<Page>, more: seq<Event>)
    requires IsRun(q, states, events) && i < |Last(states).tasks| && Last(states).tasks[i].Operating?
    requires a.Got? || (a.Null? && MayReturnNull(q))
    ensures IsRun(q, longer, more)
    ensures var s, t := Last(states), Last(longer);
            && t.ops == s.ops && t.successes == s.successes + [ResultOf(a)] && t.ui.wallet == s.ui.wallet
            && t.tasks == s.tasks[i := Delivering(|s.outbox|, a.Got?)] && t.ui.settled == ResultOf(a)
  {
    longer, more := AddStep(q, states, events, Resume(i, a));
  }

  lemma RunDeliveryFails(q: Request, states: seq<Page>, events: seq<Event>, i: nat)
    returns (longer: seq<Page>, more: seq<Event>)
    requires !q.kind.Connect? && IsRun(q, states, events) && Last(states).ui.wallet
    requires i < |Last(states).tasks| && Last(states).tasks[i].Delivering?
    ensures IsRun(q, longer, more)
    ensures var s, t := Last(states), Last(longer);
            && t.ops == s.ops && t.successes == s.successes && t.tasks == s.tasks[i := Done]
            && t.ui.settled == s.ui.settled && t.ui.wallet && t.ui.buttons.go
  {
    longer, more := AddStep(q, states, events, Resume(i, Http(500)));
  }

  /** On any request whose adapter hands on a null, with something to submit: the wallet fulfils the operation with
      null, the bridge does not take it, the user clicks again, and a second operation is submitted and succeeds. */
  lemma NullSucceedsTwice(q: Request) returns (states: seq<Page>, events: seq<Event>)
    requires MayReturnNull(q) && Submittable(q)
    ensures IsRun(q, states, events) && |Last(states).ops| == 2
    ensures Last(states).successes == [None, Some(Text("result"))]
  {
    states, events := StartRun(q, "");
    states, events := RunClicksSign(q, states, events);
    states, events := RunSubmits(q, states, events, 0);
    states, events := RunReturns(q, states, events, 0, Null);
    states, events := RunDeliveryFails(q, states, events, 0);
    states, events := RunClicksSign(q, states, events);
    states, events := RunSubmits(q, states, events, 1);
    states, events := RunReturns(q, states, events, 1, Got("result"));
  }

  // ---------- Which requests ----------

  /** Some run of the page fulfils two operations. */
  ghost predicate MaySucceedTwice(q: Request) {
    exists states: seq<Page>, events: seq<Event> :: IsRun(q, states, events) && |Last(states).successes| > 1
  }

  lemma {:induction false} SuccessIsSubmittable(q: Request, states: seq<Page>, events: seq<Event>, n: nat)
    requires !q.kind.Connect? && IsRun(q, states, events) && n < |states| && states[n].successes != []
    ensures Submittable(q)
  {
    assert StepAt(q, states, events, n - 1);
    if states[n - 1].successes != [] {
      SuccessIsSubmittable(q, states, events, n - 1);
    } else {
      assert Obtained(states[n - 1], events[n - 1]) != [];
      OperatingIsSubmittable(q, states, events, n - 1, events[n - 1].slot);
    }
  }

  /** A sign or transaction request can have more than one successful operation, with some wallet, exactly if its
      adapter hands on a null and there is something to submit. On any other request, no wallet gets a second one. */
  lemma TwoSuccessesIff(q: Request)
    requires !q.kind.Connect?
    ensures MaySucceedTwice(q) <==> MayReturnNull(q) && Submittable(q)
  {
    if MayReturnNull(q) && Submittable(q) {
      var _, _ := NullSucceedsTwice(q);
    }
    forall states: seq<Page>, events: seq<Event> | IsRun(q, states, events) && |Last(states).successes| > 1
      ensures MayReturnNull(q) && Submittable(q)
    {
      SingleFlight.OneHandlerOneSuccess(q, states, events, |events|);
      SuccessIsSubmittable(q, states, events, |events|);
    }
  }
}
