/**
  The EVM page's chain calls in whole runs of a sign or transaction request. While a handler's operation is under way
  its calls to the wallet go out one by one, with anything else the page does in between; `log` has the chain calls of
  all handlers in the order the wallet gets them.
 */
module ChainRuns {
  import C = ChainSwitch
  import P = Approval
  import SingleFlight

  datatype System = System(page: P.Page, calls: map<nat, seq<C.Entry>>, log: seq<C.Entry>)

  datatype Event = OnPage(p: P.Event) | OnWallet(slot: nat, entry: C.Entry)

  /** Some wallet makes an operation of the request begin with these calls. */
  ghost predicate Begins(r: C.Request, own: seq<C.Entry>) {
    exists full :: own <= full && C.Operated([], full, r)
  }

  ghost predicate Enabled(q: P.Request, r: C.Request, s: System, e: Event) {
    match e
    case OnPage(p) => P.Enabled(q, s.page, p)
    case OnWallet(i, entry) =>
      i < |s.page.tasks| && s.page.tasks[i].Operating? && i in s.calls && Begins(r, s.calls[i] + [entry])
  }

  ghost function Step(q: P.Request, r: C.Request, s: System, e: Event): System
    requires Enabled(q, r, s, e)
  {
    match e
    case OnPage(p) =>
      var started := P.Moved(q, s.page, p).Submitted?;
      s.(page := P.Step(q, s.page, p), calls := if started then s.calls[P.Slot(s.page, p) := []] else s.calls)
    case OnWallet(i, entry) => s.(calls := s.calls[i := s.calls[i] + [entry]], log := s.log + [entry])
  }

  ghost predicate StepAt(q: P.Request, r: C.Request, states: seq<System>, events: seq<Event>, n: nat)
    requires n < |events| && |states| == |events| + 1
  {
    Enabled(q, r, states[n], events[n]) && states[n + 1] == Step(q, r, states[n], events[n])
  }

  ghost predicate IsRun(q: P.Request, r: C.Request, states: seq<System>, events: seq<Event>) {
    && |states| == |events| + 1
    && (exists connected, wallet :: states[0] == System(P.Loaded(q, connected, wallet), map[], []))
    && (forall n :: 0 <= n < |events| ==> StepAt(q, r, states, events, n))
  }

  // ---------- One operation's calls are the latest in the log ----------

  predicate EndsWith(log: seq<C.Entry>, own: seq<C.Entry>) {
    |own| <= |log| && log[|log| - |own|..] == own
  }

  predicate CallsEnd(s: System, i: nat)
    requires i < |s.page.tasks|
  {
    s.page.tasks[i].Operating? ==> i in s.calls && EndsWith(s.log, s.calls[i])
  }

  ghost predicate Inv(r: C.Request, s: System, w: nat) {
    && SingleFlight.SignInv(s.page, w)
    && (forall i :: 0 <= i < |s.page.tasks| ==> CallsEnd(s, i))
    && C.Guarded(s.log, r.chainId)
  }

  lemma PageStepKeepsCalls(q: P.Request, r: C.Request, s: System, w: nat, e: P.Event)
    requires !q.kind.Connect? && Inv(r, s, w) && P.Enabled(q, s.page, e)
    ensures var s' := Step(q, r, s, OnPage(e)); forall i :: 0 <= i < |s'.page.tasks| ==> CallsEnd(s', i)
  {
    var s' := Step(q, r, s, OnPage(e));
    assert SingleFlight.SignTask(s.page.ui, SingleFlight.Started(s.page, e));
    SingleFlight.MovedIsSignMove(q, s.page, e);
    forall i | 0 <= i < |s'.page.tasks| ensures CallsEnd(s', i) {
      if i != P.Slot(s.page, e) { assert s'.page.tasks[i] == s.page.tasks[i] && CallsEnd(s, i); }
    }
  }

  /** What an operation may call next keeps the log guarded. */
  lemma NextCallIsGuarded(r: C.Request, log: seq<C.Entry>, own: seq<C.Entry>, entry: C.Entry)
    requires r.chainId != 0 && C.Guarded(log, r.chainId) && EndsWith(log, own) && Begins(r, own + [entry])
    ensures C.Guarded(log + [entry], r.chainId) && EndsWith(log + [entry], own + [entry])
  {
    var full :| own + [entry] <= full && C.Operated([], full, r);
    assert C.Guarded(full, r.chainId) && full[|own|] == entry;
    if entry.call.Operation? {
      assert full[|own| - 1] == own[|own| - 1] == log[|log| - 1];
    }
  }

  lemma WalletStepKeepsInv(q: P.Request, r: C.Request, s: System, w: nat, i: nat, entry: C.Entry)
    requires r.chainId != 0 && Inv(r, s, w) && Enabled(q, r, s, OnWallet(i, entry))
    ensures Inv(r, Step(q, r, s, OnWallet(i, entry)), w)
  {
    var s' := Step(q, r, s, OnWallet(i, entry));
    assert CallsEnd(s, i);
    NextCallIsGuarded(r, s.log, s.calls[i], entry);
    forall j | 0 <= j < |s'.page.tasks| ensures CallsEnd(s', j) {
      if j != i { assert SingleFlight.InWallet(s.page.tasks[i]); }
    }
  }

  lemma {:induction false} RunKeepsInv(q: P.Request, r: C.Request, states: seq<System>, events: seq<Event>, n: nat)
    returns (w: nat)
    requires !q.kind.Connect? && r.chainId != 0 && IsRun(q, r, states, events) && n < |states|
    ensures Inv(r, states[n], w)
  {
    if n == 0 {
      w := 0;
    } else {
      var s := states[n - 1];
      w := RunKeepsInv(q, r, states, events, n - 1);
      assert StepAt(q, r, states, events, n - 1);
      match events[n - 1] {
        case OnPage(e) =>
          PageStepKeepsCalls(q, r, s, w, e);
          SingleFlight.StepKeepsSignInv(q, s.page, w, e);
          w := SingleFlight.NextFlight(s.page, w, P.Slot(s.page, e), SingleFlight.Next(P.Moved(q, s.page, e)));
        case OnWallet(i, entry) => WalletStepKeepsInv(q, r, s, w, i, entry);
      }
    }
  }

  /** Whatever else runs on the page, every operation of a sign or transaction request with a chain goes out right after
      a chain call that the wallet answered with that chain: no other handler's call comes between. */
  lemma OperationsFollowTheirChain(q: P.Request, r: C.Request, states: seq<System>, events: seq<Event>, n: nat)
    requires !q.kind.Connect? && r.chainId != 0 && IsRun(q, r, states, events) && n < |states|
    ensures C.Guarded(states[n].log, r.chainId)
  {
    var _ := RunKeepsInv(q, r, states, events, n);
  }
}
