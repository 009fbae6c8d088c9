/**
  One approval page and the bridge together. The page is the only poster for its request; a POST it has made
  reaches the bridge at any later time or never, the answer comes back or the page sees a network failure,
  and everything else at the bridge, for this request or any other, runs at the same time.
 */
module EndToEnd {
  import opened Wrappers
  import P = Approval
  import B = Bridge
  import Store = PendingStore
  import SingleFlight
  import ConnectFlow
  import GivenAccount
  import JsonText
  import Outgoing
  import Rejection

  type Id = Store.Id

  datatype System = System(page: P.Page, bridge: B.State<P.Request>)

  datatype Event = OnPage(p: P.Event) | AtBridge(b: B.Event<P.Request>)

  /** The text of a settled value: itself, or the account document that the page has written. */
  function Wire(v: P.Value): string {
    match v
    case Text(text) => text
    case Account(address, publicKey) => JsonText.Object([("address", address), ("publicKey", publicKey)])
  }

  /** What the bridge makes of a result: null, which JSON carries as null, becomes the empty text. */
  function Received(result: Option<P.Value>): string {
    if result.Some? then Wire(result.value) else ""
  }

  function Body(post: P.Post): B.CompleteBody {
    match post
    case Deliver(result) => B.CompleteBody(true, if result.Some? then Some(Wire(result.value)) else None, None, None)
    case Refuse(error, code, _) => B.CompleteBody(false, None, Some(error), code)
  }

  predicate IsPost(t: P.Task) { t.Delivering? || t.Refusing? }

  /** An HTTP answer the page gets is the one its POST was given. */
  predicate Truthful(id: Id, s: System, e: P.Event) {
    e.Resume? && e.slot < |s.page.tasks| && IsPost(s.page.tasks[e.slot]) && e.answer.Http? ==>
      var key := (id, s.page.tasks[e.slot].post);
      key in s.bridge.posts && s.bridge.posts[key].phase == B.Replied(e.answer.status)
  }

  predicate Posted(id: Id, s: System, e: B.Event<P.Request>) {
    e.Arrive? && e.key.0 == id ==> e.key.1 < |s.page.outbox| && e.body == Body(s.page.outbox[e.key.1])
  }

  predicate Enabled(q: P.Request, id: Id, s: System, e: Event) {
    match e
    case OnPage(p) => P.Enabled(q, s.page, p) && Truthful(id, s, p)
    case AtBridge(b) => B.Enabled(s.bridge, b) && Posted(id, s, b)
  }

  function Step(q: P.Request, id: Id, s: System, e: Event): System
    requires Enabled(q, id, s, e)
  {
    match e
    case OnPage(p) => s.(page := P.Step(q, s.page, p))
    case AtBridge(b) => s.(bridge := B.Step(s.bridge, b))
  }

  /** The page has just loaded for a request some run of the bridge has registered. */
  ghost predicate Initial(q: P.Request, id: Id, s: System) {
    && (exists connected, wallet :: s.page == P.Loaded(q, connected, wallet))
    && (exists states, events :: B.IsRun(states, events) && states[|events|] == s.bridge)
    && id in s.bridge.futures
    && (forall key :: key in s.bridge.posts ==> key.0 != id)
  }

  ghost predicate StepAt(q: P.Request, id: Id, states: seq<System>, events: seq<Event>, n: nat)
    requires n < |events| && |states| == |events| + 1
  {
    Enabled(q, id, states[n], events[n]) && states[n + 1] == Step(q, id, states[n], events[n])
  }

  ghost predicate IsRun(q: P.Request, id: Id, states: seq<System>, events: seq<Event>) {
    && |states| == |events| + 1
    && Initial(q, id, states[0])
    && (forall n :: 0 <= n < |events| ==> StepAt(q, id, states, events, n))
  }

  // ---------- What links the two sides ----------

  ghost predicate PageOk(q: P.Request, s: P.Page) {
    if q.kind.Connect? then exists c :: ConnectFlow.ConnectInv(q, s, c) else exists w :: SingleFlight.SignInv(s, w)
  }

  predicate DeliversAt(s: P.Page, k: nat) {
    k < |s.outbox| && s.outbox[k].Deliver?
  }

  predicate TaskDelivers(s: P.Page, t: P.Task) {
    t.Delivering? ==> DeliversAt(s, t.post) && (s.outbox[t.post].result.Some? <==> t.settles)
  }

  /** What was posted as body `k` is a result, and what a sign or transaction request has settled, be it nothing. */
  predicate Delivered(q: P.Request, s: P.Page, k: nat) {
    DeliversAt(s, k) && (!q.kind.Connect? ==> s.outbox[k].result == s.ui.settled)
  }

  predicate Sent(id: Id, s: System, k: nat) {
    (id, k) in s.bridge.posts ==> k < |s.page.outbox| && s.bridge.posts[(id, k)].body == Body(s.page.outbox[k])
  }

  /** A POST of the page is answered 404 only when its id has left the store. */
  predicate NotFound(id: Id, s: System, k: nat) {
    (id, k) in s.bridge.posts && s.bridge.posts[(id, k)].phase == B.Replied(404) ==> id !in s.bridge.store.pending
  }

  ghost predicate Linked(q: P.Request, id: Id, s: System) {
    && PageOk(q, s.page)
    && B.Inv(s.bridge)
    && id in s.bridge.futures
    && (forall k :: Sent(id, s, k))
    && (forall k :: NotFound(id, s, k))
    && (forall i :: 0 <= i < |s.page.tasks| ==> TaskDelivers(s.page, s.page.tasks[i]))
    && (s.page.ui.view.Success? ==> id in s.bridge.winners && Delivered(q, s.page, s.bridge.winners[id].1))
    && (!P.MayReturnNull(q) ==> None !in s.page.successes)
  }

  lemma PageStepKeepsPageOk(q: P.Request, s: P.Page, e: P.Event)
    requires PageOk(q, s) && P.Enabled(q, s, e)
    ensures PageOk(q, P.Step(q, s, e))
  {
    if q.kind.Connect? {
      var c :| ConnectFlow.ConnectInv(q, s, c);
      ConnectFlow.StepKeepsConnectInv(q, s, c, e);
    } else {
      var w :| SingleFlight.SignInv(s, w);
      SingleFlight.StepKeepsSignInv(q, s, w, e);
    }
  }

  /** What a page step does to deliveries and to the success view. */
  lemma PageStepOnDeliveries(q: P.Request, s: P.Page, e: P.Event)
    requires PageOk(q, s) && P.Enabled(q, s, e) && forall i :: 0 <= i < |s.tasks| ==> TaskDelivers(s, s.tasks[i])
    ensures var s' := P.Step(q, s, e);
            && |s.outbox| <= |s'.outbox| && (forall k :: 0 <= k < |s.outbox| ==> s'.outbox[k] == s.outbox[k])
            && (forall i :: 0 <= i < |s'.tasks| ==> TaskDelivers(s', s'.tasks[i]))
            && (s'.ui.view.Success? && !s.ui.view.Success? ==>
                  e.Resume? && e.slot < |s.tasks| && s.tasks[e.slot].Delivering? && e.answer == P.Http(200))
  {
    if q.kind.Connect? {
      ConnectFlow.MovedIsConnectMove(q, s, e);
    } else {
      SingleFlight.MovedIsSignMove(q, s, e);
    }
    var s' := P.Step(q, s, e);
    forall i | 0 <= i < |s'.tasks| ensures TaskDelivers(s', s'.tasks[i]) {
      if i != P.Slot(s, e) { assert s'.tasks[i] == s.tasks[i] && TaskDelivers(s, s.tasks[i]); }
    }
  }

  /** What a sign or transaction request has settled when the page comes to show success, and from then on. */
  lemma PageStepOnSettled(q: P.Request, s: P.Page, e: P.Event)
    requires !q.kind.Connect? && PageOk(q, s) && P.Enabled(q, s, e) && P.Step(q, s, e).ui.view.Success?
    requires forall i :: 0 <= i < |s.tasks| ==> TaskDelivers(s, s.tasks[i])
    ensures P.Step(q, s, e).ui.settled == s.ui.settled
    ensures !s.ui.view.Success? ==>
              e.Resume? && e.slot < |s.tasks| && s.tasks[e.slot].Delivering?
              && Delivered(q, s, s.tasks[e.slot].post)
  {
    var w :| SingleFlight.SignInv(s, w);
    SingleFlight.MovedIsSignMove(q, s, e);
    PageStepOnDeliveries(q, s, e);
    if !s.ui.view.Success? {
      var t := s.tasks[e.slot];
      assert TaskDelivers(s, t) && SingleFlight.SignTask(s.ui, t);
      assert SingleFlight.Returned(s, s.outbox[t.post].result);
    }
  }

  lemma PageStepKeepsLinked(q: P.Request, id: Id, s: System, e: P.Event)
    requires Linked(q, id, s) && Enabled(q, id, s, OnPage(e))
    ensures Linked(q, id, Step(q, id, s, OnPage(e)))
  {
    var s' := Step(q, id, s, OnPage(e));
    PageStepKeepsPageOk(q, s.page, e);
    PageStepOnDeliveries(q, s.page, e);
    if !P.MayReturnNull(q) { SingleFlight.StepReturnsNoNull(q, s.page, e); }
    forall k ensures Sent(id, s', k) && NotFound(id, s', k) { assert Sent(id, s, k) && NotFound(id, s, k); }
    if s'.page.ui.view.Success? {
      if !q.kind.Connect? { PageStepOnSettled(q, s.page, e); }
      if !s.page.ui.view.Success? {
        assert TaskDelivers(s.page, s.page.tasks[e.slot]);
        assert B.PostOk(s.bridge, (id, s.page.tasks[e.slot].post));
      }
    }
  }

  lemma BridgeStepKeepsNotFound(id: Id, s: System, e: B.Event<P.Request>, k: nat)
    requires B.Inv(s.bridge) && id in s.bridge.futures && NotFound(id, s, k) && B.Enabled(s.bridge, e)
    ensures NotFound(id, s.(bridge := B.Step(s.bridge, e)), k)
  {
    B.StepIsLater(s.bridge, e, id);
    match e {
      case CheckHas(key) => assert B.PostOk(s.bridge, key);
      case CompleteIt(key) => assert B.PostOk(s.bridge, key);
      case _ =>
    }
  }

  lemma BridgeStepKeepsLinked(q: P.Request, id: Id, s: System, e: B.Event<P.Request>)
    requires Linked(q, id, s) && Enabled(q, id, s, AtBridge(e))
    ensures Linked(q, id, Step(q, id, s, AtBridge(e)))
  {
    var s' := Step(q, id, s, AtBridge(e));
    B.StepKeepsInv(s.bridge, e);
    B.StepIsLater(s.bridge, e, id);
    forall k ensures Sent(id, s', k) && NotFound(id, s', k) {
      assert Sent(id, s, k) && NotFound(id, s, k);
      BridgeStepKeepsNotFound(id, s, e, k);
    }
  }

  lemma {:induction false} RunKeepsLinked(q: P.Request, id: Id, states: seq<System>, events: seq<Event>, n: nat)
    requires IsRun(q, id, states, events) && n < |states|
    ensures Linked(q, id, states[n])
  {
    var s := states[n];
    if n == 0 {
      var bs, es :| B.IsRun(bs, es) && bs[|es|] == s.bridge;
      B.RunKeepsInv(bs, es, |es|);
      assert SingleFlight.SignInv(s.page, 0) || q.kind.Connect?;
      assert ConnectFlow.ConnectInv(q, s.page, 0) || !q.kind.Connect?;
    } else {
      RunKeepsLinked(q, id, states, events, n - 1);
      assert StepAt(q, id, states, events, n - 1);
      match events[n - 1] {
        case OnPage(e) => PageStepKeepsLinked(q, id, states[n - 1], e);
        case AtBridge(e) => BridgeStepKeepsLinked(q, id, states[n - 1], e);
      }
    }
  }

  // ---------- The page's own run ----------

  /** What the page has gone through in the first `n` steps is a run of the page; `at` says which steps were its own. */
  ghost predicate PageRun(q: P.Request, states: seq<System>, events: seq<Event>, n: nat, pages: seq<P.Page>,
                          turns: seq<P.Event>, at: seq<nat>)
    requires n <= |events| < |states|
  {
    && P.IsRun(q, pages, turns) && pages[|turns|] == states[n].page && |at| == |turns|
    && forall j :: 0 <= j < |turns| ==>
         at[j] < n && events[at[j]] == OnPage(turns[j]) && states[at[j]].page == pages[j]
  }

  lemma PageRunGrows(q: P.Request, states: seq<System>, events: seq<Event>, n: nat, e: P.Event,
                     pages: seq<P.Page>, turns: seq<P.Event>, at: seq<nat>)
    returns (longer: seq<P.Page>, more: seq<P.Event>, steps: seq<nat>)
    requires 0 < n <= |events| < |states| && PageRun(q, states, events, n - 1, pages, turns, at)
    requires events[n - 1] == OnPage(e) && P.Enabled(q, states[n - 1].page, e)
    requires states[n].page == P.Step(q, states[n - 1].page, e)
    ensures PageRun(q, states, events, n, longer, more, steps)
  {
    assert Outgoing.Last(pages) == states[n - 1].page;
    longer, more := Outgoing.AddStep(q, pages, turns, e);
    steps := at + [n - 1];
    forall j | 0 <= j < |more|
      ensures steps[j] < n && events[steps[j]] == OnPage(more[j]) && states[steps[j]].page == longer[j]
    {
      if j < |turns| { assert steps[j] == at[j] && more[j] == turns[j] && longer[j] == pages[j]; }
    }
  }

  lemma {:induction false} RunOfThePage(q: P.Request, id: Id, states: seq<System>, events: seq<Event>, n: nat)
    returns (pages: seq<P.Page>, turns: seq<P.Event>, at: seq<nat>)
    requires IsRun(q, id, states, events) && n < |states|
    ensures PageRun(q, states, events, n, pages, turns, at)
  {
    if n == 0 {
      pages, turns, at := [states[0].page], [], [];
    } else {
      pages, turns, at := RunOfThePage(q, id, states, events, n - 1);
      assert StepAt(q, id, states, events, n - 1);
      match events[n - 1] {
        case OnPage(e) =>
          pages, turns, at := PageRunGrows(q, states, events, n, e, pages, turns, at);
        case AtBridge(_) =>
      }
    }
  }

  // ---------- End-to-end theorems ----------

  /** The page post a resolved future's outcome comes from. */
  lemma OutcomeWasPosted(q: P.Request, id: Id, s: System) returns (k: nat)
    requires Linked(q, id, s) && s.bridge.futures[id].Resolved?
    requires s.bridge.futures[id].outcome.Value? || s.bridge.futures[id].outcome.Rejected?
    ensures k < |s.page.outbox| && id in s.bridge.winners && s.bridge.winners[id] == (id, k)
    ensures s.bridge.futures[id].outcome == B.MapResult(B.ToResult(Body(s.page.outbox[k])))
  {
    assert B.IdOk(s.bridge, id);
    k := s.bridge.winners[id].1;
    assert Sent(id, s, k);
  }

  /** The wallet returned `v` for an operation, or null, which reaches the caller as the empty text. */
  predicate Returns(s: P.Page, e: P.Event, v: string) {
    && e.Resume? && e.slot < |s.tasks| && s.tasks[e.slot].Operating?
    && (e.answer == P.Got(v) || (e.answer == P.Null && v == ""))
  }

  lemma ReturnedAt(q: P.Request, id: Id, states: seq<System>, events: seq<Event>, n: nat, r: Option<P.Value>)
    returns (c: nat, v: string)
    requires IsRun(q, id, states, events) && n < |states| && r in states[n].page.successes
    ensures c < n && events[c].OnPage? && Returns(states[c].page, events[c].p, v)
    ensures r == Some(P.Text(v)) || (r == None && v == "")
  {
    var pages, turns, at := RunOfThePage(q, id, states, events, n);
    var k :| 0 <= k < |states[n].page.successes| && states[n].page.successes[k] == r;
    var j := Outgoing.ResultIsTheAnswer(q, pages, turns, |turns|, k);
    c, v := at[j], if r.Some? then r.value.text else "";
  }

  /** Sign and transaction requests: if the caller's future resolves with a value, it is, letter for letter, what the
      wallet returned, or the empty text for null; and unless the wallet returned null, which some adapters never hand
      on, that was its one successful result. */
  lemma CallerGetsTheWalletsResult(q: P.Request, id: Id, states: seq<System>, events: seq<Event>, n: nat, v: string)
    returns (c: nat)
    requires !q.kind.Connect? && IsRun(q, id, states, events) && n < |states|
    requires id in states[n].bridge.futures && states[n].bridge.futures[id] == B.Resolved(B.Value(v))
    ensures c < n && events[c].OnPage? && Returns(states[c].page, events[c].p, v)
    ensures var s := states[n].page; None !in s.successes || !P.MayReturnNull(q) ==> |s.successes| == 1
  {
    RunKeepsLinked(q, id, states, events, n);
    var s := states[n].page;
    var k := OutcomeWasPosted(q, id, states[n]);
    var r := s.outbox[k].result;
    assert SingleFlight.Returned(s, r);
    SingleFlight.OneUnlessNull(s.successes, s.ui.settled);
    var w: string;
    c, w := ReturnedAt(q, id, states, events, n, r);
  }

  /** Sign and transaction requests: if the page shows success, the store has consumed exactly the settled text for this
      id, or the empty text if the wallet returned null and nothing is settled. */
  lemma SuccessMeansConsumed(q: P.Request, id: Id, states: seq<System>, events: seq<Event>, n: nat) returns (v: string)
    requires !q.kind.Connect? && IsRun(q, id, states, events) && n < |states| && states[n].page.ui.view.Success?
    ensures var s := states[n];
            && id in s.bridge.store.channels && s.bridge.store.channels[id] == Store.Sent(Store.Success(v))
            && (s.page.ui.settled == Some(P.Text(v)) || (s.page.ui.settled == None && v == ""))
  {
    var s := states[n];
    RunKeepsLinked(q, id, states, events, n);
    var k := s.bridge.winners[id].1;
    assert B.IdOk(s.bridge, id);
    assert Sent(id, s, k);
    var settled := s.page.ui.settled;
    var c: nat;
    assert SingleFlight.Returned(s.page, settled);
    c, v := ReturnedAt(q, id, states, events, n, settled);
  }

  /** Connect requests, on every page: a value the caller gets is the account that the page's handler was given last, as
      text; on the Bitcoin page a JSON document of that account and the key the wallet gave for it. A pinned connect
      gets a matching account. */
  lemma CallerGetsTheGivenAccount(q: P.Request, id: Id, states: seq<System>, events: seq<Event>, n: nat, v: string)
    returns (pages: seq<P.Page>, turns: seq<P.Event>, at: seq<nat>, k: nat, c: nat, i: nat, account: string)
    requires q.kind.Connect? && IsRun(q, id, states, events) && n < |states|
    requires id in states[n].bridge.futures && states[n].bridge.futures[id] == B.Resolved(B.Value(v))
    ensures PageRun(q, states, events, n, pages, turns, at)
    ensures GivenAccount.DeliversAt(q, pages, turns, c, k, i, account)
    ensures q.pinned != "" ==> P.Match(q.chain, account, q.pinned)
    ensures !q.chain.Btc? ==> v == account
    ensures q.chain.Btc? ==>
              && i < |pages[c].tasks| && pages[c].tasks[i] == P.ConnectResult(account) && turns[c].answer.Got?
              && JsonText.ReadObject(v) == Some([("address", account), ("publicKey", turns[c].answer.value)])
  {
    RunKeepsLinked(q, id, states, events, n);
    k := OutcomeWasPosted(q, id, states[n]);
    assert states[n].page.outbox[k].Deliver?;
    pages, turns, at := RunOfThePage(q, id, states, events, n);
    c, i, account := GivenAccount.DeliversTheGivenAccount(q, pages, turns, |turns|, k);
    if q.chain.Btc? { JsonText.ObjectBack([("address", account), ("publicKey", turns[c].answer.value)]); }
  }

  // ---------- After a 404 ----------

  lemma {:induction false} RunIsLater(q: P.Request, id: Id, states: seq<System>, events: seq<Event>, m: nat, n: nat)
    requires IsRun(q, id, states, events) && m <= n < |states|
    ensures B.Later(states[m].bridge, states[n].bridge, id)
  {
    if m < n {
      RunIsLater(q, id, states, events, m, n - 1);
      RunKeepsLinked(q, id, states, events, n - 1);
      assert StepAt(q, id, states, events, n - 1);
      if events[n - 1].AtBridge? {
        B.StepIsLater(states[n - 1].bridge, events[n - 1].b, id);
        B.LaterStill(states[m].bridge, states[n - 1].bridge, states[n].bridge, id);
      }
    }
  }

  /** A 404 is terminal: once a POST of the page has been answered 404, its id never returns to the store, and no POST
      for it is accepted that was not accepted before. */
  lemma NotFoundIsTerminal(q: P.Request, id: Id, states: seq<System>, events: seq<Event>, m: nat, n: nat, k: nat)
    requires IsRun(q, id, states, events) && m <= n < |states|
    requires (id, k) in states[m].bridge.posts && states[m].bridge.posts[(id, k)].phase == B.Replied(404)
    ensures id !in states[n].bridge.store.pending
    ensures forall key :: B.Accepted(states[n].bridge, key) && key.0 == id ==> B.Accepted(states[m].bridge, key)
  {
    RunKeepsLinked(q, id, states, events, m);
    RunKeepsLinked(q, id, states, events, n);
    RunIsLater(q, id, states, events, m, n);
    assert NotFound(id, states[m], k) && B.IdOk(states[m].bridge, id);
    forall key | B.Accepted(states[n].bridge, key) && key.0 == id ensures B.Accepted(states[m].bridge, key) {
      assert B.PostOk(states[n].bridge, key);
    }
  }

  /** Where a refusal in the outbox comes from, in a run of both sides. */
  lemma {:induction false} RefusalOrigin(q: P.Request, id: Id, states: seq<System>, events: seq<Event>, n: nat, k: nat)
    returns (c: nat)
    requires IsRun(q, id, states, events) && n < |states| && k < |states[n].page.outbox|
    requires states[n].page.outbox[k].Refuse?
    ensures c < n && events[c] == OnPage(P.Click(P.Reject))
    ensures states[n].page.outbox[k] == P.Refusal(q, states[c].page.ui)
  {
    var s, e := states[n - 1], events[n - 1];
    assert StepAt(q, id, states, events, n - 1);
    if e.OnPage? { Rejection.StepPosts(q, s.page, e.p, k); }
    if k < |s.page.outbox| {
      c := RefusalOrigin(q, id, states, events, n - 1, k);
    } else {
      c := n - 1;
    }
  }

  /** The error contract: a caller gets `Rejected` only if the user clicked Reject or Cancel on the page, never
      from a wallet error, and the code is WRONG_WALLET_ADDRESS exactly when the click came in the wrong-address
      view. */
  lemma RejectedMeansClicked(q: P.Request, id: Id, states: seq<System>, events: seq<Event>, n: nat, message: string,
                             code: Option<string>)
    returns (c: nat)
    requires IsRun(q, id, states, events) && n < |states|
    requires id in states[n].bridge.futures && states[n].bridge.futures[id] == B.Resolved(B.Rejected(message, code))
    ensures c < n && events[c] == OnPage(P.Click(P.Reject))
    ensures code == if states[c].page.ui.view.WrongAddress? then Some(P.WRONG_WALLET_ADDRESS) else None
    ensures states[c].page.ui.view.WrongAddress? ==>
              var u := states[c].page.ui;
              message == "Wrong wallet address: expected " + (if u.picked != "" then u.picked else q.pinned)
                         + ", got " + u.connected
    ensures !states[c].page.ui.view.WrongAddress? ==>
              message == if q.kind.Connect? then "User cancelled"
                         else if q.kind.Transaction? then "User rejected transaction" else "User rejected signing"
  {
    RunKeepsLinked(q, id, states, events, n);
    var k := OutcomeWasPosted(q, id, states[n]);
    assert states[n].page.outbox[k].Refuse?;
    c := RefusalOrigin(q, id, states, events, n, k);
  }

  // ---------- Every outcome can arrive ----------

  function Last(states: seq<System>): System
    requires states != []
  {
    states[|states| - 1]
  }

  lemma AddStep(q: P.Request, id: Id, states: seq<System>, events: seq<Event>, e: Event)
    returns (longer: seq<System>, more: seq<Event>)
    requires IsRun(q, id, states, events) && Enabled(q, id, Last(states), e)
    ensures IsRun(q, id, longer, more) && more == events + [e]
    ensures longer == states + [Step(q, id, Last(states), e)]
  {
    longer, more := states + [Step(q, id, Last(states), e)], events + [e];
    forall n | 0 <= n < |more| ensures StepAt(q, id, longer, more, n) {
      if n < |events| { assert StepAt(q, id, states, events, n); }
    }
    assert longer[0] == states[0];
  }

  /** The page has posted body `k`, which has not reached the bridge, and the caller waits for it. */
  predicate OnItsWay(id: Id, s: System, k: nat) {
    k < |s.page.outbox| && B.Awaited(s.bridge, (id, k))
  }

  /** What a body is to its caller: the text, the empty text for null, the account document, or the refusal with its
      code. */
  predicate Tells(post: P.Post, o: B.Outcome) {
    match post
    case Deliver(None) => o == B.Value("")
    case Deliver(Some(Text(text))) => o == B.Value(text)
    case Deliver(Some(Account(address, publicKey))) =>
      o.Value? && JsonText.ReadObject(o.value) == Some([("address", address), ("publicKey", publicKey)])
    case Refuse(error, code, _) => o == B.Rejected(error, code)
  }

  lemma ConveyedTells(post: P.Post, o: B.Outcome)
    requires B.Conveys(Body(post), o)
    ensures Tells(post, o)
  {
    if post.Deliver? && post.result.Some? && post.result.value.Account? {
      JsonText.ObjectBack([("address", post.result.value.address), ("publicKey", post.result.value.publicKey)]);
    }
  }

  lemma RunEnters(q: P.Request, id: Id, states: seq<System>, events: seq<Event>, k: nat)
    returns (longer: seq<System>, more: seq<Event>)
    requires IsRun(q, id, states, events) && OnItsWay(id, Last(states), k)
    ensures IsRun(q, id, longer, more) && Last(longer).page == Last(states).page && states <= longer && events <= more
    ensures B.InBetween(Last(longer).bridge, (id, k), Body(Last(states).page.outbox[k]))
  {
    var s, key, b := Last(states), (id, k), Body(Last(states).page.outbox[k]);
    B.Enters(s.bridge, key, b);
    longer, more := AddStep(q, id, states, events, AtBridge(B.Arrive(key, b)));
    longer, more := AddStep(q, id, longer, more, AtBridge(B.CheckHas(key)));
  }

  lemma RunResolves(q: P.Request, id: Id, states: seq<System>, events: seq<Event>, k: nat)
    returns (longer: seq<System>, more: seq<Event>)
    requires IsRun(q, id, states, events) && k < |Last(states).page.outbox|
    requires B.InBetween(Last(states).bridge, (id, k), Body(Last(states).page.outbox[k]))
    ensures IsRun(q, id, longer, more) && Last(longer).page == Last(states).page && states <= longer && events <= more
    ensures var s := Last(longer);
            && id in s.bridge.futures && s.bridge.futures[id].Resolved?
            && B.Conveys(Body(s.page.outbox[k]), s.bridge.futures[id].outcome) && B.Accepted(s.bridge, (id, k))
  {
    var b := Body(Last(states).page.outbox[k]);
    var o := B.Resolves(Last(states).bridge, (id, k), b);
    longer, more := AddStep(q, id, states, events, AtBridge(B.CompleteIt((id, k))));
    longer, more := AddStep(q, id, longer, more, AtBridge(B.Receive(id)));
    if !b.success { longer, more := AddStep(q, id, longer, more, AtBridge(B.CloseEntry(id))); }
  }

  /** From every point of every run, whatever the page has posted can still arrive as long as its caller waits: some
      continuation, in which the page does nothing, answers the POST 200 and resolves the caller with exactly what was
      posted, a result or a refusal. */
  lemma EveryPostCanArrive(q: P.Request, id: Id, states: seq<System>, events: seq<Event>, k: nat)
    returns (longer: seq<System>, more: seq<Event>)
    requires IsRun(q, id, states, events) && OnItsWay(id, Last(states), k)
    ensures IsRun(q, id, longer, more) && states <= longer && events <= more && Last(longer).page == Last(states).page
    ensures B.Accepted(Last(longer).bridge, (id, k))
    ensures id in Last(longer).bridge.futures && Last(longer).bridge.futures[id].Resolved?
    ensures Tells(Last(states).page.outbox[k], Last(longer).bridge.futures[id].outcome)
  {
    longer, more := RunEnters(q, id, states, events, k);
    longer, more := RunResolves(q, id, longer, more, k);
    ConveyedTells(Last(states).page.outbox[k], Last(longer).bridge.futures[id].outcome);
  }

  /** One turn of the page, to a page that is known. */
  lemma AddTurn(q: P.Request, id: Id, states: seq<System>, events: seq<Event>, e: P.Event, t: P.Page)
    returns (longer: seq<System>, more: seq<Event>)
    requires IsRun(q, id, states, events) && P.Enabled(q, Last(states).page, e) && Truthful(id, Last(states), e)
    requires P.Step(q, Last(states).page, e) == t
    ensures IsRun(q, id, longer, more) && states <= longer && events <= more
    ensures Last(longer) == System(t, Last(states).bridge)
  {
    longer, more := AddStep(q, id, states, events, OnPage(e));
  }

  lemma ReturnDelivers(q: P.Request, s: P.Page, i: nat, v: string)
    requires i < |s.tasks| && s.tasks[i].Operating?
    ensures var e := P.Resume(i, P.Got(v));
            && P.Enabled(q, s, e) && P.Step(q, s, e).ops == s.ops
            && P.Step(q, s, e).tasks == s.tasks[i := P.Delivering(|s.outbox|, true)]
            && P.Step(q, s, e).outbox == s.outbox + [P.Deliver(Some(P.Text(v)))]
  {
  }

  lemma AcceptedShows(q: P.Request, s: P.Page, i: nat)
    requires i < |s.tasks| && s.tasks[i].Delivering?
    ensures var e := P.Resume(i, P.Http(200));
            P.Enabled(q, s, e) && P.Step(q, s, e).ops == s.ops && P.Step(q, s, e).ui.view.Success?
  {
  }

  lemma RunClicks(q: P.Request, id: Id, s: System) returns (states: seq<System>, events: seq<Event>)
    requires !q.kind.Connect? && Initial(q, id, s) && P.Enabled(q, s.page, P.Click(P.Go)) && s.page.ui.settled.None?
    requires s.page.outbox == [] && s.page.tasks == [] && s.page.ops == []
    ensures IsRun(q, id, states, events) && states[0] == s && Last(states).bridge == s.bridge
    ensures var t := Last(states).page; t.tasks == [P.AcquireCurrent] && t.outbox == [] && t.ops == []
  {
    Outgoing.ClickAcquires(q, s.page);
    states, events := AddTurn(q, id, [s], [], P.Click(P.Go), P.Step(q, s.page, P.Click(P.Go)));
  }

  lemma RunSubmits(q: P.Request, id: Id, states: seq<System>, events: seq<Event>)
    returns (longer: seq<System>, more: seq<Event>)
    requires IsRun(q, id, states, events) && Outgoing.Submittable(q)
    requires var t := Last(states).page; t.tasks == [P.AcquireCurrent] && t.outbox == [] && t.ops == []
    ensures IsRun(q, id, longer, more) && states <= longer && Last(longer).bridge == Last(states).bridge
    ensures var t := Last(longer).page; t.tasks == [P.Operating] && t.outbox == [] && |t.ops| == 1
  {
    var t := Last(states).page;
    var e := P.Resume(0, P.Got(Outgoing.Welcome(q, t.ui)));
    Outgoing.AcquiringSubmits(q, t, 0);
    longer, more := AddTurn(q, id, states, events, e, P.Step(q, t, e));
  }

  /** A run on which the user signs, the wallet names an account that fits and returns `v`. */
  lemma RunReturns(q: P.Request, id: Id, s: System, v: string) returns (states: seq<System>, events: seq<Event>)
    requires !q.kind.Connect? && Outgoing.Submittable(q) && Initial(q, id, s)
    requires P.Enabled(q, s.page, P.Click(P.Go)) && s.page.ui.settled.None?
    requires s.page.outbox == [] && s.page.tasks == [] && s.page.ops == []
    ensures IsRun(q, id, states, events) && states[0] == s && Last(states).bridge == s.bridge
    ensures var t := Last(states).page;
            t.tasks == [P.Delivering(0, true)] && t.outbox == [P.Deliver(Some(P.Text(v)))] && |t.ops| == 1
  {
    states, events := RunClicks(q, id, s);
    states, events := RunSubmits(q, id, states, events);
    var t := Last(states).page;
    ReturnDelivers(q, t, 0, v);
    states, events := AddTurn(q, id, states, events, P.Resume(0, P.Got(v)), P.Step(q, t, P.Resume(0, P.Got(v))));
  }

  /** What it is all for: however the bridge has got there, for a sign or transaction request with something to submit
      whose caller waits, and for every text `v`, there is a run in which one operation is submitted, the wallet returns
      `v`, the caller gets `v` and the page shows success. */
  lemma EveryResultCanArrive(q: P.Request, id: Id, s: System, v: string)
    returns (states: seq<System>, events: seq<Event>)
    requires !q.kind.Connect? && Outgoing.Submittable(q) && Initial(q, id, s) && s.page == P.Loaded(q, "", true)
    requires B.Awaited(s.bridge, (id, 0))
    ensures IsRun(q, id, states, events) && states[0] == s
    ensures var t := Last(states);
            && |t.page.ops| == 1 && t.page.ui.view.Success?
            && id in t.bridge.futures && t.bridge.futures[id] == B.Resolved(B.Value(v))
  {
    states, events := RunReturns(q, id, s, v);
    states, events := EveryPostCanArrive(q, id, states, events, 0);
    var t := Last(states).page;
    AcceptedShows(q, t, 0);
    states, events := AddTurn(q, id, states, events, P.Resume(0, P.Http(200)), P.Step(q, t, P.Resume(0, P.Http(200))));
  }

  // ---------- The control API's answer ----------

  datatype Response = Response(status: nat, success: bool, text: string, code: Option<string>)

  /** The answer of `POST /api/v1/request` to an outcome; `check` is the chain's result check, which gives a
      reason to refuse or nothing. The wording of time-outs and cancellations is left to `timedOut`/`dropped`. */
  function Respond(o: B.Outcome, check: string -> Option<string>, timedOut: string, dropped: string): Response {
    match o
    case Value(value) =>
      if check(value).Some? then Response(500, false, check(value).value, None) else Response(200, true, value, None)
    case Rejected(message, code) => Response(409, false, message, code)
    case TimedOut => Response(409, false, timedOut, None)
    case Dropped => Response(409, false, dropped, None)
  }

  /** The code survives to the control API: a response carries a code only if the user clicked Reject or Cancel
      in the wrong-address view, and then it is that click's code. */
  lemma ResponseCodeMeansWrongAddress(q: P.Request, id: Id, states: seq<System>, events: seq<Event>, n: nat,
                                      o: B.Outcome, check: string -> Option<string>, timedOut: string, dropped: string)
    returns (c: nat)
    requires IsRun(q, id, states, events) && n < |states|
    requires id in states[n].bridge.futures && states[n].bridge.futures[id] == B.Resolved(o)
    ensures Respond(o, check, timedOut, dropped).code.Some? ==>
              && Respond(o, check, timedOut, dropped).code == Some(P.WRONG_WALLET_ADDRESS)
              && Respond(o, check, timedOut, dropped).status == 409
              && c < n && events[c] == OnPage(P.Click(P.Reject)) && states[c].page.ui.view.WrongAddress?
    ensures o.Rejected? && Respond(o, check, timedOut, dropped).code.None? ==>
              c < n && events[c] == OnPage(P.Click(P.Reject)) && !states[c].page.ui.view.WrongAddress?
  {
    c := 0;
    if o.Rejected? { c := RejectedMeansClicked(q, id, states, events, n, o.message, o.code); }
  }

  /** The control API reports a success exactly for a value that passes the chain's check. For a sign or transaction
      request that is, letter for letter, what the wallet returned, or the empty text for null, and it is the wallet's
      one result unless that can be null. */
  lemma ResponseSuccessIsTheWalletsResult(q: P.Request, id: Id, states: seq<System>, events: seq<Event>, n: nat,
                                          o: B.Outcome, check: string -> Option<string>, timedOut: string,
                                          dropped: string)
    returns (c: nat)
    requires !q.kind.Connect? && IsRun(q, id, states, events) && n < |states|
    requires id in states[n].bridge.futures && states[n].bridge.futures[id] == B.Resolved(o)
    ensures Respond(o, check, timedOut, dropped).success <==> o.Value? && check(o.value).None?
    ensures Respond(o, check, timedOut, dropped).status
      == if !o.Value? then 409 else if check(o.value).None? then 200 else 500
    ensures Respond(o, check, timedOut, dropped).success ==>
            var answer, returned := Respond(o, check, timedOut, dropped), states[n].page.successes;
            && answer.code.None? && c < n && events[c].OnPage? && Returns(states[c].page, events[c].p, answer.text)
            && (None !in returned || !P.MayReturnNull(q) ==> |returned| == 1)
  {
    c := 0;
    if o.Value? { c := CallerGetsTheWalletsResult(q, id, states, events, n, o.value); }
  }
}
