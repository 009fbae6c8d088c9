/**
  The bridge between callers and approval pages as a transition system: result futures, POST handlers that
  take the store's lock twice, time-outs and cancellations run concurrently, one lock acquisition or one
  poll at a time. Ids are fresh UUIDs, so `Prepare` takes an id that no earlier request used.
 */
module Bridge {
  import opened Wrappers
  import opened PendingStore

  /** The body of `POST /api/complete/{id}`. */
  datatype CompleteBody =
    CompleteBody(success: bool, result: Option<string>, error: Option<string>, code: Option<string>)

  function ToResult(b: CompleteBody): RequestResult {
    if b.success then Success(if b.result.Some? then b.result.value else "")
    else Error(if b.error.Some? then b.error.value else "Unknown error", b.code)
  }

  /** What a caller's result future resolves to. */
  datatype Outcome = Value(value: string) | Rejected(message: string, code: Option<string>) | TimedOut | Dropped

  function MapResult(r: RequestResult): Outcome {
    match r
    case Success(result) => Value(result)
    case Error(error, code) => Rejected(error, code)
  }

  /** A result future: waiting, about to remove its entry after an error, resolved, or given up by its caller. */
  datatype Future = Waiting | Closing(failure: Outcome) | Resolved(outcome: Outcome) | Abandoned

  /** A POST handler: before its first lock, between its two locks, or answered. */
  datatype Phase = Arrived | Checked | Replied(status: nat)

  datatype Post = Post(id: Id, body: CompleteBody, phase: Phase)

  /** `winners` and `cancelled` are history: the POST that completed an id, and the ids removed unanswered. */
  datatype State<R> = State(
    store: Store<R>,
    futures: map<Id, Future>,
    posts: map<(Id, nat), Post>,
    winners: map<Id, (Id, nat)>,
    cancelled: set<Id>)

  datatype Event<R> =
    | Prepare(id: Id, request: R)
    | Arrive(key: (Id, nat), body: CompleteBody)
    | CheckHas(key: (Id, nat))
    | CompleteIt(key: (Id, nat))
    | Receive(id: Id)
    | TimeOut(id: Id)
    | CloseEntry(id: Id)
    | Abandon(id: Id)
    | CancelCall(id: Id)

  function Start<R>(): State<R> {
    State(Store(map[], map[]), map[], map[], map[], {})
  }

  /** The timer may win a race with a result that is already in the channel, so `TimeOut` only asks that the
      future still waits. */
  predicate Enabled<R>(s: State<R>, e: Event<R>) {
    match e
    case Prepare(id, _) => id !in s.futures
    case Arrive(key, _) => key !in s.posts
    case CheckHas(key) => key in s.posts && s.posts[key].phase.Arrived?
    case CompleteIt(key) => key in s.posts && s.posts[key].phase.Checked?
    case Receive(id) =>
      id in s.futures && s.futures[id].Waiting? && id in s.store.channels && !s.store.channels[id].Open?
    case TimeOut(id) => id in s.futures && s.futures[id].Waiting?
    case CloseEntry(id) => id in s.futures && s.futures[id].Closing?
    case Abandon(id) => id in s.futures && s.futures[id].Waiting?
    case CancelCall(id) => true
  }

  function Answer<R>(s: State<R>, key: (Id, nat), phase: Phase): State<R>
    requires key in s.posts
  {
    s.(posts := s.posts[key := s.posts[key].(phase := phase)])
  }

  function Finish<R>(s: State<R>, key: (Id, nat)): State<R>
    requires key in s.posts
  {
    var p := s.posts[key];
    if p.id in s.store.pending
    then
      var store, winners := Completed(s.store, p.id, ToResult(p.body)), s.winners[p.id := key];
      Answer(s, key, Replied(200)).(store := store, winners := winners)
    else Answer(s, key, Replied(500))
  }

  function Polled(c: Channel): Future
    requires !c.Open?
  {
    if c.Closed? then Closing(Dropped)
    else if MapResult(c.result).Value? then Resolved(MapResult(c.result))
    else Closing(MapResult(c.result))
  }

  function Cancel<R>(s: State<R>, id: Id): State<R> {
    s.(store := Cancelled(s.store, id), cancelled := if id in s.store.pending then s.cancelled + {id} else s.cancelled)
  }

  function Step<R>(s: State<R>, e: Event<R>): State<R>
    requires Enabled(s, e)
  {
    match e
    case Prepare(id, request) => s.(store := Created(s.store, id, request), futures := s.futures[id := Waiting])
    case Arrive(key, body) => s.(posts := s.posts[key := Post(key.0, body, Arrived)])
    case CheckHas(key) => Answer(s, key, if s.posts[key].id in s.store.pending then Checked else Replied(404))
    case CompleteIt(key) => Finish(s, key)
    case Receive(id) => s.(futures := s.futures[id := Polled(s.store.channels[id])])
    case TimeOut(id) => s.(futures := s.futures[id := Closing(TimedOut)])
    case CloseEntry(id) => Cancel(s, id).(futures := s.futures[id := Resolved(s.futures[id].failure)])
    case Abandon(id) => s.(futures := s.futures[id := Abandoned])
    case CancelCall(id) => Cancel(s, id)
  }

  ghost predicate StepAt<R>(states: seq<State<R>>, events: seq<Event<R>>, n: nat)
    requires n < |events| && |states| == |events| + 1
  {
    Enabled(states[n], events[n]) && states[n + 1] == Step(states[n], events[n])
  }

  ghost predicate IsRun<R>(states: seq<State<R>>, events: seq<Event<R>>) {
    && |states| == |events| + 1
    && states[0] == Start()
    && (forall n :: 0 <= n < |events| ==> StepAt(states, events, n))
  }

  // ---------- Invariant, one id and one POST at a time ----------

  /** A result future's outcome is a time-out, or what its channel says. */
  predicate Agrees(o: Outcome, c: Channel) {
    match o
    case Value(value) => c == Sent(Success(value))
    case Rejected(message, code) => c == Sent(Error(message, code))
    case Dropped => c.Closed?
    case TimedOut => true
  }

  predicate FutureOk(f: Future, c: Channel) {
    match f
    case Waiting => true
    case Abandoned => true
    case Closing(o) => !o.Value? && Agrees(o, c)
    case Resolved(o) => !c.Open? && Agrees(o, c)
  }

  /** Where an id's request is: pending, completed by its winner, or cancelled. Its channel says which. */
  predicate PlaceOk<R>(s: State<R>, id: Id)
    requires id in s.store.channels
  {
    match s.store.channels[id]
    case Open => id in s.store.pending && id !in s.winners && id !in s.cancelled
    case Closed => id !in s.store.pending && id !in s.winners && id in s.cancelled
    case Sent(r) => id !in s.store.pending && id !in s.cancelled && id in s.winners && WonWith(s, id, r)
  }

  predicate WonWith<R>(s: State<R>, id: Id, r: RequestResult)
    requires id in s.winners
  {
    var key := s.winners[id];
    key.0 == id && key in s.posts && s.posts[key].phase == Replied(200) && r == ToResult(s.posts[key].body)
  }

  predicate IdOk<R>(s: State<R>, id: Id) {
    if id in s.futures then id in s.store.channels && PlaceOk(s, id) && FutureOk(s.futures[id], s.store.channels[id])
    else id !in s.store.channels && id !in s.store.pending && id !in s.winners && id !in s.cancelled
  }

  predicate PostOk<R>(s: State<R>, key: (Id, nat)) {
    key in s.posts ==>
      && s.posts[key].id == key.0
      && (s.posts[key].phase.Checked? ==> key.0 in s.futures)
      && (s.posts[key].phase == Replied(200) ==> key.0 in s.winners && s.winners[key.0] == key)
  }

  ghost predicate Inv<R>(s: State<R>) {
    (forall id :: IdOk(s, id)) && (forall key :: PostOk(s, key))
  }

  lemma StepKeepsId<R>(s: State<R>, e: Event<R>, id: Id)
    requires Inv(s) && Enabled(s, e)
    ensures IdOk(Step(s, e), id)
  {
    assert IdOk(s, id);
    match e {
      case CheckHas(key) => assert PostOk(s, key);
      case CompleteIt(key) => assert PostOk(s, key);
      case _ =>
    }
  }

  lemma StepKeepsPost<R>(s: State<R>, e: Event<R>, key: (Id, nat))
    requires Inv(s) && Enabled(s, e)
    ensures PostOk(Step(s, e), key)
  {
    assert PostOk(s, key) && IdOk(s, key.0);
    match e {
      case CheckHas(other) => assert PostOk(s, other);
      case CompleteIt(other) => assert PostOk(s, other) && IdOk(s, other.0);
      case _ =>
    }
  }

  lemma StepKeepsInv<R>(s: State<R>, e: Event<R>)
    requires Inv(s) && Enabled(s, e)
    ensures Inv(Step(s, e))
  {
    var s' := Step(s, e);
    forall id ensures IdOk(s', id) { StepKeepsId(s, e, id); }
    forall key ensures PostOk(s', key) { StepKeepsPost(s, e, key); }
  }

  // ---------- Whole runs ----------

  lemma {:induction false} RunKeepsInv<R>(states: seq<State<R>>, events: seq<Event<R>>, n: nat)
    requires IsRun(states, events) && n < |states|
    ensures Inv(states[n])
  {
    if n > 0 {
      RunKeepsInv(states, events, n - 1);
      assert StepAt(states, events, n - 1);
      StepKeepsInv(states[n - 1], events[n - 1]);
    }
  }

  /** Conservation: at every point of every run the created ids split exactly into the pending, the completed
      and the cancelled ones. */
  lemma Conservation<R>(states: seq<State<R>>, events: seq<Event<R>>, n: nat)
    requires IsRun(states, events) && n < |states|
    ensures var s := states[n];
            && s.futures.Keys == s.store.pending.Keys + s.winners.Keys + s.cancelled
            && s.store.pending.Keys !! s.winners.Keys !! s.cancelled
  {
    RunKeepsInv(states, events, n);
    var s := states[n];
    forall id ensures (id in s.futures <==> id in s.store.pending || id in s.winners || id in s.cancelled)
                   && !(id in s.store.pending && id in s.winners)
                   && !((id in s.store.pending || id in s.winners) && id in s.cancelled) {
      assert IdOk(s, id);
    }
  }

  // ---------- What a POST carries, and what it is answered ----------

  /** The outcome hands on what the body says: its result, no result being the empty text, or its error and code. */
  predicate Conveys(b: CompleteBody, o: Outcome) {
    if b.success then o == Value(if b.result.Some? then b.result.value else "")
    else o == Rejected(if b.error.Some? then b.error.value else "Unknown error", b.code)
  }

  lemma MappedConveys(b: CompleteBody, o: Outcome)
    ensures Conveys(b, o) <==> o == MapResult(ToResult(b))
  {
  }

  /** In every run: the first lock lets a POST pass exactly if its id is pending, whatever its body, and answers 404
      otherwise. The second answers 200 and takes the id out of the store exactly if the id is still pending, and 500
      otherwise. */
  lemma PostsAreAnswered<R>(states: seq<State<R>>, events: seq<Event<R>>, n: nat, key: (Id, nat))
    requires IsRun(states, events) && n < |events| && (events[n] == CheckHas(key) || events[n] == CompleteIt(key))
    ensures key in states[n + 1].posts
    ensures var pending, phase := key.0 in states[n].store.pending, states[n + 1].posts[key].phase;
      if events[n].CheckHas? then
        && states[n + 1].store == states[n].store
        && phase == if pending then Checked else Replied(404)
      else
        && key.0 !in states[n + 1].store.pending
        && phase == if pending then Replied(200) else Replied(500)
  {
    RunKeepsInv(states, events, n);
    assert StepAt(states, events, n) && PostOk(states[n], key);
  }

  lemma PhaseOfOther<R>(s: State<R>, e: Event<R>, key: (Id, nat))
    requires Inv(s) && Enabled(s, e) && key in s.posts && e != CheckHas(key) && e != CompleteIt(key)
    ensures key in Step(s, e).posts && Step(s, e).posts[key] == s.posts[key]
  {
  }

  lemma NewPost<R>(s: State<R>, e: Event<R>, key: (Id, nat))
    requires Enabled(s, e) && key !in s.posts && key in Step(s, e).posts
    ensures Step(s, e).posts[key].phase.Arrived?
  {
  }

  /** So a POST's answer tells where its id was: at the step `c` of the first lock and, if it got that far, at the step
      `d` of the second. */
  lemma {:induction false} AnswerHistory<R>(states: seq<State<R>>, events: seq<Event<R>>, n: nat, key: (Id, nat))
    returns (c: nat, d: nat)
    requires IsRun(states, events) && n < |states| && key in states[n].posts && !states[n].posts[key].phase.Arrived?
    ensures c < n && events[c] == CheckHas(key)
    ensures var phase := states[n].posts[key].phase;
      && (phase == Replied(404) <==> key.0 !in states[c].store.pending)
      && (phase != Replied(404) && !phase.Checked? ==> c < d < n && events[d] == CompleteIt(key))
      && (phase == Replied(200) ==> key.0 in states[d].store.pending)
      && (phase == Replied(500) ==> key.0 !in states[d].store.pending)
      && (phase.Replied? ==> phase.status in {200, 404, 500})
  {
    var s, e := states[n - 1], events[n - 1];
    assert StepAt(states, events, n - 1);
    RunKeepsInv(states, events, n - 1);
    if e == CheckHas(key) {
      c, d := n - 1, n;
      PostsAreAnswered(states, events, n - 1, key);
    } else if e == CompleteIt(key) {
      c, d := AnswerHistory(states, events, n - 1, key);
      d := n - 1;
      PostsAreAnswered(states, events, n - 1, key);
    } else {
      if key in s.posts { PhaseOfOther(s, e, key); } else { NewPost(s, e, key); }
      c, d := AnswerHistory(states, events, n - 1, key);
    }
  }

  predicate Accepted<R>(s: State<R>, key: (Id, nat)) {
    key in s.posts && s.posts[key].phase == Replied(200)
  }

  /** Of any number of concurrent POSTs for an id, exactly one is answered 200 when the id is completed,
      and none is otherwise. */
  lemma ExactlyOneAccepted<R>(states: seq<State<R>>, events: seq<Event<R>>, n: nat, id: Id)
    requires IsRun(states, events) && n < |states|
    ensures id in states[n].winners <==>
              exists key :: Accepted(states[n], key) && key.0 == id
    ensures forall key, other :: Accepted(states[n], key) && Accepted(states[n], other) && key.0 == other.0 == id ==>
              key == other
  {
    RunKeepsInv(states, events, n);
    var s := states[n];
    assert IdOk(s, id);
    if id in s.winners { assert Accepted(s, s.winners[id]); }
    forall key | Accepted(s, key) && key.0 == id ensures id in s.winners && s.winners[id] == key {
      assert PostOk(s, key);
    }
  }

  /** However a caller's future resolves, the id is no longer pending; and it resolves with what the one accepted
      POST carried, with a cancellation only of an id that was cancelled, or with a time-out. */
  lemma ResolvedMeansAnswered<R>(states: seq<State<R>>, events: seq<Event<R>>, n: nat, id: Id)
    requires IsRun(states, events) && n < |states| && id in states[n].futures && states[n].futures[id].Resolved?
    ensures id !in states[n].store.pending
    ensures var o := states[n].futures[id].outcome;
            || o.TimedOut?
            || (o.Dropped? && id in states[n].cancelled)
            || (id in states[n].winners && Accepted(states[n], states[n].winners[id])
                && Conveys(states[n].posts[states[n].winners[id]].body, o))
  {
    RunKeepsInv(states, events, n);
    assert IdOk(states[n], id);
    if id in states[n].winners && states[n].winners[id] in states[n].posts {
      MappedConveys(states[n].posts[states[n].winners[id]].body, states[n].futures[id].outcome);
    }
  }

  /** What never changes about one id. */
  ghost predicate Later<R>(s: State<R>, t: State<R>, id: Id) {
    && (id in s.futures ==> id in t.futures)
    && (id in s.futures && id !in s.store.pending ==> id !in t.store.pending)
    && (id in s.winners ==> id in t.winners && t.winners[id] == s.winners[id])
    && (id in s.futures && id !in s.store.pending && id in t.winners ==> id in s.winners)
    && (id in s.futures && s.futures[id].Resolved? ==> id in t.futures && t.futures[id] == s.futures[id])
    && (id in s.store.channels && !s.store.channels[id].Open? ==>
          id in t.store.channels && t.store.channels[id] == s.store.channels[id])
    && (forall key :: key in s.posts && key.0 == id ==> key in t.posts && t.posts[key].body == s.posts[key].body)
  }

  lemma StepIsLater<R>(s: State<R>, e: Event<R>, id: Id)
    requires Inv(s) && Enabled(s, e)
    ensures Later(s, Step(s, e), id)
  {
    assert IdOk(s, id);
    match e {
      case CompleteIt(key) => assert PostOk(s, key);
      case _ =>
    }
  }

  lemma LaterStill<R>(s: State<R>, t: State<R>, u: State<R>, id: Id)
    requires Later(s, t, id) && Later(t, u, id)
    ensures Later(s, u, id)
  {
  }

  lemma {:induction false} RunIsLater<R>(states: seq<State<R>>, events: seq<Event<R>>, m: nat, n: nat, id: Id)
    requires IsRun(states, events) && m <= n < |states|
    ensures Later(states[m], states[n], id)
  {
    if m < n {
      RunIsLater(states, events, m, n - 1, id);
      RunKeepsInv(states, events, n - 1);
      assert StepAt(states, events, n - 1);
      StepIsLater(states[n - 1], events[n - 1], id);
      LaterStill(states[m], states[n - 1], states[n], id);
    }
  }

  /** A receiver fires at most once and a future resolves at most once: what a channel carries once it is no
      longer open, and what a future resolved to, stay as they are. */
  lemma FiresOnce<R>(states: seq<State<R>>, events: seq<Event<R>>, m: nat, n: nat, id: Id)
    requires IsRun(states, events) && m <= n < |states| && id in states[m].futures
    ensures id in states[m].store.channels && id in states[n].store.channels && id in states[n].futures
    ensures !states[m].store.channels[id].Open? ==> states[n].store.channels[id] == states[m].store.channels[id]
    ensures states[m].futures[id].Resolved? ==> states[n].futures[id] == states[m].futures[id]
  {
    RunKeepsInv(states, events, m);
    RunKeepsInv(states, events, n);
    RunIsLater(states, events, m, n, id);
    assert IdOk(states[m], id) && IdOk(states[n], id);
  }

  /** An id that has left the store never comes back, and a POST for it that has not been accepted by then never
      is. */
  lemma GoneForGood<R>(states: seq<State<R>>, events: seq<Event<R>>, m: nat, n: nat, id: Id)
    requires IsRun(states, events) && m <= n < |states| && id in states[m].futures && id !in states[m].store.pending
    ensures id !in states[n].store.pending
    ensures forall key :: Accepted(states[n], key) && key.0 == id ==>
              id in states[m].winners && states[m].winners[id] == key
  {
    RunIsLater(states, events, m, n, id);
    RunKeepsInv(states, events, n);
    forall key | Accepted(states[n], key) && key.0 == id
      ensures id in states[m].winners && states[m].winners[id] == key
    {
      assert PostOk(states[n], key);
    }
  }

  // ---------- What a 200 means ----------

  /** A time-out has fired for the id. */
  ghost predicate Expired<R>(events: seq<Event<R>>, n: nat, id: Id)
    requires n <= |events|
  {
    exists k :: 0 <= k < n && events[k] == TimeOut(id)
  }

  predicate FailsByTime(f: Future) {
    (f.Closing? && f.failure.TimedOut?) || (f.Resolved? && f.outcome.TimedOut?)
  }

  lemma StepFailsByTime<R>(s: State<R>, e: Event<R>, id: Id)
    requires Inv(s) && Enabled(s, e) && id in s.futures
    ensures id in Step(s, e).futures
    ensures FailsByTime(Step(s, e).futures[id]) <==> FailsByTime(s.futures[id]) || e == TimeOut(id)
    ensures e == TimeOut(id) ==> !FailsByTime(s.futures[id])
  {
    assert IdOk(s, id);
  }

  lemma ExpiredStep<R>(events: seq<Event<R>>, n: nat, id: Id)
    requires 0 < n <= |events|
    ensures Expired(events, n, id) <==> Expired(events, n - 1, id) || events[n - 1] == TimeOut(id)
  {
  }

  /** A future fails by time exactly if its time-out has fired. */
  lemma {:induction false} FailsIffExpired<R>(states: seq<State<R>>, events: seq<Event<R>>, n: nat, id: Id)
    requires IsRun(states, events) && n < |states|
    ensures Expired(events, n, id) ==> id in states[n].futures
    ensures id in states[n].futures ==> (FailsByTime(states[n].futures[id]) <==> Expired(events, n, id))
  {
    if n > 0 {
      FailsIffExpired(states, events, n - 1, id);
      ExpiredStep(events, n, id);
      RunKeepsInv(states, events, n - 1);
      assert StepAt(states, events, n - 1);
      if id in states[n - 1].futures { StepFailsByTime(states[n - 1], events[n - 1], id); }
    }
  }

  /** In every run, when a POST has been answered 200 and its caller's future has resolved, the caller got what that
      POST carried exactly if its time-out has not fired. */
  lemma AcceptedMeansReceived<R>(states: seq<State<R>>, events: seq<Event<R>>, n: nat, key: (Id, nat))
    requires IsRun(states, events) && n < |states| && Accepted(states[n], key)
    requires key.0 in states[n].futures && states[n].futures[key.0].Resolved?
    ensures Conveys(states[n].posts[key].body, states[n].futures[key.0].outcome) <==> !Expired(events, n, key.0)
  {
    MappedConveys(states[n].posts[key].body, states[n].futures[key.0].outcome);
    RunKeepsInv(states, events, n);
    FailsIffExpired(states, events, n, key.0);
    assert IdOk(states[n], key.0) && PostOk(states[n], key);
  }

  // ---------- Runs that show it ----------

  lemma AddStep<R>(states: seq<State<R>>, events: seq<Event<R>>, e: Event<R>)
    returns (longer: seq<State<R>>, more: seq<Event<R>>)
    requires IsRun(states, events) && Enabled(states[|events|], e)
    ensures IsRun(longer, more) && more == events + [e] && longer == states + [Step(states[|events|], e)]
  {
    longer, more := states + [Step(states[|events|], e)], events + [e];
    forall n | 0 <= n < |more| ensures StepAt(longer, more, n) {
      if n < |events| { assert StepAt(states, events, n); }
    }
  }

  /** A POST between its handler's two locks whose caller has just timed out. */
  predicate Late<R>(s: State<R>, key: (Id, nat)) {
    && key in s.posts && s.posts[key].phase.Checked? && s.posts[key].id == key.0 && key.0 in s.store.pending
    && key.0 in s.futures && s.futures[key.0] == Closing(TimedOut)
  }

  lemma LatePost<R>(request: R) returns (states: seq<State<R>>, events: seq<Event<R>>)
    ensures IsRun(states, events) && |events| == 4 && Late(states[4], (0, 0))
  {
    var key, body := (0, 0), CompleteBody(true, Some("0x1"), None, None);
    var s0: State<R> := Start();
    states, events := AddStep([s0], [], Prepare(0, request));
    assert states[1].store.pending == map[0 := request] && states[1].futures == map[0 := Waiting];
    states, events := AddStep(states, events, Arrive(key, body));
    assert states[2].posts == map[key := Post(0, body, Arrived)] && states[2].store == states[1].store;
    states, events := AddStep(states, events, CheckHas(key));
    assert states[3].posts == map[key := Post(0, body, Checked)] && states[3].futures == map[0 := Waiting];
    states, events := AddStep(states, events, TimeOut(0));
  }

  /** A POST answered 200 does not mean the caller got its value: the time-out may fire between the handler's
      two locks, and the completion still finds the entry. */
  lemma AcceptedAfterTimeOut<R>(request: R) returns (states: seq<State<R>>, events: seq<Event<R>>)
    ensures IsRun(states, events) && |events| == 6 && Accepted(states[6], (0, 0))
    ensures 0 in states[6].futures && states[6].futures[0] == Resolved(TimedOut)
  {
    states, events := LatePost(request);
    states, events := AddStep(states, events, CompleteIt((0, 0)));
    assert Accepted(states[5], (0, 0)) && states[5].futures[0] == Closing(TimedOut);
    states, events := AddStep(states, events, CloseEntry(0));
  }

  // ---------- Every POST can get through ----------

  /** The caller waits for an id that is pending, and no POST `key` for it has been made. */
  predicate Awaited<R>(s: State<R>, key: (Id, nat)) {
    key !in s.posts && key.0 in s.store.pending && key.0 in s.futures && s.futures[key.0].Waiting?
  }

  /** The POST is between its locks, its id pending and its caller waiting. */
  predicate InBetween<R>(s: State<R>, key: (Id, nat), b: CompleteBody) {
    && key in s.posts && s.posts[key] == Post(key.0, b, Checked)
    && key.0 in s.store.pending && key.0 in s.futures && s.futures[key.0].Waiting?
  }

  lemma Enters<R>(s: State<R>, key: (Id, nat), b: CompleteBody)
    requires Awaited(s, key)
    ensures Enabled(s, Arrive(key, b)) && Enabled(Step(s, Arrive(key, b)), CheckHas(key))
    ensures InBetween(Step(Step(s, Arrive(key, b)), CheckHas(key)), key, b)
  {
  }

  /** After the second lock the caller finds the outcome, and closes its entry if that is an error. */
  lemma Resolves<R>(s: State<R>, key: (Id, nat), b: CompleteBody) returns (o: Outcome)
    requires InBetween(s, key, b)
    ensures Conveys(b, o)
    ensures Enabled(s, CompleteIt(key)) && Enabled(Step(s, CompleteIt(key)), Receive(key.0))
    ensures var t := Step(Step(s, CompleteIt(key)), Receive(key.0));
      && key.0 in t.futures
      && (if b.success then t.futures[key.0] == Resolved(o)
          else Enabled(t, CloseEntry(key.0)) && key.0 in Step(t, CloseEntry(key.0)).futures
               && Step(t, CloseEntry(key.0)).futures[key.0] == Resolved(o))
  {
    o := MapResult(ToResult(b));
    assert Step(s, CompleteIt(key)).store.channels[key.0] == Sent(ToResult(b));
  }

  /** The events by which a POST gets through, whatever it carries. */
  function Through<R>(key: (Id, nat), b: CompleteBody): seq<Event<R>> {
    [Arrive(key, b), CheckHas(key), CompleteIt(key), Receive(key.0)] + if b.success then [] else [CloseEntry(key.0)]
  }

  lemma RunEnters<R>(states: seq<State<R>>, events: seq<Event<R>>, key: (Id, nat), b: CompleteBody)
    returns (longer: seq<State<R>>, more: seq<Event<R>>)
    requires IsRun(states, events) && Awaited(states[|events|], key)
    ensures IsRun(longer, more) && more == events + [Arrive(key, b), CheckHas(key)]
    ensures InBetween(longer[|more|], key, b)
  {
    Enters(states[|events|], key, b);
    longer, more := AddStep(states, events, Arrive(key, b));
    longer, more := AddStep(longer, more, CheckHas(key));
  }

  lemma RunResolves<R>(states: seq<State<R>>, events: seq<Event<R>>, key: (Id, nat), b: CompleteBody)
    returns (longer: seq<State<R>>, more: seq<Event<R>>)
    requires IsRun(states, events) && InBetween(states[|events|], key, b)
    ensures IsRun(longer, more) && more == events + Through(key, b)[2..]
    ensures key.0 in longer[|more|].futures && longer[|more|].futures[key.0].Resolved?
    ensures Conveys(b, longer[|more|].futures[key.0].outcome)
  {
    var o := Resolves(states[|events|], key, b);
    longer, more := AddStep(states, events, CompleteIt(key));
    longer, more := AddStep(longer, more, Receive(key.0));
    if !b.success { longer, more := AddStep(longer, more, CloseEntry(key.0)); }
  }

  /** From every point of every run: as long as the caller waits and its id is pending, any POST for the id, result or
      refusal, can come in, and the caller gets what it carries. */
  lemma EveryPostCanGetThrough<R>(states: seq<State<R>>, events: seq<Event<R>>, key: (Id, nat), b: CompleteBody)
    returns (longer: seq<State<R>>, more: seq<Event<R>>)
    requires IsRun(states, events) && Awaited(states[|events|], key)
    ensures IsRun(longer, more) && more == events + Through(key, b)
    ensures key.0 in longer[|more|].futures && longer[|more|].futures[key.0].Resolved?
    ensures Conveys(b, longer[|more|].futures[key.0].outcome)
  {
    longer, more := RunEnters(states, events, key, b);
    longer, more := RunResolves(longer, more, key, b);
  }

  // ---------- How long an id is pending ----------

  /** A caller whose future has failed closes its entry, too. */
  predicate Ends<R>(e: Event<R>, id: Id) {
    Removes(e, id) || e == CloseEntry(id)
  }

  lemma StepKeepsPending<R>(s: State<R>, e: Event<R>, id: Id)
    requires Inv(s) && Enabled(s, e) && id in s.futures
    ensures id in Step(s, e).futures
    ensures id in Step(s, e).store.pending <==> id in s.store.pending && !Ends(e, id)
  {
    assert IdOk(s, id);
    if e.CompleteIt? { assert PostOk(s, e.key); }
  }

  /** An id that is pending stays pending exactly until a POST completes it, it is cancelled, or its caller, having
      failed, closes it. */
  lemma {:induction false} PendingUntilEnded<R>(states: seq<State<R>>, events: seq<Event<R>>, m: nat, n: nat, id: Id)
    requires IsRun(states, events) && m <= n < |states| && id in states[m].store.pending
    ensures id in states[n].futures
    ensures id in states[n].store.pending <==> forall k :: m <= k < n ==> !Ends(events[k], id)
  {
    RunKeepsInv(states, events, n);
    RunKeepsInv(states, events, m);
    assert IdOk(states[m], id);
    if m < n {
      PendingUntilEnded(states, events, m, n - 1, id);
      RunKeepsInv(states, events, n - 1);
      assert StepAt(states, events, n - 1);
      StepKeepsPending(states[n - 1], events[n - 1], id);
      assert (forall k :: m <= k < n ==> !Ends(events[k], id)) <==>
        ((forall k :: m <= k < n - 1 ==> !Ends(events[k], id)) && !Ends(events[n - 1], id));
    }
  }

  // ---------- Callers that give up ----------

  /** The event takes the id's entry out of the store, if it is there. */
  predicate Removes<R>(e: Event<R>, id: Id) {
    e == CancelCall(id) || (e.CompleteIt? && e.key.0 == id)
  }

  lemma AbandonedStep<R>(s: State<R>, e: Event<R>, id: Id)
    requires Inv(s) && Enabled(s, e) && id in s.futures && s.futures[id].Abandoned?
    ensures id in Step(s, e).futures && Step(s, e).futures[id].Abandoned?
    ensures id in Step(s, e).store.pending <==> id in s.store.pending && !Removes(e, id)
  {
    assert IdOk(s, id);
    if e.CompleteIt? { assert PostOk(s, e.key); }
  }

  ghost predicate GivenUp<R>(events: seq<Event<R>>, n: nat, id: Id)
    requires n <= |events|
  {
    exists k :: 0 <= k < n && events[k] == Abandon(id)
  }

  lemma GivenUpStep<R>(events: seq<Event<R>>, n: nat, id: Id)
    requires 0 < n <= |events|
    ensures GivenUp(events, n, id) <==> GivenUp(events, n - 1, id) || events[n - 1] == Abandon(id)
  {
  }

  lemma StepGivesUp<R>(s: State<R>, e: Event<R>, id: Id)
    requires Enabled(s, e) && id in s.futures
    ensures id in Step(s, e).futures
    ensures Step(s, e).futures[id].Abandoned? <==> s.futures[id].Abandoned? || e == Abandon(id)
  {
  }

  /** A future is abandoned exactly if its caller gave it up, and that is for good: nothing resolves it any more. */
  lemma {:induction false} AbandonedIffGivenUp<R>(states: seq<State<R>>, events: seq<Event<R>>, n: nat, id: Id)
    requires IsRun(states, events) && n < |states|
    ensures GivenUp(events, n, id) ==> id in states[n].futures
    ensures id in states[n].futures ==> (states[n].futures[id].Abandoned? <==> GivenUp(events, n, id))
  {
    if n > 0 {
      AbandonedIffGivenUp(states, events, n - 1, id);
      GivenUpStep(events, n, id);
      assert StepAt(states, events, n - 1);
      if id in states[n - 1].futures { StepGivesUp(states[n - 1], events[n - 1], id); }
    }
  }

  /** A caller that gives up its future leaves the entry behind: it stays pending exactly until it is cancelled or a
      POST completes it. */
  lemma {:induction false} AbandonedStaysPending<R>(states: seq<State<R>>, events: seq<Event<R>>, m: nat, n: nat,
                                                    id: Id)
    requires IsRun(states, events) && m <= n < |states|
    requires id in states[m].futures && states[m].futures[id].Abandoned? && id in states[m].store.pending
    ensures id in states[n].futures && states[n].futures[id].Abandoned?
    ensures id in states[n].store.pending <==> forall k :: m <= k < n ==> !Removes(events[k], id)
  {
    if m < n {
      AbandonedStaysPending(states, events, m, n - 1, id);
      RunKeepsInv(states, events, n - 1);
      assert StepAt(states, events, n - 1);
      AbandonedStep(states[n - 1], events[n - 1], id);
      assert (forall k :: m <= k < n ==> !Removes(events[k], id)) <==>
        ((forall k :: m <= k < n - 1 ==> !Removes(events[k], id)) && !Removes(events[n - 1], id));
    }
  }
}
