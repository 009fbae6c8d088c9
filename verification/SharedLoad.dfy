/**
  `onceUntilFailure`: callers share one load while it is pending or fulfilled. A rejection is noticed by a callback
  that runs a moment after it, so calls may come in between.
 */
module SharedLoad {
  import opened Wrappers

  /** A load's promise. `dropped` tells whether the rejection callback has run. */
  datatype Load = InFlight | Fulfilled | Rejected(dropped: bool)

  /** The loads ever started and the one that callers share now. */
  datatype State = State(pending: Option<nat>, loads: seq<Load>)

  datatype Event = Call | Settle(load: nat, ok: bool) | Drop(load: nat)

  predicate Enabled(s: State, e: Event) {
    match e
    case Call => true
    case Settle(k, _) => k < |s.loads| && s.loads[k].InFlight?
    case Drop(k) => k < |s.loads| && s.loads[k] == Rejected(false)
  }

  function Step(s: State, e: Event): State
    requires Enabled(s, e)
  {
    match e
    case Call => if s.pending.None? then State(Some(|s.loads|), s.loads + [InFlight]) else s
    case Settle(k, ok) => s.(loads := s.loads[k := if ok then Fulfilled else Rejected(false)])
    case Drop(k) => State(None, s.loads[k := Rejected(true)])
  }

  /** The closure that `onceUntilFailure` returns, with its promises. */
  class Once {
    var pending: Option<nat>
    var loads: seq<Load>

    function Current(): State
      reads this
    {
      State(pending, loads)
    }

    constructor ()
      ensures Current() == State(None, [])
    {
      pending, loads := None, [];
    }

    /** A call: the caller gets the load it shares. */
    method Call() returns (k: nat)
      modifies this
      ensures Current() == Step(old(Current()), Event.Call)
      ensures Current().pending == Some(k)
    {
      if pending.None? {
        pending := Some(|loads|);
        loads := loads + [InFlight];
      }
      k := pending.value;
    }

    /** The load's promise settles. */
    method Settle(k: nat, ok: bool)
      requires Enabled(Current(), Event.Settle(k, ok))
      modifies this
      ensures Current() == Step(old(Current()), Event.Settle(k, ok))
    {
      loads := loads[k := if ok then Fulfilled else Rejected(false)];
    }

    /** The rejection callback of load `k`, which clears whatever load is shared. */
    method Drop(k: nat)
      requires Enabled(Current(), Event.Drop(k))
      modifies this
      ensures Current() == Step(old(Current()), Event.Drop(k))
    {
      pending := None;
      loads := loads[k := Rejected(true)];
    }
  }

  // ---------- Runs ----------

  ghost predicate IsRun(states: seq<State>, events: seq<Event>) {
    && |states| == |events| + 1
    && states[0] == State(None, [])
    && forall n :: 0 <= n < |events| ==> Enabled(states[n], events[n]) && states[n + 1] == Step(states[n], events[n])
  }

  /** Only the newest load can be anything but failed and dropped, and it is the shared one if it is. */
  predicate Inv(s: State) {
    && (s.pending.Some? ==> s.pending.value == |s.loads| - 1 && s.loads[s.pending.value] != Rejected(true))
    && forall k :: 0 <= k < |s.loads| && s.pending != Some(k) ==> s.loads[k] == Rejected(true)
  }

  lemma {:induction false} RunKeepsInv(states: seq<State>, events: seq<Event>, n: nat)
    requires IsRun(states, events) && n < |states|
    ensures Inv(states[n])
  {
    if n > 0 { RunKeepsInv(states, events, n - 1); }
  }

  predicate Started(s: State, e: Event) {
    e.Call? && s.pending.None?
  }

  /** At most one load is in flight at any time. */
  lemma OneInFlight(states: seq<State>, events: seq<Event>, n: nat, j: nat, k: nat)
    requires IsRun(states, events) && n < |states|
    requires j < |states[n].loads| && k < |states[n].loads|
    requires states[n].loads[j].InFlight? && states[n].loads[k].InFlight?
    ensures j == k
  {
    RunKeepsInv(states, events, n);
  }

  /** A call starts a load only when every earlier one has failed, so none ever starts after a success. */
  lemma StartsOnlyAfterFailure(states: seq<State>, events: seq<Event>, n: nat)
    requires IsRun(states, events) && n < |events| && |states[n + 1].loads| > |states[n].loads|
    ensures events[n] == Call && forall k :: 0 <= k < |states[n].loads| ==> states[n].loads[k].Rejected?
  {
    RunKeepsInv(states, events, n);
  }

  /** Calls share the newest load, until it has failed and its callback has run; then they share none. */
  lemma SharesTheNewest(states: seq<State>, events: seq<Event>, n: nat)
    requires IsRun(states, events) && n < |states|
    ensures var loads := states[n].loads;
            states[n].pending
              == if loads == [] || loads[|loads| - 1] == Rejected(true) then None else Some(|loads| - 1)
  {
    RunKeepsInv(states, events, n);
  }

  /** So a call starts a load exactly if every load before it has failed and been noticed. */
  lemma StartsIff(states: seq<State>, events: seq<Event>, n: nat)
    requires IsRun(states, events) && n < |events| && events[n] == Call
    ensures states[n + 1].loads
      == if forall k :: 0 <= k < |states[n].loads| ==> states[n].loads[k] == Rejected(true)
         then states[n].loads + [InFlight] else states[n].loads
    ensures states[n + 1].pending == Some(|states[n + 1].loads| - 1)
  {
    RunKeepsInv(states, events, n);
  }

  /** What a load has come to is what the events say: fulfilled, rejected, or neither yet; and whether its callback ran.
      */
  lemma {:induction false} LoadsFollowEvents(states: seq<State>, events: seq<Event>, n: nat, k: nat)
    requires IsRun(states, events) && n < |states| && k < |states[n].loads|
    ensures states[n].loads[k].Fulfilled? <==> exists j :: 0 <= j < n && events[j] == Settle(k, true)
    ensures states[n].loads[k].Rejected? <==> exists j :: 0 <= j < n && events[j] == Settle(k, false)
    ensures states[n].loads[k] == Rejected(true) <==> exists j :: 0 <= j < n && events[j] == Drop(k)
  {
    if n > 0 {
      if k < |states[n - 1].loads| {
        LoadsFollowEvents(states, events, n - 1, k);
      } else {
        NoEventsBefore(states, events, n - 1, k);
      }
      EarlierOrNow(events, n, Settle(k, true));
      EarlierOrNow(events, n, Settle(k, false));
      EarlierOrNow(events, n, Drop(k));
    }
  }

  lemma EarlierOrNow(events: seq<Event>, n: nat, e: Event)
    requires 0 < n <= |events|
    ensures (exists j :: 0 <= j < n && events[j] == e) <==>
              (exists j :: 0 <= j < n - 1 && events[j] == e) || events[n - 1] == e
  {
  }

  lemma {:induction false} NoEventsBefore(states: seq<State>, events: seq<Event>, n: nat, k: nat)
    requires IsRun(states, events) && n < |states| && k >= |states[n].loads|
    ensures forall j :: 0 <= j < n ==> events[j] != Settle(k, true) && events[j] != Settle(k, false)
                                       && events[j] != Drop(k)
  {
    if n > 0 { NoEventsBefore(states, events, n - 1, k); }
  }

  /** Once a load has succeeded, the shared load is that one for good. */
  lemma {:induction false} SharedForGood(states: seq<State>, events: seq<Event>, m: nat, n: nat, k: nat)
    requires IsRun(states, events) && m <= n < |states|
    requires k < |states[m].loads| && states[m].loads[k].Fulfilled?
    ensures states[n] == states[m] && states[n].pending == Some(k)
  {
    RunKeepsInv(states, events, m);
    if n > m { SharedForGood(states, events, m, n - 1, k); }
  }
}
