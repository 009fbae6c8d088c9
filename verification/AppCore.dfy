/**
  The page's code as it is written: module variables that handlers assign step by step between awaits. Each
  method runs one handler from one await to the next and returns where it stopped, as the function of its name in
  `Approval` says. They are here for `Turn`: an `App` records the run its turns have gone through, and `Valid` says
  that it is one, so what holds of every run holds of every `App`.
 */
module AppCore {
  import opened Wrappers
  import A = Approval
  import AccountPrompt
  import ConnectFlow
  import GivenAccount
  import Outgoing
  import PickedSigner
  import Rejection
  import SingleFlight

  /** Where a handler leaves the thread. */
  datatype Stop = Wait(next: A.Task) | Submitted(op: A.Operation) | Posted(body: A.Post)

  function At(u: A.Ui, stop: Stop): A.Move {
    match stop
    case Wait(next) => A.Wait(u, next)
    case Submitted(op) => A.Submitted(u, op)
    case Posted(body) => A.Posted(u, body)
  }

  class App {
    const request: A.Request

    var viewStatus: A.View
    var connectedAddress: string
    var pickedAddress: string
    var settledResult: Option<A.Value>
    var finished: bool
    var changingAccount: bool
    var accountChangeUnsupported: bool
    var listening: bool
    var following: bool
    var hasWallet: bool
    var awaitingWallet: bool
    var buttons: A.Buttons

    var tasks: seq<A.Task>
    var ops: seq<A.Operation>
    var successes: seq<Option<A.Value>>
    var outbox: seq<A.Post>

    ghost var states: seq<A.Page>
    ghost var events: seq<A.Event>

    /** What has happened so far is a run of the page, and this is where it ended. */
    ghost predicate Valid()
      reads this
    {
      A.IsRun(request, states, events) && states[|events|] == State()
    }

    function Vars(): A.Ui
      reads this
    {
      A.Ui(viewStatus, connectedAddress, pickedAddress, settledResult, finished, changingAccount,
           accountChangeUnsupported, listening, following, hasWallet, awaitingWallet, buttons)
    }

    function State(): A.Page
      reads this
    {
      A.Page(Vars(), tasks, ops, successes, outbox)
    }

    /** `init` up to its first render. */
    constructor (q: A.Request, connected: string, wallet: bool)
      ensures Valid() && request == q && State() == A.Loaded(q, connected, wallet) && events == []
    {
      request := q;
      viewStatus, connectedAddress, pickedAddress, settledResult := A.Idle, connected, "", None;
      finished, changingAccount, accountChangeUnsupported, listening := false, false, false, false;
      following, hasWallet, awaitingWallet := wallet, wallet, !wallet;
      buttons := A.Buttons(false, false, false, false);
      tasks, ops, successes, outbox := [], [], [], [];
      states, events := [A.Loaded(q, connected, wallet)], [];
      RunStarts(q, connected, wallet);
      new;
      Render();
    }

    method Render()
      modifies this`buttons
      ensures Vars() == A.Paint(request, old(Vars()))
    {
      buttons := if request.kind.Connect? then A.ConnectButtons(request, Vars()) else A.SignButtons(request, Vars());
    }

    // ---------- From one await to the next ----------

    method CleanupAccountsListener()
      modifies this`listening
      ensures !listening
    {
      listening := false;
    }

    method DeliverSettled() returns (stop: Stop)
      ensures At(Vars(), stop) == A.DeliverSettled(Vars())
    {
      stop := Posted(A.Deliver(settledResult));
    }

    method ShowError() returns (stop: Stop)
      modifies this`viewStatus, this`buttons
      ensures At(Vars(), stop) == A.ShowError(request, old(Vars()))
    {
      viewStatus := A.Failed;
      Render();
      stop := Wait(A.Done);
    }

    method EnterWrongAddress()
      modifies this`viewStatus, this`buttons, this`listening
      ensures Vars() == A.EnterWrongAddress(request, old(Vars()))
    {
      viewStatus := A.WrongAddress;
      Render();
      CleanupAccountsListener();
      if A.Expected(request, Vars()) == "" { return; }
      listening := true;
    }

    /** The opener of the prompt does nothing more, so its slot is the prompt's from here on. */
    method OpenPrompt(byUser: bool) returns (stop: Stop)
      modifies this`changingAccount, this`buttons
      ensures At(Vars(), stop) == A.OpenPrompt(request, old(Vars()), byUser)
    {
      if !A.CanPrompt(request, Vars()) { return Wait(A.Done); }
      changingAccount := true;
      Render();
      stop := Wait(A.Prompting(byUser));
    }

    method AfterFailure(code: int) returns (stop: Stop)
      ensures At(Vars(), stop) == A.AfterFailure(request, Vars(), code)
    {
      var expected := A.Expected(request, Vars());
      if expected == "" { return Wait(A.Failing); }
      stop := Wait(A.Rereading(expected, code == A.USER_REJECTED));
    }

    method HandleSign() returns (stop: Stop)
      modifies this`viewStatus, this`buttons
      ensures At(Vars(), stop) == A.HandleSign(request, old(Vars()))
    {
      if settledResult.Some? {
        stop := DeliverSettled();
        return;
      }
      viewStatus := A.Connecting;
      Render();
      stop := Wait(A.AcquireCurrent);
    }

    method Submit(account: string) returns (stop: Stop)
      modifies this`connectedAddress, this`viewStatus, this`changingAccount, this`listening, this`buttons
      ensures At(Vars(), stop) == A.Submit(request, old(Vars()), account)
    {
      connectedAddress := account;
      var from := A.Expected(request, Vars());
      if A.Gated(request, account, from) {
        EnterWrongAddress();
        stop := OpenPrompt(false);
        return;
      }
      viewStatus := A.Signing;
      Render();
      if request.kind.Message? && !request.signable {
        stop := AfterFailure(0);
        return;
      }
      stop := Submitted(A.Operation(if from != "" then from else connectedAddress, connectedAddress));
    }

    /** Records the result before the first attempt to deliver it. */
    method Settle(v: Option<A.Value>) returns (stop: Stop)
      modifies this`settledResult
      ensures At(Vars(), stop) == A.Settle(old(Vars()), v)
    {
      settledResult := v;
      stop := DeliverSettled();
    }

    method AfterSwitch(address: string) returns (stop: Stop)
      modifies this`listening, this`settledResult
      ensures At(Vars(), stop) == A.AfterSwitch(request, old(Vars()), address)
    {
      CleanupAccountsListener();
      if A.HasConnectResult(request) { return Wait(A.ConnectResult(address)); }
      stop := Settle(Some(A.Text(address)));
    }

    method FinishConnect(address: string) returns (stop: Stop)
      modifies this`connectedAddress, this`viewStatus, this`listening, this`settledResult, this`buttons
      ensures At(Vars(), stop) == A.FinishConnect(request, old(Vars()), address)
    {
      connectedAddress := address;
      if A.HasOnConnected(request) {
        viewStatus := A.Switching;
        Render();
        return Wait(A.ConnectSwitch(address));
      }
      stop := AfterSwitch(address);
    }

    method HandleConnect() returns (stop: Stop)
      modifies this`viewStatus, this`buttons
      ensures At(Vars(), stop) == A.HandleConnect(request, old(Vars()))
    {
      viewStatus := A.Connecting;
      Render();
      stop := Wait(A.ConnectRequest);
    }

    method Connected(address: string) returns (stop: Stop)
      modifies this`connectedAddress, this`viewStatus, this`changingAccount, this`listening, this`settledResult,
               this`buttons
      ensures At(Vars(), stop) == A.Connected(request, old(Vars()), address)
    {
      connectedAddress := address;
      if request.pinned != "" && !A.Match(request.chain, address, request.pinned) {
        EnterWrongAddress();
        stop := OpenPrompt(false);
        return;
      }
      stop := FinishConnect(address);
    }

    method ConnectAs(address: string) returns (stop: Stop)
      modifies this`connectedAddress, this`viewStatus, this`listening, this`settledResult, this`buttons
      ensures At(Vars(), stop) == A.ConnectAs(request, old(Vars()), address)
    {
      viewStatus := A.Connecting;
      stop := FinishConnect(address);
    }

    /** The single resume path: whoever comes first moves the view off the wrong-address one. */
    method MaybeResume(address: string) returns (stop: Stop)
      modifies this`connectedAddress, this`viewStatus, this`listening, this`settledResult, this`buttons
      ensures At(Vars(), stop) == A.MaybeResume(request, old(Vars()), address)
    {
      if address == "" || finished || viewStatus != A.WrongAddress { return Wait(A.Done); }
      connectedAddress := address;
      assert A.Expected(request, Vars()) == A.Expected(request, old(Vars()));
      var matches := A.Match(request.chain, address, A.Expected(request, Vars()));
      if !matches {
        Render();
        return Wait(A.Done);
      }
      viewStatus := A.Connecting;
      CleanupAccountsListener();
      if request.kind.Connect? {
        stop := ConnectAs(address);
      } else {
        stop := HandleSign();
      }
    }

    method ConnectDespiteNoPrompt() returns (stop: Stop)
      modifies this`connectedAddress, this`viewStatus, this`listening, this`settledResult, this`buttons
      ensures At(Vars(), stop) == A.ConnectDespiteNoPrompt(request, old(Vars()))
    {
      if !A.HandlesMismatch(request) || !request.kind.Connect? || viewStatus != A.WrongAddress || finished {
        return Wait(A.Done);
      }
      CleanupAccountsListener();
      stop := ConnectAs(A.Expected(request, Vars()));
    }

    /** `promptAccountChange` once its prompt has returned. */
    method PromptReturned(answer: Option<string>) returns (stop: Stop)
      modifies this`connectedAddress, this`viewStatus, this`listening, this`settledResult, this`buttons
      ensures At(Vars(), stop) == A.PromptAnswered(request, old(Vars()), false, answer)
    {
      if answer.Some? && answer.value != "" {
        stop := MaybeResume(answer.value);
      } else if answer.None? {
        stop := ConnectDespiteNoPrompt();
      } else {
        stop := Wait(A.Done);
      }
    }

    /** `switchAccount` once its prompt has returned. */
    method SwitchReturned(answer: Option<string>) returns (stop: Stop)
      modifies this`connectedAddress, this`pickedAddress, this`viewStatus, this`listening, this`settledResult,
               this`buttons
      ensures At(Vars(), stop) == A.PromptAnswered(request, old(Vars()), true, answer)
    {
      if answer.None? || answer.value == "" || finished { return Wait(A.Done); }
      connectedAddress := answer.value;
      if request.kind.Connect? {
        stop := ConnectAs(answer.value);
        return;
      }
      pickedAddress := answer.value;
      Render();
      stop := Wait(A.Done);
    }

    /** The end of `runAccountChangePrompt`. */
    method PromptClosed(byUser: bool, a: A.Answer) returns (stop: Stop)
      requires A.Answers(A.Prompting(byUser), a)
      modifies this`accountChangeUnsupported, this`changingAccount, this`buttons
      ensures At(Vars(), stop) == A.PromptClosed(request, old(Vars()), byUser, a)
    {
      var answer: Option<string>;
      match a {
        case Got(value) => answer := Some(value);
        case Null =>
          accountChangeUnsupported := true;
          answer := None;
        case Threw(code) =>
          if code == A.METHOD_NOT_FOUND { accountChangeUnsupported := true; }
          answer := Some("");
      }
      changingAccount := false;
      Render();
      stop := Wait(A.Prompted(byUser, answer));
    }

    /** `enterWrongAddressAfterFailure` once the account has been read again. */
    method Reread(expected: string, denied: bool, a: A.Answer) returns (stop: Stop)
      modifies this`connectedAddress, this`viewStatus, this`changingAccount, this`listening, this`buttons
      ensures At(Vars(), stop) == A.Reread(request, old(Vars()), expected, denied, a)
    {
      if a.Got? && a.value != "" { connectedAddress := a.value; }
      if A.Match(request.chain, connectedAddress, expected) { return Wait(A.Failing); }
      EnterWrongAddress();
      if denied { return Wait(A.Done); }
      stop := OpenPrompt(false);
    }

    method EndRejected() returns (stop: Stop)
      modifies this`finished, this`listening, this`following
      ensures At(Vars(), stop) == A.EndRejected(request, old(Vars()))
    {
      finished := true;
      CleanupAccountsListener();
      following := false;
      if viewStatus == A.WrongAddress {
        var message := "Wrong wallet address: expected " + A.Expected(request, Vars()) + ", got " + connectedAddress;
        stop := Posted(A.Refuse(message, Some(A.WRONG_WALLET_ADDRESS), viewStatus));
      } else {
        stop := Posted(A.Refuse(A.RejectReason(request), None, viewStatus));
      }
    }

    method FollowSelected(address: string)
      modifies this`connectedAddress, this`pickedAddress, this`buttons
      ensures Vars() == A.FollowSelected(request, old(Vars()), address)
    {
      if finished || settledResult.Some? || viewStatus == A.WrongAddress || address == "" { return; }
      connectedAddress := address;
      if pickedAddress != "" { pickedAddress := address; }
      Render();
    }

    method ClearStaleError()
      modifies this`viewStatus, this`buttons
      ensures Vars() == A.ClearStaleError(request, old(Vars()))
    {
      if viewStatus != A.Failed || finished { return; }
      viewStatus := A.Idle;
      Render();
    }

    // ---------- The event loop ----------

    /** Runs a click's handler up to its first await. */
    method Clicked(b: A.Button) returns (stop: Stop)
      modifies this`connectedAddress, this`viewStatus, this`finished, this`changingAccount, this`listening,
               this`following, this`buttons
      ensures At(Vars(), stop) == A.Clicked(request, old(Vars()), b)
    {
      match b {
        case Go => if request.kind.Connect? { stop := HandleConnect(); } else { stop := HandleSign(); }
        case Change => if request.kind.Connect? { stop := OpenPrompt(false); } else { stop := HandleSign(); }
        case Swap => stop := OpenPrompt(true);
        case Reject => stop := EndRejected();
      }
    }

    /** Runs the handler that waits at `t` on from the answer it gets. */
    method RunOn(t: A.Task, a: A.Answer) returns (stop: Stop)
      requires A.Answers(t, a)
      modifies this`connectedAddress, this`pickedAddress, this`viewStatus, this`settledResult, this`changingAccount,
               this`accountChangeUnsupported, this`listening, this`buttons
      ensures At(Vars(), stop) == A.Resumed(request, old(Vars()), t, a)
    {
      match t {
        case AcquireCurrent =>
          if a.Threw? { stop := AfterFailure(a.code); }
          else if a.value == "" { stop := Wait(A.AcquireRequest); }
          else { stop := Submit(a.value); }
        case AcquireRequest => if a.Threw? { stop := AfterFailure(a.code); } else { stop := Submit(a.value); }
        case Operating => if a.Threw? { stop := AfterFailure(a.code); } else { stop := Settle(A.ResultOf(a)); }
        case Rereading(expected, denied) => stop := Reread(expected, denied, a);
        case Failing => stop := ShowError();
        case ConnectRequest => if a.Threw? { stop := ShowError(); } else { stop := Connected(a.value); }
        case ConnectSwitch(address) => if a.Threw? { stop := ShowError(); } else { stop := AfterSwitch(address); }
        case ConnectResult(address) =>
          if a.Threw? { stop := ShowError(); } else { stop := Settle(Some(A.Account(address, a.value))); }
        case Delivering(_, _) =>
          if a != A.Http(200) {
            stop := ShowError();
            return;
          }
          viewStatus := A.Success;
          Render();
          stop := Wait(A.Done);
        case Refusing(_) => stop := Wait(A.Done);
        case Prompting(byUser) => stop := PromptClosed(byUser, a);
        case Prompted(byUser, answer) =>
          if byUser { stop := SwitchReturned(answer); } else { stop := PromptReturned(answer); }
      }
    }

    /** Leaves the handler in slot `i` (a new slot if there is no such handler yet) where it stopped. */
    method Park(i: nat, stop: Stop)
      requires i <= |tasks|
      modifies this`tasks, this`ops, this`outbox
      ensures State() == A.Applied(old(State()), i, At(Vars(), stop))
    {
      var next: A.Task;
      match stop {
        case Wait(t) => next := t;
        case Submitted(op) =>
          next := A.Operating;
          ops := ops + [op];
        case Posted(body) =>
          next := if body.Deliver? then A.Delivering(|outbox|, body.result.Some?) else A.Refusing(|outbox|);
          outbox := outbox + [body];
      }
      tasks := A.Put(tasks, i, next);
    }

    /** Runs the code an event reaches. */
    method Dispatch(e: A.Event) returns (stop: Stop)
      requires A.Enabled(request, State(), e)
      modifies this`connectedAddress, this`pickedAddress, this`viewStatus, this`settledResult, this`finished,
               this`changingAccount, this`accountChangeUnsupported, this`listening, this`following, this`hasWallet,
               this`awaitingWallet, this`buttons
      ensures At(Vars(), stop) == A.Moved(request, old(State()), e)
    {
      stop := Wait(A.Done);
      match e {
        case Click(b) => stop := Clicked(b);
        case Resume(slot, a) => stop := RunOn(tasks[slot], a);
        case AccountsChanged(address) => stop := MaybeResume(address);
        case Followed(address) => FollowSelected(address);
        case ChainReady => ClearStaleError();
        case WalletAppeared => hasWallet := true;
        case LateWallet(address) =>
          awaitingWallet, connectedAddress, following := false, address, true;
          Render();
      }
    }

    /** Runs the code an event reaches and leaves its handler where it stopped. */
    method Advance(e: A.Event)
      requires A.Enabled(request, State(), e)
      modifies this`connectedAddress, this`pickedAddress, this`viewStatus, this`settledResult, this`finished,
               this`changingAccount, this`accountChangeUnsupported, this`listening, this`following, this`hasWallet,
               this`awaitingWallet, this`buttons, this`tasks, this`ops, this`successes, this`outbox
      ensures State() == A.Step(request, old(State()), e)
    {
      var i, obtained := A.Slot(State(), e), A.Obtained(State(), e);
      var stop := Dispatch(e);
      Park(i, stop);
      successes := successes + obtained;
    }

    /** One turn of the event loop: one step of the run. A result that is settled stays as it is, and nothing more is
        submitted to the wallet after it. */
    method Turn(e: A.Event)
      requires Valid() && A.Enabled(request, State(), e)
      modifies this
      ensures Valid() && State() == A.Step(request, old(State()), e)
      ensures states == old(states) + [State()] && events == old(events) + [e]
      ensures !request.kind.Connect? && old(settledResult).Some? ==>
                settledResult == old(settledResult) && ops == old(ops) && successes == old(successes)
    {
      ghost var was := State();
      Advance(e);
      RunGrows(request, states, events, was, e, State());
      states, events := states + [State()], events + [e];
    }
  }

  lemma RunStarts(q: A.Request, connected: string, wallet: bool)
    ensures A.IsRun(q, [A.Loaded(q, connected, wallet)], [])
  {
  }

  lemma RunGrows(q: A.Request, states: seq<A.Page>, events: seq<A.Event>, s: A.Page, e: A.Event, t: A.Page)
    requires A.IsRun(q, states, events) && states[|events|] == s && A.Enabled(q, s, e) && t == A.Step(q, s, e)
    ensures A.IsRun(q, states + [t], events + [e])
    ensures !q.kind.Connect? && s.ui.settled.Some? ==> SingleFlight.SameSettled(s, t)
  {
    var longer, more := states + [t], events + [e];
    forall n | 0 <= n < |more| ensures A.StepAt(q, longer, more, n) {
      if n < |events| { assert A.StepAt(q, states, events, n); }
    }
    assert longer[0] == states[0];
    if !q.kind.Connect? && s.ui.settled.Some? {
      var w, _ := SingleFlight.RunKeepsSignInv(q, states, events, |events|);
      SingleFlight.StepKeepsSettled(q, s, w, e);
    }
  }

  // ---------- What holds of every App ----------

  /** Sign and transaction requests: one handler between its guard and its end, and as long as the wallet returns
      nothing that is null, or the adapter lets no null through, one successful operation, whose result is what is
      settled and all that is delivered. */
  lemma SignsOnce(app: App)
    requires app.Valid() && !app.request.kind.Connect?
    ensures forall i, j :: 0 <= i < j < |app.tasks| ==>
              !(SingleFlight.InWallet(app.tasks[i]) && SingleFlight.InWallet(app.tasks[j]))
    ensures None !in app.successes || !A.MayReturnNull(app.request) ==> |app.successes| <= 1
    ensures app.settledResult.Some? ==> app.settledResult in app.successes
    ensures forall k :: 0 <= k < |app.outbox| && app.outbox[k].Deliver? ==>
              app.outbox[k].result in app.successes
              && (app.outbox[k].result.Some? ==> app.settledResult == app.outbox[k].result)
  {
    SingleFlight.OneHandlerOneSuccess(app.request, app.states, app.events, |app.events|);
    assert app.State() == app.states[|app.events|];
    forall k | 0 <= k < |app.outbox| && app.outbox[k].Deliver?
      ensures SingleFlight.Returned(app.State(), app.outbox[k].result)
    {
    }
  }

  /** Sign and transaction requests: with no wallet or bridge call of a handler outstanding, the view is one to act on
      or success. */
  lemma IsNeverStuck(app: App)
    requires app.Valid() && !app.request.kind.Connect?
    requires forall i :: 0 <= i < |app.tasks| ==> !SingleFlight.InWallet(app.tasks[i]) && !app.tasks[i].Delivering?
    ensures app.viewStatus in {A.Idle, A.Failed, A.WrongAddress, A.Success}
  {
    SingleFlight.NeverStuck(app.request, app.states, app.events, |app.events|);
  }

  /** One account-change prompt at a time, known to the page, and none for a wallet that has no such prompt. */
  lemma PromptsOnce(app: App)
    requires app.Valid()
    ensures forall i, j :: 0 <= i < j < |app.tasks| ==> !(app.tasks[i].Prompting? && app.tasks[j].Prompting?)
    ensures app.changingAccount <==> exists i :: 0 <= i < |app.tasks| && app.tasks[i].Prompting?
    ensures app.accountChangeUnsupported ==> !app.changingAccount
  {
    AccountPrompt.OnePromptAtATime(app.request, app.states, app.events, |app.events|, |app.events|);
  }

  /** Connect requests: each result posted is for the account that its handler was given last, and matches the pinned
      one if there is one. */
  lemma ConnectsAsGiven(app: App, k: nat) returns (c: nat, i: nat, account: string)
    requires app.Valid() && app.request.kind.Connect? && k < |app.outbox| && app.outbox[k].Deliver?
    ensures GivenAccount.DeliversAt(app.request, app.states, app.events, c, k, i, account)
    ensures app.request.pinned != "" ==> A.Match(app.request.chain, account, app.request.pinned)
    ensures !app.request.chain.Btc? ==> app.outbox[k].result == Some(A.Text(account))
    ensures app.request.chain.Btc? ==>
              app.events[c].Resume? && app.events[c].answer.Got?
              && app.outbox[k].result == Some(A.Account(account, app.events[c].answer.value))
    ensures app.ops == []
  {
    c, i, account := GivenAccount.DeliversTheGivenAccount(app.request, app.states, app.events, |app.events|, k);
    var w := ConnectFlow.RunKeepsConnectInv(app.request, app.states, app.events, |app.events|);
    assert app.State() == app.states[|app.events|];
  }

  /** Sign and transaction requests: each operation was submitted as the wallet named an account, on that account. */
  lemma SignsAsTold(app: App, k: nat) returns (c: nat, a: string)
    requires app.Valid() && !app.request.kind.Connect? && k < |app.ops|
    ensures Outgoing.ToldAt(app.states, app.events, c, k, a)
    ensures var picked := PickedSigner.LastPick(app.states, app.events, c);
            app.ops[k] == A.Operation(PickedSigner.Signer(app.request, picked, a), a)
  {
    c, a := PickedSigner.OperationsNameTheSigner(app.request, app.states, app.events, |app.events|, k);
  }

  /** Every refusal that was posted came from its own click on Reject or Cancel, in the view that the code tells. */
  lemma RefusesOnClicksOnly(app: App, k: nat) returns (c: nat)
    requires app.Valid() && k < |app.outbox| && app.outbox[k].Refuse?
    ensures c < |app.events| && app.events[c] == A.Click(A.Reject)
    ensures app.outbox[k] == A.Refusal(app.request, app.states[c].ui)
  {
    c := Rejection.RefusalsAreClicks(app.request, app.states, app.events, |app.events|, k);
  }
}
