/**
  The EVM page's account-change prompt: ask for permissions, and if the wallet answers without showing anything,
  revoke them and reconnect. The wallet is arbitrary, and so is whether the dialog took long enough to be seen.
 */
module PermissionPrompt {
  import opened Wrappers
  import P = Approval

  datatype Call =
    | Accounts            // eth_accounts
    | RequestPermissions  // wallet_requestPermissions
    | RevokePermissions   // wallet_revokePermissions
    | RequestAccounts     // eth_requestAccounts

  /** An account list (empty for null), or a throw with its code. */
  datatype Answer = Listed(accounts: seq<string>) | Threw(code: int)

  datatype Entry = Entry(call: Call, answer: Answer)

  type Wallet = (seq<Entry>, Call) -> Answer

  predicate Same(a: string, b: string) {
    P.Match(P.Evm, a, b)
  }

  /** The account a list gives: the first that matches, else the first, else "". */
  predicate Picked(accounts: seq<string>, expected: string, a: string) {
    if exists k :: 0 <= k < |accounts| && Same(accounts[k], expected)
    then
      exists k :: 0 <= k < |accounts| && accounts[k] == a && Same(a, expected)
                  && forall j :: 0 <= j < k ==> !Same(accounts[j], expected)
    else a == if accounts == [] then "" else accounts[0]
  }

  lemma PickedIsOne(accounts: seq<string>, expected: string, a: string, b: string)
    requires Picked(accounts, expected, a) && Picked(accounts, expected, b)
    ensures a == b
  {
    if exists k :: 0 <= k < |accounts| && Same(accounts[k], expected) {
      var j :| 0 <= j < |accounts| && accounts[j] == a && Same(a, expected)
               && forall i :: 0 <= i < j ==> !Same(accounts[i], expected);
      var k :| 0 <= k < |accounts| && accounts[k] == b && Same(b, expected)
               && forall i :: 0 <= i < k ==> !Same(accounts[i], expected);
      assert j == k;
    }
  }

  method Pick(accounts: seq<string>, expected: string) returns (a: string)
    ensures Picked(accounts, expected, a)
    ensures accounts == [] || a in accounts
  {
    for i := 0 to |accounts|
      invariant forall j :: 0 <= j < i ==> !Same(accounts[j], expected)
    {
      if Same(accounts[i], expected) { return accounts[i]; }
    }
    a := if accounts == [] then "" else accounts[0];
  }

  function ListOf(a: Answer): seq<string> {
    if a.Listed? then a.accounts else []
  }

  function Selected(accounts: seq<string>): string {
    if accounts == [] then "" else accounts[0]
  }

  predicate Answered(wallet: Wallet, log: seq<Entry>) {
    forall k :: 0 <= k < |log| ==> log[k].answer == wallet(log[..k], log[k].call)
  }

  method Rpc(wallet: Wallet, was: seq<Entry>, call: Call) returns (log: seq<Entry>, a: Answer)
    ensures log == was + [Entry(call, a)]
    ensures Answered(wallet, was) ==> Answered(wallet, log)
  {
    a := wallet(was, call);
    log := was + [Entry(call, a)];
    assert log[..|was|] == was;
    assert forall k :: 0 <= k < |was| ==> log[..k] == was[..k];
  }

  /** Whether the wallet answered the permission request without showing a dialog or changing the account. */
  ghost predicate Silent(before: seq<string>, after: seq<string>, expected: string, showedDialog: bool) {
    && !showedDialog
    && exists chosen ::
         && Picked(after, expected, chosen)
         && (chosen == "" || Same(chosen, if before == [] then "" else before[0]))
  }

  /** The wallet answered call `k`, and with a list. */
  predicate ListedAt(log: seq<Entry>, k: nat) {
    k < |log| && log[k].answer.Listed?
  }

  /** The prompt goes on as long as the wallet answers, and revokes the permission exactly after a silent answer. It
      answers with an account picked from what the wallet listed last, so with the expected one whenever it is there;
      says there is no way to prompt exactly if revoking threw; and throws what any other call threw. */
  method RequestAccountChange(wallet: Wallet, expected: string, showedDialog: bool)
    returns (log: seq<Entry>, r: Result<Option<string>, int>)
    ensures 1 <= |log| <= 5 && Answered(wallet, log)
    ensures forall k :: 0 <= k < |log| ==>
              log[k].call == [Accounts, RequestPermissions, Accounts, RevokePermissions, RequestAccounts][k]
    ensures |log| > 1 <==> ListedAt(log, 0)
    ensures |log| > 2 <==> ListedAt(log, 1)
    ensures |log| > 3 <==>
              ListedAt(log, 2) && Silent(ListOf(log[0].answer), ListOf(log[2].answer), expected, showedDialog)
    ensures |log| > 4 <==> ListedAt(log, 3)
    ensures match log[|log| - 1].answer
            case Listed(accounts) => r.Ok? && r.value.Some? && Picked(accounts, expected, r.value.value)
            case Threw(code) => r == if |log| == 4 then Ok(None) else Err(code)
  {
    var a, chosen;
    log, a := Rpc(wallet, [], Accounts);
    if a.Threw? { return log, Err(a.code); }
    var before := Selected(a.accounts);
    log, a := Rpc(wallet, log, RequestPermissions);
    if a.Threw? { return log, Err(a.code); }
    log, a := Rpc(wallet, log, Accounts);
    if a.Threw? { return log, Err(a.code); }
    chosen := Pick(a.accounts, expected);
    if (chosen != "" && !Same(chosen, before)) || showedDialog {
      forall other | Picked(a.accounts, expected, other) ensures other == chosen {
        PickedIsOne(a.accounts, expected, other, chosen);
      }
      return log, Ok(Some(chosen));
    }
    ghost var was := log;
    assert Silent(ListOf(was[0].answer), ListOf(was[2].answer), expected, showedDialog);
    log, a := Rpc(wallet, log, RevokePermissions);
    assert log[0] == was[0] && log[1] == was[1] && log[2] == was[2];
    ghost var revoked := log;
    if a.Threw? { return log, Ok(None); }
    log, a := Rpc(wallet, log, RequestAccounts);
    assert log[..4] == revoked;
    assert log[0] == was[0] && log[1] == was[1] && log[2] == was[2] && log[3] == revoked[3];
    if a.Threw? { return log, Err(a.code); }
    chosen := Pick(a.accounts, expected);
    r := Ok(Some(chosen));
  }
}
