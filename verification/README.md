# Browser wallet signer: a verified model

A caller (a binding, the CLI or the `serve` control API) hands a request to the bridge; the bridge serves an approval
page; the page asks the user and the browser wallet, and posts the outcome back; the caller's future resolves with it.
This project models that path for the EVM, TRON and Bitcoin chains and proves what it promises.

`dafny verify dfyconfig.toml` checks everything.

| file | what it holds |
|---|---|
| `Approval.dfy` | the approval page as a transition system: every handler cut at its awaits, every click the painted buttons allow, every wallet event and answer, in any order |
| `AppCore.dfy` | the same code as it is written, over assigned module variables; an `App` carries the run it has gone through, so the theorems over runs hold of it |
| `SingleFlight.dfy`, `NullResult.dfy`, `ConnectFlow.dfy`, `ConnectOverlap.dfy`, `AccountPrompt.dfy`, `GivenAccount.dfy`, `Outgoing.dfy`, `Rejection.dfy`, `PinnedSigner.dfy`, `PickedSigner.dfy`, `Reactions.dfy`, `Screen.dfy` | theorems over all runs of the page |
| `AddressMatch.dfy` | when two spellings name one account |
| `PendingStore.dfy`, `Bridge.dfy` | the locked store as a class, and the concurrent bridge over it |
| `EndToEnd.dfy` | page and bridge together, up to the control API's answer |
| `Pinning.dfy` | `serve` binding a request to an account, composed with the page |
| `Json.dfy`, `EvmWire.dfy`, `BtcWire.dfy`, `TronWire.dfy` | the requests' wire forms, and their round trips |
| `WireReads.dfy` | exactly which documents are read as which requests |
| `JsonText.dfy` | the JSON text of the Bitcoin account document |
| `ScriptPath.dfy` | Taproot script-path inputs, from PSBT to wallet options |
| `Hex.dfy`, `Utf8.dfy`, `MessageBytes.dfy` | the bytes of a `personal_sign` call |
| `ChainSwitch.dfy`, `PermissionPrompt.dfy` | the EVM page's wallet-call cascades against an arbitrary wallet |
| `ChainRuns.dfy` | the chain calls of all handlers of the EVM page in whole runs |
| `Positional.dfy`, `Base58.dfy` | Base58Check over big numbers, TRON addresses |
| `Amounts.dfy` | the decimal amount printers |
| `SharedLoad.dfy` | `onceUntilFailure` |

## What is false, and exactly when it holds

- Reading a printed TRON request does not always give it back, although `from_json` is documented as the inverse of the
  wire serialization: a deployment's energy limit and fee percentage print as numbers and are read only as strings.
  `TronWire.FromJsonUndoesPrint` says that it works if and only if both are absent, `TronWire.FromJsonPrint` what is
  read in every case, and `TronWire.EnergyLimitIsLost` gives an input.
- Reading a printed Bitcoin request works exactly for the requests a constructor can build (`BtcWire.FromJsonPrint`).
- A delivery answered 200 does not mean the caller got the value: `Bridge.AcceptedAfterTimeOut` is a run. Once the
  caller's future has resolved, it has the value if and only if its time-out has not fired
  (`Bridge.AcceptedMeansReceived`).
- Reject does not stop a handler that is already past its guard: `Rejection.RejectDoesNotStopAHandler` is a run for every
  request with something to submit. After Reject, and until the next click, the page can submit an operation if and only
  if some handler waits for its account and the request has something to submit (`Rejection.SubmitsAfterRejectIff`);
  for a sign or transaction request that is one operation at most (`Rejection.OneOperationAfterReject`).
- A sign or transaction request does not keep to one successful operation with every wallet: the page writes null for
  "nothing settled", so a wallet that returns null makes it deliver the null and, when that fails, start over
  (`NullResult.NullSucceedsTwice`). After a successful operation another can succeed if and only if the first returned
  null (`NullResult.SucceedsAgainIffNull`). A request can have two if and only if it has something to submit and its
  adapter hands on what the wallet returned (`NullResult.TwoSuccessesIff`): every EVM operation, TRON messages, Bitcoin
  messages and transfers. TRON transactions and Bitcoin PSBTs keep to one with any wallet.
- Single flight is a claim about sign and transaction requests. A connect can have two handlers at work if and only if it
  is on the EVM page and pins no address, or on the Bitcoin page and pins one (`ConnectOverlap.OverlapsIff`, with the two
  runs). `ConnectFlow` proves what holds of every connect.

## Model

| member | source | states |
|---|---|---|
| SingleFlight.OneHandlerOneSuccess | crates/browser-web3-signer-core/web/app-core.js:693-790 | in every run of a sign or transaction request at most one handler is between its guard and its end; of what the wallet returned only the last can be anything but null, so without a null, or on a request whose adapter lets none through, at most one operation succeeds; and every result posted was returned, and unless null is the settled one |
| SingleFlight.SettledForGood | crates/browser-web3-signer-core/web/app-core.js:189-220 | once a result is settled it never changes and no wallet operation starts again, whatever deliveries fail and whatever is clicked |
| SingleFlight.NeverStuck | crates/browser-web3-signer-core/web/app-core.js:693-790 | when no wallet or bridge call of a handler is outstanding, the view is idle, error, wrong-address or success |
| NullResult.SucceedsAgainIffNull | crates/browser-web3-signer-core/web/app-core.js:189-220 | in every run, after the wallet has fulfilled an operation it can fulfil another exactly if what it returned was null |
| NullResult.NullSucceedsTwice | crates/browser-web3-signer-core/web/app-core.js:693-700 | a run, for any request with something to submit whose adapter hands on a null, in which a null is followed by a second operation that succeeds |
| NullResult.TwoSuccessesIff | crates/browser-web3-signer-btc/web/btc.html:620-632 | a sign or transaction request can have two successful operations, with some wallet, exactly if its adapter hands on a null and it has something to submit |
| SingleFlight.RunReturnsNoNull | crates/browser-web3-signer-tron/web/tron.html:495-510 | on every other request no run has a null among the results |
| SingleFlight.RunKeepsSignInv | crates/browser-web3-signer-core/web/app-core.js:197-220 | the invariant behind these, kept by every step of every run |
| SingleFlight.MaybeResumeIsSignMove | crates/browser-web3-signer-core/web/app-core.js:262-284 | resuming from the wrong-address view enters the wallet phase only if no other handler has taken it |
| ConnectFlow.ConnectDeliversThePinnedAccount | crates/browser-web3-signer-core/web/app-core.js:378-429 | on every page, a connect that pins an address settles and posts matching addresses only |
| GivenAccount.DeliversTheGivenAccount | crates/browser-web3-signer-core/web/app-core.js:415-429 | in every run of a connect, pinned or not, each result posted is for the account its handler was given last: the wallet's answer, a prompt's, an account event's, or the pinned one where the wallet cannot prompt; on the Bitcoin page with the key the wallet has just given |
| GivenAccount.DeliversIff | crates/browser-web3-signer-core/web/app-core.js:415-429 | a connect posts a result exactly when the wallet has given all that it takes: the chain on EVM, the key on Bitcoin, a fitting account on TRON |
| GivenAccount.ToldAccountGoesOn | crates/browser-web3-signer-core/web/app-core.js:664-676 | a connect that is told its account goes on with it unless it is not the pinned one, which ends in the wrong-address view |
| GivenAccount.NewsGoesOn | crates/browser-web3-signer-core/web/app-core.js:356-402 | exactly what news of an account makes of a connect: which account a listener, a picked one, a prompt or a wallet that cannot prompt makes it go on with, and when |
| GivenAccount.ActionConnects | crates/browser-web3-signer-core/web/app-core.js:664-670 | a click on the action asks the wallet for its account and takes the button away |
| ConnectFlow.ConnectNeverStuck | crates/browser-web3-signer-core/web/app-core.js:664-686 | when no connecting handler and no delivery is outstanding, a connect page shows a view to act on |
| ConnectOverlap.OverlapsIff | crates/browser-web3-signer-core/web/app-core.js:391-429 | a connect can have two handlers at work exactly on the EVM page when it pins no address and on the Bitcoin page when it does |
| ConnectOverlap.RunKeepsLoneInv | crates/browser-web3-signer-core/web/app-core.js:664-686 | otherwise one handler at a time, in every run |
| ConnectOverlap.BitcoinOverlaps | crates/browser-web3-signer-core/web/app-core.js:262-284 | a run on the Bitcoin page, for every pinned address, in which a resume leaves "Try Again" clickable |
| ConnectOverlap.EvmOverlaps | crates/browser-web3-signer-core/web/app-core.js:391-402 | a run on the EVM page in which the answer to "Change" starts a second handler |
| AccountPrompt.OnePromptAtATime | crates/browser-web3-signer-core/web/app-core.js:326-364 | at most one account-change prompt is open, and none is or opens once the wallet proved incapable |
| Rejection.NothingStartsAfterReject | crates/browser-web3-signer-core/web/app-core.js:248-284 | after Reject, without a further click, every handler at work was past its guard when the click landed; no prompt opens and nothing but a result is posted |
| Rejection.QuietAfterReject | crates/browser-web3-signer-core/web/app-core.js:248-254 | with no handler at work when Reject lands, the page submits and posts nothing more until a click |
| Rejection.RejectDoesNotStopAHandler | crates/browser-web3-signer-core/web/app-core.js:693-724 | a run, for any request with something to submit, in which the user rejects while the wallet is asked for an account, and the operation is submitted after the refusal was posted |
| Rejection.SubmitsAfterRejectIff | crates/browser-web3-signer-core/web/app-core.js:248-254 | after Reject, and without another click, an operation can be submitted exactly if a handler was waiting for its account and the request has something to submit |
| Rejection.OneOperationAfterReject | crates/browser-web3-signer-core/web/app-core.js:693-724 | on a sign or transaction request that is at most one operation until the next click |
| Outgoing.MovedSubmits | crates/browser-web3-signer-core/web/app-core.js:693-724 | only the answer to an account request submits an operation, and on the account it names |
| Outgoing.AcquiredIsTheAnswer | crates/browser-web3-signer-core/web/app-core.js:656-660 | each operation of every run was submitted at the step at which the wallet named the account it holds for the acquired one |
| Outgoing.ResultIsTheAnswer | crates/browser-web3-signer-core/web/app-core.js:716-724 | each result in the history is what the wallet fulfilled an operation with at its own step, text or null |
| Rejection.RefusalsAreClicks | crates/browser-web3-signer-core/web/app-core.js:234-254 | every refusal posted comes from its own click on Reject or Cancel, with WRONG_WALLET_ADDRESS exactly if that came in the wrong-address view |
| Rejection.FinishedForGood | crates/browser-web3-signer-core/web/app-core.js:248-254 | no event clears the finished flag |
| PinnedSigner.OnlyThePinnedAccountSigns | crates/browser-web3-signer-core/web/app-core.js:703-775 | unless the user clicks "Change", every operation names the pinned account; on the TRON and Bitcoin pages it is submitted only while the wallet is on it, in every run |
| PinnedSigner.SubmittedOnThePinnedAccount | crates/browser-web3-signer-core/web/app-core.js:703-716 | the same, tied to the answer: each operation holds the pinned account and the one the wallet had just named, and on the TRON and Bitcoin pages that answer matches the pinned account |
| PickedSigner.OperationsNameTheSigner | crates/browser-web3-signer-core/web/app-core.js:391-412 | in every run each operation was submitted as the wallet named an account `a`, and holds `a` and, as its signer, the account that a "Change" prompt gave last, or the page followed since, else the pinned one, else `a` |
| PickedSigner.SubmitsIff | crates/browser-web3-signer-core/web/app-core.js:703-724 | in every run an operation is submitted exactly when a waiting handler is told an account that the page lets the request go ahead on and there is something to submit; told another, it ends in the wrong-address view, and told none it asks for one |
| Reactions.FailureIsJudged | crates/browser-web3-signer-core/web/app-core.js:304-321 | in every run a failure is taken for a wrong account exactly if the account read again does not match the one intended when it failed; the wallet is then asked to change accounts exactly if it can be and the user did not say no |
| Reactions.FailureIsLookedInto | crates/browser-web3-signer-core/web/app-core.js:728-738 | every failed handler reads the account again if one is intended, and otherwise, or after a match, shows the error |
| Reactions.ResumesIff | crates/browser-web3-signer-core/web/app-core.js:268-284 | in every run news of an account starts the request over exactly in the wrong-address view, before a Reject, and if the account matches the intended one |
| Reactions.ActionRetriesOrStarts | crates/browser-web3-signer-core/web/app-core.js:693-702 | a click on the action posts the settled result again if there is one, and otherwise starts a handler |
| Reactions.DeliveryShows | crates/browser-web3-signer-core/web/app-core.js:197-220 | a delivery shows success exactly if it was answered 200 |
| Reactions.RejectPosts | crates/browser-web3-signer-core/web/app-core.js:230-254 | each click on Reject or Cancel posts one refusal and stops the listeners; its text and code by view and request |
| Reactions.PromptReturns | crates/browser-web3-signer-core/web/app-core.js:335-352 | a prompt that returns is closed, and prompting is given up exactly after null or error -32601 |
| Reactions.ChangeAsks | crates/browser-web3-signer-core/web/app-core.js:391-393 | a click on "Change" opens the prompt |
| Reactions.KnowsTheLastAccount | crates/browser-web3-signer-core/web/app-core.js:268-273 | in every run of any request the account the page shows and names is the one it was told last |
| Reactions.WalletNews | crates/browser-web3-signer-core/web/app-core.js:809-837 | what a chain that is reached and a wallet that comes late change, and that they start nothing |
| Screen.ButtonsShow | crates/browser-web3-signer-core/web/app-core.js:543-589 | in every run of a sign or transaction request, exactly which buttons can be clicked in which view, and that account changes are heard in the wrong-address view |
| Screen.CanAct | crates/browser-web3-signer-core/web/app-core.js:543-589 | so with no call of a handler outstanding the page shows success, or the user can reject and, unless on a wrong account, act |
| Screen.CanActOnConnect | crates/browser-web3-signer-core/web/app-core.js:489-542 | the same of a connect page, and when it offers "Change" |
| AppCore.App.constructor | crates/browser-web3-signer-core/web/app-core.js:849-877 | the page after its first render, and a run of no events |
| AppCore.App.Turn | crates/browser-web3-signer-core/web/app-core.js:197-429 | one turn of the event loop adds one step to the run the page has gone through; a settled result stays, and nothing is submitted after it |
| AppCore.SignsOnce | crates/browser-web3-signer-core/web/app-core.js:189-220 | of any page that has gone through such turns: one handler past its guard, one successful operation unless one returned null, which some adapters never hand on, and only returned results delivered |
| AppCore.IsNeverStuck | crates/browser-web3-signer-core/web/app-core.js:693-790 | with no call of a handler outstanding it shows a view to act on, or success |
| AppCore.PromptsOnce | crates/browser-web3-signer-core/web/app-core.js:326-364 | its flag tells whether the one account-change prompt is open |
| AppCore.ConnectsAsGiven | crates/browser-web3-signer-core/web/app-core.js:378-429 | each result a connect has posted is for the account its handler was given last, and for a matching one if the request pins an address |
| AppCore.SignsAsTold | crates/browser-web3-signer-core/web/app-core.js:703-724 | each operation was submitted as the wallet named an account, on that account |
| AppCore.RefusesOnClicksOnly | crates/browser-web3-signer-core/web/app-core.js:234-254 | each refusal it posted came from its own click on Reject or Cancel, in the view that the code tells |
| PendingStore.Pending.Create | crates/browser-web3-signer-core/src/pending_store.rs:51-58 | registers the request with an open channel; an id pending already loses its channel |
| PendingStore.Pending.Get | crates/browser-web3-signer-core/src/pending_store.rs:61-67 | the pending request, if any |
| PendingStore.Pending.Complete | crates/browser-web3-signer-core/src/pending_store.rs:70-80 | true exactly if the id was pending, and then it is removed and its channel carries the result; nothing else changes |
| PendingStore.Pending.Cancel | crates/browser-web3-signer-core/src/pending_store.rs:84-86 | true exactly if the id was pending, and then it is removed and its channel closed; nothing else changes |
| Bridge.Conservation | crates/browser-web3-signer-core/src/pending_store.rs:51-86 | in every interleaving the created ids split exactly into pending, completed and cancelled |
| Bridge.ExactlyOneAccepted | crates/browser-web3-signer-core/src/http.rs:121-137 | of any number of concurrent POSTs for an id exactly one is answered 200 if the id is completed, and none otherwise |
| Bridge.PostsAreAnswered | crates/browser-web3-signer-core/src/http.rs:121-137 | in every run, whatever a POST carries: it passes the first lock exactly if its id is pending, with 404 otherwise; the second answers 200 and takes the id exactly if it is still pending, with 500 otherwise |
| Bridge.AnswerHistory | crates/browser-web3-signer-core/src/http.rs:121-137 | so a POST's answer tells where its id was at each lock: a 500 means pending at the first and gone at the second |
| Bridge.EveryPostCanGetThrough | crates/browser-web3-signer-core/src/engine.rs:123-134 | from every point of every run, as long as the caller waits and the id is pending, any POST for it can come in and the caller gets what it carries |
| Bridge.PendingUntilEnded | crates/browser-web3-signer-core/src/pending_store.rs:70-86 | an id stays pending exactly until a POST completes it, it is cancelled, or its failed caller closes it |
| Bridge.AbandonedIffGivenUp | crates/browser-web3-signer-core/src/engine.rs:123-134 | a future is abandoned exactly if its caller gave it up, and nothing resolves it any more |
| Bridge.ResolvedMeansAnswered | crates/browser-web3-signer-core/src/engine.rs:123-134 | however a future resolves its id is no longer pending, and it resolves with what the accepted POST carried, a cancellation or a time-out |
| Bridge.AcceptedMeansReceived | crates/browser-web3-signer-core/src/engine.rs:123-134 | when a POST was answered 200 and the caller's future has resolved, the caller got what the POST carried exactly if its time-out has not fired |
| Bridge.FiresOnce | crates/browser-web3-signer-core/src/engine.rs:123-134 | a receiver fires and a future resolves at most once |
| Bridge.GoneForGood | crates/browser-web3-signer-core/src/pending_store.rs:60-91 | an id that left the store never returns, and no POST for it that was not accepted by then ever is |
| Bridge.AcceptedAfterTimeOut | crates/browser-web3-signer-core/src/http.rs:126-136 | a run in which a POST is answered 200 and its caller still times out |
| Bridge.AbandonedStaysPending | crates/browser-web3-signer-core/src/pending_store.rs:71-80 | in every run, the entry of a caller that gave up its future stays pending exactly until it is cancelled or completed |
| EndToEnd.CallerGetsTheWalletsResult | crates/browser-web3-signer-core/src/engine.rs:200-207 | a sign or transaction future that resolves with a value resolves with the very text the wallet returned for an operation at a step of the run, or the empty text for null; and that was its one result, unless the wallet returned null on a request whose adapter hands that on |
| EndToEnd.SuccessMeansConsumed | crates/browser-web3-signer-core/web/app-core.js:129-155 | if the page shows success, the store has consumed the settled text itself for that id, or the empty text for null |
| EndToEnd.CallerGetsTheGivenAccount | crates/browser-web3-signer-btc/src/signer.rs:124-143 | a connect's caller gets the account that the page's handler was given last, which matches a pinned one: as the text itself, and on the Bitcoin page as a JSON document from which that account and the key the wallet gave are read back |
| EndToEnd.EveryPostCanArrive | crates/browser-web3-signer-core/src/engine.rs:200-207 | from every point of every run, as long as the caller waits, any result or refusal the page has posted can still arrive, and the caller gets exactly it |
| EndToEnd.EveryResultCanArrive | crates/browser-web3-signer-core/src/http.rs:126-136 | for every sign or transaction request with something to submit, and every text, a run in which the wallet returns it, the caller gets it and the page shows success |
| EndToEnd.NotFoundIsTerminal | crates/browser-web3-signer-core/web/app-core.js:145-155 | once a POST of the page was answered 404, its id never returns to the store and no POST for it is accepted any more |
| EndToEnd.RejectedMeansClicked | crates/browser-web3-signer-core/src/types.rs:197-207 | a caller gets Rejected only if the user clicked Reject or Cancel, with the message and code that click's view calls for |
| EndToEnd.ResponseCodeMeansWrongAddress | crates/browser-web3-signer/src/serve.rs:102-114 | the control API's answer carries a code exactly when that click came in the wrong-address view |
| EndToEnd.ResponseSuccessIsTheWalletsResult | crates/browser-web3-signer/src/serve.rs:79-90 | the control API reports a success exactly for a value that passes the chain's check; for a sign or transaction request that is the very text the wallet returned, its one result unless the wallet returned null on a request whose adapter hands that on |
| Pinning.Field.ExpectAccount | crates/browser-web3-signer-core/src/types.rs:73-88 | in place: an unset field takes the account, the same account is kept, another is refused and the field kept |
| Pinning.ServedBtc | crates/browser-web3-signer-btc/src/types.rs:291-309 | a bound process serves a Bitcoin body exactly when it reads, the account is on its network and the body names none or that account; what is served is the request with it and otherwise as read; an unbound process serves what reads |
| Pinning.ServedEvm | crates/browser-web3-signer-evm/src/types.rs:248-258 | the same for EVM bodies |
| Pinning.ServedTron | crates/browser-web3-signer-tron/src/types.rs:229-240 | the same for TRON bodies |
| Pinning.BtcPage | crates/browser-web3-signer-core/web/app-core.js:224-226 | the page reads a Bitcoin request's account from the wire field that holds it, takes a transfer or PSBT for a transaction, may deliver a null exactly for a transfer or a message, and has something to sign exactly if the message is not empty |
| Pinning.BoundBtcRequest | crates/browser-web3-signer/src/serve.rs:56-64 | in every run of the Bitcoin page on a request served to a bound process, connects deliver the bound account only, and each operation is submitted for it as the wallet has just named it |
| Pinning.BoundTronRequest | crates/browser-web3-signer/src/serve.rs:56-64 | the same on the TRON page |
| Pinning.BoundEvmRequest | crates/browser-web3-signer/src/serve.rs:56-64 | on the EVM page connects deliver the bound account only, and operations name it until the user clicks "Change" |
| AddressMatch.MatchIff | crates/browser-web3-signer-btc/web/btc.html:538-543 | two spellings name one account exactly if equal, or equal but for case and case does not count: never on TRON, always on EVM, on Bitcoin between two bech32 addresses |
| JsonText.ObjectBack | crates/browser-web3-signer-btc/src/signer.rs:124-143 | every JSON object of strings is read back, whatever characters they hold (RFC 8259, section 7) |
| JsonText.PlainIsKept | crates/browser-web3-signer-btc/web/btc.html:554-556 | text without quotes, backslashes and control characters is written as it is |
| WireReads.ReadsEvmIff | crates/browser-web3-signer-evm/src/types.rs:193-238 | a document is read as a given EVM request exactly if its fields, by name, hold that request; bytes are hex digits of either case, and a string that does not parse is refused |
| WireReads.ReadsBtcIff | crates/browser-web3-signer-btc/src/types.rs:252-282 | a document is read as a given Bitcoin request exactly if its fields, by name, hold that request; addresses are on its network, listed inputs in range, the script-path inputs those with a leaf script |
| WireReads.ReadsTronIff | crates/browser-web3-signer-tron/src/types.rs:167-221 | a document is read as a given TRON request exactly if its fields, by name, hold that request |
| EvmWire.FromJsonPrint | crates/browser-web3-signer-evm/src/types.rs:193-238 | reading a printed EVM request gives it back, or refuses it exactly when its transaction fails the check |
| EvmWire.MessageReadBack | crates/browser-web3-signer-evm/src/types.rs:69-77 | text and raw messages are read back as they were printed |
| EvmWire.ReadIsSendable | crates/browser-web3-signer-evm/src/types.rs:298-310 | every transaction that is read passes the check |
| EvmWire.ReadOnceIsReadAgain | crates/browser-web3-signer-evm/src/types.rs:193-238 | every body that reads prints in a form that reads as the same request |
| BtcWire.FromJsonPrint | crates/browser-web3-signer-btc/src/types.rs:252-282 | reading a printed Bitcoin request gives it back exactly when a constructor can have built it |
| BtcWire.FromJsonRebuilds | crates/browser-web3-signer-btc/src/types.rs:142-223 | in every case it gives what the constructor makes of the request's fields, errors included |
| BtcWire.IndexesBack | crates/browser-web3-signer-btc/src/types.rs:321-336 | a printed list of input indexes is read back |
| BtcWire.ReadIsBuilt | crates/browser-web3-signer-btc/src/types.rs:252-282 | a request that is read has its addresses on its network, its indexes in range, its script-path inputs exact, and finalizes if it broadcasts |
| BtcWire.ReadOnceIsReadAgain | crates/browser-web3-signer-btc/src/types.rs:252-282 | every body that reads prints in a form that reads as the same request |
| TronWire.FromJsonPrint | crates/browser-web3-signer-tron/src/types.rs:167-221 | reading a printed TRON request always succeeds and loses exactly the energy limit and fee percentage |
| TronWire.FromJsonUndoesPrint | crates/browser-web3-signer-tron/src/types.rs:167-221 | so it undoes printing exactly for requests without these |
| TronWire.EnergyLimitIsLost | crates/browser-web3-signer-tron/src/types.rs:200-201 | a request for which it does not |
| TronWire.NumbersArePrinted | crates/browser-web3-signer-tron/src/types.rs:200-201 | both are printed, as numbers |
| TronWire.Base58CheckIsLawful | crates/browser-web3-signer-tron/src/domain.rs:90-116 | Base58Check satisfies what the wire theorems ask of the address printer and parser |
| ScriptPath.SignPsbtAccepts | crates/browser-web3-signer-btc/src/types.rs:178-194 | `sign_psbt` accepts a list exactly if every index is in range and the signer is on the network |
| ScriptPath.ScriptPathMembers | crates/browser-web3-signer-btc/src/types.rs:195-201 | the script-path list holds exactly the listed inputs with a leaf script |
| ScriptPath.MarkingIsExact | crates/browser-web3-signer-btc/web/btc.html:363-375 | Unisat gets one entry per listed index, in order, duplicates included, in range, and untweaked exactly on inputs that list a leaf script |
| Hex.ParseToHex | crates/browser-web3-signer-core/src/bytes.rs:28-45 | bytes printed as hex are read back |
| Hex.DecodesIff | crates/browser-web3-signer-core/src/bytes.rs:36-43 | a string is read as some bytes exactly if it writes each in two hex digits of either case, the high one first |
| Hex.ReadableIff | crates/browser-web3-signer-core/src/bytes.rs:36-43 | it is read at all exactly if it has an even number of characters, each a hex digit |
| Hex.ParsesIff | crates/browser-web3-signer-core/src/bytes.rs:36-43 | the same with a `0x` prefix, which may be left out |
| Hex.EncodedIsWritten | crates/browser-web3-signer-core/src/bytes.rs:28-34 | what is printed writes the bytes, in lower case |
| Utf8.DecodeEncode | crates/browser-web3-signer-evm/web/evm.html:545-550 | every text is decoded from its UTF-8 encoding (RFC 3629) |
| Utf8.EncodeDecode | ts/src/transport.ts:93-100 | every byte string that decodes is the encoding of its text |
| Utf8.Octets | crates/browser-web3-signer-evm/web/evm.html:545-550 | a character's octets are those of RFC 3629, section 3, for up to three |
| Utf8.FourOctets | crates/browser-web3-signer-evm/web/evm.html:545-550 | and for four |
| Utf8.EncodesInOrder | crates/browser-web3-signer-evm/web/evm.html:545-550 | a text is encoded character by character, in order |
| Utf8.FromToUtf16 | crates/browser-web3-signer-evm/web/evm.html:545-550 | every text survives its form as a JavaScript string |
| Utf8.CodeUnits | crates/browser-web3-signer-evm/web/evm.html:545-550 | its UTF-16 units are those of RFC 2781, section 2.1 |
| Utf8.UnitsInOrder | crates/browser-web3-signer-evm/web/evm.html:545-550 | and so are its code units |
| Utf8.LoneSurrogate | crates/browser-web3-signer-evm/web/evm.html:545-550 | a surrogate outside a pair is read as U+FFFD |
| MessageBytes.AskedIsWritten | ts/src/transport.ts:93-100 | for any `0x` string the wallet is asked to sign exactly the bytes that its digits, of either case, write, or nothing; and exactly which strings get that far |
| MessageBytes.SameBytesAreSigned | crates/browser-web3-signer-evm/web/evm.html:545-550 | every non-empty byte string given to `personal_sign` is what the wallet is asked to sign, a byte order mark included |
| MessageBytes.BomIsLost | ts/src/transport.ts:95-96 | without `ignoreBOM`, bytes survive exactly if they do not start with a byte order mark |
| ChainSwitch.OnChain | crates/browser-web3-signer-evm/web/evm.html:399-405 | true exactly if the answer is the chain's number; never throws |
| ChainSwitch.TrySwitch | crates/browser-web3-signer-evm/web/evm.html:411-421 | true exactly if the wallet's last word is the chain; false exactly without the chain (4902) or elsewhere after a switch; any other error is thrown exactly if the wallet is elsewhere |
| ChainSwitch.AddChain | crates/browser-web3-signer-evm/web/evm.html:427-435 | one call, with what describes the chain, or none; never throws |
| ChainSwitch.ChainIsDescribed | crates/browser-web3-signer-evm/web/evm.html:446-471 | what a wallet without the chain is offered: endpoint, name, symbol and explorer, and which source comes first |
| ChainSwitch.SwitchChain | crates/browser-web3-signer-evm/web/evm.html:366-375 | returns exactly when the wallet's last word is the chain; missing only after two switches and the one possible addition; at most two switches and one addition ever, a switch first and each only right after the wallet said it is elsewhere; and a refused switch ends it |
| ChainSwitch.EnsureChain | crates/browser-web3-signer-evm/web/evm.html:587-597 | the same for a request, which may name no chain |
| ChainSwitch.Operate | crates/browser-web3-signer-evm/web/evm.html:711-740 | the operation is called last or not at all, and for a request with a chain only right after the wallet said it is on it |
| ChainSwitch.EveryOperationIsGuarded | crates/browser-web3-signer-evm/web/evm.html:711-740 | so over any number of operations of a page |
| ChainRuns.OperationsFollowTheirChain | crates/browser-web3-signer-evm/web/evm.html:711-740 | on a sign or transaction page, whatever else runs, each operation reaches the wallet right after a chain query answered with the request's chain |
| PermissionPrompt.Pick | crates/browser-web3-signer-evm/web/evm.html:650-655 | the first matching account, else the first, else none |
| PermissionPrompt.RequestAccountChange | crates/browser-web3-signer-evm/web/evm.html:647-682 | goes on as long as the wallet answers, and revokes permissions exactly after a silent answer; the answer is picked from the wallet's last list; "no prompt" exactly if revoking threw, and any other throw is passed on |
| Base58.IndexInvertsAlphabet | go/domain.go:148-161 | the lookup table inverts the 58-character alphabet |
| Base58.AlphabetIs | go/domain.go:148-161 | the alphabet has the digits and letters but 0, O, I and l, in ascending order |
| Base58.DecodeEncode | go/domain.go:165-212 | decoding gives back every byte string encoded, leading zero bytes included |
| Base58.EncodeDecode | go/domain.go:165-212 | encoding gives back every string that decodes, leading '1's included |
| Base58.DecodesPayload | go/domain.go:165-190 | what decoding a string that writes a payload gives, the payload or which error |
| Base58.DecodesOrRefuses | go/domain.go:165-175 | every string of the alphabet writes a payload, any other is refused with its first stranger |
| Base58.Base58CheckEncode | go/domain.go:193-212 | the divide loop, the '1's and the swap compute the encoding, and end |
| Base58.Base58CheckDecode | go/domain.go:165-190 | the multiply loop computes the decoding, with its four errors |
| Base58.DivideLoop | go/domain.go:198-201 | the buffer is the base-58 spelling backwards |
| Base58.ReverseInPlace | go/domain.go:208-210 | the swaps reverse the buffer |
| Base58.TronAddressPrints | go/domain.go:87-117 | every TRON address prints as 34 characters starting with 'T', whatever body and checksum, and parses back |
| Base58.ParsedTronAddress | go/domain.go:94-108 | every string that parses is its address's one spelling, of that form |
| Base58.ParsesPayload | go/domain.go:94-108 | which payloads are addresses, and the errors for the others |
| Amounts.PrintersAgree | crates/browser-web3-signer-btc/src/domain.rs:194-197 | the Rust and the page's satoshi printers give the same string |
| Amounts.PrintsExactly | crates/browser-web3-signer-btc/web/btc.html:508-513 | a printed amount, read by place value, is exactly the number of units over the power of ten |
| Amounts.PrintsShortest | crates/browser-web3-signer-tron/web/tron.html:275-281 | its whole part has no needless leading zero and its fraction, if any, does not end in '0' |
| Amounts.DistinctAmountsPrintDifferently | crates/browser-web3-signer-evm/web/evm.html:305-311 | two amounts never print alike |
| Amounts.ZeroIsNotSpecial | crates/browser-web3-signer-evm/web/evm.html:305-311 | the pages' special case for zero prints what the general case would |
| SharedLoad.Once.Call | crates/browser-web3-signer-core/web/app-core.js:77-88 | a call starts a load only if none is shared, and the caller gets the shared one |
| SharedLoad.OneInFlight | crates/browser-web3-signer-core/web/app-core.js:77-88 | at most one load is in flight |
| SharedLoad.StartsOnlyAfterFailure | crates/browser-web3-signer-core/web/app-core.js:77-88 | a load starts only when every earlier one has failed |
| SharedLoad.SharesTheNewest | crates/browser-web3-signer-core/web/app-core.js:77-88 | calls share the newest load until it has failed and its callback has run |
| SharedLoad.StartsIff | crates/browser-web3-signer-core/web/app-core.js:77-88 | a call starts a load exactly if every earlier one has failed and been noticed |
| SharedLoad.LoadsFollowEvents | crates/browser-web3-signer-core/web/app-core.js:77-88 | a load is fulfilled, rejected or noticed exactly if that happened to it |
| SharedLoad.SharedForGood | crates/browser-web3-signer-core/web/app-core.js:77-88 | once a load succeeded, every call shares it for good |

## Assumptions

- Request ids are fresh, one page serves a request, and only that page posts for it. An HTTP answer the page sees is the
  one its POST was given; a POST or its answer may also be lost.
- Library code enters as a parameter with the law the repository relies on: the checksum gives four bytes; the domain
  types' printers and parsers are inverse on that type's values (amounts, networks, URLs, PSBTs, Bitcoin and TRON
  addresses, protocols), and parsers give such values only. Hex, and the address form of EVM, are defined here. UTF-8
  decoding and encoding follow sections 3 and 4 of RFC 3629.
- Wallets are arbitrary, as far as their answers have the shape the page takes: an account is text, and an operation
  returns text or null; for a PSBT or a deployment that text is the document the adapter builds from the wallet's answer. An undefined result, which the page takes as settled and posts without a result, is the empty
  text here, as the bridge reads it; other results are not modelled.
- An answer may take any time. On the TRON page reading the selected account takes none, so of the runs here those in
  which something else happens meanwhile are not among that page's.
- A listener may fire whenever it is registered, except that the TRON page hears of no account change. A time-out may
  fire at any moment while its future waits, which allows more runs than a clock does.
- A configured account prints as a non-empty string.

## Left out

- Error texts on the page, DOM contents, icons and styles: of the renderers only which buttons can be clicked is kept.
- `window.close()` after Reject: the page goes on in the model, so the claims after Reject hold without it.
- Loading the request, an unknown request id or type, and the wallet readiness loops: a run starts at the first render.
- The page's opener and its prompt share one slot in the model; the opener does nothing more after it opens a prompt.
- HTTP transport, CORS, static assets, browser launching, server start and shutdown, the command line, subprocesses.
- HTTP statuses other than 200, 404 and 500 from the completion handler; the page takes every status but 200 as a failure.
- EndToEnd.RejectedMeansClicked: the wording of the control API's error bodies is not modelled, only status and code.
- EndToEnd.ResponseSuccessIsTheWalletsResult: the chain's result check is a parameter; Bitcoin's parsing of accounts, PSBTs and signatures is not modelled.
- EvmWire.FromJsonPrint: the fresh id that reading assigns is not part of a request here.
- JSON as text: wire forms are JSON values, and fields that no reader asks for are not told apart.
- MessageBytes.AskedIsWritten: strings without the `0x` prefix, which the transport's types exclude.
- ChainSwitch.Operate: a wallet that changes its chain between its answer and the operation; nothing in the page can tell.
- The interleaving of two connect handlers' chain queries on the EVM page; each cascade is verified on its own log.
- PermissionPrompt.RequestAccountChange: the half-second clock is a parameter, and an address is compared as the page compares it.
- The filter for usable registry endpoints, EIP-712 domain type declarations, and the fields of a transaction object.
- Leather's and TronLink's own request shapes, and Unisat's push of a finalized PSBT.
- Display-only parts of amounts: units, abbreviations, and the input string's own parsing by `BigInt`.
- Getter newtypes, chain tables, explorer URLs, ports, and the bindings' typed results.
