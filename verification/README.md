# Verification of VeraKey's account, servers and popup protocol

VeraKey gives a passkey a smart account that pays in USDG, a relayer that sends its transactions, and a kit with which sites
sign players in and take payments. This project models the parts whose promises span many calls, clients or messages, and
proves those promises for every run and every interleaving.

**The account** (`AccountSpec`, `AccountContract`). `AccountContract.VeraKeyAccount` is the contract with its storage fields,
its array of eight pending slots and its loops; each entry point is proved against a function in `AccountSpec`, and `Execute`
against the account's step, reverting included. `AccountInvariant` holds what every reachable state satisfies. `AccountRuns`,
`AccountSpending`, `AccountPayments`, `AccountGuardian` and `AccountReplay` prove the contract's security rules over whole
runs: any calls, by anyone, in any order, as time passes. `AccountAuthority` says exactly when each call goes through and why
one fails, `AccountSettings` what every field reads as, from the calls alone, and `AccountChanges` what payloads mean. `PendingSlots` shows that slots and table are one finite map of at
most eight changes.
`Changes`, `Spending`, `ActionCodec`, `Base64Url` and `ClientData` are the contract's core library; `Bytes`, `Text` and
`Primitives` are shared. The account model sees client data as the challenge, payee and total that `ClientData` proves they bind,
and the faults found before and after the challenge as their codes.

**The relayer** (`SendLock`, `RelayerSpec`, `RelayerRuns`, `RelayerSafety`, `RelayerLimits`, `RelayerVerdicts`, `Relayer`). A request is cut at
each await, and requests interleave freely. `SendLock` is the promise chain that serializes sends, with what follows from it.
`Relayer.Relayer` is the class, over that lock and the limiters of `RateLimit`; `RelayerSpec` is its step function;
`RelayerSafety` has its promises, `RelayerLimits` those about its limits and exactly what uses them up, `RelayerVerdicts` what
decides at each step. `Budgets` bounds what is
spent by what limiters grant. `AccountDefence` joins relayer and account: why actions that defend an account can be sent outside
every budget.

**The site kit** (`KitStore`, `KitSessions`, `KitOwners`, `KitPayments`, `KitVerdicts`, `Reservations`). The default store with its pruning
refines a store that never forgets; on it rest sign-ins, sign-outs and payments under concurrent requests.

**The popup** (`ConnectSite`, `ConnectPopup`, `ConnectJoint`, `ConnectSession`). The site's request, the popup's hook and the
session, each driven by events in every possible order; `ConnectJoint` is both windows with the messages on their way.

**Smaller algorithms**: `VisitorAddress` (rate-limit keys for IPv6) and `ImportWalk` (assets of a prerendered page).

## Conventions and assumptions

- keccak256 is ideal: a digest is its preimage, so digests collide only for equal preimages and none is a word somebody wrote
  down; read as a number a digest is the largest one, outside every range the account accepts.
- u128 and u256 arithmetic and its checks are explicit. The account's nonce, counts, epochs and times are unbounded: sums of a
  u64 time and a delay of at most 30 days are taken not to wrap.
- Block time is positive and never decreases; `Date.now()` never decreases within a process.
- The proof verifier, the rpId hash, the token's answers, RPC answers, MAC checks, `isIP` and address checks are inputs.
- A boolean mapping is the set of its true keys. The methods named `...Now` are the contract's entry points.
- `Held`, `Inv` and similar predicates speak of states; `...At` and `...Step` lemmas are the steps of the inductions.

## Where the code promises less than its comments

- `server/rate-limit.ts:4-8` counts IPv4-mapped addresses as their IPv4 address. The code does so exactly for `::ffff:` followed
  by the dotted tail, without a zone (`VisitorAddress.CountedAsIPv4`, `VisitorAddress.OneSpellingIsCountedAsIPv4`). Every mapped
  address has other texts, in hexadecimal, with the zeros written out, or with a zone, that are counted by their prefix
  (`VisitorAddress.MappedAddressesHaveTwoKeys`, `VisitorAddress.DottedTailIsNotEnough`).
- `server/relayer.ts:122-123` has it that a request that sends nothing costs no limit. It does whenever a limiter grants and a
  later one refuses: a deployment refused by everyone's deployments has used up one of its visitor's; one refused by the gas
  budget, one of both; a grant so refused, one of the day's grants; an unpaid restriction so refused, one of its account's. A
  transaction whose send fails has used up all it was let through by, gas included. Nothing else is lost to a request that sends
  nothing (`RelayerLimits.UsedUpExactly`, `RelayerLimits.RefusedForNothing`; `RelayerLimits.NoGrantLeft` is an instance).
- `server/relayer.ts:68-72` limits the gas spent in a day, but counts estimates, while `server/relayer.ts:149` sends with twelve
  tenths of them. What is sent may spend up to 12/10 of the budget in a window and 24/10 in a day-long interval, and the first
  bound is met (`RelayerLimits.GasLimitsWithinAWindow`, `RelayerLimits.SentBeyondTheBudget`).
- `packages/sdk/src/server.ts:83` says a replay within a nonce's lifetime always finds the claim. A handler that stalls more than
  a minute between reading and claiming the nonce can let it sign in twice; up to a minute it cannot (`KitSessions.AMinuteIsExact`).
- `packages/sdk/src/server.ts:385` says a sign-out stops every copy of the cookie. A request that decoded the cookie in time and
  asks the store only after every recorded sign-out of it has ended is still let in, after the cookie expired
  (`KitSessions.SignedOutStaysOut` has the exact condition, `KitSessions.SignedOutCookieGetsIn` an instance).

## Model

| member | source | states |
|---|---|---|
| `AccountContract.VeraKeyAccount.Execute` | contracts/stylus/account/src/lib.rs:611-1036 | any call, by anyone: the storage afterwards is the account's next state, the USDG moved is the call's, and a failed call leaves storage, slots and transfers exactly as they were; the invariant holds again |
| `AccountContract.VeraKeyAccount.TrackPending` | contracts/stylus/account/src/lib.rs:476-484 | the id fills a free slot and no other slot changes; it fails exactly when no slot is free |
| `AccountContract.VeraKeyAccount.ClearPending` | contracts/stylus/account/src/lib.rs:486-498 | the change leaves the table and its slot, and nothing else moves |
| `AccountContract.VeraKeyAccount.CancelPendingChanges` | contracts/stylus/account/src/lib.rs:502-515 | the loop over the slots leaves exactly the guardian changes it was told to keep, or nothing |
| `AccountContract.VeraKeyAccount.CheckScheduleChange` | contracts/stylus/account/src/lib.rs:417-447 | the loop over the slots refuses for the reason a search of the whole set of waiting changes gives: same payload waiting, owner already or not there, too few owners left |
| `AccountContract.VeraKeyAccount.Authorize` | contracts/stylus/account/src/lib.rs:312-370 | the checks in the contract's order with its errors, the client data's codes among them; the nonce is consumed exactly on success and nothing else changes |
| `AccountContract.VeraKeyAccount.CheckSpending` | contracts/stylus/account/src/lib.rs:372-384 | the window a spend would leave, or which cap refuses it |
| `AccountContract.VeraKeyAccount.ChargeFee` | contracts/stylus/account/src/lib.rs:397-405 | the part of a safety action's fee that the day's cap leaves is charged and recorded; it cannot fail |
| `AccountContract.VeraKeyAccount.TransferUsdg` | contracts/stylus/account/src/lib.rs:449-457 | a zero amount moves nothing and succeeds; otherwise the transfer happens exactly when the token agrees |
| `AccountContract.VeraKeyAccount.PayFee` | contracts/stylus/account/src/lib.rs:461-464 | the fee goes to the fee recipient and to nobody else |
| `AccountContract.VeraKeyAccount.RequireGuardian` | contracts/stylus/account/src/lib.rs:523-534 | the caller passes exactly when the stored commitment is over this account, this caller and this salt |
| `AccountContract.VeraKeyAccount.ClearRecovery` | contracts/stylus/account/src/lib.rs:536-541 | no recovery is pending afterwards and nothing else changed |
| `AccountContract.VeraKeyAccount.ApplyAddOwner` | contracts/stylus/account/src/lib.rs:550-557 | adds the owner at the current epoch, or says it is one already |
| `AccountContract.VeraKeyAccount.ApplyRemoveOwner` | contracts/stylus/account/src/lib.rs:558-569 | removes the owner at the current epoch, and never the last one |
| `AccountContract.VeraKeyAccount.ApplyRuleChange` | contracts/stylus/account/src/lib.rs:570-600 | moves the one rule the change names, as the change says |
| `AccountContract.VeraKeyAccount.ApplyGuardianChange` | contracts/stylus/account/src/lib.rs:584-592 | replaces the guardian and ends a recovery the old one started |
| `AccountContract.VeraKeyAccount.ApplyNow` | contracts/stylus/account/src/lib.rs:545-604 | a validated change of any kind has its specified effect or fails with its error |
| `AccountContract.VeraKeyAccount.InitializeAccount` | contracts/stylus/account/src/lib.rs:617-677 | sets the first owner, the caps and the delays once, for valid configuration only |
| `AccountContract.VeraKeyAccount.PayNow` | contracts/stylus/account/src/lib.rs:681-751 | a payment: its checks in order, the window, the known recipient, the nonce and both transfers |
| `AccountContract.VeraKeyAccount.ScheduleChangeNow` | contracts/stylus/account/src/lib.rs:758-806 | scheduling inserts exactly one entry with its delay and epoch under the action's hash, and fails for space exactly when eight wait |
| `AccountContract.VeraKeyAccount.RestrictNow` | contracts/stylus/account/src/lib.rs:813-855 | a tightening change applies at once; a freeze also empties the table |
| `AccountContract.VeraKeyAccount.ApplyChangeNow` | contracts/stylus/account/src/lib.rs:858-891 | a waiting change applies and leaves the table, after its delay and in its own epoch only |
| `AccountContract.VeraKeyAccount.CancelChangeNow` | contracts/stylus/account/src/lib.rs:894-923 | an owner removes one waiting change and pays what the cap leaves of the fee |
| `AccountContract.VeraKeyAccount.GuardianCancelChangeNow` | contracts/stylus/account/src/lib.rs:927-938 | the guardian removes one waiting change unless it replaces the guardian |
| `AccountContract.VeraKeyAccount.GuardianFreezeNow` | contracts/stylus/account/src/lib.rs:942-949 | the guardian freezes; only guardian changes stay |
| `AccountContract.VeraKeyAccount.InitiateRecoveryNow` | contracts/stylus/account/src/lib.rs:952-966 | the guardian starts a recovery that waits the recovery delay |
| `AccountContract.VeraKeyAccount.ExecuteRecoveryNow` | contracts/stylus/account/src/lib.rs:969-989 | the epoch rises, the new nullifier alone owns, the table is empty |
| `AccountContract.VeraKeyAccount.CancelRecoveryNow` | contracts/stylus/account/src/lib.rs:992-1023 | an owner ends the pending recovery and pays what the cap leaves of the fee |
| `AccountContract.VeraKeyAccount.GuardianCancelRecoveryNow` | contracts/stylus/account/src/lib.rs:1026-1036 | the guardian ends its own recovery |
| `PendingSlots.TableIsFullAtEight` | contracts/stylus/account/src/lib.rs:784-796 | distinct non-zero slots: at most eight changes wait, and eight wait exactly when no slot is free |
| `PendingSlots.TrackIsInsert` | contracts/stylus/account/src/lib.rs:476-484 | filling a free slot with a new id is insertion into the finite map of live changes |
| `PendingSlots.ClearIsRemove` | contracts/stylus/account/src/lib.rs:486-498 | emptying an entry and its slot is removal from that map |
| `PendingSlots.CancelledAll` | contracts/stylus/account/src/lib.rs:502-515 | clearing slot by slot ends as the filter that keeps guardian changes or nothing |
| `PendingSlots.RemovalsInAll` | contracts/stylus/account/src/lib.rs:417-447 | counting removals slot by slot counts the owner removals that wait |
| `AccountInvariant.InvStep` | contracts/stylus/account/src/lib.rs:8-35 | every call keeps the invariant: caps payable and ordered, the owner count is the number of current owners and at least one, live entries in the current epoch with distinct payloads, additions of non-owners, removals of owners and fewer of them than owners |
| `AccountInvariant.InvApplyWaiting` | contracts/stylus/account/src/lib.rs:545-604 | in any state with the invariant, a waiting change applies without error and keeps it |
| `AccountInvariant.FreshId` | contracts/stylus/account/src/lib.rs:758-806 | the id of an action over the current nonce is not waiting, so scheduling never overwrites |
| `AccountRuns.Reachable` | contracts/stylus/account/src/lib.rs:8-35 | every state of every run satisfies the invariant |
| `AccountRuns.ConfigNeverChanges` | contracts/stylus/account/src/lib.rs:617-677 | what initialization fixed stays for the rest of the run |
| `AccountRuns.WaitingChangesNeverStick` | contracts/stylus/account/src/lib.rs:858-891 | in every reachable state `apply_change` succeeds exactly for a change that waits under that id, with that kind and payload, whose time has come |
| `AccountRuns.WaitingWasScheduled` | contracts/stylus/account/src/lib.rs:758-806 | whatever waits was scheduled by an owner of that epoch and has waited unchanged, in one epoch, since |
| `AccountRuns.AppliedWasScheduled` | contracts/stylus/account/src/lib.rs:858-891 | every applied change was scheduled with this kind and payload at least the change delay before (plus the recovery delay for the guardian), in the same epoch, and never cancelled |
| `AccountRuns.RestrictiveTightens` | contracts/stylus/core/src/changes.rs:128-143 | a change that may apply at once never loosens any rule and never touches owners or guardian |
| `AccountRuns.RestrictiveMeansTighter` | contracts/stylus/core/src/changes.rs:128-143 | a valid rule change may apply at once exactly when it tightens every set of rules with the current limits |
| `AccountRuns.LooseningWaits` | contracts/stylus/account/src/lib.rs:8-35 | over any stretch without an applied change or an executed recovery: caps never rise, protections never clear, allowed recipients never grow, owners and guardian stay |
| `AccountAuthority.CallsGoThrough` | contracts/stylus/account/src/lib.rs:611-1036 | in every state of every run each call goes through exactly when its conditions hold, spelled out from call and storage: for an authorized one that a current owner proved it, in time, over this action, on client data without fault; for a guardian's that its sender holds the office; and the rules of its kind |
| `AccountAuthority.FirstFaultIsTheAnswer` | contracts/stylus/account/src/lib.rs:312-370 | and a call that fails is answered with the first of its faults, in the contract's order, by its own error |
| `AccountAuthority.AuthorizedMeansProved` | contracts/stylus/account/src/lib.rs:341-369 | nothing an authorization makes the account do, in any run, is without a current owner's proof, in time, over exactly that call and the nonce of that moment, within the fee bound |
| `AccountAuthority.EveryoneGetsTheirs` | contracts/stylus/account/src/lib.rs:397-464 | a call that goes through pays its payee its amount and the fee recipient its fee, waived past the cap for safety actions, to the unit, and nobody else |
| `AccountSettings.LastWordHolds` | contracts/stylus/account/src/lib.rs:545-604 | every setting, whether a cap, protection, recipient, owner, guardian, recovery, waiting change or configured value, reads as the last successful call said that spoke of it; a scheduled change with its exact time |
| `AccountSettings.UnsaidStays` | contracts/stylus/account/src/lib.rs:545-604 | and nothing changes of which no call speaks |
| `AccountSettings.ChangesAreFulfilled` | contracts/stylus/account/src/lib.rs:545-604 | a change that took effect, after its wait or at once, left the account as its payload asks: the named owner in or out, the guardian replaced, each rule at its new value |
| `AccountSettings.ReplacedGuardianIsOut` | contracts/stylus/account/src/lib.rs:523-534 | once another guardian is appointed every call of the old one is answered `NotGuardian`, until it is appointed again |
| `AccountChanges.ValidMeansAChange` | contracts/stylus/core/src/changes.rs:85-112 | a payload is valid exactly when it is the ABI encoding of a sound change |
| `AccountChanges.OneMeaning` | contracts/stylus/core/src/changes.rs:85-112 | and of one change only |
| `AccountChanges.RestrictiveChanges` | contracts/stylus/core/src/changes.rs:128-143 | which changes may apply at once, by what they mean |
| `AccountChanges.FeesStayPayableUnless` | contracts/stylus/core/src/changes.rs:114-118 | fees stay payable under every change but limits whose per-transaction cap is below the largest fee |
| `AccountSpending.WindowStep` | contracts/stylus/account/src/lib.rs:372-410 | each call counts in the window exactly what it moves, within the cap it started under |
| `AccountSpending.WindowIsTheLedger` | contracts/stylus/account/src/lib.rs:372-410 | the stored window equals the USDG that left on its day, fees included |
| `AccountSpending.OutflowEndsWithinTheCap` | contracts/stylus/account/src/lib.rs:681-751 | after any outflow its day has spent no more than the cap in force when the call started |
| `AccountSpending.DailyBound` | contracts/stylus/account/src/lib.rs:8-35 | a day never spends more than the largest daily cap in force on it |
| `AccountSpending.RunBound` | contracts/stylus/account/src/lib.rs:8-35 | a run over several days spends at most the sum of those days' largest caps |
| `AccountSpending.WhereUsdgGoes` | contracts/stylus/account/src/lib.rs:8-35 | USDG leaves only to a payment's payee with its amount, or to the fee recipient with at most the signed fee; a frozen account pays nobody else |
| `AccountSpending.SafetyIgnoresSpending` | contracts/stylus/account/src/lib.rs:826-848 | what was spent decides nothing about a restriction or a cancellation except how much of its fee is waived |
| `AccountSpending.SpentCapWaivesTheFee` | contracts/stylus/account/src/lib.rs:397-405 | past the day's cap a safety action moves no USDG, so not even a failing token can stop it |
| `AccountSpending.FeesStayPayable` | contracts/stylus/account/src/lib.rs:408-417 | in every reachable state no accepted fee meets the per-transaction cap |
| `AccountSpending.RestrictionsAlwaysApply` | contracts/stylus/account/src/lib.rs:813-855 | a restriction succeeds exactly when it is restrictive, keeps fees payable, is authorized, and its fee is zero, waived or moved by the token: nothing else in the account can stop it |
| `AccountSpending.CancellationsAlwaysApply` | contracts/stylus/account/src/lib.rs:894-923 | a cancellation succeeds exactly when there is what it cancels, it is authorized, and its fee is zero, waived or moved by the token |
| `AccountSpending.CancellingIgnoresTheCaps` | contracts/stylus/account/src/lib.rs:894-923 | no cap and no rule, spent or not, decides whether an owner may cancel |
| `AccountPayments.KnownWerePaid` | contracts/stylus/account/src/lib.rs:681-751 | a recipient is known exactly when the account paid it earlier in the run |
| `AccountPayments.PaymentsObeyTheRules` | contracts/stylus/account/src/lib.rs:681-751 | an authorized payment goes through exactly when it obeys every rule in force: not frozen, within both caps with its fee, to an allowed, known or small enough new payee, from the sheet where required |
| `AccountPayments.FirstPaymentsAreCapped` | contracts/stylus/account/src/lib.rs:17-18 | the first payment of a run to a recipient not allowed by name is at most the new-payee cap then in force |
| `AccountPayments.TheSheetShowsWhatLeaves` | contracts/stylus/account/src/lib.rs:341-369 | a payment sheet that was shown, always so when required, showed the payee and as its total all the USDG that left |
| `AccountPayments.TheSheetOnlyPays` | contracts/stylus/account/src/lib.rs:341-369 | what a payment sheet signed authorizes nothing but a payment |
| `AccountGuardian.OneGuardian` | contracts/stylus/account/src/lib.rs:523-534 | in one state two accepted guardian calls have one sender, one account and one salt |
| `AccountGuardian.FreezeCancels` | contracts/stylus/account/src/lib.rs:500-515 | an owner's freeze leaves nothing waiting, the guardian's exactly the guardian changes |
| `AccountGuardian.RecoveryBelongsToTheGuardian` | contracts/stylus/account/src/lib.rs:952-966 | a pending recovery was started by the guardian still in force, and its target and time are as started |
| `AccountGuardian.RaceHolds` | contracts/stylus/account/src/lib.rs:952-989 | while a recovery stands, every guardian change that waits becomes ready after it, including those scheduled meanwhile |
| `AccountGuardian.RecoveryWinsTheRace` | contracts/stylus/account/src/lib.rs:969-989 | if every guardian change waiting at its start was scheduled less than the change delay before, the recovery executes at its time and gives the account to the new nullifier alone |
| `AccountGuardian.GuardianChangesComeTooLate` | contracts/stylus/account/src/lib.rs:584-592 | meanwhile, and at that moment, no such guardian change can apply |
| `AccountGuardian.OlderChangeEndsTheRecovery` | contracts/stylus/account/src/lib.rs:584-592 | the condition is exact: a guardian change applies at the recovery's time if and only if it is ready by then, and then the recovery is gone |
| `AccountGuardian.GuardianCannotHoldTheAccount` | contracts/stylus/account/src/lib.rs:927-938 | no guardian call removes a waiting guardian change: short of an owner's cancel or freeze or an executed recovery it stays, and in time anyone can put the new guardian in office, ending any recovery |
| `AccountGuardian.FreezeHolds` | contracts/stylus/account/src/lib.rs:500-515 | after an owner's or guardian's freeze at t the account stays frozen with no unfreeze ready before t plus the change delay, in every continuation |
| `AccountGuardian.NoPaymentAfterAFreeze` | contracts/stylus/account/src/lib.rs:681-693 | no payment succeeds before t plus the change delay |
| `AccountReplay.OwnersAreAdded` | contracts/stylus/account/src/lib.rs:550-569 | nobody comes to own the account but by an applied addition, an executed recovery or initialization |
| `AccountReplay.RecoveryReplacesTheOwners` | contracts/stylus/account/src/lib.rs:969-989 | after a recovery exactly the new nullifier owns and nothing waits |
| `AccountReplay.EarlierOwnersStayOut` | contracts/stylus/account/src/lib.rs:244-258 | after a recovery no earlier owner authorizes again unless added again |
| `AccountReplay.ImplementationIsInert` | contracts/stylus/account/src/lib.rs:608-613 | on the locked implementation every call fails, so it stays locked |
| `AccountReplay.NonceStep` | contracts/stylus/account/src/lib.rs:341-369 | an authorized step signed exactly what it does over the current nonce and raises it by one; no other step moves it |
| `AccountReplay.NonceCountsAuthorizations` | contracts/stylus/account/src/lib.rs:341-369 | in every run the nonce is the number of authorized steps so far |
| `AccountReplay.NothingReplays` | contracts/stylus/account/src/lib.rs:276-296 | no authorization is accepted twice in a run, and no change or restriction id ever repeats |
| `AccountReplay.ChallengeBindsEverything` | contracts/stylus/account/src/lib.rs:276-296 | two accepted calls with one challenge, on any accounts and chains in any states, are the same request on the same account and chain |
| `ActionCodec.PutU256` | contracts/stylus/core/src/action.rs:47-49 | writes one 32-byte big-endian word and leaves every other byte |
| `ActionCodec.PutAddress` | contracts/stylus/core/src/action.rs:51-54 | writes the low 20 bytes of one word and leaves every other byte |
| `ActionCodec.Encode` | contracts/stylus/core/src/action.rs:57-71 | the 320 bytes are the ten ABI words in order |
| `ActionCodec.EncodingIsInjective` | contracts/stylus/core/src/action.rs:57-71 | equal encodings mean equal actions: every field is bound |
| `ActionCodec.EncodedFieldsReadBack` | contracts/stylus/core/src/action.rs:57-71 | reading each field from its place in the ABI layout, numbers big-endian and addresses in the last twenty bytes of their words, gives the action back |
| `Base64Url.Base64UrlEncode` | packages/sdk/src/bytes.ts:34-40 | the string built is the base64url text of the bytes |
| `Base64Url.Base64UrlDecode` | packages/sdk/src/bytes.ts:41-46 | the bytes built are those the text stands for, after undoing alphabet and padding |
| `Base64Url.DecodeInvertsEncode` | packages/sdk/src/bytes.ts:34-46 | decoding inverts encoding for byte strings of every length, padding arithmetic included |
| `Base64Url.EncodeIsInjective` | packages/sdk/src/bytes.ts:34-46 | different byte strings have different texts |
| `Base64Url.Encode32` | contracts/stylus/core/src/base64url.rs:10-30 | the contract's loop over 32 bytes gives the same 43 characters as the SDK's encoder |
| `ClientData.PayeeName` | contracts/stylus/core/src/client_data.rs:63-73 | the loop writes `0x` and the address's forty lower-case digits |
| `ClientData.FormatTotal` | contracts/stylus/core/src/client_data.rs:78-112 | the three loops write whole digits, a point, and the decimals trimmed to at least two |
| `ClientData.PayeeReads` | contracts/stylus/core/src/client_data.rs:63-73 | each byte is two lower-case hexadecimal digits, high half first, after `0x` |
| `ClientData.PayeeTextIsInjective` | contracts/stylus/core/src/client_data.rs:63-73 | different payees are written differently |
| `ClientData.TotalReads` | contracts/stylus/core/src/client_data.rs:75-112 | a total reads back as its number of base units, with two to six decimals and no idle zero |
| `ClientData.TotalTextIsInjective` | contracts/stylus/core/src/client_data.rs:78-112 | different totals are written differently, trimming and padding included |
| `ClientData.VerifyPayment` | contracts/stylus/core/src/client_data.rs:127-178 | the moving cursor accepts, refuses and returns the relying party as the specified checks do |
| `ClientData.Verify` | contracts/stylus/core/src/client_data.rs:182-204 | likewise for an assertion |
| `ClientData.SheetIsExact` | contracts/stylus/core/src/client_data.rs:127-178 | client data passes for a payment, with this relying party, exactly when it is short enough and starts as the sheet that shows this challenge, origin, party, payee and total, with or without the logos |
| `ClientData.RefusalsAreExact` | contracts/stylus/core/src/client_data.rs:127-178 | a refused sheet's error tells where its bytes first depart from the one that would pass: length, kind, challenge, origin, party, top origin, or the payment |
| `ClientData.AssertionIsExact` | contracts/stylus/core/src/client_data.rs:182-204 | any bytes are accepted exactly when they are short enough and start as an assertion over this challenge from this origin that ends there or goes on without saying cross-origin; otherwise the first of these that fails is the error |
| `ClientData.SheetAuthorizesOnce` | contracts/stylus/core/src/client_data.rs:127-178 | the same signed bytes pass for one challenge, one payee and one total only |
| `ClientData.AssertionAuthorizesOnce` | contracts/stylus/core/src/client_data.rs:182-204 | the same signed bytes pass for one challenge and one origin only, even where one origin begins like another |
| `ClientData.KindsNeverMix` | contracts/stylus/core/src/client_data.rs:127-204 | what passes as an assertion never passes as a payment sheet |
| `AccountDefence.DefenceStep` | server/relayer.ts:250-263 | each call the relayer takes as a defence uses up a waiting change, a pending recovery or an unfrozen account; only scheduling and starting recoveries make more |
| `AccountDefence.DefencesChangeSomething` | server/relayer.ts:250-263 | a freeze or cancellation that succeeds is taken as a defence exactly when it stops payments or removes a waiting change or a recovery |
| `AccountDefence.DefencesUndoWhatWasMade` | server/relayer.ts:250-263 | over any run an account's defences succeed at most once more often than changes are scheduled and recoveries started, so exempting them from budgets cannot drain the relayer |
| `RateLimit.RateLimiter.Take` | server/rate-limit.ts:52-64 | with sweeping, every answer is the one of a limiter that never forgets |
| `RateLimit.RateLimiter.Sweep` | server/rate-limit.ts:66-71 | drops exactly the closed windows, and only when there are many |
| `RateLimit.AtMostTwiceTheLimit` | server/rate-limit.ts:43-72 | any interval of the window's length grants one key at most twice the limit |
| `RateLimit.WindowGrantsAtMostTheLimit` | server/rate-limit.ts:52-64 | from the call that opens a window until the next that does, the count is exactly what was granted and at most the limit |
| `RateLimit.RefusedOnlyOverTheLimit` | server/rate-limit.ts:52-64 | in an open window a call is granted exactly when it and all the window granted fit the limit |
| `RateLimit.InsideAWindow` | server/rate-limit.ts:52-64 | a call in an open window passes exactly when it and all that passed since the window opened fit the limit |
| `RateLimit.OutsideAWindow` | server/rate-limit.ts:52-64 | any other passes exactly when it fits alone, and opens the next window: with the row above, earlier calls decide every answer |
| `SendLock.OneJobAtATime` | server/rate-limit.ts:75-83 | for every order of hand-ins, starts, settlings and rejections, two jobs never run at once |
| `SendLock.BegunInOrder` | server/rate-limit.ts:75-83 | the jobs that have begun are always the first of those handed in, in that order |
| `SendLock.RejectionsPass` | server/rate-limit.ts:75-83 | whether a job resolved or rejected, once its tail has settled the next one handed in may start |
| `SendLock.NothingBlocks` | server/rate-limit.ts:75-83 | while no job runs and no settled one has still to let go, the earliest unsettled job may start |
| `SendLock.SettlesAsItEnds` | server/rate-limit.ts:75-83 | a job's own outcome is what it settles with, whatever became of others |
| `SendLock.Mutex.Run` | server/rate-limit.ts:78-82 | a job is handed in behind the tail of that moment and becomes the tail |
| `SendLock.Mutex.Start` | server/rate-limit.ts:79-79 | a job starts only once the tail it was handed in behind has settled, either way |
| `SendLock.Mutex.Finish` | server/rate-limit.ts:79-79 | the running job settles, resolved or rejected, and no other job's promise changes |
| `SendLock.Mutex.LetGo` | server/rate-limit.ts:80-80 | the tail a job leaves settles however the job did |
| `Budgets.SpentAtMostTwiceTheLimit` | server/rate-limit.ts:52-64 | what granted calls paid for, each at most once, is at most twice the limit in any interval of the window's length |
| `Budgets.WindowSpendsAtMostTheLimit` | server/rate-limit.ts:52-64 | and at most the limit in one window |
| `VisitorAddress.CountedTogether` | server/rate-limit.ts:9-21 | two IPv6 addresses in any text forms of RFC 4291 section 2.2 share a key exactly when their top 64 bits are equal; those written with a mapped dotted tail share one exactly when the tails are equal |
| `VisitorAddress.ExpandBody` | server/rate-limit.ts:15-20 | splitting at `::` and colons and filling in zeros finds exactly the groups the form was written from |
| `VisitorAddress.KeyIsThePrefix` | server/rate-limit.ts:15-20 | the key depends on the top half alone: not on case, leading zeros, the place of `::`, an embedded IPv4 tail or a zone |
| `VisitorAddress.PrefixKeyIsInjective` | server/rate-limit.ts:20-20 | different top halves have different keys |
| `VisitorAddress.CountedAsIPv4` | server/rate-limit.ts:11-13 | an IPv6 text is counted as IPv4 exactly when it is `::ffff:` followed by the dotted tail, without a zone |
| `VisitorAddress.IPv4IsItsOwnKey` | server/rate-limit.ts:9-14 | an IPv4 address is its own key and no IPv6 prefix's; a visitor without an address is `unknown` |
| `VisitorAddress.MappedIsItsIPv4` | server/rate-limit.ts:4-13 | so written, it shares the key of the IPv4 address it maps |
| `VisitorAddress.OneSpellingIsCountedAsIPv4` | server/rate-limit.ts:4-13 | of all the texts of a mapped address only that one does; every other shares the one prefix of all mapped addresses |
| `VisitorAddress.DottedTailIsNotEnough` | server/rate-limit.ts:4-13 | each mapped address has a text with a dotted tail, its zeros written out or a zone added, that is counted by the prefix instead |
| `VisitorAddress.MappedAddressesHaveTwoKeys` | server/rate-limit.ts:4-13 | and one in hexadecimal, likewise |
| `ImportWalk.Walk` | client/src/docs/prerender.tsx:84-89 | the recursive walk ends on any manifest, cycles included, adds only what the key reaches, and fails exactly on a reachable key that is missing |
| `ImportWalk.ClosedHoldsReachable` | client/src/docs/prerender.tsx:84-89 | a set closed under imports holds all that its members reach |
| `ImportWalk.WalkEntries` | client/src/docs/prerender.tsx:90-91 | exactly what some entry reaches |
| `ImportWalk.WalkPage` | client/src/docs/prerender.tsx:92-96 | exactly what the site's chunk or the page reaches |
| `ImportWalk.SiteIsTheFirst` | client/src/docs/prerender.tsx:93-94 | the site's chunk is the first in the manifest that loads the page, and there is none exactly when no chunk does |
| `ImportWalk.StylesInOrder` | client/src/docs/prerender.tsx:98-101 | styles come chunk by chunk, and in a chunk as it lists them |
| `ImportWalk.DocsAssets` | client/src/docs/prerender.tsx:83-103 | each chunk the page needs and no entry reaches, once, and exactly their styles less those already loaded; both in the order they are first found; it fails exactly when something needed is missing |
| `KitStore.MemoryStore.Claim` | packages/sdk/src/server.ts:146-153 | with pruning, a claim answers as in a store that never forgets, and its claims are that store's |
| `KitStore.MemoryStore.Prune` | packages/sdk/src/server.ts:151-151 | drops exactly the claims that have ended |
| `KitStore.MemoryStore.Release` | packages/sdk/src/server.ts:154-156 | forgets exactly that claim |
| `KitStore.MemoryStore.Has` | packages/sdk/src/server.ts:157-160 | answers as a store that never forgets |
| `KitStore.ClaimStands` | packages/sdk/src/server.ts:143-162 | a granted claim nobody releases is found by every call before it ends, in any history of calls |
| `KitSessions.NonceSignsInOnce` | packages/sdk/src/server.ts:361-371 | a nonce signs in at most once when no handler stalls over a minute between reading and claiming it |
| `KitSessions.AMinuteIsExact` | packages/sdk/src/server.ts:82-84 | that minute is exact: stalls up to 60 seconds allow no second session, any longer stall does |
| `KitSessions.SignOutOutlivesTheCookie` | packages/sdk/src/server.ts:383-397 | a recorded sign-out answers at least until the cookie expires, seconds against milliseconds |
| `KitSessions.SignOutLength` | packages/sdk/src/server.ts:383-397 | to the second: it answers until the cookie expires, or for one second where it had |
| `KitSessions.SignedOutStaysOut` | packages/sdk/src/server.ts:253-275 | in any history, however often the session is signed out, its cookie is accepted exactly by a request that decoded it in time but asked the store once every recorded sign-out had ended, which is after the cookie expired |
| `KitSessions.SignedOutCookieGetsIn` | packages/sdk/src/server.ts:253-275 | it happens: a cookie good for 100 seconds, signed out at once, decoded in its last millisecond |
| `KitSessions.NoValidCopyAfterSignOut` | packages/sdk/src/server.ts:253-275 | no copy is accepted by a request whose question to the store comes while the cookie is valid |
| `KitOwners.RememberStaysSmall` | packages/sdk/src/server.ts:277-281 | one entry a session, at most ten thousand, the newest last |
| `KitOwners.LostStaysLost` | packages/sdk/src/server.ts:288-298 | a session found to have lost its account is refused without asking again until its entry is evicted as the oldest of ten thousand; no check under way can overturn it |
| `KitOwners.KeptAnswersAreFresh` | packages/sdk/src/server.ts:283-321 | a session kept without asking signed in, or had a check started, less than the configured time ago, and less than a minute ago if the chain did not answer |
| `KitOwners.OneCheckAtATime` | packages/sdk/src/server.ts:288-298 | a second check of a session starts only after the first was cleared |
| `KitOwners.WhatWasToldHolds` | packages/sdk/src/server.ts:283-321 | what the kit was last told of a session, by its sign-in or by the end of a check, is what it answers without asking again for as long as that is good: a confirmed one is kept, one the chain did not answer for is kept a minute, a lost one is refused; unless its entry made room |
| `KitOwners.WaitsOnlyForItsCheck` | packages/sdk/src/server.ts:288-298 | a session about which nothing stands waits for its check under way, or starts it |
| `KitOwners.OwnerChecks.RememberOwner` | packages/sdk/src/server.ts:277-281 | the map moves the session to the end and drops the oldest when full |
| `KitOwners.NeverAsked` | packages/sdk/src/server.ts:283-298 | with an infinite interval no check ever starts and every session is kept |
| `KitOwners.OwnerChecks.StillOwner` | packages/sdk/src/server.ts:288-298 | answers without asking when the interval is infinite, else from the entry, by joining the check under way, or by starting one |
| `KitOwners.OwnerChecks.EndCheck` | packages/sdk/src/server.ts:300-321 | remembers the chain's answer, or a shorter grace when it gave none |
| `KitPayments.InvStep` | packages/sdk/src/server.ts:399-447 | every step of every interleaving keeps each claim and each paying player held by exactly one request |
| `KitPayments.FulfilledAtMostOnce` | packages/sdk/src/server.ts:415-447 | of two requests for one payment, hash case ignored, at most one is being fulfilled or was accepted |
| `KitPayments.OneCheckPerPlayer` | packages/sdk/src/server.ts:399-412 | a player has at most one payment request in progress |
| `KitPayments.AcceptedForGood` | packages/sdk/src/server.ts:415-447 | after a payment was accepted no other request for it is ever fulfilled |
| `KitPayments.OthersKeepTheirClaims` | packages/sdk/src/server.ts:436-444 | no step, release included, drops another request's claim or reservation |
| `KitPayments.RefusedOnlyWhenTaken` | packages/sdk/src/server.ts:436-437 | a verified payment is fulfilled exactly when no other request holds it |
| `KitPayments.FailureReleases` | packages/sdk/src/server.ts:439-445 | after the site failed to fulfil a payment the next request for it can be |
| `KitVerdicts.OnlyVerifiedIsFulfilled` | packages/sdk/src/server.ts:415-447 | in every history a payment being fulfilled or accepted was looked up, then verified under that very hash while nobody held it; an accepted one was fulfilled |
| `KitVerdicts.VerdictsDecide` | packages/sdk/src/server.ts:426-437 | a verified payment is fulfilled unless taken, a rejected one refused, one not found yet asked for again exactly five times and then refused; only a verified one claims anything |
| `KitVerdicts.TurnedAwayOnlyWhilePaying` | packages/sdk/src/server.ts:399-407 | a player is turned away exactly while another request of theirs is in progress |
| `KitVerdicts.LookUpsDecide` | packages/sdk/src/server.ts:415-425 | a payment that was found is checked next, and without one the request is refused |
| `KitVerdicts.FulfilmentDecides` | packages/sdk/src/server.ts:438-446 | the site's answer accepts the payment and keeps it taken, or refuses it and frees it |
| `KitVerdicts.EndsFreeThePlayer` | packages/sdk/src/server.ts:408-412 | a request that ends keeps its answer and frees its player |
| `KitPayments.PaymentRoute.EnterRequest` | packages/sdk/src/server.ts:399-407 | reserves the player or refuses, in one step |
| `KitPayments.PaymentRoute.Check` | packages/sdk/src/server.ts:426-437 | the retry loop's next turn, the verdict, and the claim in the store, which is for good |
| `KitPayments.PaymentRoute.Fulfil` | packages/sdk/src/server.ts:438-446 | keeps the claim on success and releases exactly it on failure |
| `KitPayments.PaymentRoute.FinishRequest` | packages/sdk/src/server.ts:408-412 | frees the player however the request ended |
| `Relayer.Relayer.StartRequest` | server/relayer.ts:207-214 | checks and reserves the account in one step, for a relayed call and for the faucet |
| `Relayer.Relayer.JudgeRequest` | server/relayer.ts:216-226 | decides from what the chain says which limits apply, or refuses when it does not answer |
| `Relayer.Relayer.SimulateRequest` | server/relayer.ts:125-137 | only what simulates is handed to the send lock |
| `Relayer.Relayer.BeginRequest` | server/relayer.ts:137-137 | the lock starts a job only when the promise chain says so |
| `Relayer.Relayer.Take` | server/rate-limit.ts:52-64 | one limiter answers as one that never forgets; the calls of every other stay as they were |
| `Relayer.Relayer.SpendGas` | server/relayer.ts:153-157 | the day's gas limiter answers as one that never forgets |
| `Relayer.Relayer.BeforeSend` | server/index.ts:169-176 | the limiters asked, in order, and which of their calls let the transaction through, are those of its kind: a visitor's and everyone's deployments, grants, an account's unpaid restrictions, then the gas; none for what defends an account |
| `Relayer.Relayer.EstimateRequest` | server/relayer.ts:137-150 | the running job throws, or passes every limit and sends with twelve tenths of its estimate |
| `Relayer.Relayer.SendRequest` | server/relayer.ts:149-151 | a sent transaction enters the log once; a failed send rejects the job and logs nothing |
| `Relayer.Relayer.LetGoRequest` | server/rate-limit.ts:80-80 | a settled job's tail settles, whether the job resolved or rejected |
| `Relayer.Relayer.ResumeRequest` | server/relayer.ts:239-247 | remembers a grant only once sent, and frees exactly its own reservation |
| `Relayer.Relayer.ConfirmRequest` | server/relayer.ts:243-247 | frees the account once its transaction is in a block |
| `RelayerRuns.HeldStep` | server/relayer.ts:207-248 | every step keeps each account in flight, and each being granted, held by exactly one request |
| `RelayerRuns.LockStep` | server/relayer.ts:137-151 | every step keeps each request's stage in step with its job's promise at the lock, and the chain in order |
| `RelayerRuns.LogStep` | server/relayer.ts:125-151 | every step keeps the log: in lock order, one entry for each request that was answered with a transaction |
| `RelayerRuns.FaucetStep` | server/relayer.ts:275-308 | every step keeps the faucet's memory apart from its reservations and its grants unique |
| `RelayerRuns.BooksStep` | server/relayer.ts:153-157 | every step keeps, for each of the five limiters, each transaction let through paid for by its own granted call |
| `RelayerRuns.ChargesStep` | server/relayer.ts:137-150 | every step keeps each transaction charged to exactly the limiters of its kind, under the right key, with its estimate as its gas |
| `RelayerSafety.GrantedOnce` | server/relayer.ts:275-308 | for every interleaving no account is sent two grants, nor one if it was remembered as paid |
| `RelayerSafety.RememberedExactly` | server/relayer.ts:301-307 | an account is remembered exactly when it was at the start or its grant was sent and its request is done |
| `RelayerSafety.OneInFlight` | server/relayer.ts:208-214 | two relayed requests for one account are never both past their check, and no step frees another's reservation |
| `RelayerSafety.NoCopyInFlight` | server/relayer.ts:208-248 | when a transaction is sent for an account, every earlier one for it is in a block or was waited out |
| `RelayerSafety.BusyOnlyWhileHeld` | server/relayer.ts:208-214 | a relayed request is turned away as busy exactly while another request holds its account |
| `RelayerSafety.PaidOnlyOnce` | server/relayer.ts:278-281 | the faucet turns an account away exactly when it was paid before or is being paid |
| `RelayerSafety.OneSendAtATime` | server/relayer.ts:137-151 | two requests are never between their gas estimate and the end of their send at once |
| `RelayerSafety.SentInOrder` | server/relayer.ts:137-151 | transactions are sent in the order their requests simulated and were handed to the lock |
| `RelayerSafety.FailuresHoldNobodyUp` | server/rate-limit.ts:75-83 | after a refusal or a failed send the next request in line can go on |
| `RelayerSafety.AnswersAreHonest` | server/relayer.ts:125-151 | a request is answered with a transaction exactly when one of its own was sent |
| `RelayerLimits.WithinTwoLimits` | server/index.ts:68-76 | in any day-long interval what was sent takes at most two limits: of a visitor's deployments, of all deployments, of grants, of an account's unpaid restrictions, and of estimated gas |
| `RelayerLimits.WithinTheLimit` | server/relayer.ts:66-72 | and in one window of a limiter at most its limit; gas as estimated |
| `RelayerLimits.GasLimitsWithinADay` | server/relayer.ts:149-149 | the gas that transactions are sent with is at most 24 tenths of the budget in any day-long interval |
| `RelayerLimits.GasLimitsWithinAWindow` | server/relayer.ts:149-149 | and at most 12 tenths of it in one budget window |
| `RelayerLimits.LimitsFollowEstimates` | server/relayer.ts:149-149 | gas sent with and gas counted differ by exactly the factor 12/10, up to rounding each transaction down |
| `RelayerLimits.SentBeyondTheBudget` | server/relayer.ts:149-149 | that bound is met: a history in which one transaction takes the whole budget and is sent with a fifth more |
| `RelayerLimits.StepUses` | server/relayer.ts:137-157 | an event uses up some of a limiter exactly when it is a request's gas estimate and the limiter was asked and did not refuse; no other event, a failed send included, changes any counter |
| `RelayerLimits.UsedUpExactly` | server/relayer.ts:121-151 | in every history a request has used some of a limiter exactly when it was let through or its send failed and the limiter is one of its kind, or it was refused by a later one: by the gas budget after any other, or by everyone's deployments after its visitor's |
| `RelayerLimits.RefusedForNothing` | server/relayer.ts:121-151 | a decision takes some limit without letting the transaction go exactly when its first limiter would grant and a later one would not |
| `RelayerLimits.NoGrantLeft` | server/relayer.ts:288-292 | it happens: with one grant a day, a grant refused for its gas leaves nobody a grant for that day, though none was sent |
| `RelayerSafety.DefencesGetThrough` | server/relayer.ts:250-263 | a request found to defend its account is never refused for a budget, whatever happens until it ends |
| `RelayerSafety.DefencesIgnoreTheBudgets` | server/relayer.ts:226-238 | what the budgets have left changes nothing about it, and it uses nothing of them |
| `RelayerVerdicts.ReadingsDecide` | server/relayer.ts:216-221 | a request goes on, as a defence, as past its account's cap, or as neither, exactly by its function, kind and what was read of the account; it is unreadable exactly when the chain did not say what it needs, or the faucet has too little |
| `RelayerVerdicts.JudgedForGood` | server/relayer.ts:216-221 | and keeps those limits for good |
| `RelayerVerdicts.ChargedByKind` | server/relayer.ts:226-237 | in every history a sent transaction used an unpaid share exactly if it is a restriction read past its cap and no defence, the gas budget exactly unless it was read as a defence, and the routes' limits exactly if it is a deployment or a grant |
| `RelayerVerdicts.UnpaidWithinTwoShares` | server/relayer.ts:66-67 | in any day-long interval one account has at most two shares of restrictions read past its cap sent |
| `RelayerVerdicts.LimitsDecide` | server/relayer.ts:137-150 | a transaction is let through exactly when its gas is known and fits and every limiter of its kind would grant; otherwise the first in order that would not is the reason |
| `RelayerVerdicts.StepsDecide` | server/relayer.ts:125-307 | in every history each other step takes its request where what was answered and what others hold say, with the reason it was refused for |
| `ConnectSite.FailuresCarryTheReport` | packages/sdk/src/connect.ts:209-222 | for every order of events: any failure after a reported hash carries it, and a closed or relay failure after a reported send carries its account and nonce |
| `ConnectSite.SettlesOnce` | packages/sdk/src/connect.ts:201-209 | a request settles at most once: its answer never changes |
| `ConnectSite.PostsAtMostOnce` | packages/sdk/src/connect.ts:220-244 | it posts at most one message, only to a ready popup, and never both posts and closes the window |
| `ConnectSite.EndedLeavesTheWindow` | packages/sdk/src/connect.ts:218-229 | once ended it does nothing more to the window, which a retry may be using |
| `ConnectSite.SilenceIsUnavailable` | packages/sdk/src/connect.ts:255-269 | a silent or closed window is reported as unavailable exactly when the popup never announced itself, and as closed otherwise |
| `ConnectSite.EveryAnswerHasItsCause` | packages/sdk/src/connect.ts:198-269 | exactly which events answer an open request and with what: the popup's result or error for it, its values failing, silence, a closed window; nothing else does |
| `ConnectSite.PostsWhenReady` | packages/sdk/src/connect.ts:220-244 | the request is due exactly once the popup is ready and its values have come, and given up exactly once they have failed |
| `ConnectSite.HexTexts` | packages/sdk/src/connect.ts:245-246 | a reported hash is taken exactly if it is `0x` and hexadecimal digits |
| `ConnectSite.NonceRange` | packages/sdk/src/connect.ts:247-249 | a reported nonce is taken exactly if it has at most 78 digits |
| `ConnectSite.VeraKeyConnect.Open` | packages/sdk/src/connect.ts:181-192 | refused exactly while another request is open or when the window is blocked |
| `ConnectSite.PendingRequest.FailWith` | packages/sdk/src/connect.ts:209-219 | settles with the hash, or with the payment on its way where that may still land |
| `ConnectSite.PendingRequest.OnMessage` | packages/sdk/src/connect.ts:230-253 | each message has its specified effect; the connection is freed by exactly the message that settles |
| `ConnectSite.PendingRequest.OnPost` | packages/sdk/src/connect.ts:235-243 | the request is posted unless it ended first |
| `ConnectSite.PendingRequest.OnFail` | packages/sdk/src/connect.ts:220-229 | the window is closed only by a request still open |
| `ConnectSite.PendingRequest.OnReadyTimeout` | packages/sdk/src/connect.ts:255-257 | fails only a popup that never answered |
| `ConnectSite.PendingRequest.OnClosedPoll` | packages/sdk/src/connect.ts:258-269 | a closed window fails as unavailable before the popup was ready and as closed after |
| `ConnectPopup.PaymentsAreUnderstood` | packages/sdk/src/connect.ts:68-83 | the popup reads back a site's payment request, amount and all, exactly when the amount is positive and below 2^128 |
| `ConnectPopup.PopupAcceptsOnce` | client/src/pages/connect/useConnectRequest.ts:29-39 | one request a window, for good; what the page answered is never taken back |
| `ConnectPopup.PopupAnswersOnce` | client/src/pages/connect/useConnectRequest.ts:40-55 | the page answers only the site and request it accepted, with at most one final message and nothing after it |
| `ConnectPopup.VerdictIsExact` | packages/sdk/src/connect.ts:94-107 | the gate's verdict on any message, with each refusal's code, from its window, envelope, origin, the request being served and what it asks |
| `ConnectPopup.ParsesWhatIsAsked` | packages/sdk/src/connect.ts:68-83 | a message is read as a request exactly when it asks for just that, amounts in their one decimal text |
| `ConnectPopup.ServesTheFirstAsked` | client/src/pages/connect/useConnectRequest.ts:29-39 | in every history the popup serves the first thing its opener asked of it from an allowed origin, and nothing before that |
| `ConnectPopup.RepliesSayWhatThePageSaid` | client/src/pages/connect/useConnectRequest.ts:40-55 | until the final answer each thing the page says goes, as said, to the site it serves |
| `ConnectPopup.ConnectRequestHook.OnMessage` | client/src/pages/connect/useConnectRequest.ts:30-45 | ignores, rejects or accepts as the gate says, and sets its flags accordingly |
| `ConnectPopup.ConnectRequestHook.Post` | client/src/pages/connect/useConnectRequest.ts:41-45 | nothing is posted after the final answer |
| `ConnectJoint.JointReachable` | packages/sdk/src/connect.ts:230-253 | site, popup and the messages between them, in every order: what the site heard and what is under way is what the popup said about its request; the request is asked once; the popup said nothing before it, its replies once it accepted, one error otherwise |
| `ConnectJoint.NoReportIsLost` | client/src/pages/connect/useConnectRequest.ts:40-55 | when the popup ended a request, the site had heard everything the popup ever says about it, then or later, and a failure carries the last report |
| `ConnectJoint.FailuresTellWhatWasHeard` | packages/sdk/src/connect.ts:209-222 | however else a request ends, its failure tells the first of what the popup said, in the popup's order |
| `ConnectJoint.DecidedOnce` | client/src/pages/connect/useConnectRequest.ts:29-39 | the popup accepts or turns away the site's request once, for good, whatever other windows send it |
| `ConnectJoint.FateIsExact` | client/src/pages/connect/useConnectRequest.ts:29-39 | the site's request is accepted exactly from an allowed origin, by a popup that serves nothing yet, when it asks something; otherwise it is posted the error that says why |
| `ConnectJoint.AcceptedWasAllowed` | packages/sdk/src/connect.ts:101-103 | and was accepted only from an allowed origin |
| `ConnectJoint.ResultsAreThePages` | client/src/pages/connect/useConnectRequest.ts:50-54 | the result a site gets is one its popup's page gave |
| `ConnectJoint.ResultsAreTheRequests` | client/src/pages/connect/useConnectRequest.ts:29-55 | a site gets a result only if the popup was serving the very request it made, and gave that result as its last answer |
| `ConnectJoint.PaidAsAsked` | packages/sdk/src/connect.ts:172-179 | a payment the site is told of was accepted by the popup with exactly the payee, amount and account the site asked for |
| `ConnectSession.NothingMeansNothingReported` | packages/sdk/src/session.ts:175-186 | for every order of events `pay` resolves to nothing exactly when the player cancelled with no hash reported, or the window closed with neither a hash nor a send reported |
| `ConnectSession.KnownPaymentsAreKept` | packages/sdk/src/session.ts:175-198 | a payment known to be sent or on its way is accepted by the server or kept in the error |
| `ConnectSession.ErrorsSayWhy` | packages/sdk/src/session.ts:166-198 | an error carries the popup's code where nothing is known to be sent, and otherwise what the site's server answered |
| `ConnectSession.OpensWhenFree` | packages/sdk/src/connect.ts:181-192 | a request is opened exactly when none is open and the browser lets the window open |
| `ConnectSession.NonceSurvives` | client/src/pages/connect/useConnectRequest.ts:50-51 | the nonce the popup reports reaches the site as the same number |
| `ConnectSession.OneRequestAtATime` | packages/sdk/src/connect.ts:181-208 | a connection is busy exactly while a request is open, and never has two, whatever callbacks of earlier ones still run |
| `ConnectSession.VeraKeySession.StartPayment` | packages/sdk/src/session.ts:135-141 | a payment starts exactly for a signed-in player, one at a time, at a site that takes payments, and is refused for the first of these that fails |
| `ConnectSession.VeraKeySession.EndPayment` | packages/sdk/src/session.ts:175-198 | the outcome is the specified one and the next payment may start, however this one ended |
| `ConnectSession.VeraKeySession.ConfirmPayment` | packages/sdk/src/session.ts:166-173 | a refusal keeps the payment in the error, and only a 401 signs the player out |

## Left out

- Cryptography (circuits, proof verification, Poseidon, P-256, passkey PRF) and `verifySignIn`, `verifyPayment`,
  `verifyDisclosure`: their verdicts are inputs.
- AccountContract.VeraKeyAccount.Authorize: sees the client data's bytes as their challenge, payee, total and faults; that the
  bytes bind these is `ClientData`'s, and the two are not joined byte by byte.
- u64 wrap-around of the nonce, of epochs and of times: unbounded numbers, as stated above.
- Values the contract only passes on (app id, factory, verifier, token, rpId hash, origin), events, views, gas, storage packing.
- The factory, the link validator and the Kernel module: other contracts.
- Crashes and several processes: the faucet file is what a restart reads; a crash between a send and its write is not modelled.
- KitSessions: an unreachable store, which the kit treats as not knowing of a sign-out, is not modelled.
- KitPayments: reading the body, finding a payment by its nonce and asking the node again are steps whose answers are inputs.
- The requests a visitor or an account may make a minute, and the faucet's per visitor: they are taken before the relayer is
  asked. The random delay before sending is part of the interleaving.
- RelayerSpec: a gas estimate is positive, and a send that fails has sent nothing, although a node may have taken it.
- ConnectSite: the popup's error text and revert name, which the site only passes on; the JavaScript `cause`.
- ConnectPopup: parsing the requester's URL, and address checksums, arrive as verdicts.
- ConnectSession.VeraKeySession.StartPayment: loading, subscribing and signing in are not modelled, only what a payment meets.
- ConnectJoint: the browser delivers each window's messages in order and loses none while the window listens; nobody else
  sends the popup a message with the site's origin and the request's random id; the popup is not reloaded.
- VisitorAddress: the daily secret and the HMAC over the key; text that is no IPv6 address is returned as it is.
- Base64Url.Encode32: each round's four stores are grouped in one helper.
- Pages, components, documentation search and highlighting, Express wiring, cookies, networking.
