# The smart wallet: a verified model

This project models the V3 abstract-account wallet for Neo N3 and proves what its documentation and
tests promise. It covers four parts.

1. **The reentrant wallet.** One contract keeps account records, nonce cursors, pending rotations and
   staged calls, dependency rosters, market escrows and a reimbursement budget, and calls untrusted
   verifiers, hooks, targets, markets and paymasters that may call back into any entry point.
2. **The transaction-script recogniser and the compiler that feeds it**, with a NeoVM-style decoder and
   stack machine to say what scripts mean.
3. **The signing preimage**, a canonical encoder.
4. **The daily-limit hook**: fixed and rolling windows, pruning, and balance metering.

## How the wallet is modelled

| file | content |
|---|---|
| `Records.dfy` | the stored book, the events that change it, and `Legal`: a sequential protocol without nesting |
| `Machine.dfy` | the wallet as a function over finite callback trees: `Behaviour` lists the entry points an external contract calls back, each carrying its own callees |
| `Guarantee.dfy`, `Soundness.dfy` | the invariant and rely/guarantee relation of every entry point, by one induction over all callback trees; every log of the machine is legal |
| `Journal.dfy`, `Authority.dfy` | what any legal log implies: nonces, staged rotations and calls, rosters, escrow |
| `Runs.dfy`, `Histories.dfy` | theorems about nested calls and whole histories of transactions |
| `Timelocks.dfy` | every recorded time is the block time of its own transaction, and what the timelocks therefore say of block times |
| `Entries.dfy` | when the configuration entry points return and exactly what they store, said of the book and the arguments alone |
| `Batches.dfy` | a batch by positions: its operations first to last, each in the wallet that the one before it left |
| `Access.dfy`, `Effects.dfy`, `Rotation.dfy`, `Cancellation.dfy`, `Staging.dfy`, `Pending.dfy`, `Reclaim.dfy`, `Reimbursement.dfy` | what each entry point needs, exactly when it returns, and what it then leaves, for every behaviour of its callees |
| `Callbacks.dfy` | which callbacks of a hook a callback tree can have the wallet make as an operation's target call |
| `Sessions.dfy`, `Metering.dfy`, `Nesting.dfy`, `LimitRuns.dfy` | the daily-limit hook together with the wallet that calls it: the hook's calls as values, exactly which operations are fully metered, the operation that is not, and whole runs |
| `Scenarios.dfy` | concrete histories that show exceptions and an assumption to be real |
| `Wallet.dfy` | the contract itself: a class with one field per storage prefix, explicit puts, deletes and `finally` clears; every method ends exactly as its machine function says |
| `Nonces.dfy`, `Witness.dfy` | the nonce domain and its storage keys; witness rules and capability queries |

The remaining files are `Bytes`, `Values`, `Parameters` (encodings and stack items), `Script`,
`Recogniser`, `StackMachine`, `ScriptTheorems`, `Compiler`, `Preimage`, `Digests` (what a staged call
hashes), and `DailyLedger`, `DailyExact`, `DailyHistory`, `DailyLimit` (one token's accounting, exactly which
outflows it lets through, the record store, and the hook's class).

Conventions:

- A failed `ExecutionEngine.Assert` aborts the transaction and rolls every write back; a throw unwinds
  through the `catch` and `finally` blocks. Whether a throw also drops the writes of the contract it
  leaves is the environment's `throwDropsWrites`. On Neo N3 it does. Every theorem holds for both
  answers except the one about pending updates, which says so.
- Inputs the wallet cannot control are parameters: the running transaction with its fee and block time, witnesses, the caller's hash, whether a
  module's interface probe answers true, false, throws or aborts, the roster a module reports, and the
  hash that registration parameters lead to. Read-only callees are given by their reply.
- A hash is a natural number and 0 is the zero hash. In the wallet model SHA-256 over a method and its
  arguments is a constructor, so it is collision-free by construction; `Digests.dfy` says in bytes what
  that stands for: equal call hashes mean the same call, or two named byte strings collide.
- A `View` is what the wallet shows at a moment at which foreign code takes or regains control. Statements
  that hold "throughout" are about all views, also those of calls that are rolled back; a rollback marks
  the views it undoes as not `kept`. The view at which an operation's target returns shows the operation.
- Of an operation's arguments the wallet's model carries their number and size and the account or contract
  that the first one names. What the hook reads from the others is part of each of its calls.
- `Session` is one operation of the account as its daily-limit hook sees it: the two callbacks, every call
  of the hook in between with its caller and the contexts that the wallet then shows, the balances, and
  whether the operation ends normally. `SessionOf` takes operation, contexts and ending from the wallet's
  own run of the operation, and `Occurs` demands that the calls the core makes to the hook's callbacks in
  between are exactly the target calls that the wallet made to them in that run, in their order.
- The block time belongs to the running transaction, so everything that is nested in it sees the same one.
- The verifier and the hook form of an entry point differ in a `Role` argument only.
- The notifications of the model carry more than the contract's events do; they are the log that the
  theorems about runs speak of.

Where code and documentation differ, the model follows the code:

- `application_script` in `scripts/neoexpress_native_proxy_validate.py` packs four arguments. The
  recogniser in `UnifiedSmartWallet.VerifyContext.cs` accepts two only, so it rejects every such script
  (`FourArgumentTailIsRejected`).
- `ConfirmVerifierUpdate` and `ConfirmHookUpdate` store the record they loaded before the cleanup
  callback. A confirmation that returns therefore leaves the escape timer as it was on entry, unless the
  set-up of a new verifier, which runs after the store, has an operation stop it (`TimerAfterConfirmation`).
  So an escape that an operation cancels during the cleanup is running again afterwards
  (`CancelledEscapeRestarts` is such a history). A due confirmation keeps every cancellation if and only if
  on entry no escape is running or no module is installed in the role (`CancellationSurvivesExactly`).
  Verifier, hook, owner and timelock are not affected.
- `CleanupDependency` overwrites and then deletes the configuration key of an enclosing root context. So
  the present context keys are as many as the depth counter says or one fewer (`EveryViewIsBounded`);
  `DepthRunsAhead` is a history in which they are fewer. After an enrolment keys and depth agree if and
  only if it was made at rest or no child left (`EnrolmentKeyCount`).
- `docs/reports/legacy-policy-semantics-20261008.md` says that the daily limit meters every configured
  token's realized net debit. But the wallet lets the target call of an operation be a callback of a hook,
  and then the core is the hook's caller. If the target of an operation has an operation of another account
  executed whose target call is `preExecute` or `postExecute` of the first account's hook for that account,
  the hook takes its snapshots again, or meters early and deletes them, and what leaves just before or just
  after is not charged (`AimedHidesTheOutflow`; `NestedOperationEscapesTheLimit` is a history for each of
  the two). Every outflow is charged if and only if no operation nested in the target is such a callback
  (`MeteredExactly`); an operation in whose tree there is none is always metered
  (`AvoidingOperationsAreMetered`).

## Model

| member | source | states |
|---|---|---|
| Soundness.PerformSound | contracts/UnifiedSmartWallet.Internal.cs:36-167 | For every finite callback tree: no underflow, and if the tree does not abort, depth, locks and log discipline are kept, everything but nonces, timers, rosters and budget is frozen under any active context, and locked accounts and closed rosters are untouched |
| Soundness.EnterSound | contracts/UnifiedSmartWallet.Internal.cs:36-167 | The same for one nested entry point with all its callees |
| Soundness.FinallySound | contracts/UnifiedSmartWallet.Execution.cs:75-208 | Setting a context, running anything that keeps the guarantee, and clearing it in a `finally` block keeps it, and freezes configuration meanwhile |
| Soundness.CleanupSound | contracts/UnifiedSmartWallet.Composite.cs:164-177 | A cleanup that completes is on record as completed during this call, and changed no configuration |
| Soundness.ConfirmSound | contracts/UnifiedSmartWallet.Accounts.cs:196-247 | A confirmation keeps the guarantee although it stores a record loaded before an untrusted callback |
| Soundness.FinalizeSound | contracts/UnifiedSmartWallet.Escape.cs:61-166 | Finalizing an escape keeps the guarantee across two cleanups and a set-up callback |
| Soundness.SettleSound | contracts/UnifiedSmartWallet.MarketEscrow.cs:80-149 | A settlement keeps the guarantee across both cleanups |
| Soundness.MaintenanceSound | contracts/UnifiedSmartWallet.Composite.cs:32-83 | Replacing or clearing a roster under the maintenance lock, after any sound cleanups, keeps the guarantee |
| Soundness.RosterHeld | contracts/UnifiedSmartWallet.Composite.cs:32-83 | Whatever the cleanups call back into, the roster under maintenance does not move until they are over |
| Soundness.OwnWritesSound | contracts/UnifiedSmartWallet.Execution.cs:119-132 | An operation's own writes touch its account only, and cancelling the escape does not disturb its nonce check |
| Soundness.ReserveSound | contracts/UnifiedSmartWallet.Paymaster.cs:53-84 | The branch-free cap arithmetic meets the protocol's cap |
| Runs.HistoriesAreLegal | contracts/UnifiedSmartWallet.Internal.cs:36-167 | After every history of transactions the wallet is at rest, its log obeys the sequential protocol, and its storage is what the log replays to |
| Runs.HistoriesExtend | contracts/UnifiedSmartWallet.Execution.cs:235-252 | A log is never rewritten, and a transaction that does not commit leaves log and storage as they were |
| Runs.EveryViewIsBounded | contracts/UnifiedSmartWallet.Internal.cs:36-150 | Throughout every history, committed or not, whenever foreign code has control: context keys are as many as the depth counter says or one fewer, and execution keys are under their lock |
| Runs.ContextsAreBalanced | contracts/UnifiedSmartWallet.Internal.cs:36-150 | For every exit of a nested call: depth restored, no key appears, no execution key disappears, keys never outnumber the depth, and the underflow assertion cannot fail |
| Runs.ExecutionIsIsolated | contracts/UnifiedSmartWallet.Execution.cs:66-209 | While any account executes, a nested call that ends has changed no account's authority, pending records, rosters or escrow, nor anything of the executing account |
| Runs.IsolationHoldsThroughout | contracts/UnifiedSmartWallet.Execution.cs:66-209 | The same at every moment of the nested call, even one that is rolled back; and no configuration context of the executing account appears |
| Runs.OperationRunsOnce | contracts/UnifiedSmartWallet.Execution.cs:66-209 | An operation that returns has used exactly the next nonce of its channel and left its record alone except for the escape timer, whatever was called back |
| Runs.CalleesKeepTheAccount | contracts/UnifiedSmartWallet.Execution.cs:134-199 | From the pre-execution hook on, at every moment and at the end, the stored record of the executing account is the one the post hooks are chosen by, and its nonces stand still |
| Runs.ValidateRunsOnce | contracts/UnifiedSmartWallet.Execution.cs:86-200 | Under the locks already taken, an operation that returns has used its own nonce once and stopped the escape timer, and nothing else of its account |
| Runs.BatchRunsEach | contracts/UnifiedSmartWallet.Execution.cs:240-252 | A batch that returns has advanced each channel of the account by exactly its number of operations on that channel; for their order see Batches |
| Batches.BatchReturnsExactly | contracts/UnifiedSmartWallet.Execution.cs:240-252 | A batch returns if and only if it has 1 to 32 operations and they return first to last, each executed alone in the wallet that the one before it left; it ends in the last of these |
| Batches.OperationUsesItsNonce | contracts/UnifiedSmartWallet.Execution.cs:303-323 | An operation that returns has logged the use of its own nonce, its upper 192 bits as channel and its lower 64 as sequence |
| Batches.BatchUsesItsNoncesInOrder | contracts/UnifiedSmartWallet.Execution.cs:240-252 | A batch that returns has logged the nonces of its operations at positions in the order of the batch, whatever is called back in between |
| Histories.NoncesRunOnceAndInOrder | contracts/UnifiedSmartWallet.Execution.cs:303-323 | The same as for logs, said of every history with every nesting of callbacks and of the stored cursor |
| Histories.AuthorityChangesAreStaged | contracts/UnifiedSmartWallet.Escape.cs:61-166 | If a non-zero verifier or hook differs after any continuation of a history, it was replaced in between by a rotation requested 24 hours of block time before, by a recovery initiated the account's own timelock of block time before, or by a settlement, and earlier in that same transaction its own cleanup completed under its own configuration context |
| Histories.DepartedChildrenWereCleaned | contracts/UnifiedSmartWallet.Composite.cs:32-83 | If a child leaves a stored roster in any continuation of a history, then earlier in the transaction that replaced or cleared the roster the child's own cleanup completed under its own configuration context |
| Histories.ConfirmedChildCallsWereStaged | contracts/UnifiedSmartWallet.VerifierChildren.cs:66-76 | In every history a confirmed child call was staged in a block at least 24 hours before, undisturbed since, for the same child, method, arguments, ordered roster and verifier threshold |
| Histories.EscrowParksTheAccount | contracts/UnifiedSmartWallet.MarketEscrow.cs:38-64 | Through every continuation in which the escrow does not end, record, nonce cursors, market and listing stay as they are |
| Timelocks.TimesAreBlockTimes | contracts/UnifiedSmartWallet.Accounts.cs:499-531 | In every history, with every nesting: the time that a request, staging, confirmation, initiation, recovery, reclaim or forced exit records is the block time of the transaction that wrote it |
| Timelocks.ConfirmedCallsWaitedADay | contracts/UnifiedSmartWallet.Accounts.cs:510-531 | In every history a confirmed maintenance call was staged, with the same module, method and arguments, in a block at least 86 400 000 ms earlier, and neither restaged, confirmed nor swept in between |
| Timelocks.RotationsWaitADay | contracts/UnifiedSmartWallet.Accounts.cs:196-247 | In every history a confirmed rotation was requested, for the same module, in a block at least 86 400 000 ms earlier, and neither replaced nor removed in between |
| Timelocks.RecoveriesWaitTheTimelock | contracts/UnifiedSmartWallet.Escape.cs:61-166 | In every history a recovery was initiated the account's own timelock, of 7 to 90 days, of block time before |
| Timelocks.InitiationsCoolDown | contracts/UnifiedSmartWallet.Escape.cs:18-43 | In every history two initiations for one account with neither recovery nor sale in between are in blocks an hour apart |
| Timelocks.ForcedExitsWaitAWeek | contracts/UnifiedSmartWallet.MarketEscrow.cs:183-202 | In every history a forced exit from escrow was started in a block a week earlier and ran undisturbed |
| Journal.NoncesAreConsumedInOrder | contracts/UnifiedSmartWallet.Execution.cs:288-323 | In every run the operations of an (account, channel) carry 0, 1, ..., cursor - 1, once each, and the cursor never exceeds 2^64 |
| Journal.EscapeTimerHasASource | contracts/UnifiedSmartWallet.Escape.cs:18-43 | A running escape timer was set by an initiation that is in the log |
| Journal.AccountsAreWellFormed | contracts/UnifiedSmartWallet.Accounts.cs:69-104 | Every account ever stored has a backup owner and an escape timelock between 7 and 90 days |
| Authority.AuthorityIsStaged | contracts/UnifiedSmartWallet.Accounts.cs:154-377 | In every legal log a non-zero verifier or hook changes only by a confirmation of a request never replaced or cancelled and recorded at least 24 hours earlier, by an escape recorded its timelock earlier, or by a settlement to zero, each after a cleanup of the old module no older than the event's recorded start; Timelocks says that recorded times are block times |
| Authority.OwnershipIsStable | contracts/UnifiedSmartWallet.PlatformRegistrar.cs:101-128 | The owner changes only by registrar rotation of a bound account with no escape running, or by settlement; the timelock never changes |
| Authority.PendingIsStaged | contracts/UnifiedSmartWallet.Accounts.cs:178-189 | A pending update is exactly a request that nothing has replaced, cancelled or swept since |
| Authority.ConfirmedCallsWereStaged | contracts/UnifiedSmartWallet.Accounts.cs:510-531 | In every legal log a confirmed maintenance call has an earlier staging of the same module, method and arguments, recorded at least 24 hours earlier, with no other staging of the slot in between |
| Authority.StagingsAreSpentOnce | contracts/UnifiedSmartWallet.Accounts.cs:510-531 | No staging is confirmed twice |
| Authority.PendingCallIsStaged | contracts/UnifiedSmartWallet.Accounts.cs:499-508 | A pending call is exactly a staging that nothing has replaced, confirmed or swept since |
| Authority.RostersAreEnrolled | contracts/UnifiedSmartWallet.Composite.cs:149-162 | Stored rosters are duplicate-free, without zero, and have at most ten children, in every run |
| Authority.ChildrenLeaveCleaned | contracts/UnifiedSmartWallet.Composite.cs:32-83 | In every legal log a child leaves a stored roster only after a cleanup of it no older than the recorded start of that maintenance |
| Authority.EscrowFreezes | contracts/UnifiedSmartWallet.MarketEscrow.cs:38-149 | From entry until cancel, reclaim or settle, the record, all nonce cursors, the market and the listing of the account are constant |
| Authority.EscrowMarkersAgree | contracts/UnifiedSmartWallet.MarketEscrow.cs:232-256 | Market and listing markers are both present or both absent, and then non-zero and positive |
| Access.ConfigurationNeedsTheOwner | contracts/UnifiedSmartWallet.Internal.cs:157-174 | Ten owner entry points do nothing without the owner's witness and a resting wallet, nor in escrow (outside it, for a reclaim) |
| Access.EscrowNeedsItsMarket | contracts/UnifiedSmartWallet.MarketEscrow.cs:237-244 | Only the recorded market naming the recorded listing cancels or settles |
| Access.RostersNeedTheirRoot | contracts/UnifiedSmartWallet.Composite.cs:127-147 | Only the installed root maintains its roster, at rest or in its own context, never twice at once or while its account executes |
| Access.OperationsAreAuthorized | contracts/UnifiedSmartWallet.Execution.cs:84-127 | An operation that returns was in time, accepted by its verifier or witnessed by the owner, and by the owner when an escape was running |
| Entries.RegistrationExactly | contracts/UnifiedSmartWallet.Accounts.cs:69-126 | A registration returns if and only if owner, timelock, identifier and modules are as required and the verifier's set-up returns; it stores exactly the given modules, owner and timelock with no escape running, and the set-up changes no configuration |
| Entries.PlatformRegistrationExactly | contracts/UnifiedSmartWallet.PlatformRegistrar.cs:59-76 | The registrar's registration returns if and only if its guards hold, and stores a record without modules, bound to the given bytes |
| Entries.OwnerRotationExactly | contracts/UnifiedSmartWallet.PlatformRegistrar.cs:101-128 | The registrar's rotation returns if and only if the account is bound to these bytes, neither on sale nor escaping, and changes the owner to the given one and nothing else |
| Entries.ModuleUpdateExactly | contracts/UnifiedSmartWallet.Accounts.cs:154-306 | An update returns if and only if the owner may change the account, the module answers its probe, and, with no module installed, a new verifier's set-up returns, or, with one, nothing is pending; it then installs exactly the given module and leaves nothing pending, or only records the request with the verifier's parameters and the block time |
| Entries.UpdateCancellationExactly | contracts/UnifiedSmartWallet.State.cs:276-307 | A request to cancel returns if and only if the owner asks at rest, and removes exactly the pending update of that role |
| Entries.EscapeInitiationExactly | contracts/UnifiedSmartWallet.Escape.cs:18-43 | An initiation returns if and only if the owner may change the account and an hour has passed since the last one, and starts timer and cooldown at the block time |
| Entries.EscrowEntryExactly | contracts/UnifiedSmartWallet.MarketEscrow.cs:38-64 | An entry returns if and only if the owner may change the account and the given market itself calls with a positive listing, and records exactly these |
| Entries.EscrowCancellationExactly | contracts/UnifiedSmartWallet.MarketEscrow.cs:66-74 | A cancellation returns if and only if the recorded market names the recorded listing and does not abort when told; it clears market, listing and reclaim before telling it |
| Entries.ReclaimInitiationExactly | contracts/UnifiedSmartWallet.MarketEscrow.cs:161-181 | The owner's reclaim of an escrowed account starts at the block time, and in no other case |
| Entries.ReclaimExactly | contracts/UnifiedSmartWallet.MarketEscrow.cs:183-202 | A forced exit returns if and only if the owner asks a week after the start and the market does not abort when told; it clears the escrow before telling it |
| Entries.RootCallExactly | contracts/UnifiedSmartWallet.Accounts.cs:536-592 | A root's maintenance call returns if and only if the owner asks for an allowed method, a roster to be adopted is valid, and the call is not staged yet, or is due and the module returns, run under its own key; it stages exactly this call at the block time, or spends it |
| Entries.ChildCallExactly | contracts/UnifiedSmartWallet.HookChildren.cs:11-62 | The same for a child: it must be in the roster that its root reports, the call must be one of its configuration methods for this account, and it runs under its own key; staged is the child, the method, the arguments and the roster's hash |
| Entries.SlotExactly | contracts/UnifiedSmartWallet.Accounts.cs:510-531 | A call that the slot does not hold is staged at the block time; one that it holds is spent when 24 hours are over, and refused before |
| Entries.AdoptionExactly | contracts/UnifiedSmartWallet.Composite.cs:85-102 | A roster that the root reports is adopted exactly as it is, where none is stored, if it is valid |
| Entries.EnrolmentExactly | contracts/UnifiedSmartWallet.Composite.cs:32-65 | An enrolment returns if and only if the installed root asks outside escrow, the roster is valid, and the stored children missing from it are cleaned up one after the other in their stored order, each in the wallet that the one before it left; then exactly the given roster is stored |
| Entries.ClearingExactly | contracts/UnifiedSmartWallet.Composite.cs:67-83 | A clearing returns if and only if the installed root asks, in escrow from its own configuration only, and all children, stored or else reported, are cleaned up in order; then the roster is deleted |
| Entries.CleanAllExactly | contracts/UnifiedSmartWallet.Composite.cs:42-58 | Cleanups return in a wallet if and only if there are wallets from the first to this one, each left by the cleanup of the next child in the one before |
| Entries.ConfirmationGuards | contracts/UnifiedSmartWallet.Accounts.cs:196-215 | The guards that ConfirmationReturnsExactly names: the owner may change the account, a request is 24 hours old, and the module answers its probe |
| Entries.RecoveryGuards | contracts/UnifiedSmartWallet.Escape.cs:61-75 | The guards that RecoveryReturnsExactly names: an escape runs for as long as the account's timelock says, and the owner asks at rest and outside escrow |
| Entries.ExecutionGuards | contracts/UnifiedSmartWallet.Execution.cs:335-355 | The guards that OperationReturnsExactly names: the account is neither executing nor on sale, and the operation's fields are within their limits |
| Entries.AdmissionGuards | contracts/UnifiedSmartWallet.Execution.cs:84-127 | An operation is admitted if and only if it is in time, carries the next sequence of its channel, and is accepted by the verifier, by the owner without one, and by the owner as well during an escape |
| Entries.AdmissionWrites | contracts/UnifiedSmartWallet.Execution.cs:118-132 | An admission stops a running escape and then stores the operation's sequence plus one for its channel, and writes nothing else |
| Entries.SettlementGuards | contracts/UnifiedSmartWallet.MarketEscrow.cs:80-84 | The guards that SettlementIsExact names: the recorded market names the recorded listing and a buyer, at rest |
| Rotation.ConfirmationReturnsExactly | contracts/UnifiedSmartWallet.Accounts.cs:196-247 | A confirmation returns if and only if its guards hold, the old module returns from its cleanup and a new verifier from its set-up, whatever they do meanwhile |
| Rotation.ConfirmationInstalls | contracts/UnifiedSmartWallet.Accounts.cs:311-377 | A confirmation that returns installed exactly the requested module, removed exactly that request, left every other field and every other account's authority alone, and is on record with its own start after the old module's cleanup |
| Rotation.TimerAfterConfirmation | contracts/UnifiedSmartWallet.Accounts.cs:196-247 | After a confirmation the escape timer is as on entry, unless the new verifier's set-up had an operation stop it after the store |
| Rotation.RecoveryReturnsExactly | contracts/UnifiedSmartWallet.Escape.cs:61-166 | A recovery returns if and only if its guards hold and both old modules and the new verifier return |
| Rotation.RecoveryInstalls | contracts/UnifiedSmartWallet.Escape.cs:61-166 | A recovery that returns left the new verifier, no hook, no timer and nothing pending, on record with its own start after both cleanups |
| Rotation.SettlementIsExact | contracts/UnifiedSmartWallet.MarketEscrow.cs:80-149 | A settlement returns if and only if the recorded market asks and both modules return; then the buyer holds an account without modules, escape, pending records or escrow, on record with its own start after both cleanups |
| Cancellation.CancellationSurvivesExactly | contracts/UnifiedSmartWallet.Accounts.cs:196-247 | For a due confirmation of an account that can operate, every cancellation of the escape during it survives it, whatever the modules do, if and only if on entry no escape is running or no module is installed in the role |
| Cancellation.OverwritingRestarts | contracts/UnifiedSmartWallet.Accounts.cs:196-247 | From every such world with an escape running and a module installed: the confirmation whose cleanup has an operation executed returns, the operation did cancel the escape, and the escape runs as before |
| Scenarios.CancelledEscapeRestarts | contracts/UnifiedSmartWallet.Accounts.cs:196-247 | A history of two transactions, for either role, in which that happens |
| Scenarios.DepthRunsAhead | contracts/UnifiedSmartWallet.Composite.cs:164-177 | A history in which a verifier, while it is set up, enrols a child and lets it go: one key at depth two, then none at depth one |
| Effects.CleanupCompletesWithItsModule | contracts/UnifiedSmartWallet.Composite.cs:164-177 | A cleanup ends exactly as its module does, and while the module runs it is the only one that may configure itself for the account in that role |
| Effects.OperationReturnsExactly | contracts/UnifiedSmartWallet.Execution.cs:66-209 | An operation returns if and only if its guards hold, it is admissible, and hook, target, post hook and verifier callback all return, each in the world the one before it left |
| Effects.SponsorshipReservesFirst | contracts/UnifiedSmartWallet.Paymaster.cs:97-182 | The reservation is the first write of a sponsored call that returns, before any contract is called |
| Effects.EnrolmentStoresTheRoster | contracts/UnifiedSmartWallet.Composite.cs:32-65 | An enrolment that returns stored exactly the given roster, on record with its own start, and cleaned up every child that left during this call |
| Effects.ClearingEmptiesTheRoster | contracts/UnifiedSmartWallet.Composite.cs:67-83 | A clearing that returns deleted the roster, on record with its own start, and cleaned up all of it during this call, also a roster adopted from the root |
| Effects.EnrolmentKeyCount | contracts/UnifiedSmartWallet.Composite.cs:164-177 | After an enrolment that returns there are as many context keys as the depth counter says if and only if it was made at rest or no stored child left |
| Staging.RootAndChildCallsNeverMatch | contracts/UnifiedSmartWallet.VerifierChildren.cs:66-76 | A staged root call is never confirmed by a child call, nor the other way round, in either role |
| Staging.ChildDigestBindsTheRoster | contracts/UnifiedSmartWallet.VerifierChildren.cs:66-76 | Equal child digests force the same child, method, arguments, ordered roster, and threshold for verifiers |
| Digests.ChildHashBindsTheCall | contracts/UnifiedSmartWallet.VerifierChildren.cs:66-76 | For any hash function on bytes: equal hashes of the serialized child calls mean the same child, method, arguments, ordered roster and verifier threshold, or exhibit a collision |
| Digests.RootAndChildHashesDiffer | contracts/UnifiedSmartWallet.Accounts.cs:494-497 | A root call of another method with the hash of a child call exhibits a collision |
| Digests.ChildBytesDenote | contracts/UnifiedSmartWallet.VerifierChildren.cs:69-76 | What is hashed of a child call parses as the array of the child method's name and the array of child, method, arguments and roster hash, and what is hashed of the roster as its children in order, with the threshold for verifiers |
| Digests.CallBytesDenote | contracts/UnifiedSmartWallet.Accounts.cs:494-497 | What is hashed of a root call parses as the array of its method and the array of its arguments |
| Staging.RootRunsOnlyWhenDue | contracts/UnifiedSmartWallet.Accounts.cs:536-592 | Unless the slot holds exactly this call and its 24 hours are over, the module's behaviour makes no difference |
| Staging.ChildRunsOnlyWhenDue | contracts/UnifiedSmartWallet.HookChildren.cs:11-62 | The same for a child under the roster its root reports now |
| Pending.PendingUpdatesAreBacked | contracts/UnifiedSmartWallet.Accounts.cs:154-377 | After every history a pending update exists only while the pointer it would replace is non-zero |
| Scenarios.UnbackedWithoutDrops | contracts/UnifiedSmartWallet.Escape.cs:61-166 | A history of two transactions in which, were a throw to keep its writes, a pending hook update outlives the hook |
| Reclaim.OwnerCanAlwaysReclaim | contracts/UnifiedSmartWallet.MarketEscrow.cs:161-202 | From every reachable escrowed state initiation succeeds, and after seven undisturbed days the forced cancellation succeeds, clears the escrow before the market is told, and keeps the owner, for every callback that does not abort; at the end the owner is the same unless the callback itself had the owner rotated or the account sold |
| Reclaim.NotificationIsHarmless | contracts/UnifiedSmartWallet.MarketEscrow.cs:279-293 | Telling the market cannot fail unless the market aborts |
| Reimbursement.ReimbursementIsConserved | contracts/UnifiedSmartWallet.Paymaster.cs:53-84 | In every history of distinct transactions the settlements of a transaction sum to at most its fee and at most 2^255 - 1, each is positive and at most its request (equal to it at zero fee), and the reservation equals the sum |
| Reimbursement.ReservationDecision | contracts/UnifiedSmartWallet.Paymaster.cs:53-84 | A reservation succeeds if and only if something is left to settle within the limit, and settles as much of the request as is left |
| Reimbursement.SponsorshipReturnsExactly | contracts/UnifiedSmartWallet.Paymaster.cs:97-182 | A sponsored call returns if and only if it is well-formed, the fee leaves something to settle that fits the VM's integers, the paymaster names this core, the execution returns after the reservation and the settlement after it returns |
| Nonces.IsUnsignedIntegerWithinBytes | contracts/UnifiedSmartWallet.Execution.cs:361-368 | Accepts a value if and only if it is non-negative and below 256^bytes, despite the sign byte |
| Nonces.SplitIsExact | contracts/UnifiedSmartWallet.Execution.cs:288-301 | Channel and sequence determine the nonce, and a uint256 nonce has a 192-bit channel and a 64-bit sequence |
| Nonces.SplitIsOnto | contracts/UnifiedSmartWallet.Execution.cs:280-287 | Every channel and sequence is the split of exactly one nonce |
| Nonces.NonceKeysAreDistinct | contracts/UnifiedSmartWallet.Execution.cs:295-296 | Two cursors share a storage key only if account and channel are equal |
| Nonces.NonceKeyLayout | contracts/UnifiedSmartWallet.Execution.cs:295-296 | A key is the byte 3, the 20 bytes of the account, and the channel as a signed number in as few bytes as can be |
| Witness.HasExactAaWitnessRules | contracts/UnifiedSmartWallet.VerifyContext.cs:311-334 | Accepts a signer if and only if its only scope is one allow rule for the two different hashes, in either order |
| Witness.ExactRulesWitnessForTwo | contracts/UnifiedSmartWallet.VerifyContext.cs:311-334 | Such a signer's witness holds when the asking contract was called by the wallet or by the target, and in no other case |
| Witness.VerifyScopedTransactionSigner | contracts/UnifiedSmartWallet.VerifyContext.cs:178-198 | Accepts exactly when a scope target exists, the transaction is bound to the account, and the proxy's own signer is scoped to it |
| Witness.OnlyTheTargetIsVerified | contracts/UnifiedSmartWallet.VerifyContext.cs:60-95 | In the application trigger only the operation's own target is vouched for; the native-asset branches add nothing |
| Witness.CapabilitiesNeedAContext | contracts/UnifiedSmartWallet.VerifyContext.cs:347-425 | Execution capabilities exist only while the account executes, and at rest no query answers true |
| Witness.ActiveModuleGrants | contracts/UnifiedSmartWallet.VerifyContext.cs:347-425 | While a module is the account's active one in a role: its configuration is granted to it alone, its execution to it when the core calls it and to whatever it calls, and without an active one nothing is |
| Wallet.Run | contracts/UnifiedSmartWallet.Execution.cs:66-209 | Any sequence of transactions on a fresh wallet leaves the class at rest, in the state of the machine's history, and with the views it gave |
| Wallet.UnifiedSmartWallet.ExecuteUserOps | contracts/UnifiedSmartWallet.Execution.cs:240-252 | The loop ends exactly as the machine's batch does, of which BatchReturnsExactly says when it returns and in which order it runs |
| Wallet.UnifiedSmartWallet.ConsumeNonce | contracts/UnifiedSmartWallet.Execution.cs:303-323 | Advances the cursor by one exactly when the sequence is the current one, and refuses otherwise |
| Wallet.UnifiedSmartWallet.TryConfirmPendingModuleCall | contracts/UnifiedSmartWallet.Accounts.cs:510-531 | Stages at the block time, refuses or spends, and reports confirmation only when it spent: as the machine does, of which SlotExactly says when and what it stores |
| Wallet.UnifiedSmartWallet.ValidateTopology | contracts/UnifiedSmartWallet.VerifierChildren.cs:45-63 | The nested loops accept exactly the duplicate-free rosters without zero or root that contain the child |
| Wallet.UnifiedSmartWallet.ValidateDependencyChildren | contracts/UnifiedSmartWallet.Composite.cs:149-162 | The nested loops accept exactly the valid rosters |
| Wallet.UnifiedSmartWallet.CapReimbursementToActualCost | contracts/UnifiedSmartWallet.Paymaster.cs:53-84 | Resets another transaction's record, settles by the branch-free formula, and stores the new sum |
| Recogniser.DataPushInstructionSize | contracts/UnifiedSmartWallet.VerifyContext.cs:274-309 | Positive exactly when a whole data instruction fits before the end, and then its size |
| Recogniser.ScriptPrefixIsDataPushes | contracts/UnifiedSmartWallet.VerifyContext.cs:257-267 | Accepts a prefix if and only if it is the encoding of data instructions |
| Recogniser.ScriptIsSingleExecuteCall | contracts/UnifiedSmartWallet.VerifyContext.cs:221-255 | Accepts a script if and only if it encodes data instructions followed by the seven call instructions |
| Recogniser.TransactionIsBoundToAccountExecution | contracts/UnifiedSmartWallet.VerifyContext.cs:206-219 | Accepts if and only if the proxy does not pay and the script is such a call of either entry point |
| Recogniser.SplitAtTail | contracts/UnifiedSmartWallet.VerifyContext.cs:221-255 | An accepted script is decided by fixed byte positions counted from its end |
| Recogniser.NamesAreText | contracts/UnifiedSmartWallet.VerifyContext.cs:165-173 | The two accepted method names are executeUserOp and executeUserOps, in ASCII |
| Recogniser.TailInBytes | contracts/UnifiedSmartWallet.VerifyContext.cs:221-255 | The last instructions byte by byte: the account with its length, 0x12, 0xC0, 0x1F, the entry point's name in ASCII, the core, and the call of System.Contract.Call |
| Script.DecodeAllIsExact | contracts/UnifiedSmartWallet.VerifyContext.cs:257-309 | Decoding loses nothing: assembling the decoded instructions gives the script back |
| Script.AssembleAllDecodes | contracts/UnifiedSmartWallet.VerifyContext.cs:257-309 | Assembled instructions decode to themselves |
| Script.DataOpcodesExactly | contracts/UnifiedSmartWallet.VerifyContext.cs:274-309 | Which opcodes are data and how long each is, for all 256 bytes |
| StackMachine.DataMakesNoCall | contracts/UnifiedSmartWallet.VerifyContext.cs:257-309 | Data instructions make no contract call |
| ScriptTheorems.BoundScriptMakesOneCall | contracts/UnifiedSmartWallet.VerifyContext.cs:221-255 | An accepted script faults, or its only call is the named entry point of this core with the account as first argument |
| ScriptTheorems.BoundTransactionOnlyExecutesTheAccount | contracts/UnifiedSmartWallet.VerifyContext.cs:206-219 | The same for a bound transaction |
| ScriptTheorems.BoundAccountIsUnique | contracts/UnifiedSmartWallet.VerifyContext.cs:221-255 | No script is bound to two accounts |
| ScriptTheorems.FourArgumentTailIsRejected | scripts/neoexpress_native_proxy_validate.py:69-74 | No script with the four-argument tail is accepted, for either entry point |
| Compiler.EncodeValueCorrect | scripts/neoexpress_native_proxy_validate.py:41-58 | Encoding succeeds exactly on its domain and yields data pushes whose only effect is to leave that value |
| Compiler.PushIntegerCorrect | scripts/neoexpress_native_proxy_validate.py:31-38 | Every integer of the signed 256-bit domain is pushed as itself |
| Compiler.PushBytesCorrect | scripts/neoexpress_native_proxy_validate.py:26-28 | Every byte string up to 65535 bytes is pushed as itself |
| Compiler.EncodingsInBytes | scripts/neoexpress_native_proxy_validate.py:26-58 | Byte by byte: null, booleans, the integers from -1 to 16 and the empty array, and an example of a longer integer, a byte string and an array, whose items are pushed last to first |
| Compiler.PushIntegerIsShortest | scripts/neoexpress_native_proxy_validate.py:31-38 | An integer takes one byte from -1 to 16, and otherwise the shortest of the six operand widths that holds it |
| Compiler.CompiledOperationIsBoundAndRuns | scripts/neoexpress_native_proxy_validate.py:41-58 | A compiled operation with the two-argument tail is accepted and executes as the call with account and operation |
| Preimage.MinimalSize | scripts/neoexpress_native_session_validate.py:47-50 | The loop finds the least width that holds the integer |
| Preimage.SerializeParses | scripts/neoexpress_native_session_validate.py:39-60 | Serialization has a left inverse on any continuation |
| Preimage.SerializationIsPrefixFree | scripts/neoexpress_native_session_validate.py:39-60 | No serialization is a proper prefix of another, and equal bytes mean equal values |
| Preimage.PreimageIsInjective | scripts/neoexpress_native_session_validate.py:69-76 | Equal preimages force equal network, core, account, epoch, configuration nonce and first five operation fields, up to byte-string typing; the fields' places are PreimageLayout |
| Preimage.PreimageLayout | scripts/neoexpress_native_session_validate.py:69-76 | By byte positions: domain text and version 2, network in bytes 30 to 33, core in 34 to 53, account in 54 to 73, epoch and configuration nonce in eight bytes each, and from 90 on what parses as the first five fields and an empty byte string |
| Preimage.PreimageExactly | scripts/neoexpress_native_session_validate.py:69-76 | There is a preimage if and only if network, epoch and nonce are within 32 and 64 bits and the operation is an array of six fields whose first five can be encoded |
| Preimage.SerializesExactly | scripts/neoexpress_native_session_validate.py:39-60 | A value serializes if and only if its integers are within 256 bits and its lengths below 2^32 |
| Preimage.SerializationLayout | scripts/neoexpress_native_session_validate.py:39-60 | The bytes of every serializable value: the tag of its kind, its length in one, three or five bytes where it has one, and its content, an integer's being the shortest signed form |
| Preimage.LastSerializesLast | scripts/neoexpress_native_session_validate.py:39-60 | The elements of an array or struct are serialized in their order |
| Preimage.SerializationInBytes | scripts/neoexpress_native_session_validate.py:39-60 | Example bytes of each kind, which fix the byte order |
| Bytes.MinimalInjective | scripts/neoexpress_native_session_validate.py:46-51 | The minimal signed form determines the integer |
| DailyLimit.DailyLimitHook.ReadRollingUsage | contracts/hooks/DailyLimitHook.cs:465-488 | One scan gives the live total and count, and prunes exactly the expired records when asked |
| DailyLimit.DailyLimitHook.GetRollingWindowSpent | contracts/hooks/DailyLimitHook.cs:490-510 | The live total, changing nothing |
| DailyLimit.DailyLimitHook.GetRollingWindowRecordCount | contracts/hooks/DailyLimitHook.cs:512-529 | The live count, changing nothing |
| DailyLimit.DailyLimitHook.PruneOldRecords | contracts/hooks/DailyLimitHook.cs:562-581 | The bounded loop removes every expired record of the token and no other |
| DailyLimit.DailyLimitHook.RecordTransaction | contracts/hooks/DailyLimitHook.cs:531-560 | Uses a fresh counter key and appends, refusing a full multi-scan history |
| DailyLimit.DailyLimitHook.ChargeToken | contracts/hooks/DailyLimitHook.cs:397-430 | Both profiles, one-scan and multi-scan, accept, total and leave the same history: that of one ledger step, of which ChargeExactly says which outflows it accepts |
| DailyLimit.DailyLimitHook.StoreFixedWindowSpent | contracts/hooks/DailyLimitHook.cs:439-463 | Moves the anchor exactly when 24 hours are over |
| DailyLimit.DailyLimitHook.MeterAllLimitedOutflows | contracts/hooks/DailyLimitHook.cs:369-431 | Charges every limited token once with its outflow, all or nothing, and deletes its snapshot |
| DailyLimit.DailyLimitHook.PreExecute | contracts/hooks/DailyLimitHook.cs:149-211 | If the core calls while the account executes under this hook, its root calls, or the native service grants it: snapshots every limited token and rejects a direct transfer that would exceed its limit, which ChargeExactly makes exact; otherwise nothing |
| DailyLimit.DailyLimitHook.PostExecute | contracts/hooks/DailyLimitHook.cs:213-237 | With the same authorization: meters every limited token, with the declared transfer when the target accepted it |
| DailyLimit.DailyLimitHook.SetDailyLimit | contracts/hooks/DailyLimitHook.cs:91-115 | Authorized by the core in the hook's own context, or by the native service; a positive amount sets the limit and leaves accounting and snapshot alone, any other removes limit and history and natively also window and snapshot; other tokens untouched |
| DailyLimit.DailyLimitHook.ClearAccount | contracts/hooks/DailyLimitHook.cs:239-253 | With the same authorization erases everything stored for the account, otherwise nothing |
| Callbacks.ExternalAvoids | contracts/UnifiedSmartWallet.Execution.cs:66-209 | In a callback tree without an operation that is a callback of a hook for an account, no target call to one ever returns, however the tree nests, throws or aborts |
| Sessions.MeteringIsComplete | contracts/hooks/DailyLimitHook.cs:149-237 | Both profiles: in every session that goes through and in which no callback in between is authorized, every token limited at the end was limited all the time and is charged exactly once with the larger of balance drop and declared transfer, the accounting of others is unmoved or erased with its limit, and no snapshot is left |
| Sessions.QuietSessionExactly | contracts/hooks/DailyLimitHook.cs:149-237 | A session without calls in between goes through if and only if it ends normally, both callbacks are authorized, the transfer is admitted, and every limited token's ledger accepts its outflow; QuietSessionFits says when in terms of the outflows before |
| Sessions.QuietSessionFits | contracts/hooks/DailyLimitHook.cs:149-237 | For accounting that has run since its limits were set: such a session goes through if and only if it ends normally, both callbacks are authorized, and every limit has room for the declared transfer and for its outflow, by the reference that keeps no ledger |
| Sessions.OutgoingIsTheLarger | contracts/hooks/DailyLimitHook.cs:369-395 | An outflow is the larger of the balance drop and of a declared transfer of that token |
| Sessions.CallbackHidesTheOutflow | contracts/hooks/DailyLimitHook.cs:149-237 | Both profiles: if in any session any amount of any token leaves in addition, just before an early snapshot or just after an early metering in between, the session ends the same, with the same accounting |
| Sessions.SessionsSettle | contracts/hooks/DailyLimitHook.cs:149-237 | Whatever is called in between, a session that goes through leaves no snapshot, and no accounting of an unlimited token |
| Metering.Operate | contracts/hooks/DailyLimitHook.cs:149-237 | The class run through a whole session does what the session does to limits, snapshots and ledgers, and a session that fails leaves the storage as it was |
| Metering.VouchedFor | contracts/hooks/HookAuthority.cs:198-229 | At every moment of the target phase of the account's operation that is kept, and at its end, the wallet vouches for the hook's execution and never for its configuration, whatever is nested |
| Metering.CallbackNeedsATargetCall | contracts/UnifiedSmartWallet.VerifyContext.cs:409-424 | A callback in the target phase is authorized only for the core, and only as the target call of an operation that is this callback for this account |
| Metering.AvoidingOperationsAreMetered | contracts/hooks/DailyLimitHook.cs:149-237 | For every operation of the wallet that is not itself a callback of the hook and has none in the tree of what its target calls: if it goes through, no hook call was made in between, and every limited token is charged exactly once with its outflow |
| Metering.AimedHidesTheOutflow | contracts/hooks/DailyLimitHook.cs:149-237 | For every execution that goes through, of an operation with such a callback nested in its target, and every limited token: the same execution, with the same calls, in which any amount above the limit leaves around the first callback goes through with the same accounting |
| Metering.MeteredExactly | contracts/hooks/DailyLimitHook.cs:149-237 | For every execution that goes through: every execution of the same operation with the same calls of the hook that goes through, whatever tokens move, has each outflow charged, if and only if no operation nested in its target is a callback of the hook for the account |
| Metering.MotionlessExecutionPasses | contracts/hooks/DailyLimitHook.cs:149-237 | Every operation that the wallet executes and the hook admits has an execution that goes through, with the callbacks that its tree makes |
| Nesting.OperationShows | contracts/UnifiedSmartWallet.Execution.cs:134-165 | For every operation that returns the wallet has shown, at a moment that is kept, that its target returned |
| Nesting.NestedOperationAims | contracts/UnifiedSmartWallet.Execution.cs:66-209 | Wherever two accounts can operate and the first has a hook: the operation whose target executes one of the second that is `preExecute` or `postExecute` of that hook for the first account returns, and the callback is made meanwhile |
| Nesting.NestedOperationHidesTheOutflow | contracts/hooks/DailyLimitHook.cs:149-237 | In it, with either callback, any amount of any limited token can leave uncharged |
| Scenarios.NestedOperationEscapesTheLimit | contracts/hooks/DailyLimitHook.cs:149-237 | For either callback a history of two transactions in which that happens: a limit of ten, nothing spent, a hundred leave in an operation that commits, and nothing is charged |
| LimitRuns.NoCallbackOutsideExecution | contracts/UnifiedSmartWallet.VerifyContext.cs:409-424 | At no moment of any history, committed or not, is a hook callback authorized for an account that is not executing |
| LimitRuns.NoCallbackInside | contracts/UnifiedSmartWallet.Execution.cs:153-199 | Nor at any moment of an operation in whose whole tree there is no such callback, from its target's start until its verifier's callback has returned |
| LimitRuns.Run | contracts/hooks/DailyLimitHook.cs:369-463 | Through any sequence of operations in whose whole trees no operation is a callback of the hook, and of other calls of the hook that leave the token's limit alone, the accounting of a newly limited token is the run of its outflows, and in every closed 24-hour interval the operations that went through moved out, between the hook's two callbacks, at most the limit in at most 50 operations (rolling) or at most twice the limit (fixed) |
| DailyLedger.RollingWindowBound | contracts/hooks/DailyLimitHook.cs:397-413 | For one token's accounting, used by LimitRuns.Run: every closed 24-hour interval charges at most the limit, in at most 50 records |
| DailyLedger.HistoryIsComplete | contracts/hooks/DailyLimitHook.cs:531-581 | Pruning never removes a record that a later charge still has to count |
| DailyLedger.FixedWindowsAreBounded | contracts/hooks/DailyLimitHook.cs:439-460 | For one token's accounting: anchors are at least 24 hours apart, each window charges at most the limit, and the stored total is the window's charges and what it carried over |
| DailyLedger.FixedWindowBound | contracts/hooks/DailyLimitHook.cs:439-460 | For one token's accounting, used by LimitRuns.Run: every closed 24-hour interval charges at most twice the limit |
| DailyExact.ChargeExactly | contracts/hooks/DailyLimitHook.cs:397-430 | After any attempts since the limit was set, under either window kind: an outflow is accepted if and only if the limit has room for it, said of the outflows before and of the clock alone |
| DailyExact.RollingChargeExactly | contracts/hooks/DailyLimitHook.cs:397-413 | Rolling: if and only if what went through in the last 24 hours and this outflow are at most the limit, and fewer than 50 outflows went through in them |
| DailyExact.RollingRunExactly | contracts/hooks/DailyLimitHook.cs:465-581 | So over whole runs, whatever is pruned, the ledger lets through exactly what the reference does |
| DailyExact.FixedChargeExactly | contracts/hooks/DailyLimitHook.cs:414-463 | Fixed: if and only if what went through in the window of now, what that window carried over, and this outflow are at most the limit; and the window is the reference's |
| DailyExact.FixedRunExactly | contracts/hooks/DailyLimitHook.cs:439-463 | So over whole runs the ledger lets through exactly what the reference does, in the same windows |

## Left out

- PendingUpdatesAreBacked: assumes that a throw drops the writes of the contracts it leaves, which is Neo N3's rule; UnbackedWithoutDrops shows that it fails without.
- OwnerCanAlwaysReclaim: says nothing about a market that aborts inside its callback, and of the final state after a callback that works it gives the owner only, because that callback may enter a new escrow.
- ChildrenLeaveCleaned: a roster is adopted from the root's report when none is stored; the root may report differently before that.
- NoncesAreConsumedInOrder: gives a cursor of at most 2^64, at which the channel is exhausted.
- CapabilitiesNeedAContext: NEO and GAS are two hashes without behaviour of their own.
- DataPushInstructionSize: integers are unbounded, so the 32-bit wrap of a PUSHDATA4 length is not modelled.
- BoundScriptMakesOneCall: the stack machine has no stack-size, item-size or gas limit, and does not push the call's result.
- ChargeToken: totals are unbounded integers; the VM's overflow fault is not modelled.
- MeteredExactly: is about the hook as the account's root hook, not under a MultiHook, and about an operation not started from within the hook's own configuration call, in which the hook calls nobody.
- MeteredExactly: the hook's calls of other contracts are read-only balance queries, so its callbacks call nothing back; an operation that has the hook itself as its target moves no token.
- MeteredExactly: balances, and the remaining arguments of the hook's calls, are inputs; a callback whose arguments the hook cannot read does not return.
- Run: what leaves while the verifier's callback runs, after the hook's last one, is in no session, so in no bound; an execution that fails, and with it the calls made during it, is rolled back.
- MeteringIsComplete: the native service's answers, and the authority epoch in the native storage keys, are inputs.
- Run: says nothing about a token whose own limit is changed during the run, since accounting made under one configuration is then judged by another; in the native profile the service is taken to grant no callback in between.
- ChildHashBindsTheCall: a roster with a threshold is laid out as an array of two fields; the class layout of the compiler is not part of this model.
- The two legacy storage prefixes 0x12 and 0x13 and their migration.
- Metadata URI, verify-scope target slots, the proxy index, getters and the ERC-1271 adapter.
- Administration: contract update, admin and hook-authority slots, proposing and confirming the platform registrar.
- RegisterAccounts: a loop over RegisterAccount.
- The registration hash, manifest and ABI inspection, signatures and witness checks: given as inputs.
- Gas, the PLATFORM gas-budget syscall, and the serialized size of operation arguments, which is an input.
- Event payloads beyond what the log records, and the results returned by calls.
- The base64 and text checks of the Python encoders, SHA-256, and the scripts' network drivers.
- NeoDID, whitelist and other hooks.
