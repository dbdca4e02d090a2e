# Cross-chain intent contracts: a Dafny model

This project models three cooperating Arbitrum Stylus contracts. Together they carry a
cross-chain "intent" through its life: validation, execution of a route, and settlement.

- **IntentValidator** (`intent_validator.dfy`, module `IntentValidation`).
  - It holds owner-managed allow-lists of destination chains and of tokens.
  - Its read-only `validate_intent` reports the first failing check, in a fixed order.
  - Token balances and allowances come from the token's ERC-20 contract. Here they are the
    oracle functions `balanceOf(token, account)` and `allowanceOf(token, owner, spender)`.
- **RouteExecutor** (`route_executor.dfy`, module `RouteExecution`).
  - It runs a route under a pause switch and a reentrancy lock.
  - It allocates consecutive intent ids and records each id's status as an integer
    (Pending 0, Executing 1, Completed 2, Failed 3).
- **SettlementVerifier** (`settlement_verifier.dfy`, module `SettlementVerification`).
  - It records, per intent id, an integer status (Pending 0, Confirmed 1, Failed 2, Refunded 3)
    and a confirmation time.
  - Through `verify_ccip_message` it accepts one delivery confirmation per intent, and only
    from the CCIP router. `confirm_settlement` sets Confirmed for any caller.
  - When the owner or the route executor calls `handle_failure` for an intent whose confirmation
    is older than a global timeout (1800 by default), it marks the intent Refunded. Nothing
    refunds an intent by itself.

`common.dfy` (module `Common`) holds the shared pieces:
- addresses, where the zero address is 0;
- the `Result` of an entry point;
- `Read`, a storage-map read under which keys never written read as zero.

## How each contract is modelled

Each contract module has two layers.

- **Value layer.** A `Storage` datatype holds the contract's storage fields. One `...Step`
  function per state-changing entry point gives the storage after the call and the call's
  result. `Call`/`Run` replay a sequence of calls. The lemmas state the contract's promises:
  about single calls, and by induction about whole sequences of calls.
- **Class layer.** Each contract is a class with the same fields, as `map`s and scalars, plus a
  ghost log of the notifications it emits.
  - Its methods perform the writes one by one, in the source's order. For example,
    `execute_full_route` sets the lock, writes Executing, overwrites it with Completed, bumps
    the counter and releases the lock.
  - Each method is proved to have exactly the effect of its step function:
    `Transition(Snapshot(), r) == ...Step(old(Snapshot()), ...)`.
  - The read-only entry points are functions of the fields.
  - The caller (`msg_sender`) and the block time are explicit parameters (`sender`, `now`).

Every error path leaves storage as it was. In the source this holds without relying on the
revert of a failed call: RouteExecutor clears its lock before each early error after taking
it. The model states it outright.

Several observations come out of the proofs. None of the three `init` entry points has a
one-time or owner guard.
- `RouteExecution.ReinitReissuesIds`:
  - A second `init` of RouteExecutor resets the counter, but the status map keeps its entries.
  - Id 1 is therefore issued again, and the id invariant `IdsConsistent` breaks.
  - The lemmas about ids and the pause therefore cover sequences of calls without a successful
    `init`. `RunPreservesStatusesSettled` covers every sequence, `init` included, with a
    weaker invariant.
- `RouteExecution.InitTakesOverAndUnpauses`: any account can call RouteExecutor's `init`,
  become the owner and lift a pause.
- `IntentValidation.InitHandsOverOwnership`: any account can call the validator's `init` and
  take over the allow-lists.
- `SettlementVerification.InitHandsOverRouter`: any account can call SettlementVerifier's
  `init`, become the owner, name itself the CCIP router and then confirm settlements.
- `SettlementVerification.ConfirmedThenRefunded`: a Confirmed settlement is not terminal. A
  later `handle_failure` refunds it once its confirmation time is older than the timeout.

Further notes on the code:
- SettlementVerifier's `init` rejects a zero address with Unauthorized, not InvalidAddress.
- RouteExecutor checks addresses and amount before it writes Executing.
- Its swap and bridge steps cannot fail.
- It never calls the validator it stores.
- A settlement moves through Failed and ends as Refunded within a single `handle_failure` call,
  so Failed is never stored between calls.
- `confirm_settlement` can be called by anyone, and on any status.

## Model

| member | source | states |
|---|---|---|
| `RouteExecution.RouteExecutor.constructor` | contracts/src/route_executor.rs:103-119 | a deployed contract's storage reads as zero everywhere |
| `RouteExecution.RouteExecutor.Init` | contracts/src/route_executor.rs:124-141 | fails with InvalidAddress exactly when the validator or router address is zero, changing nothing; otherwise the caller becomes owner, the counter is 0 and both flags are false (statuses are kept) |
| `RouteExecution.RouteExecutor.ExecuteFullRoute` | contracts/src/route_executor.rs:151-219 | the step-by-step writes (lock, Executing, Completed, counter, unlock) have exactly the net effect of `ExecuteStep`; the lock ends as it was on entry; on success the swap (only with non-empty swap data), bridge and completion notifications are emitted, and the bridge receives the caller's amount unchanged |
| `RouteExecution.ExecuteChecksInOrder` | contracts/src/route_executor.rs:159-182 | paused is checked before the lock, the lock before the addresses, the addresses before the amount (zero token with zero amount gives InvalidAddress); every rejection leaves storage unchanged |
| `RouteExecution.ExecuteOutcome` | contracts/src/route_executor.rs:166-218 | execution succeeds exactly when unpaused, unlocked, both addresses non-zero and amount positive; it then returns counter + 1, sets the counter to it, marks exactly that id Completed, leaves the lock false and keeps owner and pause flag |
| `RouteExecution.ExecutePreservesIdsConsistent` | contracts/src/route_executor.rs:185-206 | one execution keeps the invariant that exactly ids 1..counter read Completed and all others Pending |
| `RouteExecution.RunPreservesIdsConsistent` | contracts/src/route_executor.rs:185-248 | the id invariant holds after any sequence of calls without a successful `init`, so Executing (1) and Failed (3) are never observed |
| `RouteExecution.IssuedIdsAreConsecutive` | contracts/src/route_executor.rs:169-218 | over any sequence of calls without a successful `init`, the returned ids are counter + 1, counter + 2, ... with no gaps or reuse, and the counter ends at the last id returned |
| `RouteExecution.IdsFromInitStartAtOne` | contracts/src/route_executor.rs:136 | after a successful `init`, and until the next one, the executions return ids 1, 2, 3, ... |
| `RouteExecution.InitOnBlank` | contracts/src/route_executor.rs:124-141 | `init` on a fresh contract with non-zero addresses succeeds, makes the caller owner and establishes the id invariant and, through it, the weaker settled-status invariant |
| `RouteExecution.ReinitReissuesIds` | contracts/src/route_executor.rs:133-138 | a second `init` after ids were issued keeps id 1 Completed, breaks the id invariant, and the next execution returns id 1 again |
| `RouteExecution.InitTakesOverAndUnpauses` | contracts/src/route_executor.rs:124-141 | an account other than the owner, which gets Unauthorized from unpause, succeeds at `init` with non-zero addresses, becomes the owner, finds the contract unpaused and may then pause it |
| `RouteExecution.StepPreservesStatusesSettled` | contracts/src/route_executor.rs:124-248 | every call, `init` included, keeps only Pending and Completed statuses, id 0 Pending and ids 1..counter Completed |
| `RouteExecution.RunPreservesStatusesSettled` | contracts/src/route_executor.rs:124-248 | the same holds after any sequence of calls, `init` included |
| `RouteExecution.StepKeepsCompleted` | contracts/src/route_executor.rs:124-248 | Completed is terminal: every call, `init` included, leaves a Completed intent Completed |
| `RouteExecution.RunKeepsCompleted` | contracts/src/route_executor.rs:124-248 | a Completed intent reads Completed after any sequence of calls, `init` included |
| `RouteExecution.RunKeepsLock` | contracts/src/route_executor.rs:164-216 | no sequence of calls, `init` included, leaves an unlocked contract locked; without a successful `init` the lock ends exactly as it started |
| `RouteExecution.PausedUntilOwnerUnpauses` | contracts/src/route_executor.rs:159-162 | while paused, any sequence of calls with neither the owner's unpause nor a successful `init` leaves storage exactly unchanged and issues no id |
| `RouteExecution.PauseUnpauseRoundTrip` | contracts/src/route_executor.rs:227-248 | a non-owner's pause or unpause fails with Unauthorized and changes nothing; the owner's pause then unpause restores an unpaused contract exactly, and pausing twice equals pausing once |
| `RouteExecution.RouteExecutor.Pause` | contracts/src/route_executor.rs:227-236 | fails with Unauthorized exactly for a non-owner, changing nothing; the owner sets paused to true, changes nothing else and emits Paused(caller) |
| `RouteExecution.RouteExecutor.Unpause` | contracts/src/route_executor.rs:239-248 | fails with Unauthorized exactly for a non-owner, changing nothing; the owner sets paused to false, changes nothing else and emits Unpaused(caller) |
| `RouteExecution.RouteExecutor.GetIntentStatus` | contracts/src/route_executor.rs:222-224 | unknown ids read as Pending; under the id invariant the status is Completed exactly for ids 1..counter and Pending for every other id; under the weaker invariant it is Pending or Completed, and Completed for ids 1..counter |
| `RouteExecution.RouteExecutor.InternalExecuteSwap` | contracts/src/route_executor.rs:256-275 | returns its input amount, changes no storage and emits one SwapExecuted with equal amounts in and out |
| `RouteExecution.RouteExecutor.InternalExecuteBridge` | contracts/src/route_executor.rs:278-298 | changes no storage and emits one BridgeInitiated carrying the given token, amount, chain and recipient |
| `RouteExecution.RouteExecutor.OnlyOwner` | contracts/src/route_executor.rs:301-306 | fails, with Unauthorized, exactly when the caller is not the owner |
| `RouteExecution.RouteExecutor.CheckNotLocked` | contracts/src/route_executor.rs:309-314 | fails, with ReentrancyGuard, exactly when the lock is held |
| `SettlementVerification.SettlementVerifier.constructor` | contracts/src/settlement_verifier.rs:66-81 | a deployed contract's storage reads as zero everywhere and is well-formed |
| `SettlementVerification.SettlementVerifier.Init` | contracts/src/settlement_verifier.rs:86-102 | fails with Unauthorized (not InvalidAddress) exactly when the route executor or router address is zero, changing nothing; otherwise the caller becomes owner and the timeout is 1800 |
| `SettlementVerification.SettlementVerifier.VerifyCcipMessage` | contracts/src/settlement_verifier.rs:108-142 | the writes of timestamp then status have exactly the effect of `VerifyStep`; success returns true and emits one SettlementConfirmed with the message id and time |
| `SettlementVerification.VerifyChecksInOrder` | contracts/src/settlement_verifier.rs:113-125 | a caller other than the router gets Unauthorized, then id 0 gets InvalidIntentId, then a non-Pending status gets AlreadyProcessed; rejections change nothing and success returns true |
| `SettlementVerification.VerifyConfirmsOnce` | contracts/src/settlement_verifier.rs:127-141 | a successful confirmation sets that id's timestamp to now and status to Confirmed, touches no other id, and a second confirmation of the same id fails with AlreadyProcessed |
| `SettlementVerification.AtMostOneConfirmation` | contracts/src/settlement_verifier.rs:121-125 | over any sequence of calls an intent's delivery is confirmed at most once, and never once its status has left Pending |
| `SettlementVerification.StepKeepsNonPending` | contracts/src/settlement_verifier.rs:153-155 | no call writes Pending, so a status that has left Pending never returns to it |
| `SettlementVerification.SettlementVerifier.ConfirmSettlement` | contracts/src/settlement_verifier.rs:147-158 | fails exactly for id 0, changing nothing; otherwise sets Confirmed without checking caller or prior status |
| `SettlementVerification.ConfirmOverwritesAndIsIdempotent` | contracts/src/settlement_verifier.rs:147-158 | for a non-zero id the status becomes Confirmed whatever it was (Failed or Refunded included), no other status and no timestamp changes, and confirming twice equals confirming once |
| `SettlementVerification.SettlementVerifier.HandleFailure` | contracts/src/settlement_verifier.rs:164-201 | the writes of Failed then Refunded have exactly the effect of `HandleFailureStep`; the failure and refund notifications are emitted exactly when the call refunds |
| `SettlementVerification.HandleFailureChecksInOrder` | contracts/src/settlement_verifier.rs:172-177 | a caller that is neither owner nor route executor gets Unauthorized before id 0 gets InvalidIntentId; rejections change nothing |
| `SettlementVerification.HandleFailureIffTimedOut` | contracts/src/settlement_verifier.rs:179-200 | for an authorised caller and non-zero id the call succeeds, and it sets exactly that id to Refunded when `has_settlement_timed_out` is true and changes nothing otherwise |
| `SettlementVerification.TimeoutBoundary` | contracts/src/settlement_verifier.rs:184 | with timestamp T and timeout P, nothing changes at T + P - 1 or at T + P, and the status is Refunded at T + P + 1 |
| `SettlementVerification.ConfirmedThenRefunded` | contracts/src/settlement_verifier.rs:128-198 | a settlement confirmed at a non-zero time is moved from Confirmed to Refunded by a later authorised `handle_failure` once the timeout has passed |
| `SettlementVerification.InitHandsOverRouter` | contracts/src/settlement_verifier.rs:86-102 | any non-zero account that calls `init` with itself as router succeeds, becomes the owner, keeps the statuses, and can then confirm any Pending non-zero id |
| `SettlementVerification.SettlementVerifier.InitiateRefund` | contracts/src/settlement_verifier.rs:239-262 | sets that id's status to Refunded, changes nothing else and emits RefundInitiated |
| `SettlementVerification.StepPreservesWellFormed` | contracts/src/settlement_verifier.rs:114-231 | every call keeps storage well-formed: statuses in {Pending, Confirmed, Refunded}, id 0 untouched, a recorded time only on a Confirmed or Refunded settlement |
| `SettlementVerification.RunPreservesWellFormed` | contracts/src/settlement_verifier.rs:86-231 | well-formedness holds after any sequence of calls, so Failed is never observed between calls |
| `SettlementVerification.TimestampsOnlyFromVerify` | contracts/src/settlement_verifier.rs:113-130 | if an intent's recorded time changes over a sequence of calls, exactly one of them was a successful `verify_ccip_message` for that intent |
| `SettlementVerification.SettlementVerifier.GetSettlementStatus` | contracts/src/settlement_verifier.rs:204-206 | unknown ids read as Pending; in well-formed storage the status is never Failed, at most Refunded, and Pending for id 0 |
| `SettlementVerification.SettlementVerifier.GetSettlementTimestamp` | contracts/src/settlement_verifier.rs:209-211 | unknown ids read as 0; in well-formed storage a non-zero time belongs to a Confirmed or Refunded settlement |
| `SettlementVerification.SettlementVerifier.HasSettlementTimedOut` | contracts/src/settlement_verifier.rs:214-224 | equals `TimedOut`; false when no time is recorded; for a non-zero id, the owner's `handle_failure` at the same time leaves storage with that id set to Refunded when true and unchanged when false; false for id 0 in well-formed storage |
| `SettlementVerification.SettlementVerifier.SetTimeoutPeriod` | contracts/src/settlement_verifier.rs:227-231 | fails with Unauthorized exactly for a non-owner, changing nothing; the owner sets the timeout to any value, zero included, and nothing else changes |
| `SettlementVerification.SettlementVerifier.OnlyOwner` | contracts/src/settlement_verifier.rs:265-270 | fails, with Unauthorized, exactly when the caller is not the owner |
| `SettlementVerification.SettlementVerifier.OnlyCcipRouter` | contracts/src/settlement_verifier.rs:273-278 | fails, with Unauthorized, exactly when the caller is not the CCIP router |
| `SettlementVerification.SettlementVerifier.OnlyAuthorized` | contracts/src/settlement_verifier.rs:281-287 | fails, with Unauthorized, exactly when the caller is neither the owner nor the route executor |
| `IntentValidation.IntentValidator.constructor` | contracts/src/intent_validator.rs:58-67 | a deployed contract has a zero owner and empty allow-lists, so chain 0 and the zero token are unsupported |
| `IntentValidation.IntentValidator.Init` | contracts/src/intent_validator.rs:72-76 | always succeeds, makes the caller the owner and keeps both allow-lists, so the zero entries stay unsupported |
| `IntentValidation.InitHandsOverOwnership` | contracts/src/intent_validator.rs:72-76 | any account that calls `init` keeps the allow-lists as they are and can then add chains and tokens |
| `IntentValidation.IntentValidator.ValidateIntent` | contracts/src/intent_validator.rs:86-136 | returns Ok(true) exactly for an acceptable intent and never Ok(false); otherwise reports the first failure in the order InvalidAmount, InvalidAddress, UnsupportedChain, UnsupportedToken, InsufficientBalance, InsufficientAllowance |
| `IntentValidation.AcceptableIsStable` | contracts/src/intent_validator.rs:104-112 | an intent that passes validation still passes after any sequence of allow-list calls, for the same balance and allowance |
| `IntentValidation.IntentValidator.CheckAllowance` | contracts/src/intent_validator.rs:139-153 | fails with InvalidAddress exactly when an address is zero; otherwise returns the token's allowance unchanged |
| `IntentValidation.IntentValidator.AddSupportedChain` | contracts/src/intent_validator.rs:156-171 | has exactly the effect of `AddChainStep`; fails exactly for a non-owner or chain 0, and on success the chain is supported; the zero entries stay unsupported |
| `IntentValidation.AddChainOutcome` | contracts/src/intent_validator.rs:156-171 | a non-owner gets Unauthorized even for chain 0, the owner gets InvalidAmount for chain 0, rejections change nothing, and success adds exactly that chain and touches no other entry |
| `IntentValidation.IntentValidator.AddSupportedToken` | contracts/src/intent_validator.rs:174-189 | has exactly the effect of `AddTokenStep`; fails exactly for a non-owner or the zero token, and on success the token is supported; the zero entries stay unsupported |
| `IntentValidation.AddTokenOutcome` | contracts/src/intent_validator.rs:174-189 | a non-owner gets Unauthorized before the owner's zero token gets InvalidAddress, rejections change nothing, and success adds exactly that token and touches no other entry |
| `IntentValidation.AddingTwiceIsIdempotent` | contracts/src/intent_validator.rs:156-188 | the owner adding the same chain or token twice succeeds both times and the second call changes nothing |
| `IntentValidation.SupportIsMonotonic` | contracts/src/intent_validator.rs:156-199 | a supported chain or token stays supported after any sequence of calls |
| `IntentValidation.RunKeepsZeroUnsupported` | contracts/src/intent_validator.rs:156-189 | chain 0 and the zero token, unsupported at first, stay unsupported after any sequence of calls, `init` included |
| `IntentValidation.IntentValidator.IsChainSupported` | contracts/src/intent_validator.rs:192-194 | true exactly for a chain stored as true; never for chain 0 while the zero entries are unsupported, as from deployment on |
| `IntentValidation.IntentValidator.IsTokenSupported` | contracts/src/intent_validator.rs:197-199 | true exactly for a token stored as true; never for the zero token while the zero entries are unsupported, as from deployment on |
| `IntentValidation.ChainsOnlyFromAdd` | contracts/src/intent_validator.rs:156-163 | a chain that becomes supported over a sequence of calls was added by a successful add-chain call among them, made by the owner of that moment |
| `IntentValidation.TokensOnlyFromAdd` | contracts/src/intent_validator.rs:174-181 | a token that becomes supported over a sequence of calls was added by a successful add-token call among them, made by the owner of that moment |
| `IntentValidation.IntentValidator.OnlyOwner` | contracts/src/intent_validator.rs:207-212 | fails, with Unauthorized, exactly when the caller is not the owner |

## Left out

- Notifications of IntentValidator (IntentValidated, ChainAdded, TokenAdded) are not modelled. `validate_intent` is a read-only function here, and notifications carry no control flow. The other two contracts keep a ghost log of theirs.
- Failing ERC-20 calls in `validate_intent` and `check_allowance` are not modelled. Balance and allowance are total oracle functions, so the external call's error, propagated by `?`, is left out.
- 256-bit wrap-around is not modelled. Amounts, ids, timestamps and the timeout are unbounded natural numbers. So `intent_counter + 1` and `settlement_time + timeout` never overflow, even though `set_timeout_period` accepts any value.
- The `?` after the swap, bridge and refund helpers is left out, because those helpers can never fail. They are modelled as infallible.
- The `?` after `confirm_settlement` inside `verify_ccip_message` cannot fire, because the id was already checked to be non-zero. The model states this as an assertion.
- The stored validator address is never called, and the ERC-20 `transferFrom` is not implemented. The `ccip_router` of RouteExecutor is only stored. The model stores the addresses and does nothing more with them.
- A nested call into `execute_full_route` cannot happen, because swap and bridge make no external calls. Reentrancy appears only as an entry with the lock already held.
- The `owner()` getters are plain reads of the `owner` field, so they have no member of their own.
- The revert of a failed call by the runtime is not modelled. No error path in the source writes anything that stays, so nothing needs undoing.
- The Stylus storage wrappers, ABI and error encodings are not modelled, nor the contracts/src/main.rs and contracts/src/lib.rs wiring.
- contracts/src/simple_test.rs is not part of this model. It is not compiled into the crate.
- Message ids (32 bytes) are modelled as natural numbers. Failure reasons are Dafny strings.
