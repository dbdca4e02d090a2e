/** The RouteExecutor contract: allocates intent ids, runs a route (an identity swap and a
    bridge hand-off) under a pause switch and a reentrancy lock, and records each intent's
    status as an integer.

    The module has two layers. `Storage` and the `...Step` functions give the net effect of
    each entry point on the contract's storage; the lemmas about them state what the contract
    promises, also over whole sequences of calls. The class `RouteExecutor` holds the same
    fields and performs the writes one by one, as the contract does, and each of its methods
    is proved to have exactly the effect of the corresponding step function. */
module RouteExecution {
  import opened Common

  /** The lifecycle of one intent; storage holds `Code()` rather than the variant. */
  datatype IntentStatus = Pending | Executing | Completed | Failed
  {
    function Code(): nat
    {
      match this
      case Pending => 0
      case Executing => 1
      case Completed => 2
      case Failed => 3
    }
  }

  datatype Error =
    | Unauthorized
    | InvalidAddress
    | InvalidAmount
    | ValidationFailed
    | SwapFailed
    | BridgeFailed
    | ContractPaused
    | ReentrancyGuard

  /** Notifications. `IntentFailed` is declared by the contract but never emitted. */
  datatype Event =
    | IntentExecuted(intentId: nat, user: Address, timestamp: nat)
    | SwapExecuted(intentId: nat, tokenIn: Address, tokenOut: Address, amountIn: nat, amountOut: nat)
    | BridgeInitiated(intentId: nat, token: Address, amount: nat, destinationChain: nat, recipient: Address)
    | Paused(account: Address)
    | Unpaused(account: Address)

  /** The contract's persistent storage. */
  datatype Storage = Storage(
    owner: Address,
    validator: Address,
    ccipRouter: Address,
    intentCounter: nat,
    intentStatuses: map<nat, nat>,
    paused: bool,
    locked: bool)
  {
    /** The status code stored for an intent id; unknown ids read as Pending (0). */
    function StatusOf(intentId: nat): nat
    {
      Read(intentStatuses, intentId, 0)
    }
  }

  /** Storage of a freshly deployed contract, before `init`. */
  const Blank: Storage := Storage(ZeroAddress, ZeroAddress, ZeroAddress, 0, map[], false, false)

  /** The storage after a call, and what the call returned. */
  datatype Transition<T> = Transition(next: Storage, result: Result<T, Error>)

  // ---------------------------------------------------------------------------------------
  // Net effect of each entry point

  function InitStep(s: Storage, sender: Address, validatorAddress: Address, ccipRouterAddress: Address): Transition<()>
  {
    if validatorAddress == ZeroAddress || ccipRouterAddress == ZeroAddress then
      Transition(s, Err(InvalidAddress))
    else
      Transition(s.(owner := sender, validator := validatorAddress, ccipRouter := ccipRouterAddress,
                    intentCounter := 0, paused := false, locked := false), Ok(()))
  }

  /** The destination chain and the swap data do not affect storage, so they are not arguments here. */
  function ExecuteStep(s: Storage, tokenIn: Address, amount: nat, recipient: Address): Transition<nat>
  {
    if s.paused then Transition(s, Err(ContractPaused))
    else if s.locked then Transition(s, Err(ReentrancyGuard))
    else if tokenIn == ZeroAddress || recipient == ZeroAddress then Transition(s, Err(InvalidAddress))
    else if amount == 0 then Transition(s, Err(InvalidAmount))
    else
      var id := s.intentCounter + 1;
      Transition(s.(intentCounter := id, intentStatuses := s.intentStatuses[id := Completed.Code()]), Ok(id))
  }

  function PauseStep(s: Storage, sender: Address): Transition<()>
  {
    if sender != s.owner then Transition(s, Err(Unauthorized)) else Transition(s.(paused := true), Ok(()))
  }

  function UnpauseStep(s: Storage, sender: Address): Transition<()>
  {
    if sender != s.owner then Transition(s, Err(Unauthorized)) else Transition(s.(paused := false), Ok(()))
  }

  // ---------------------------------------------------------------------------------------
  // Sequences of calls

  datatype Call =
    | InitCall(sender: Address, validatorAddress: Address, ccipRouterAddress: Address)
    | ExecuteCall(tokenIn: Address, amount: nat, recipient: Address)
    | PauseCall(sender: Address)
    | UnpauseCall(sender: Address)

  function Apply(s: Storage, c: Call): Storage
  {
    match c
    case InitCall(sender, validatorAddress, ccipRouterAddress) => InitStep(s, sender, validatorAddress, ccipRouterAddress).next
    case ExecuteCall(tokenIn, amount, recipient) => ExecuteStep(s, tokenIn, amount, recipient).next
    case PauseCall(sender) => PauseStep(s, sender).next
    case UnpauseCall(sender) => UnpauseStep(s, sender).next
  }

  function Run(s: Storage, calls: seq<Call>): Storage
    decreases |calls|
  {
    if calls == [] then s else Run(Apply(s, calls[0]), calls[1..])
  }

  /** The intent ids returned by the successful executions among `calls`, in order. */
  function Issued(s: Storage, calls: seq<Call>): seq<nat>
    decreases |calls|
  {
    if calls == [] then []
    else
      match calls[0]
      case ExecuteCall(tokenIn, amount, recipient) =>
        var t := ExecuteStep(s, tokenIn, amount, recipient);
        (if t.result.Ok? then [t.result.value] else []) + Issued(t.next, calls[1..])
      case _ => Issued(Apply(s, calls[0]), calls[1..])
  }

  /** An `init` that succeeds, and so resets the counter, clears both flags and hands the
      contract to its caller; an `init` with a zero address changes nothing. */
  predicate Reinitialises(c: Call)
  {
    c.InitCall? && c.validatorAddress != ZeroAddress && c.ccipRouterAddress != ZeroAddress
  }

  predicate NoReinit(calls: seq<Call>)
  {
    forall i :: 0 <= i < |calls| ==> !Reinitialises(calls[i])
  }

  /** What survives every call, `init` included: each status is Pending or Completed, id 0 is
      never written, and the ids 1..intentCounter are Completed. */
  ghost predicate StatusesSettled(s: Storage)
  {
    && s.StatusOf(0) == Pending.Code()
    && (forall id: nat :: s.StatusOf(id) == Pending.Code() || s.StatusOf(id) == Completed.Code())
    && (forall id: nat :: 1 <= id <= s.intentCounter ==> s.StatusOf(id) == Completed.Code())
  }

  /** The status map agrees with the counter: exactly the ids 1..intentCounter are Completed,
      and every other id reads as Pending. Executing and Failed are never observable. */
  ghost predicate IdsConsistent(s: Storage)
  {
    forall id: nat :: s.StatusOf(id) == if 1 <= id <= s.intentCounter then Completed.Code() else Pending.Code()
  }

  // ---------------------------------------------------------------------------------------
  // Properties of single calls

  /** The guards of `execute_full_route` run in the order paused, lock, addresses, amount; the
      first that fails is reported, and a rejected call changes nothing. */
  lemma ExecuteChecksInOrder(s: Storage, tokenIn: Address, amount: nat, recipient: Address)
    ensures s.paused ==> ExecuteStep(s, tokenIn, amount, recipient).result == Err(ContractPaused)
    ensures !s.paused && s.locked ==> ExecuteStep(s, tokenIn, amount, recipient).result == Err(ReentrancyGuard)
    ensures !s.paused && !s.locked && (tokenIn == ZeroAddress || recipient == ZeroAddress) ==>
              ExecuteStep(s, tokenIn, amount, recipient).result == Err(InvalidAddress)
    ensures !s.paused && !s.locked && tokenIn != ZeroAddress && recipient != ZeroAddress && amount == 0 ==>
              ExecuteStep(s, tokenIn, amount, recipient).result == Err(InvalidAmount)
    ensures ExecuteStep(s, tokenIn, amount, recipient).result.Err? ==> ExecuteStep(s, tokenIn, amount, recipient).next == s
  {
  }

  /** A successful execution issues the next id, marks exactly that id Completed, and leaves
      the lock as it was on entry; the lock is unchanged on every path. */
  lemma ExecuteOutcome(s: Storage, tokenIn: Address, amount: nat, recipient: Address)
    ensures ExecuteStep(s, tokenIn, amount, recipient).result.Ok? <==>
              !s.paused && !s.locked && tokenIn != ZeroAddress && recipient != ZeroAddress && amount > 0
    ensures ExecuteStep(s, tokenIn, amount, recipient).next.locked == s.locked
    ensures ExecuteStep(s, tokenIn, amount, recipient).result.Ok? ==>
              var t := ExecuteStep(s, tokenIn, amount, recipient);
              && t.result.value == s.intentCounter + 1
              && t.next.intentCounter == t.result.value
              && t.next.StatusOf(t.result.value) == Completed.Code()
              && !t.next.locked
              && (forall id: nat :: id != t.result.value ==> t.next.StatusOf(id) == s.StatusOf(id))
              && t.next.owner == s.owner && t.next.paused == s.paused
  {
  }

  lemma ExecutePreservesIdsConsistent(s: Storage, tokenIn: Address, amount: nat, recipient: Address)
    requires IdsConsistent(s)
    ensures IdsConsistent(ExecuteStep(s, tokenIn, amount, recipient).next)
  {
    var t := ExecuteStep(s, tokenIn, amount, recipient);
    if t.result.Ok? {
      forall id: nat
        ensures t.next.StatusOf(id) == if 1 <= id <= t.next.intentCounter then Completed.Code() else Pending.Code()
      {
        if id != t.next.intentCounter {
          assert t.next.StatusOf(id) == s.StatusOf(id);
        }
      }
    }
  }

  /** Pausing and then unpausing, both by the owner, restores an unpaused contract exactly;
      pausing twice is the same as pausing once. */
  lemma PauseUnpauseRoundTrip(s: Storage)
    ensures !s.paused ==> UnpauseStep(PauseStep(s, s.owner).next, s.owner) == Transition(s, Ok(()))
    ensures PauseStep(PauseStep(s, s.owner).next, s.owner) == PauseStep(s, s.owner)
    ensures forall sender: Address :: sender != s.owner ==>
              PauseStep(s, sender) == UnpauseStep(s, sender) == Transition(s, Err(Unauthorized))
  {
  }

  /** `init` on a fresh contract succeeds when both addresses are non-zero, makes the caller
      the owner and establishes the id invariant. */
  lemma InitOnBlank(sender: Address, validatorAddress: Address, ccipRouterAddress: Address)
    requires validatorAddress != ZeroAddress && ccipRouterAddress != ZeroAddress
    ensures InitStep(Blank, sender, validatorAddress, ccipRouterAddress).result == Ok(())
    ensures InitStep(Blank, sender, validatorAddress, ccipRouterAddress).next.owner == sender
    ensures IdsConsistent(InitStep(Blank, sender, validatorAddress, ccipRouterAddress).next)
    ensures StatusesSettled(InitStep(Blank, sender, validatorAddress, ccipRouterAddress).next)
  {
    IdsConsistentSettles(InitStep(Blank, sender, validatorAddress, ccipRouterAddress).next);
  }

  /** `init` has no guard against being called again. A second `init` resets the counter but
      keeps the statuses, so the invariant breaks and id 1 is issued a second time. */
  lemma ReinitReissuesIds(s: Storage, sender: Address, validatorAddress: Address, ccipRouterAddress: Address,
                          tokenIn: Address, amount: nat, recipient: Address)
    requires IdsConsistent(s) && s.intentCounter > 0
    requires validatorAddress != ZeroAddress && ccipRouterAddress != ZeroAddress
    requires tokenIn != ZeroAddress && recipient != ZeroAddress && amount > 0
    ensures InitStep(s, sender, validatorAddress, ccipRouterAddress).next.StatusOf(1) == Completed.Code()
    ensures !IdsConsistent(InitStep(s, sender, validatorAddress, ccipRouterAddress).next)
    ensures ExecuteStep(InitStep(s, sender, validatorAddress, ccipRouterAddress).next, tokenIn, amount, recipient).result == Ok(1)
  {
    var s1 := InitStep(s, sender, validatorAddress, ccipRouterAddress).next;
    assert s.StatusOf(1) == Completed.Code();
    assert s1.StatusOf(1) == s.StatusOf(1);
  }

  /** Nor does `init` check its caller. An account that is not the owner, and so may neither
      pause nor unpause, becomes the owner by calling `init`, which also lifts a pause. */
  lemma InitTakesOverAndUnpauses(s: Storage, anyone: Address, validatorAddress: Address, ccipRouterAddress: Address)
    requires anyone != s.owner
    requires validatorAddress != ZeroAddress && ccipRouterAddress != ZeroAddress
    ensures UnpauseStep(s, anyone) == Transition(s, Err(Unauthorized))
    ensures InitStep(s, anyone, validatorAddress, ccipRouterAddress).result == Ok(())
    ensures InitStep(s, anyone, validatorAddress, ccipRouterAddress).next.owner == anyone
    ensures !InitStep(s, anyone, validatorAddress, ccipRouterAddress).next.paused
    ensures PauseStep(InitStep(s, anyone, validatorAddress, ccipRouterAddress).next, anyone).result == Ok(())
  {
  }

  /** Every call keeps the statuses settled, a re-initialising `init` included. */
  lemma StepPreservesStatusesSettled(s: Storage, c: Call)
    requires StatusesSettled(s)
    ensures StatusesSettled(Apply(s, c))
  {
    var s1 := Apply(s, c);
    if c.ExecuteCall? && ExecuteStep(s, c.tokenIn, c.amount, c.recipient).result.Ok? {
      forall id: nat
        ensures s1.StatusOf(id) == Pending.Code() || s1.StatusOf(id) == Completed.Code()
        ensures 1 <= id <= s1.intentCounter ==> s1.StatusOf(id) == Completed.Code()
      {
        if id != s1.intentCounter {
          assert s1.StatusOf(id) == s.StatusOf(id);
        }
      }
      assert s1.StatusOf(0) == s.StatusOf(0);
    } else {
      assert s1.intentStatuses == s.intentStatuses;
      assert forall id: nat :: s1.StatusOf(id) == s.StatusOf(id);
    }
  }

  /** Completed is terminal: no call, `init` included, moves a Completed intent to another
      status. A re-initialised contract that executes such an id again writes Completed once
      more. */
  lemma StepKeepsCompleted(s: Storage, c: Call, id: nat)
    requires s.StatusOf(id) == Completed.Code()
    ensures Apply(s, c).StatusOf(id) == Completed.Code()
  {
  }

  /** The id invariant implies the weaker one. */
  lemma IdsConsistentSettles(s: Storage)
    requires IdsConsistent(s)
    ensures StatusesSettled(s)
  {
  }

  // ---------------------------------------------------------------------------------------
  // Properties of sequences of calls

  lemma NoReinitTail(calls: seq<Call>)
    requires calls != [] && NoReinit(calls)
    ensures !Reinitialises(calls[0]) && NoReinit(calls[1..])
  {
    assert forall i :: 0 <= i < |calls[1..]| ==> calls[1..][i] == calls[i + 1];
  }

  /** Over any sequence of calls, `init` included, no status other than Pending or Completed
      is ever observed between calls. */
  lemma {:induction false} RunPreservesStatusesSettled(s: Storage, calls: seq<Call>)
    requires StatusesSettled(s)
    ensures StatusesSettled(Run(s, calls))
    decreases |calls|
  {
    if calls != [] {
      StepPreservesStatusesSettled(s, calls[0]);
      RunPreservesStatusesSettled(Apply(s, calls[0]), calls[1..]);
    }
  }

  /** A Completed intent reads Completed after any sequence of calls, `init` included. */
  lemma {:induction false} RunKeepsCompleted(s: Storage, calls: seq<Call>, id: nat)
    requires s.StatusOf(id) == Completed.Code()
    ensures Run(s, calls).StatusOf(id) == Completed.Code()
    decreases |calls|
  {
    if calls != [] {
      StepKeepsCompleted(s, calls[0], id);
      RunKeepsCompleted(Apply(s, calls[0]), calls[1..], id);
    }
  }

  /** Without a re-initialising `init`, the statuses follow the counter exactly. */
  lemma {:induction false} RunPreservesIdsConsistent(s: Storage, calls: seq<Call>)
    requires IdsConsistent(s)
    requires NoReinit(calls)
    ensures IdsConsistent(Run(s, calls))
    decreases |calls|
  {
    if calls != [] {
      NoReinitTail(calls);
      var s1 := Apply(s, calls[0]);
      if calls[0].ExecuteCall? {
        ExecutePreservesIdsConsistent(s, calls[0].tokenIn, calls[0].amount, calls[0].recipient);
      } else {
        assert s1.intentStatuses == s.intentStatuses && s1.intentCounter == s.intentCounter;
        assert forall id: nat :: s1.StatusOf(id) == s.StatusOf(id);
      }
      RunPreservesIdsConsistent(Apply(s, calls[0]), calls[1..]);
    }
  }

  /** Without a re-initialising `init`, ids are issued consecutively from `intentCounter + 1`,
      never reused, and the counter ends at the last id issued. */
  lemma {:induction false} IssuedIdsAreConsecutive(s: Storage, calls: seq<Call>)
    requires NoReinit(calls)
    ensures Run(s, calls).intentCounter == s.intentCounter + |Issued(s, calls)|
    ensures forall i :: 0 <= i < |Issued(s, calls)| ==> Issued(s, calls)[i] == s.intentCounter + 1 + i
    decreases |calls|
  {
    if calls != [] {
      NoReinitTail(calls);
      var s1 := Apply(s, calls[0]);
      IssuedIdsAreConsecutive(s1, calls[1..]);
      match calls[0]
      case ExecuteCall(tokenIn, amount, recipient) =>
        var t := ExecuteStep(s, tokenIn, amount, recipient);
        assert Issued(s, calls) == (if t.result.Ok? then [t.result.value] else []) + Issued(s1, calls[1..]);
      case InitCall(_, _, _) =>
      case PauseCall(_) =>
      case UnpauseCall(_) =>
    }
  }

  /** After a successful `init`, from any storage, the executions issue ids 1, 2, 3, ... up to
      the next re-initialisation. */
  lemma IdsFromInitStartAtOne(s: Storage, sender: Address, validatorAddress: Address, ccipRouterAddress: Address, calls: seq<Call>)
    requires validatorAddress != ZeroAddress && ccipRouterAddress != ZeroAddress
    requires NoReinit(calls)
    ensures forall i :: 0 <= i < |Issued(InitStep(s, sender, validatorAddress, ccipRouterAddress).next, calls)| ==>
              Issued(InitStep(s, sender, validatorAddress, ccipRouterAddress).next, calls)[i] == i + 1
  {
    IssuedIdsAreConsecutive(InitStep(s, sender, validatorAddress, ccipRouterAddress).next, calls);
  }

  /** No call takes the lock and keeps it: an unlocked contract stays unlocked. Only a
      successful `init` changes the flag, and it releases it. */
  lemma {:induction false} RunKeepsLock(s: Storage, calls: seq<Call>)
    ensures Run(s, calls).locked ==> s.locked
    ensures NoReinit(calls) ==> Run(s, calls).locked == s.locked
    decreases |calls|
  {
    if calls != [] {
      if NoReinit(calls) {
        NoReinitTail(calls);
      }
      RunKeepsLock(Apply(s, calls[0]), calls[1..]);
    }
  }

  /** While paused, until the owner unpauses or someone re-initialises the contract, no call
      changes storage and no id is issued. */
  lemma {:induction false} PausedUntilOwnerUnpauses(s: Storage, calls: seq<Call>)
    requires s.paused
    requires forall i :: 0 <= i < |calls| ==> calls[i] != UnpauseCall(s.owner) && !Reinitialises(calls[i])
    ensures Run(s, calls) == s
    ensures Issued(s, calls) == []
    decreases |calls|
  {
    if calls != [] {
      assert calls[0] != UnpauseCall(s.owner) && !Reinitialises(calls[0]);
      assert Apply(s, calls[0]) == s;
      assert forall i :: 0 <= i < |calls[1..]| ==> calls[1..][i] == calls[i + 1];
      PausedUntilOwnerUnpauses(s, calls[1..]);
    }
  }

  // ---------------------------------------------------------------------------------------
  // The contract

  class RouteExecutor {
    var owner: Address
    var validator: Address
    var ccipRouter: Address
    var intentCounter: nat
    var intentStatuses: map<nat, nat>
    var paused: bool
    var locked: bool
    /** The notifications emitted so far, oldest first. */
    ghost var events: seq<Event>

    function Snapshot(): Storage
      reads this
    {
      Storage(owner, validator, ccipRouter, intentCounter, intentStatuses, paused, locked)
    }

    /** A freshly deployed contract: every field reads as zero. */
    constructor ()
      ensures Snapshot() == Blank && events == []
    {
      owner, validator, ccipRouter := ZeroAddress, ZeroAddress, ZeroAddress;
      intentCounter, intentStatuses := 0, map[];
      paused, locked := false, false;
      events := [];
    }

    method Init(sender: Address, validatorAddress: Address, ccipRouterAddress: Address) returns (r: Result<(), Error>)
      modifies this
      ensures Transition(Snapshot(), r) == InitStep(old(Snapshot()), sender, validatorAddress, ccipRouterAddress)
      ensures r.Err? <==> validatorAddress == ZeroAddress || ccipRouterAddress == ZeroAddress
      ensures r.Err? ==> r.error == InvalidAddress
      ensures r.Ok? ==> owner == sender && intentCounter == 0 && !paused && !locked
      ensures events == old(events)
    {
      if validatorAddress == ZeroAddress || ccipRouterAddress == ZeroAddress {
        return Err(InvalidAddress);
      }
      owner := sender;
      validator := validatorAddress;
      ccipRouter := ccipRouterAddress;
      intentCounter := 0;
      paused := false;
      locked := false;
      return Ok(());
    }

    /** The caller is `sender`; `now` is the block timestamp. */
    method ExecuteFullRoute(sender: Address, now: nat, tokenIn: Address, amount: nat, destinationChain: nat,
                            recipient: Address, swapData: seq<bv8>) returns (r: Result<nat, Error>)
      modifies this
      ensures Transition(Snapshot(), r) == ExecuteStep(old(Snapshot()), tokenIn, amount, recipient)
      ensures locked == old(locked)
      ensures r.Err? ==> events == old(events)
      ensures r.Ok? ==>
                events == old(events)
                          + (if |swapData| > 0 then [SwapExecuted(r.value, tokenIn, tokenIn, amount, amount)] else [])
                          + [BridgeInitiated(r.value, tokenIn, amount, destinationChain, recipient),
                             IntentExecuted(r.value, sender, now)]
    {
      if paused {
        return Err(ContractPaused);
      }
      var unlocked := CheckNotLocked();
      if unlocked.Err? {
        return Err(unlocked.error);
      }
      locked := true;

      var user := sender;
      var intentId := intentCounter + 1;

      if tokenIn == ZeroAddress || recipient == ZeroAddress {
        locked := false;
        return Err(InvalidAddress);
      }
      if amount == 0 {
        locked := false;
        return Err(InvalidAmount);
      }

      intentStatuses := intentStatuses[intentId := Executing.Code()];

      var finalAmount := amount;
      if |swapData| > 0 {
        finalAmount := InternalExecuteSwap(intentId, tokenIn, amount, swapData);
      }
      InternalExecuteBridge(intentId, tokenIn, finalAmount, destinationChain, recipient);

      intentStatuses := intentStatuses[intentId := Completed.Code()];
      intentCounter := intentId;
      events := events + [IntentExecuted(intentId, user, now)];
      locked := false;
      return Ok(intentId);
    }

    /** The integer status of an intent. Unknown ids read as Pending; under the id invariant the
        status tells exactly whether the id has been issued. */
    function GetIntentStatus(intentId: nat): (r: nat)
      reads this
      ensures intentId !in intentStatuses ==> r == Pending.Code()
      ensures IdsConsistent(Snapshot()) ==> (r == Completed.Code() <==> 1 <= intentId <= intentCounter)
      ensures IdsConsistent(Snapshot()) ==> (r == Pending.Code() <==> !(1 <= intentId <= intentCounter))
      ensures StatusesSettled(Snapshot()) ==> (r == Pending.Code() || r == Completed.Code())
      ensures StatusesSettled(Snapshot()) && 1 <= intentId <= intentCounter ==> r == Completed.Code()
    {
      Snapshot().StatusOf(intentId)
    }

    method Pause(sender: Address) returns (r: Result<(), Error>)
      modifies this
      ensures Transition(Snapshot(), r) == PauseStep(old(Snapshot()), sender)
      ensures r.Err? <==> sender != old(owner)
      ensures r.Err? ==> r.error == Unauthorized && events == old(events)
      ensures r.Ok? ==> paused && events == old(events) + [Paused(sender)]
    {
      var authorized := OnlyOwner(sender);
      if authorized.Err? {
        return Err(authorized.error);
      }
      paused := true;
      events := events + [Paused(sender)];
      return Ok(());
    }

    method Unpause(sender: Address) returns (r: Result<(), Error>)
      modifies this
      ensures Transition(Snapshot(), r) == UnpauseStep(old(Snapshot()), sender)
      ensures r.Err? <==> sender != old(owner)
      ensures r.Err? ==> r.error == Unauthorized && events == old(events)
      ensures r.Ok? ==> !paused && events == old(events) + [Unpaused(sender)]
    {
      var authorized := OnlyOwner(sender);
      if authorized.Err? {
        return Err(authorized.error);
      }
      paused := false;
      events := events + [Unpaused(sender)];
      return Ok(());
    }

    /** The swap is an identity: it hands on the amount it was given, whatever the swap data. */
    method InternalExecuteSwap(intentId: nat, tokenIn: Address, amount: nat, swapData: seq<bv8>) returns (amountOut: nat)
      modifies this
      ensures amountOut == amount
      ensures Snapshot() == old(Snapshot())
      ensures events == old(events) + [SwapExecuted(intentId, tokenIn, tokenIn, amount, amount)]
    {
      events := events + [SwapExecuted(intentId, tokenIn, tokenIn, amount, amount)];
      amountOut := amount;
    }

    /** The bridge hand-off only announces the transfer. */
    method InternalExecuteBridge(intentId: nat, token: Address, amount: nat, destinationChain: nat, recipient: Address)
      modifies this
      ensures Snapshot() == old(Snapshot())
      ensures events == old(events) + [BridgeInitiated(intentId, token, amount, destinationChain, recipient)]
    {
      events := events + [BridgeInitiated(intentId, token, amount, destinationChain, recipient)];
    }

    function OnlyOwner(sender: Address): (r: Result<(), Error>)
      reads this
      ensures r.Err? <==> sender != owner
      ensures r.Err? ==> r.error == Unauthorized
    {
      if sender != owner then Err(Unauthorized) else Ok(())
    }

    function CheckNotLocked(): (r: Result<(), Error>)
      reads this
      ensures r.Err? <==> locked
      ensures r.Err? ==> r.error == ReentrancyGuard
    {
      if locked then Err(ReentrancyGuard) else Ok(())
    }
  }
}
