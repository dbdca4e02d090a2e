/** The SettlementVerifier contract: records, per intent id, an integer settlement status and
    the time the settlement was confirmed, and accepts at most one delivery confirmation per
    intent from the CCIP router. When the owner or the route executor calls `handle_failure`
    for an intent whose confirmation is older than a global timeout, it marks the intent
    Refunded; nothing refunds an intent by itself.

    As in RouteExecution, `Storage` and the `...Step` functions give the net effect of each
    entry point, the lemmas state the contract's promises about them (also over sequences of
    calls), and the class `SettlementVerifier` performs the writes in the contract's order and
    is proved to have exactly the effect of the step functions. */
module SettlementVerification {
  import opened Common

  /** A settlement's lifecycle; storage holds `Code()` rather than the variant. */
  datatype SettlementStatus = Pending | Confirmed | Failed | Refunded
  {
    function Code(): nat
    {
      match this
      case Pending => 0
      case Confirmed => 1
      case Failed => 2
      case Refunded => 3
    }
  }

  datatype Error =
    | Unauthorized
    | InvalidMessageId
    | InvalidIntentId
    | SettlementTimeout
    | AlreadyProcessed
    | RefundFailed

  /** A CCIP message id (32 bytes); the zero id is 0. */
  type MessageId = nat

  const ZeroMessageId: MessageId := 0

  /** The timeout `init` installs: 30 minutes, in seconds. */
  const DefaultTimeout: nat := 1800

  datatype Event =
    | SettlementConfirmed(intentId: nat, messageId: MessageId, timestamp: nat)
    | SettlementFailed(intentId: nat, messageId: MessageId, reason: string)
    | RefundInitiated(intentId: nat, user: Address, token: Address, amount: nat)

  /** The contract's persistent storage. */
  datatype Storage = Storage(
    owner: Address,
    routeExecutor: Address,
    ccipRouter: Address,
    settlements: map<nat, nat>,
    settlementTimestamps: map<nat, nat>,
    timeoutPeriod: nat)
  {
    /** The stored status code; unknown ids read as Pending (0). */
    function StatusOf(intentId: nat): nat
    {
      Read(settlements, intentId, 0)
    }

    /** The stored confirmation time; 0 means no confirmation time was recorded. */
    function TimestampOf(intentId: nat): nat
    {
      Read(settlementTimestamps, intentId, 0)
    }
  }

  /** Storage of a freshly deployed contract, before `init`. */
  const Blank: Storage := Storage(ZeroAddress, ZeroAddress, ZeroAddress, map[], map[], 0)

  datatype Transition<T> = Transition(next: Storage, result: Result<T, Error>)

  // ---------------------------------------------------------------------------------------
  // Net effect of each entry point

  function InitStep(s: Storage, sender: Address, routeExecutorAddress: Address, ccipRouterAddress: Address): Transition<()>
  {
    if routeExecutorAddress == ZeroAddress || ccipRouterAddress == ZeroAddress then
      Transition(s, Err(Unauthorized))
    else
      Transition(s.(owner := sender, routeExecutor := routeExecutorAddress, ccipRouter := ccipRouterAddress,
                    timeoutPeriod := DefaultTimeout), Ok(()))
  }

  function VerifyStep(s: Storage, sender: Address, intentId: nat, now: nat): Transition<bool>
  {
    if sender != s.ccipRouter then Transition(s, Err(Unauthorized))
    else if intentId == 0 then Transition(s, Err(InvalidIntentId))
    else if s.StatusOf(intentId) != Pending.Code() then Transition(s, Err(AlreadyProcessed))
    else
      Transition(s.(settlementTimestamps := s.settlementTimestamps[intentId := now],
                    settlements := s.settlements[intentId := Confirmed.Code()]), Ok(true))
  }

  function ConfirmStep(s: Storage, intentId: nat): Transition<()>
  {
    if intentId == 0 then Transition(s, Err(InvalidIntentId))
    else Transition(s.(settlements := s.settlements[intentId := Confirmed.Code()]), Ok(()))
  }

  function HandleFailureStep(s: Storage, sender: Address, intentId: nat, now: nat): Transition<()>
  {
    if sender != s.owner && sender != s.routeExecutor then Transition(s, Err(Unauthorized))
    else if intentId == 0 then Transition(s, Err(InvalidIntentId))
    else if s.TimestampOf(intentId) != 0 && now > s.TimestampOf(intentId) + s.timeoutPeriod then
      Transition(s.(settlements := s.settlements[intentId := Refunded.Code()]), Ok(()))
    else Transition(s, Ok(()))
  }

  /** The answer of `has_settlement_timed_out` at time `now`. */
  function TimedOut(s: Storage, intentId: nat, now: nat): bool
  {
    if s.TimestampOf(intentId) == 0 then false else now > s.TimestampOf(intentId) + s.timeoutPeriod
  }

  function SetTimeoutStep(s: Storage, sender: Address, newTimeout: nat): Transition<()>
  {
    if sender != s.owner then Transition(s, Err(Unauthorized)) else Transition(s.(timeoutPeriod := newTimeout), Ok(()))
  }

  // ---------------------------------------------------------------------------------------
  // Sequences of calls

  datatype Call =
    | InitCall(sender: Address, routeExecutorAddress: Address, ccipRouterAddress: Address)
    | VerifyCall(sender: Address, intentId: nat, now: nat)
    | ConfirmCall(intentId: nat)
    | HandleFailureCall(sender: Address, intentId: nat, now: nat)
    | SetTimeoutCall(sender: Address, newTimeout: nat)

  function Apply(s: Storage, c: Call): Storage
  {
    match c
    case InitCall(sender, routeExecutorAddress, ccipRouterAddress) => InitStep(s, sender, routeExecutorAddress, ccipRouterAddress).next
    case VerifyCall(sender, intentId, now) => VerifyStep(s, sender, intentId, now).next
    case ConfirmCall(intentId) => ConfirmStep(s, intentId).next
    case HandleFailureCall(sender, intentId, now) => HandleFailureStep(s, sender, intentId, now).next
    case SetTimeoutCall(sender, newTimeout) => SetTimeoutStep(s, sender, newTimeout).next
  }

  function Run(s: Storage, calls: seq<Call>): Storage
    decreases |calls|
  {
    if calls == [] then s else Run(Apply(s, calls[0]), calls[1..])
  }

  /** How many calls among `calls` confirm the delivery of `intentId` successfully. */
  function Confirmations(s: Storage, calls: seq<Call>, intentId: nat): nat
    decreases |calls|
  {
    if calls == [] then 0
    else
      var confirms := calls[0].VerifyCall? && calls[0].intentId == intentId &&
                      VerifyStep(s, calls[0].sender, intentId, calls[0].now).result.Ok?;
      (if confirms then 1 else 0) + Confirmations(Apply(s, calls[0]), calls[1..], intentId)
  }

  /** What every reachable storage satisfies: status codes are Pending, Confirmed or Refunded
      (Failed is always overwritten in the call that writes it), id 0 is never touched, and a
      recorded confirmation time belongs to a Confirmed or Refunded settlement. */
  ghost predicate WellFormed(s: Storage)
  {
    && (forall id: nat :: s.StatusOf(id) != Failed.Code() && s.StatusOf(id) <= Refunded.Code())
    && s.StatusOf(0) == Pending.Code()
    && s.TimestampOf(0) == 0
    && (forall id: nat :: s.TimestampOf(id) != 0 ==>
          s.StatusOf(id) == Confirmed.Code() || s.StatusOf(id) == Refunded.Code())
  }

  // ---------------------------------------------------------------------------------------
  // Properties of single calls

  /** `verify_ccip_message` checks the caller, then the id, then that the settlement is still
      Pending; a rejected call changes nothing. */
  lemma VerifyChecksInOrder(s: Storage, sender: Address, intentId: nat, now: nat)
    ensures sender != s.ccipRouter ==> VerifyStep(s, sender, intentId, now).result == Err(Unauthorized)
    ensures sender == s.ccipRouter && intentId == 0 ==> VerifyStep(s, sender, intentId, now).result == Err(InvalidIntentId)
    ensures sender == s.ccipRouter && intentId != 0 && s.StatusOf(intentId) != Pending.Code() ==>
              VerifyStep(s, sender, intentId, now).result == Err(AlreadyProcessed)
    ensures VerifyStep(s, sender, intentId, now).result.Err? ==> VerifyStep(s, sender, intentId, now).next == s
    ensures VerifyStep(s, sender, intentId, now).result.Ok? ==> VerifyStep(s, sender, intentId, now).result.value
  {
  }

  /** A successful confirmation records `now` and Confirmed for that id only; a second
      confirmation of the same id, at any later time, fails with AlreadyProcessed. */
  lemma VerifyConfirmsOnce(s: Storage, intentId: nat, now: nat, later: nat)
    requires VerifyStep(s, s.ccipRouter, intentId, now).result.Ok?
    ensures VerifyStep(s, s.ccipRouter, intentId, now).next.TimestampOf(intentId) == now
    ensures VerifyStep(s, s.ccipRouter, intentId, now).next.StatusOf(intentId) == Confirmed.Code()
    ensures forall id: nat :: id != intentId ==>
              && VerifyStep(s, s.ccipRouter, intentId, now).next.StatusOf(id) == s.StatusOf(id)
              && VerifyStep(s, s.ccipRouter, intentId, now).next.TimestampOf(id) == s.TimestampOf(id)
    ensures VerifyStep(VerifyStep(s, s.ccipRouter, intentId, now).next, s.ccipRouter, intentId, later).result == Err(AlreadyProcessed)
  {
  }

  /** `confirm_settlement` checks neither the caller nor the prior status: for a non-zero id it
      sets Confirmed whatever the status was (also Failed or Refunded), touches nothing else,
      and doing it twice is the same as doing it once. */
  lemma ConfirmOverwritesAndIsIdempotent(s: Storage, intentId: nat)
    ensures ConfirmStep(s, intentId).result.Err? <==> intentId == 0
    ensures ConfirmStep(s, intentId).result.Err? ==> ConfirmStep(s, intentId) == Transition(s, Err(InvalidIntentId))
    ensures intentId != 0 ==> ConfirmStep(s, intentId).next.StatusOf(intentId) == Confirmed.Code()
    ensures forall id: nat :: id != intentId ==> ConfirmStep(s, intentId).next.StatusOf(id) == s.StatusOf(id)
    ensures ConfirmStep(s, intentId).next.settlementTimestamps == s.settlementTimestamps
    ensures ConfirmStep(ConfirmStep(s, intentId).next, intentId) == ConfirmStep(s, intentId)
  {
  }

  /** `handle_failure` checks the caller before the id; a rejected call changes nothing. */
  lemma HandleFailureChecksInOrder(s: Storage, sender: Address, intentId: nat, now: nat)
    ensures sender != s.owner && sender != s.routeExecutor ==> HandleFailureStep(s, sender, intentId, now).result == Err(Unauthorized)
    ensures (sender == s.owner || sender == s.routeExecutor) && intentId == 0 ==>
              HandleFailureStep(s, sender, intentId, now).result == Err(InvalidIntentId)
    ensures HandleFailureStep(s, sender, intentId, now).result.Err? ==> HandleFailureStep(s, sender, intentId, now).next == s
  {
  }

  /** For an authorised caller and a non-zero id, `handle_failure` refunds exactly when
      `has_settlement_timed_out` answers true at the same time, and otherwise succeeds without
      any effect. */
  lemma HandleFailureIffTimedOut(s: Storage, sender: Address, intentId: nat, now: nat)
    requires sender == s.owner || sender == s.routeExecutor
    requires intentId != 0
    ensures HandleFailureStep(s, sender, intentId, now).result == Ok(())
    ensures HandleFailureStep(s, sender, intentId, now).next ==
              if TimedOut(s, intentId, now) then s.(settlements := s.settlements[intentId := Refunded.Code()]) else s
  {
  }

  /** The timeout boundary is strict: with confirmation time T and timeout P, nothing happens
      at T + P - 1 or at T + P, and the settlement is Refunded at T + P + 1. */
  lemma TimeoutBoundary(s: Storage, sender: Address, intentId: nat)
    requires sender == s.owner || sender == s.routeExecutor
    requires intentId != 0 && s.TimestampOf(intentId) != 0
    ensures HandleFailureStep(s, sender, intentId, s.TimestampOf(intentId) + s.timeoutPeriod - 1).next == s
    ensures HandleFailureStep(s, sender, intentId, s.TimestampOf(intentId) + s.timeoutPeriod).next == s
    ensures HandleFailureStep(s, sender, intentId, s.TimestampOf(intentId) + s.timeoutPeriod + 1).next.StatusOf(intentId)
              == Refunded.Code()
  {
  }

  /** Confirmation is not terminal: a Confirmed settlement whose confirmation time is older
      than the timeout is moved to Refunded by `handle_failure`. */
  lemma ConfirmedThenRefunded(s: Storage, sender: Address, intentId: nat, confirmedAt: nat, now: nat)
    requires s.StatusOf(intentId) == Pending.Code() && intentId != 0
    requires sender == s.owner || sender == s.routeExecutor
    requires confirmedAt != 0 && now > confirmedAt + s.timeoutPeriod
    ensures VerifyStep(s, s.ccipRouter, intentId, confirmedAt).next.StatusOf(intentId) == Confirmed.Code()
    ensures HandleFailureStep(VerifyStep(s, s.ccipRouter, intentId, confirmedAt).next, sender, intentId, now)
              .next.StatusOf(intentId) == Refunded.Code()
  {
  }

  /** `init` has no one-time or owner guard: any account can call it again, become the owner,
      name itself the CCIP router and then confirm any Pending settlement that is not id 0. */
  lemma InitHandsOverRouter(s: Storage, anyone: Address, routeExecutorAddress: Address, intentId: nat, now: nat)
    requires routeExecutorAddress != ZeroAddress && anyone != ZeroAddress
    requires intentId != 0 && s.StatusOf(intentId) == Pending.Code()
    ensures InitStep(s, anyone, routeExecutorAddress, anyone).result == Ok(())
    ensures InitStep(s, anyone, routeExecutorAddress, anyone).next.owner == anyone
    ensures InitStep(s, anyone, routeExecutorAddress, anyone).next.settlements == s.settlements
    ensures VerifyStep(InitStep(s, anyone, routeExecutorAddress, anyone).next, anyone, intentId, now).result == Ok(true)
  {
  }

  lemma StepPreservesWellFormed(s: Storage, c: Call)
    requires WellFormed(s)
    ensures WellFormed(Apply(s, c))
  {
    var s1 := Apply(s, c);
    forall id: nat
      ensures s1.StatusOf(id) != Failed.Code() && s1.StatusOf(id) <= Refunded.Code()
      ensures s1.TimestampOf(id) != 0 ==> s1.StatusOf(id) == Confirmed.Code() || s1.StatusOf(id) == Refunded.Code()
    {
      assert s.StatusOf(id) != Failed.Code() && s.StatusOf(id) <= Refunded.Code();
      assert s.TimestampOf(id) != 0 ==> s.StatusOf(id) == Confirmed.Code() || s.StatusOf(id) == Refunded.Code();
    }
  }

  // ---------------------------------------------------------------------------------------
  // Properties of sequences of calls

  lemma {:induction false} RunPreservesWellFormed(s: Storage, calls: seq<Call>)
    requires WellFormed(s)
    ensures WellFormed(Run(s, calls))
    decreases |calls|
  {
    if calls != [] {
      StepPreservesWellFormed(s, calls[0]);
      RunPreservesWellFormed(Apply(s, calls[0]), calls[1..]);
    }
  }

  /** No call writes Pending, so a settlement that has left Pending never returns to it. */
  lemma StepKeepsNonPending(s: Storage, c: Call, intentId: nat)
    requires s.StatusOf(intentId) != Pending.Code()
    ensures Apply(s, c).StatusOf(intentId) != Pending.Code()
  {
  }

  /** Over any sequence of calls, the delivery of an intent is confirmed at most once, and
      never if its settlement has already left Pending. */
  lemma {:induction false} AtMostOneConfirmation(s: Storage, calls: seq<Call>, intentId: nat)
    ensures Confirmations(s, calls, intentId) <= 1
    ensures s.StatusOf(intentId) != Pending.Code() ==> Confirmations(s, calls, intentId) == 0
    decreases |calls|
  {
    if calls != [] {
      var s1 := Apply(s, calls[0]);
      AtMostOneConfirmation(s1, calls[1..], intentId);
      if s.StatusOf(intentId) != Pending.Code() {
        StepKeepsNonPending(s, calls[0], intentId);
      } else if calls[0].VerifyCall? && calls[0].intentId == intentId &&
                VerifyStep(s, calls[0].sender, intentId, calls[0].now).result.Ok? {
        assert s1.StatusOf(intentId) == Confirmed.Code();
      }
    }
  }

  /** Only `verify_ccip_message` writes confirmation times: if the time recorded for an intent
      changes over a sequence of calls, exactly one of them was a successful confirmation of
      that intent, so one made by the CCIP router of that moment. */
  lemma {:induction false} TimestampsOnlyFromVerify(s: Storage, calls: seq<Call>, intentId: nat)
    requires Run(s, calls).TimestampOf(intentId) != s.TimestampOf(intentId)
    ensures exists i :: 0 <= i < |calls| && calls[i].VerifyCall? && calls[i].intentId == intentId
    ensures Confirmations(s, calls, intentId) == 1
    decreases |calls|
  {
    var s1 := Apply(s, calls[0]);
    AtMostOneConfirmation(s, calls, intentId);
    if s1.TimestampOf(intentId) != s.TimestampOf(intentId) {
      assert calls[0].VerifyCall? && calls[0].intentId == intentId;
      assert VerifyStep(s, calls[0].sender, intentId, calls[0].now).result.Ok?;
      assert Confirmations(s, calls, intentId) == 1 + Confirmations(s1, calls[1..], intentId);
    } else {
      TimestampsOnlyFromVerify(s1, calls[1..], intentId);
      var i :| 0 <= i < |calls[1..]| && calls[1..][i].VerifyCall? && calls[1..][i].intentId == intentId;
      assert calls[i + 1] == calls[1..][i];
    }
  }

  // ---------------------------------------------------------------------------------------
  // The contract

  class SettlementVerifier {
    var owner: Address
    var routeExecutor: Address
    var ccipRouter: Address
    var settlements: map<nat, nat>
    var settlementTimestamps: map<nat, nat>
    var timeoutPeriod: nat
    /** The notifications emitted so far, oldest first. */
    ghost var events: seq<Event>

    function Snapshot(): Storage
      reads this
    {
      Storage(owner, routeExecutor, ccipRouter, settlements, settlementTimestamps, timeoutPeriod)
    }

    /** A freshly deployed contract: every field reads as zero. */
    constructor ()
      ensures Snapshot() == Blank && WellFormed(Snapshot()) && events == []
    {
      owner, routeExecutor, ccipRouter := ZeroAddress, ZeroAddress, ZeroAddress;
      settlements, settlementTimestamps := map[], map[];
      timeoutPeriod := 0;
      events := [];
    }

    /** A zero address is rejected with Unauthorized, not InvalidAddress. */
    method Init(sender: Address, routeExecutorAddress: Address, ccipRouterAddress: Address) returns (r: Result<(), Error>)
      modifies this
      ensures Transition(Snapshot(), r) == InitStep(old(Snapshot()), sender, routeExecutorAddress, ccipRouterAddress)
      ensures r.Err? <==> routeExecutorAddress == ZeroAddress || ccipRouterAddress == ZeroAddress
      ensures r.Err? ==> r.error == Unauthorized
      ensures r.Ok? ==> owner == sender && timeoutPeriod == DefaultTimeout
      ensures events == old(events)
    {
      if routeExecutorAddress == ZeroAddress || ccipRouterAddress == ZeroAddress {
        return Err(Unauthorized);
      }
      owner := sender;
      routeExecutor := routeExecutorAddress;
      ccipRouter := ccipRouterAddress;
      timeoutPeriod := DefaultTimeout;
      return Ok(());
    }

    /** Called by the CCIP router at block time `now` to confirm delivery of `intentId`. */
    method VerifyCcipMessage(sender: Address, now: nat, messageId: MessageId, intentId: nat) returns (r: Result<bool, Error>)
      modifies this
      ensures Transition(Snapshot(), r) == VerifyStep(old(Snapshot()), sender, intentId, now)
      ensures r.Ok? ==> r.value && events == old(events) + [SettlementConfirmed(intentId, messageId, now)]
      ensures r.Err? ==> events == old(events)
    {
      var authorized := OnlyCcipRouter(sender);
      if authorized.Err? {
        return Err(authorized.error);
      }
      if intentId == 0 {
        return Err(InvalidIntentId);
      }
      var currentStatus := GetSettlementStatus(intentId);
      if currentStatus != Pending.Code() {
        return Err(AlreadyProcessed);
      }

      settlementTimestamps := settlementTimestamps[intentId := now];

      var confirmed := ConfirmSettlement(intentId);
      // The id was checked to be non-zero, so the propagated error cannot occur.
      assert confirmed.Ok?;

      events := events + [SettlementConfirmed(intentId, messageId, now)];
      return Ok(true);
    }

    method ConfirmSettlement(intentId: nat) returns (r: Result<(), Error>)
      modifies this
      ensures Transition(Snapshot(), r) == ConfirmStep(old(Snapshot()), intentId)
      ensures r.Err? <==> intentId == 0
      ensures events == old(events)
    {
      if intentId == 0 {
        return Err(InvalidIntentId);
      }
      settlements := settlements[intentId := Confirmed.Code()];
      return Ok(());
    }

    /** Called by the owner or the route executor at block time `now`; `user`, `token`, `amount`
        and `reason` only go into the notifications. */
    method HandleFailure(sender: Address, now: nat, intentId: nat, user: Address, token: Address, amount: nat, reason: string)
      returns (r: Result<(), Error>)
      modifies this
      ensures Transition(Snapshot(), r) == HandleFailureStep(old(Snapshot()), sender, intentId, now)
      ensures events == if r.Ok? && TimedOut(old(Snapshot()), intentId, now)
                        then old(events) + [SettlementFailed(intentId, ZeroMessageId, reason),
                                            RefundInitiated(intentId, user, token, amount)]
                        else old(events)
    {
      var authorized := OnlyAuthorized(sender);
      if authorized.Err? {
        return Err(authorized.error);
      }
      if intentId == 0 {
        return Err(InvalidIntentId);
      }

      var settlementTime := GetSettlementTimestamp(intentId);
      var currentTime := now;
      var timeout := timeoutPeriod;

      if settlementTime != 0 && currentTime > settlementTime + timeout {
        settlements := settlements[intentId := Failed.Code()];
        events := events + [SettlementFailed(intentId, ZeroMessageId, reason)];
        InitiateRefund(intentId, user, token, amount);
      }
      return Ok(());
    }

    /** Marks the settlement Refunded; moving the funds back is not part of the contract. */
    method InitiateRefund(intentId: nat, user: Address, token: Address, amount: nat)
      modifies this
      ensures Snapshot() == old(Snapshot()).(settlements := old(settlements)[intentId := Refunded.Code()])
      ensures events == old(events) + [RefundInitiated(intentId, user, token, amount)]
    {
      settlements := settlements[intentId := Refunded.Code()];
      events := events + [RefundInitiated(intentId, user, token, amount)];
    }

    /** The integer status of a settlement. Unknown ids read as Pending; in a well-formed
        storage Failed is never observed and id 0 is always Pending. */
    function GetSettlementStatus(intentId: nat): (r: nat)
      reads this
      ensures intentId !in settlements ==> r == Pending.Code()
      ensures WellFormed(Snapshot()) ==> r != Failed.Code() && r <= Refunded.Code()
      ensures WellFormed(Snapshot()) && intentId == 0 ==> r == Pending.Code()
    {
      Snapshot().StatusOf(intentId)
    }

    /** The recorded confirmation time. Unknown ids read as 0; in a well-formed storage a
        non-zero time belongs to a Confirmed or Refunded settlement. */
    function GetSettlementTimestamp(intentId: nat): (r: nat)
      reads this
      ensures intentId !in settlementTimestamps ==> r == 0
      ensures WellFormed(Snapshot()) && r != 0 ==>
                GetSettlementStatus(intentId) == Confirmed.Code() || GetSettlementStatus(intentId) == Refunded.Code()
    {
      Snapshot().TimestampOf(intentId)
    }

    /** Whether `handle_failure` would refund `intentId` at block time `now`: a zero timestamp
        never times out, and for a non-zero id the owner's `handle_failure` at the same time
        writes Refunded for the id when the answer is true and changes nothing when it is false. */
    function HasSettlementTimedOut(now: nat, intentId: nat): (r: bool)
      reads this
      ensures r == TimedOut(Snapshot(), intentId, now)
      ensures GetSettlementTimestamp(intentId) == 0 ==> !r
      ensures intentId != 0 ==>
                HandleFailureStep(Snapshot(), owner, intentId, now).next ==
                  if r then Snapshot().(settlements := settlements[intentId := Refunded.Code()]) else Snapshot()
      ensures WellFormed(Snapshot()) && intentId == 0 ==> !r
    {
      var settlementTime := GetSettlementTimestamp(intentId);
      if settlementTime == 0 then false else now > settlementTime + timeoutPeriod
    }

    /** Owner-only; any value is accepted, zero included. */
    method SetTimeoutPeriod(sender: Address, newTimeout: nat) returns (r: Result<(), Error>)
      modifies this
      ensures Transition(Snapshot(), r) == SetTimeoutStep(old(Snapshot()), sender, newTimeout)
      ensures r.Err? <==> sender != old(owner)
      ensures r.Err? ==> r.error == Unauthorized
      ensures r.Ok? ==> timeoutPeriod == newTimeout
      ensures events == old(events)
    {
      var authorized := OnlyOwner(sender);
      if authorized.Err? {
        return Err(authorized.error);
      }
      timeoutPeriod := newTimeout;
      return Ok(());
    }

    function OnlyOwner(sender: Address): (r: Result<(), Error>)
      reads this
      ensures r.Err? <==> sender != owner
      ensures r.Err? ==> r.error == Unauthorized
    {
      if sender != owner then Err(Unauthorized) else Ok(())
    }

    function OnlyCcipRouter(sender: Address): (r: Result<(), Error>)
      reads this
      ensures r.Err? <==> sender != ccipRouter
      ensures r.Err? ==> r.error == Unauthorized
    {
      if sender != ccipRouter then Err(Unauthorized) else Ok(())
    }

    function OnlyAuthorized(sender: Address): (r: Result<(), Error>)
      reads this
      ensures r.Err? <==> sender != owner && sender != routeExecutor
      ensures r.Err? ==> r.error == Unauthorized
    {
      if sender != owner && sender != routeExecutor then Err(Unauthorized) else Ok(())
    }
  }
}
