/** The IntentValidator contract: owner-managed allow-lists of destination chains and tokens,
    and a read-only check that reports the first reason, in a fixed order, why an intent
    cannot go ahead. Token balances and allowances come from the token's ERC-20 contract; here
    they are the oracle functions `balanceOf(token, account)` and
    `allowanceOf(token, owner, spender)`.

    `Storage` and the `...Step` functions give the net effect of the state-changing entry
    points, and the lemmas about them cover sequences of calls. The class `IntentValidator`
    holds the same fields; its read-only entry points are functions of its fields. */
module IntentValidation {
  import opened Common

  datatype Error =
    | Unauthorized
    | InvalidAddress
    | InvalidAmount
    | UnsupportedChain
    | UnsupportedToken
    | InsufficientBalance
    | InsufficientAllowance

  /** The contract's persistent storage. */
  datatype Storage = Storage(
    owner: Address,
    supportedChains: map<nat, bool>,
    supportedTokens: map<Address, bool>)
  {
    function ChainSupported(chainId: nat): bool
    {
      Read(supportedChains, chainId, false)
    }

    function TokenSupported(token: Address): bool
    {
      Read(supportedTokens, token, false)
    }
  }

  /** Storage of a freshly deployed contract, before `init`. */
  const Blank: Storage := Storage(ZeroAddress, map[], map[])

  datatype Transition = Transition(next: Storage, result: Result<(), Error>)

  // ---------------------------------------------------------------------------------------
  // Net effect of each state-changing entry point

  /** `init` has no guard: any caller, at any time, becomes the owner. */
  function InitStep(s: Storage, sender: Address): Transition
  {
    Transition(s.(owner := sender), Ok(()))
  }

  function AddChainStep(s: Storage, sender: Address, chainId: nat): Transition
  {
    if sender != s.owner then Transition(s, Err(Unauthorized))
    else if chainId == 0 then Transition(s, Err(InvalidAmount))
    else Transition(s.(supportedChains := s.supportedChains[chainId := true]), Ok(()))
  }

  function AddTokenStep(s: Storage, sender: Address, token: Address): Transition
  {
    if sender != s.owner then Transition(s, Err(Unauthorized))
    else if token == ZeroAddress then Transition(s, Err(InvalidAddress))
    else Transition(s.(supportedTokens := s.supportedTokens[token := true]), Ok(()))
  }

  // ---------------------------------------------------------------------------------------
  // Sequences of calls

  datatype Call =
    | InitCall(sender: Address)
    | AddChainCall(sender: Address, chainId: nat)
    | AddTokenCall(sender: Address, token: Address)

  function Apply(s: Storage, c: Call): Storage
  {
    match c
    case InitCall(sender) => InitStep(s, sender).next
    case AddChainCall(sender, chainId) => AddChainStep(s, sender, chainId).next
    case AddTokenCall(sender, token) => AddTokenStep(s, sender, token).next
  }

  function Run(s: Storage, calls: seq<Call>): Storage
    decreases |calls|
  {
    if calls == [] then s else Run(Apply(s, calls[0]), calls[1..])
  }

  // ---------------------------------------------------------------------------------------
  // Properties of single calls

  /** `add_supported_chain` checks the caller before the chain id; a rejected call changes
      nothing, and a successful one adds exactly that chain. */
  lemma AddChainOutcome(s: Storage, sender: Address, chainId: nat)
    ensures sender != s.owner ==> AddChainStep(s, sender, chainId).result == Err(Unauthorized)
    ensures sender == s.owner && chainId == 0 ==> AddChainStep(s, sender, chainId).result == Err(InvalidAmount)
    ensures AddChainStep(s, sender, chainId).result.Err? ==> AddChainStep(s, sender, chainId).next == s
    ensures AddChainStep(s, sender, chainId).result.Ok? ==>
              var s1 := AddChainStep(s, sender, chainId).next;
              && s1.ChainSupported(chainId)
              && (forall c: nat :: c != chainId ==> s1.ChainSupported(c) == s.ChainSupported(c))
              && s1.supportedTokens == s.supportedTokens && s1.owner == s.owner
  {
  }

  /** `add_supported_token` checks the caller before the token; a rejected call changes
      nothing, and a successful one adds exactly that token. */
  lemma AddTokenOutcome(s: Storage, sender: Address, token: Address)
    ensures sender != s.owner ==> AddTokenStep(s, sender, token).result == Err(Unauthorized)
    ensures sender == s.owner && token == ZeroAddress ==> AddTokenStep(s, sender, token).result == Err(InvalidAddress)
    ensures AddTokenStep(s, sender, token).result.Err? ==> AddTokenStep(s, sender, token).next == s
    ensures AddTokenStep(s, sender, token).result.Ok? ==>
              var s1 := AddTokenStep(s, sender, token).next;
              && s1.TokenSupported(token)
              && (forall t: Address :: t != token ==> s1.TokenSupported(t) == s.TokenSupported(t))
              && s1.supportedChains == s.supportedChains && s1.owner == s.owner
  {
  }

  /** Adding an entry a second time succeeds again and changes nothing more. */
  lemma AddingTwiceIsIdempotent(s: Storage, chainId: nat, token: Address)
    requires chainId != 0 && token != ZeroAddress
    ensures AddChainStep(AddChainStep(s, s.owner, chainId).next, s.owner, chainId) == AddChainStep(s, s.owner, chainId)
    ensures AddChainStep(s, s.owner, chainId).result == Ok(())
    ensures AddTokenStep(AddTokenStep(s, s.owner, token).next, s.owner, token) == AddTokenStep(s, s.owner, token)
    ensures AddTokenStep(s, s.owner, token).result == Ok(())
  {
  }

  /** Because `init` is unguarded, any account can take over the allow-lists by calling it. */
  lemma InitHandsOverOwnership(s: Storage, anyone: Address, chainId: nat, token: Address)
    requires chainId != 0 && token != ZeroAddress
    ensures InitStep(s, anyone).result == Ok(())
    ensures InitStep(s, anyone).next.supportedChains == s.supportedChains
    ensures InitStep(s, anyone).next.supportedTokens == s.supportedTokens
    ensures AddChainStep(InitStep(s, anyone).next, anyone, chainId).result == Ok(())
    ensures AddTokenStep(InitStep(s, anyone).next, anyone, token).result == Ok(())
  {
  }

  // ---------------------------------------------------------------------------------------
  // Properties of sequences of calls

  /** Allow-list membership only grows: no call ever writes false. */
  lemma {:induction false} SupportIsMonotonic(s: Storage, calls: seq<Call>, chainId: nat, token: Address)
    ensures s.ChainSupported(chainId) ==> Run(s, calls).ChainSupported(chainId)
    ensures s.TokenSupported(token) ==> Run(s, calls).TokenSupported(token)
    decreases |calls|
  {
    if calls != [] {
      SupportIsMonotonic(Apply(s, calls[0]), calls[1..], chainId, token);
    }
  }

  /** A chain becomes supported only through a call that adds that chain and succeeds, and so
      is made by the owner of the contract at that point of the sequence. */
  lemma {:induction false} ChainsOnlyFromAdd(s: Storage, calls: seq<Call>, chainId: nat)
    requires Run(s, calls).ChainSupported(chainId) && !s.ChainSupported(chainId)
    ensures exists i :: 0 <= i < |calls| && calls[i].AddChainCall? && calls[i].chainId == chainId
              && calls[i].sender == Run(s, calls[..i]).owner
              && AddChainStep(Run(s, calls[..i]), calls[i].sender, chainId).result.Ok?
    decreases |calls|
  {
    var s1 := Apply(s, calls[0]);
    if s1.ChainSupported(chainId) {
      assert calls[..0] == [];
      assert calls[0].AddChainCall? && calls[0].chainId == chainId;
      AddChainOutcome(s, calls[0].sender, chainId);
    } else {
      ChainsOnlyFromAdd(s1, calls[1..], chainId);
      var i :| 0 <= i < |calls[1..]| && calls[1..][i].AddChainCall? && calls[1..][i].chainId == chainId
               && calls[1..][i].sender == Run(s1, calls[1..][..i]).owner
               && AddChainStep(Run(s1, calls[1..][..i]), calls[1..][i].sender, chainId).result.Ok?;
      assert calls[..i + 1][1..] == calls[1..][..i];
      assert Run(s, calls[..i + 1]) == Run(s1, calls[1..][..i]);
      assert calls[i + 1] == calls[1..][i];
    }
  }

  /** A token becomes supported only through a call that adds that token and succeeds, and so
      is made by the owner of the contract at that point of the sequence. */
  lemma {:induction false} TokensOnlyFromAdd(s: Storage, calls: seq<Call>, token: Address)
    requires Run(s, calls).TokenSupported(token) && !s.TokenSupported(token)
    ensures exists i :: 0 <= i < |calls| && calls[i].AddTokenCall? && calls[i].token == token
              && calls[i].sender == Run(s, calls[..i]).owner
              && AddTokenStep(Run(s, calls[..i]), calls[i].sender, token).result.Ok?
    decreases |calls|
  {
    var s1 := Apply(s, calls[0]);
    if s1.TokenSupported(token) {
      assert calls[..0] == [];
      assert calls[0].AddTokenCall? && calls[0].token == token;
      AddTokenOutcome(s, calls[0].sender, token);
    } else {
      TokensOnlyFromAdd(s1, calls[1..], token);
      var i :| 0 <= i < |calls[1..]| && calls[1..][i].AddTokenCall? && calls[1..][i].token == token
               && calls[1..][i].sender == Run(s1, calls[1..][..i]).owner
               && AddTokenStep(Run(s1, calls[1..][..i]), calls[1..][i].sender, token).result.Ok?;
      assert calls[..i + 1][1..] == calls[1..][..i];
      assert Run(s, calls[..i + 1]) == Run(s1, calls[1..][..i]);
      assert calls[i + 1] == calls[1..][i];
    }
  }

  /** Chain 0 and the zero token are never on the allow-lists; `validate_intent` then rejects a
      zero token before the lists are consulted, and chain 0 as unsupported. */
  predicate ZeroUnsupported(s: Storage)
  {
    !s.ChainSupported(0) && !s.TokenSupported(ZeroAddress)
  }

  /** No call puts chain 0 or the zero token on an allow-list, `init` included. */
  lemma {:induction false} RunKeepsZeroUnsupported(s: Storage, calls: seq<Call>)
    requires ZeroUnsupported(s)
    ensures ZeroUnsupported(Run(s, calls))
    decreases |calls|
  {
    if calls != [] {
      var c := calls[0];
      if c.AddChainCall? {
        AddChainOutcome(s, c.sender, c.chainId);
      } else if c.AddTokenCall? {
        AddTokenOutcome(s, c.sender, c.token);
      }
      RunKeepsZeroUnsupported(Apply(s, c), calls[1..]);
    }
  }

  /** An intent is acceptable: a positive amount, non-zero addresses, an allow-listed chain and
      token, and enough balance and allowance for the amount. */
  predicate Acceptable(s: Storage, user: Address, token: Address, amount: nat, destinationChain: nat, spender: Address,
                       balanceOf: (Address, Address) -> nat, allowanceOf: (Address, Address, Address) -> nat)
  {
    && amount > 0
    && user != ZeroAddress && token != ZeroAddress && spender != ZeroAddress
    && s.ChainSupported(destinationChain)
    && s.TokenSupported(token)
    && balanceOf(token, user) >= amount
    && allowanceOf(token, user, spender) >= amount
  }

  /** Once acceptable, an intent stays acceptable over any sequence of allow-list calls, as long
      as balance and allowance stay the same. */
  lemma AcceptableIsStable(s: Storage, calls: seq<Call>, user: Address, token: Address, amount: nat, destinationChain: nat,
                           spender: Address, balanceOf: (Address, Address) -> nat, allowanceOf: (Address, Address, Address) -> nat)
    requires Acceptable(s, user, token, amount, destinationChain, spender, balanceOf, allowanceOf)
    ensures Acceptable(Run(s, calls), user, token, amount, destinationChain, spender, balanceOf, allowanceOf)
  {
    SupportIsMonotonic(s, calls, destinationChain, token);
  }

  // ---------------------------------------------------------------------------------------
  // The contract

  class IntentValidator {
    var owner: Address
    var supportedChains: map<nat, bool>
    var supportedTokens: map<Address, bool>

    function Snapshot(): Storage
      reads this
    {
      Storage(owner, supportedChains, supportedTokens)
    }

    /** A freshly deployed contract: every field reads as zero. */
    constructor ()
      ensures Snapshot() == Blank
      ensures ZeroUnsupported(Snapshot())
    {
      owner := ZeroAddress;
      supportedChains, supportedTokens := map[], map[];
    }

    method Init(sender: Address) returns (r: Result<(), Error>)
      modifies this
      ensures Transition(Snapshot(), r) == InitStep(old(Snapshot()), sender)
      ensures old(ZeroUnsupported(Snapshot())) ==> ZeroUnsupported(Snapshot())
      ensures r.Ok? && owner == sender
      ensures supportedChains == old(supportedChains) && supportedTokens == old(supportedTokens)
    {
      var ownerAddress := sender;
      owner := ownerAddress;
      return Ok(());
    }

    /** The read-only check of an intent. Exactly the acceptable intents pass, and a rejected one
        reports the first failing check in the order: amount, addresses, chain, token, balance,
        allowance. */
    function ValidateIntent(user: Address, token: Address, amount: nat, destinationChain: nat, spender: Address,
                            balanceOf: (Address, Address) -> nat, allowanceOf: (Address, Address, Address) -> nat)
      : (r: Result<bool, Error>)
      reads this
      ensures r != Ok(false)
      ensures r == Ok(true) <==> Acceptable(Snapshot(), user, token, amount, destinationChain, spender, balanceOf, allowanceOf)
      ensures amount == 0 ==> r == Err(InvalidAmount)
      ensures amount > 0 && (user == ZeroAddress || token == ZeroAddress || spender == ZeroAddress) ==>
                r == Err(InvalidAddress)
      ensures amount > 0 && user != ZeroAddress && token != ZeroAddress && spender != ZeroAddress ==>
                && (!IsChainSupported(destinationChain) ==> r == Err(UnsupportedChain))
                && (IsChainSupported(destinationChain) && !IsTokenSupported(token) ==> r == Err(UnsupportedToken))
                && (IsChainSupported(destinationChain) && IsTokenSupported(token) && balanceOf(token, user) < amount ==>
                      r == Err(InsufficientBalance))
                && ((IsChainSupported(destinationChain) && IsTokenSupported(token) && balanceOf(token, user) >= amount &&
                     allowanceOf(token, user, spender) < amount) ==> r == Err(InsufficientAllowance))
    {
      if amount == 0 then Err(InvalidAmount)
      else if user == ZeroAddress || token == ZeroAddress || spender == ZeroAddress then Err(InvalidAddress)
      else if !IsChainSupported(destinationChain) then Err(UnsupportedChain)
      else if !IsTokenSupported(token) then Err(UnsupportedToken)
      else
        var balance := balanceOf(token, user);
        if balance < amount then Err(InsufficientBalance)
        else
          var allowance := allowanceOf(token, user, spender);
          if allowance < amount then Err(InsufficientAllowance)
          else Ok(true)
    }

    /** Reads the token's allowance after rejecting zero addresses; the result is the token's
        answer unchanged. */
    function CheckAllowance(user: Address, token: Address, spender: Address,
                            allowanceOf: (Address, Address, Address) -> nat): (r: Result<nat, Error>)
      reads this
      ensures r.Err? <==> user == ZeroAddress || token == ZeroAddress || spender == ZeroAddress
      ensures r.Err? ==> r.error == InvalidAddress
      ensures r.Ok? ==> r.value == allowanceOf(token, user, spender)
    {
      if user == ZeroAddress || token == ZeroAddress || spender == ZeroAddress then Err(InvalidAddress)
      else Ok(allowanceOf(token, user, spender))
    }

    method AddSupportedChain(sender: Address, chainId: nat) returns (r: Result<(), Error>)
      modifies this
      ensures Transition(Snapshot(), r) == AddChainStep(old(Snapshot()), sender, chainId)
      ensures old(ZeroUnsupported(Snapshot())) ==> ZeroUnsupported(Snapshot())
      ensures r.Err? <==> sender != old(owner) || chainId == 0
      ensures r.Ok? ==> IsChainSupported(chainId)
    {
      var authorized := OnlyOwner(sender);
      if authorized.Err? {
        return Err(authorized.error);
      }
      if chainId == 0 {
        return Err(InvalidAmount);
      }
      supportedChains := supportedChains[chainId := true];
      return Ok(());
    }

    method AddSupportedToken(sender: Address, token: Address) returns (r: Result<(), Error>)
      modifies this
      ensures Transition(Snapshot(), r) == AddTokenStep(old(Snapshot()), sender, token)
      ensures old(ZeroUnsupported(Snapshot())) ==> ZeroUnsupported(Snapshot())
      ensures r.Err? <==> sender != old(owner) || token == ZeroAddress
      ensures r.Ok? ==> IsTokenSupported(token)
    {
      var authorized := OnlyOwner(sender);
      if authorized.Err? {
        return Err(authorized.error);
      }
      if token == ZeroAddress {
        return Err(InvalidAddress);
      }
      supportedTokens := supportedTokens[token := true];
      return Ok(());
    }

    /** Only a chain the owner added is supported; chain 0 never is once the contract is
        deployed, since no entry point adds it. */
    function IsChainSupported(chainId: nat): (r: bool)
      reads this
      ensures r <==> chainId in supportedChains && supportedChains[chainId]
      ensures ZeroUnsupported(Snapshot()) && chainId == 0 ==> !r
    {
      Snapshot().ChainSupported(chainId)
    }

    /** Only a token the owner added is supported; the zero token never is once the contract
        is deployed, since no entry point adds it. */
    function IsTokenSupported(token: Address): (r: bool)
      reads this
      ensures r <==> token in supportedTokens && supportedTokens[token]
      ensures ZeroUnsupported(Snapshot()) && token == ZeroAddress ==> !r
    {
      Snapshot().TokenSupported(token)
    }

    function OnlyOwner(sender: Address): (r: Result<(), Error>)
      reads this
      ensures r.Err? <==> sender != owner
      ensures r.Err? ==> r.error == Unauthorized
    {
      if sender != owner then Err(Unauthorized) else Ok(())
    }
  }
}
