/** Shared vocabulary of the HyperMarket model: identities, the two outcome
    sides, the two claim modes with their on-chain encodings, and the errors
    the contract reverts with. */
module Types {

  /** An account identity (a 160-bit address on chain; only equality matters here). */
  type Address = nat

  datatype Option<+T> = None | Some(value: T)

  /** One of the two sides of the binary outcome. On chain YES is encoded as 1
      and NO as 2. */
  datatype Side = Yes | No {

    function Code(): (c: nat)
      ensures 1 <= c <= 2
      ensures c == 1 <==> this == Yes
    {
      if Yes? then 1 else 2
    }

    /** The side that loses when this side wins. */
    function Other(): (s: Side)
      ensures s != this
    {
      if Yes? then No else Yes
    }
  }

  /** Reads an on-chain side code; only 1 and 2 name a side. */
  function DecodeSide(c: nat): (r: Option<Side>)
    ensures r.Some? <==> c == 1 || c == 2
    ensures r.Some? ==> r.value.Code() == c
  {
    if c == 1 then Some(Yes) else if c == 2 then Some(No) else None
  }

  /** How a claim is paid out: as principal/yield tokens (code 0) or redeemed
      to the underlying asset (code 1). */
  datatype ClaimMode = TokenMode | CashMode {

    function Code(): (c: nat)
      ensures c <= 1
      ensures c == 0 <==> this == TokenMode
    {
      if TokenMode? then 0 else 1
    }
  }

  function DecodeClaimMode(c: nat): (r: Option<ClaimMode>)
    ensures r.Some? <==> c <= 1
    ensures r.Some? ==> r.value.Code() == c
  {
    if c == 0 then Some(TokenMode) else if c == 1 then Some(CashMode) else None
  }

  /** Every way an operation of the market can revert. The first six carry the
      revert strings the contract's tests observe; the rest are guards the
      model adds where the tests leave the behaviour open. */
  datatype Error =
    | InvalidTimeLock
    | CannotHedge
    | MarketResolved
    | NotOracle
    | TooEarly
    | AlreadyClaimed
    | ZeroAmount
    | NoYieldSource
    | InsufficientBalance
    | AlreadyResolved
    | NotResolved
    | NoPosition
    | AlreadyRegistered
    | InvalidSide
    | InvalidClaimMode

  /** The revert string of an error. */
  function Message(e: Error): string
  {
    match e
    case InvalidTimeLock => "Invalid time lock"
    case CannotHedge => "Cannot hedge"
    case MarketResolved => "Market resolved"
    case NotOracle => "Not oracle"
    case TooEarly => "Too early"
    case AlreadyClaimed => "Already claimed"
    case ZeroAmount => "Amount must be positive"
    case NoYieldSource => "No market for maturity"
    case InsufficientBalance => "Insufficient balance"
    case AlreadyResolved => "Already resolved"
    case NotResolved => "Market not resolved"
    case NoPosition => "No position"
    case AlreadyRegistered => "Market already registered"
    case InvalidSide => "Invalid side"
    case InvalidClaimMode => "Invalid claim mode"
  }

  /** The outcome of a state-changing call: the new value, or the revert. */
  datatype Result<+T> = Ok(value: T) | Err(error: Error)

  /** Side codes survive a round trip through their encoding. */
  lemma SideCodeRoundTrip(s: Side)
    ensures DecodeSide(s.Code()) == Some(s)
  {
  }

  lemma ClaimModeCodeRoundTrip(m: ClaimMode)
    ensures DecodeClaimMode(m.Code()) == Some(m)
  {
  }

  /** Different errors revert with different messages, so a caller can tell
      them apart from the revert string alone. */
  lemma MessagesDistinct(e1: Error, e2: Error)
    requires e1 != e2
    ensures Message(e1) != Message(e2)
  {
  }
}
