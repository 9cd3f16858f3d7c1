/** The HyperMarket settlement state machine. Users deposit the underlying
    asset on one side of a binary outcome with a lock duration; the deposit
    earns betting power from the rate of the yield source for that maturity.
    The oracle resolves the outcome once, at or after the resolution date, and
    every depositor then claims once: losers get their principal back as
    principal tokens, winners also get yield, including a share of the yield
    the losers forfeit.

    Every operation is a pure step from a state to a new state or an error; a
    reverted call leaves no trace, because an `Err` carries no state. The
    current time and the caller are explicit inputs. */
module HyperMarket {
  import opened Types
  import opened Ledger
  import opened Registry
  import opened Settlement
  import BP = BettingPower

  /** The market's configuration and its one-shot outcome. `account` is the
      market's own address, which holds the deposited underlying. The market
      is resolved exactly when an outcome is recorded. */
  datatype MarketParams = MarketParams(
    account: Address,
    underlying: Address,
    minTimeLock: nat,
    maxTimeLock: nat,
    resolutionDate: int,
    oracle: Address,
    outcome: Option<Side>)
  {
    predicate Resolved() {
      outcome.Some?
    }
  }

  /** One user's accumulated exposure. `maturity` is the lock of the user's
      first deposit and selects the principal and yield tokens the position
      settles in. */
  datatype Position = Position(
    principalAmount: nat,
    bettingPower: nat,
    side: Option<Side>,
    maturity: nat,
    claimed: bool)

  /** What the contract reports for a user who never deposited. */
  const EmptyPosition: Position := Position(0, 0, None, 0, false)

  /** Running totals of one side. */
  datatype Pool = Pool(principal: nat, power: nat)

  /** The market together with the yield markets' quotes and the token
      balances its calls read and move. */
  datatype State = State(
    market: MarketParams,
    registry: Registry,
    rates: Rates,
    positions: map<Address, Position>,
    yesPool: Pool,
    noPool: Pool,
    balances: Balances)

  /** The `positions(user)` view: a user who never deposited reads as no
      principal, no power, no side and nothing claimed. */
  function PositionOf(st: State, user: Address): (p: Position)
    ensures user !in st.positions ==>
              p.principalAmount == 0 && p.bettingPower == 0 && p.side == None && !p.claimed
    ensures user in st.positions ==> p == st.positions[user]
  {
    if user in st.positions then st.positions[user] else EmptyPosition
  }

  function PoolOf(st: State, s: Side): Pool
  {
    match s
    case Yes => st.yesPool
    case No => st.noPool
  }

  /** Replaces one side's totals, keeping everything else. */
  function WithPool(st: State, s: Side, p: Pool): (r: State)
    ensures PoolOf(r, s) == p && PoolOf(r, s.Other()) == PoolOf(st, s.Other())
    ensures r.market == st.market && r.registry == st.registry && r.rates == st.rates
    ensures r.positions == st.positions && r.balances == st.balances
  {
    match s
    case Yes => st.(yesPool := p)
    case No => st.(noPool := p)
  }

  /** A freshly created market at address `account`: open, with no yield
      sources bound and no positions, in a world whose yield markets quote
      `rates` and whose holders hold `balances`. */
  function CreateMarket(account: Address, underlying: Address, minTimeLock: nat, maxTimeLock: nat,
                        resolutionDate: int, oracle: Address, rates: Rates, balances: Balances): (st: State)
    ensures !st.market.Resolved() && st.market.underlying == underlying && st.market.account == account
    ensures st.market.minTimeLock == minTimeLock && st.market.maxTimeLock == maxTimeLock
    ensures st.market.resolutionDate == resolutionDate && st.market.oracle == oracle
    ensures forall u :: PositionOf(st, u) == EmptyPosition
    ensures st.registry == map[] && st.rates == rates && st.balances == balances
    ensures PoolOf(st, Yes) == Pool(0, 0) && PoolOf(st, No) == Pool(0, 0)
  {
    State(MarketParams(account, underlying, minTimeLock, maxTimeLock, resolutionDate, oracle, None),
          EmptyRegistry(), rates, map[], Pool(0, 0), Pool(0, 0), balances)
  }

  /** `registerPendleMarket`: binds a maturity to a yield market. */
  function RegisterSource(st: State, maturity: nat, yieldMarket: Address): (r: Result<State>)
    ensures r.Ok? <==> maturity !in st.registry
    ensures r.Err? ==> r.error == AlreadyRegistered
    ensures r.Ok? ==> maturity in r.value.registry && r.value.registry[maturity] == yieldMarket
    ensures r.Ok? ==> r.value.(registry := st.registry) == st
  {
    match RegisterPendleMarket(st.registry, maturity, yieldMarket)
    case Err(e) => Err(e)
    case Ok(reg) => Ok(st.(registry := reg))
  }

  /** A yield market's `setYieldRate(rateBps, horizonDays)`. It needs no
      binding and touches nothing of the market but the quote its deposits
      will read. */
  function SetRate(st: State, yieldMarket: Address, rateBps: nat, horizonDays: nat): (r: State)
    ensures RateOf(r.rates, yieldMarket) == rateBps
    ensures forall m :: m != yieldMarket ==> RateOf(r.rates, m) == RateOf(st.rates, m)
    ensures r.(rates := st.rates) == st
  {
    st.(rates := SetYieldRate(st.rates, yieldMarket, rateBps, horizonDays))
  }

  /** The annual rate deposits for `lockDays` earn: the current quote of the
      yield market bound to that maturity. */
  function SourceRate(st: State, lockDays: nat): nat
    requires lockDays in st.registry
  {
    RateOf(st.rates, st.registry[lockDays])
  }

  /** The betting power a deposit of `amount` for `lockDays` would earn, at
      the rate of that maturity's yield market. */
  function DepositPower(st: State, amount: nat, lockDays: nat): nat
    requires lockDays in st.registry
  {
    BP.BettingPower(amount, SourceRate(st, lockDays), lockDays)
  }

  /** `deposit(amount, lockDays, side)` by `user`. */
  function Deposit(st: State, user: Address, amount: nat, lockDays: nat, side: Side): (r: Result<State>)
    ensures st.market.Resolved() ==> r == Err(MarketResolved)
    ensures r.Ok? ==> st.market.minTimeLock <= lockDays <= st.market.maxTimeLock && lockDays in st.registry
    // the user's position absorbs the deposit
    ensures r.Ok? ==> PositionOf(r.value, user).principalAmount == PositionOf(st, user).principalAmount + amount
    ensures r.Ok? ==> PositionOf(r.value, user).bettingPower
                      == PositionOf(st, user).bettingPower + DepositPower(st, amount, lockDays)
    ensures r.Ok? ==> PositionOf(r.value, user).side == Some(side)
    ensures r.Ok? ==> PositionOf(r.value, user).claimed == PositionOf(st, user).claimed
    ensures r.Ok? ==> PositionOf(r.value, user).maturity
                      == (if PositionOf(st, user).side.None? then lockDays else PositionOf(st, user).maturity)
    // the side's totals absorb it too, and nothing else moves
    ensures r.Ok? ==> PoolOf(r.value, side) == Pool(PoolOf(st, side).principal + amount,
                                                    PoolOf(st, side).power + DepositPower(st, amount, lockDays))
    ensures r.Ok? ==> PoolOf(r.value, side.Other()) == PoolOf(st, side.Other())
    ensures r.Ok? ==> forall u :: u != user ==> PositionOf(r.value, u) == PositionOf(st, u)
    ensures r.Ok? ==> r.value.positions.Keys == st.positions.Keys + {user}
    ensures r.Ok? ==> r.value.market == st.market && r.value.registry == st.registry && r.value.rates == st.rates
    // the amount moves from the user's wallet into the market's account
    ensures r.Ok? && user != st.market.account ==>
              && BalanceOf(r.value.balances, user, Underlying) + amount == BalanceOf(st.balances, user, Underlying)
              && BalanceOf(r.value.balances, st.market.account, Underlying)
                 == BalanceOf(st.balances, st.market.account, Underlying) + amount
    ensures r.Ok? && user == st.market.account ==>
              BalanceOf(r.value.balances, user, Underlying) == BalanceOf(st.balances, user, Underlying)
    ensures r.Ok? ==> forall a: Address, t: Token :: (a, t) != (user, Underlying) && (a, t) != (st.market.account, Underlying) ==>
                        BalanceOf(r.value.balances, a, t) == BalanceOf(st.balances, a, t)
  {
    var p := PositionOf(st, user);
    if st.market.Resolved() then Err(MarketResolved)
    else if amount == 0 then Err(ZeroAmount)
    else if lockDays < st.market.minTimeLock || lockDays > st.market.maxTimeLock then Err(InvalidTimeLock)
    else if p.side.Some? && p.side.value != side then Err(CannotHedge)
    else if lockDays !in st.registry then Err(NoYieldSource)
    else if BalanceOf(st.balances, user, Underlying) < amount then Err(InsufficientBalance)
    else
      var power := DepositPower(st, amount, lockDays);
      var q := Position(p.principalAmount + amount, p.bettingPower + power, Some(side),
                        if p.side.None? then lockDays else p.maturity, p.claimed);
      var pool := PoolOf(st, side);
      var st1 := st.(positions := st.positions[user := q],
                     balances := Credit(Debit(st.balances, user, Underlying, amount), st.market.account, Underlying, amount));
      Ok(WithPool(st1, side, Pool(pool.principal + amount, pool.power + power)))
  }

  /** `resolveMarket(outcome)` called by `caller` at time `now`. */
  function ResolveMarket(st: State, caller: Address, outcome: Side, now: int): (r: Result<State>)
    ensures r.Ok? <==> caller == st.market.oracle && now >= st.market.resolutionDate && !st.market.Resolved()
    ensures caller != st.market.oracle ==> r == Err(NotOracle)
    ensures caller == st.market.oracle && now < st.market.resolutionDate ==> r == Err(TooEarly)
    ensures r.Ok? ==> r.value.market.Resolved() && r.value.market.outcome == Some(outcome)
    ensures r.Ok? ==> r.value.market.(outcome := None) == st.market.(outcome := None)
    ensures r.Ok? ==> r.value.(market := st.market) == st
  {
    if caller != st.market.oracle then Err(NotOracle)
    else if now < st.market.resolutionDate then Err(TooEarly)
    else if st.market.Resolved() then Err(AlreadyResolved)
    else Ok(st.(market := st.market.(outcome := Some(outcome))))
  }

  /** What `user`'s position is owed under the recorded outcome. */
  function ClaimPayout(st: State, p: Position, mode: ClaimMode): Payout
    requires st.market.Resolved()
  {
    var winning := st.market.outcome.value;
    Entitlement(p.principalAmount, p.bettingPower, p.side == Some(winning), mode,
                PoolOf(st, winning.Other()).power, PoolOf(st, winning).power)
  }

  /** Transfers a payout to `user` in the tokens of `maturity`. */
  function PayOut(b: Balances, user: Address, maturity: nat, pay: Payout): (r: Balances)
    ensures BalanceOf(r, user, PrincipalToken(maturity)) == BalanceOf(b, user, PrincipalToken(maturity)) + pay.principalTokens
    ensures BalanceOf(r, user, YieldToken(maturity)) == BalanceOf(b, user, YieldToken(maturity)) + pay.yieldTokens
    ensures BalanceOf(r, user, Underlying) == BalanceOf(b, user, Underlying) + pay.cash
    ensures forall a: Address, t: Token ::
              a != user || (t != PrincipalToken(maturity) && t != YieldToken(maturity) && t != Underlying) ==>
              BalanceOf(r, a, t) == BalanceOf(b, a, t)
  {
    var b1 := Credit(b, user, PrincipalToken(maturity), pay.principalTokens);
    var b2 := Credit(b1, user, YieldToken(maturity), pay.yieldTokens);
    Credit(b2, user, Underlying, pay.cash)
  }

  /** `claim(mode)` by `user`. */
  function Claim(st: State, user: Address, mode: ClaimMode): (r: Result<State>)
    ensures r.Ok? <==> st.market.Resolved() && PositionOf(st, user).principalAmount > 0 && !PositionOf(st, user).claimed
    ensures !st.market.Resolved() ==> r == Err(NotResolved)
    ensures st.market.Resolved() && PositionOf(st, user).claimed && PositionOf(st, user).principalAmount > 0
            ==> r == Err(AlreadyClaimed)
    // the position is marked claimed and otherwise kept as a record
    ensures r.Ok? ==> PositionOf(r.value, user) == PositionOf(st, user).(claimed := true)
    ensures r.Ok? ==> forall u :: u != user ==> PositionOf(r.value, u) == PositionOf(st, u)
    ensures r.Ok? ==> r.value.positions.Keys == st.positions.Keys
    ensures r.Ok? ==> r.value.market == st.market && r.value.registry == st.registry && r.value.rates == st.rates
    ensures r.Ok? ==> PoolOf(r.value, Yes) == PoolOf(st, Yes) && PoolOf(r.value, No) == PoolOf(st, No)
    // only the claimer's balances move
    ensures r.Ok? ==> forall a: Address, t: Token :: a != user ==> BalanceOf(r.value.balances, a, t) == BalanceOf(st.balances, a, t)
  {
    if !st.market.Resolved() then Err(NotResolved)
    else if user !in st.positions || st.positions[user].principalAmount == 0 then Err(NoPosition)
    else if st.positions[user].claimed then Err(AlreadyClaimed)
    else
      var p := st.positions[user];
      var pay := ClaimPayout(st, p, mode);
      Ok(st.(positions := st.positions[user := p.(claimed := true)],
             balances := PayOut(st.balances, user, p.maturity, pay)))
  }

  /** `deposit(amount, lockDays, side)` as called on chain, with the side as
      its uint code. A code naming no side is refused before any other guard
      (a modelling choice); the recorded side carries the submitted code. */
  function DepositRaw(st: State, user: Address, amount: nat, lockDays: nat, sideCode: nat): (r: Result<State>)
    ensures sideCode != 1 && sideCode != 2 ==> r == Err(InvalidSide)
    ensures r.Ok? ==> PositionOf(r.value, user).side.Some? && PositionOf(r.value, user).side.value.Code() == sideCode
    ensures r.Ok? ==> PositionOf(r.value, user).principalAmount == PositionOf(st, user).principalAmount + amount
  {
    match DecodeSide(sideCode)
    case None => Err(InvalidSide)
    case Some(side) => Deposit(st, user, amount, lockDays, side)
  }

  /** `resolveMarket(outcome)` as called on chain, with the outcome as its
      uint code. A code naming no side is refused before any other guard (a
      modelling choice); the recorded outcome carries the submitted code. */
  function ResolveMarketRaw(st: State, caller: Address, outcomeCode: nat, now: int): (r: Result<State>)
    ensures outcomeCode != 1 && outcomeCode != 2 ==> r == Err(InvalidSide)
    ensures r.Ok? ==> r.value.market.outcome.Some? && r.value.market.outcome.value.Code() == outcomeCode
    ensures r.Ok? ==> caller == st.market.oracle && now >= st.market.resolutionDate
  {
    match DecodeSide(outcomeCode)
    case None => Err(InvalidSide)
    case Some(outcome) => ResolveMarket(st, caller, outcome, now)
  }

  /** `claim(mode)` as called on chain, with the mode as its uint code. A
      code naming no mode is refused before any other guard (a modelling
      choice). */
  function ClaimRaw(st: State, user: Address, modeCode: nat): (r: Result<State>)
    ensures modeCode > 1 ==> r == Err(InvalidClaimMode)
    ensures r.Ok? ==> modeCode <= 1 && PositionOf(r.value, user).claimed && !PositionOf(st, user).claimed
  {
    match DecodeClaimMode(modeCode)
    case None => Err(InvalidClaimMode)
    case Some(mode) => Claim(st, user, mode)
  }
}
