/** Behavioural properties of the market that relate several calls or pin a
    guard: when a deposit is accepted, the lock window, no hedging, deposits
    closing at resolution, what each kind of claimer receives, and that a
    position can be claimed only once. */
module Properties {
  import opened Types
  import opened Ledger
  import opened HyperMarket

  /** A deposit is accepted exactly when the market is open, the amount is
      positive, the lock lies inside the market's window, the user has no
      position on the other side, the maturity has a yield source and the
      user holds the amount. */
  lemma DepositAcceptedIff(st: State, user: Address, amount: nat, lockDays: nat, side: Side)
    ensures Deposit(st, user, amount, lockDays, side).Ok? <==>
              && !st.market.Resolved()
              && amount > 0
              && st.market.minTimeLock <= lockDays <= st.market.maxTimeLock
              && PositionOf(st, user).side in {None, Some(side)}
              && lockDays in st.registry
              && amount <= BalanceOf(st.balances, user, Underlying)
  {
  }

  /** On an open market and a positive amount, the lock is refused with
      "Invalid time lock" exactly when it falls outside the inclusive window. */
  lemma LockWindow(st: State, user: Address, amount: nat, lockDays: nat, side: Side)
    requires !st.market.Resolved() && amount > 0
    ensures Deposit(st, user, amount, lockDays, side) == Err(InvalidTimeLock)
            <==> !(st.market.minTimeLock <= lockDays <= st.market.maxTimeLock)
  {
  }

  /** Both ends of the window are open to a first deposit once their
      maturities have yield sources, and one day beyond either end is not. */
  lemma LockBoundaries(st: State, user: Address, amount: nat, side: Side)
    requires !st.market.Resolved() && amount > 0
    requires amount <= BalanceOf(st.balances, user, Underlying)
    requires PositionOf(st, user).side.None?
    requires st.market.minTimeLock <= st.market.maxTimeLock
    requires st.market.minTimeLock in st.registry && st.market.maxTimeLock in st.registry
    ensures Deposit(st, user, amount, st.market.minTimeLock, side).Ok?
    ensures Deposit(st, user, amount, st.market.maxTimeLock, side).Ok?
    ensures st.market.minTimeLock > 0 ==>
              Deposit(st, user, amount, st.market.minTimeLock - 1, side) == Err(InvalidTimeLock)
    ensures Deposit(st, user, amount, st.market.maxTimeLock + 1, side) == Err(InvalidTimeLock)
  {
  }

  /** A user holding one side cannot deposit on the other. */
  lemma NoHedging(st: State, user: Address, amount: nat, lockDays: nat, side: Side)
    requires !st.market.Resolved() && amount > 0
    requires st.market.minTimeLock <= lockDays <= st.market.maxTimeLock
    requires PositionOf(st, user).side == Some(side.Other())
    ensures Deposit(st, user, amount, lockDays, side) == Err(CannotHedge)
  {
  }

  /** Once the oracle has resolved the market, every deposit is refused with
      "Market resolved". */
  lemma ResolutionClosesDeposits(st: State, caller: Address, outcome: Side, now: int,
                                 user: Address, amount: nat, lockDays: nat, side: Side)
    requires ResolveMarket(st, caller, outcome, now).Ok?
    ensures Deposit(ResolveMarket(st, caller, outcome, now).value, user, amount, lockDays, side) == Err(MarketResolved)
  {
  }

  /** Resolution is one-shot: whoever calls again, whenever, is refused. */
  lemma ResolutionIsFinal(st: State, caller: Address, outcome: Side, now: int,
                          caller2: Address, outcome2: Side, now2: int)
    requires ResolveMarket(st, caller, outcome, now).Ok?
    ensures ResolveMarket(ResolveMarket(st, caller, outcome, now).value, caller2, outcome2, now2).Err?
  {
  }

  /** A winner claiming in token mode receives its principal as PT and at
      least its own projected yield as YT, both in the tokens of its first
      deposit's maturity, and no underlying. */
  lemma TokenClaimByWinner(st: State, user: Address)
    requires Claim(st, user, TokenMode).Ok?
    requires PositionOf(st, user).side == st.market.outcome
    ensures var p := PositionOf(st, user);
            var b := Claim(st, user, TokenMode).value.balances;
            && BalanceOf(b, user, PrincipalToken(p.maturity)) == BalanceOf(st.balances, user, PrincipalToken(p.maturity)) + p.principalAmount
            && BalanceOf(b, user, PrincipalToken(p.maturity)) > BalanceOf(st.balances, user, PrincipalToken(p.maturity))
            && BalanceOf(b, user, YieldToken(p.maturity)) >= BalanceOf(st.balances, user, YieldToken(p.maturity)) + p.bettingPower
            && (p.bettingPower > 0 ==> BalanceOf(b, user, YieldToken(p.maturity)) > BalanceOf(st.balances, user, YieldToken(p.maturity)))
            && BalanceOf(b, user, Underlying) == BalanceOf(st.balances, user, Underlying)
  {
  }

  /** A loser claiming in token mode receives its principal as PT and no YT. */
  lemma TokenClaimByLoser(st: State, user: Address)
    requires Claim(st, user, TokenMode).Ok?
    requires PositionOf(st, user).side != st.market.outcome
    ensures var p := PositionOf(st, user);
            var b := Claim(st, user, TokenMode).value.balances;
            && BalanceOf(b, user, PrincipalToken(p.maturity)) == BalanceOf(st.balances, user, PrincipalToken(p.maturity)) + p.principalAmount
            && BalanceOf(b, user, PrincipalToken(p.maturity)) > BalanceOf(st.balances, user, PrincipalToken(p.maturity))
            && BalanceOf(b, user, YieldToken(p.maturity)) == BalanceOf(st.balances, user, YieldToken(p.maturity))
            && BalanceOf(b, user, Underlying) == BalanceOf(st.balances, user, Underlying)
  {
  }

  /** A winner exiting to cash receives underlying worth at least its
      principal plus its projected yield, and no PT or YT. */
  lemma CashClaimByWinner(st: State, user: Address)
    requires Claim(st, user, CashMode).Ok?
    requires PositionOf(st, user).side == st.market.outcome
    ensures var p := PositionOf(st, user);
            var b := Claim(st, user, CashMode).value.balances;
            && BalanceOf(b, user, Underlying) >= BalanceOf(st.balances, user, Underlying) + p.principalAmount + p.bettingPower
            && BalanceOf(b, user, Underlying) > BalanceOf(st.balances, user, Underlying)
            && BalanceOf(b, user, PrincipalToken(p.maturity)) == BalanceOf(st.balances, user, PrincipalToken(p.maturity))
            && BalanceOf(b, user, YieldToken(p.maturity)) == BalanceOf(st.balances, user, YieldToken(p.maturity))
  {
  }

  /** A loser exiting in cash mode still gets only its principal, as PT. */
  lemma CashClaimByLoser(st: State, user: Address)
    requires Claim(st, user, CashMode).Ok?
    requires PositionOf(st, user).side != st.market.outcome
    ensures var p := PositionOf(st, user);
            var b := Claim(st, user, CashMode).value.balances;
            && BalanceOf(b, user, PrincipalToken(p.maturity)) > BalanceOf(st.balances, user, PrincipalToken(p.maturity))
            && BalanceOf(b, user, YieldToken(p.maturity)) == BalanceOf(st.balances, user, YieldToken(p.maturity))
            && BalanceOf(b, user, Underlying) == BalanceOf(st.balances, user, Underlying)
  {
  }

  /** A position pays out once: after a successful claim, any further claim
      by the same user, in either mode, is refused with "Already claimed". */
  lemma NoDoubleClaim(st: State, user: Address, mode: ClaimMode, mode2: ClaimMode)
    requires Claim(st, user, mode).Ok?
    ensures Claim(Claim(st, user, mode).value, user, mode2) == Err(AlreadyClaimed)
  {
  }

  /** On valid codes the on-chain entry points are the decoded operations:
      a side, an outcome or a mode submitted as its code behaves exactly as
      the value it names. */
  lemma RawCallsAgree(st: State, user: Address, amount: nat, lockDays: nat, side: Side,
                      caller: Address, outcome: Side, now: int, mode: ClaimMode)
    ensures DepositRaw(st, user, amount, lockDays, side.Code()) == Deposit(st, user, amount, lockDays, side)
    ensures ResolveMarketRaw(st, caller, outcome.Code(), now) == ResolveMarket(st, caller, outcome, now)
    ensures ClaimRaw(st, user, mode.Code()) == Claim(st, user, mode)
  {
    SideCodeRoundTrip(side);
    SideCodeRoundTrip(outcome);
    ClaimModeCodeRoundTrip(mode);
  }

  /** A yield market may be quoted before or after a maturity is bound to
      it: both orders reach the same state, and deposits for that maturity
      then earn at the quoted rate. */
  lemma QuoteAndBindCommute(st: State, maturity: nat, yieldMarket: Address, rateBps: nat, horizonDays: nat)
    requires RegisterSource(st, maturity, yieldMarket).Ok?
    ensures RegisterSource(SetRate(st, yieldMarket, rateBps, horizonDays), maturity, yieldMarket)
            == Ok(SetRate(RegisterSource(st, maturity, yieldMarket).value, yieldMarket, rateBps, horizonDays))
    ensures var st' := SetRate(RegisterSource(st, maturity, yieldMarket).value, yieldMarket, rateBps, horizonDays);
            maturity in st'.registry && SourceRate(st', maturity) == rateBps
  {
  }

  /** A deposit moves the underlying from the depositor to the market's
      account and leaves the sum of the two unchanged. */
  lemma DepositKeepsUnderlying(st: State, user: Address, amount: nat, lockDays: nat, side: Side)
    requires Deposit(st, user, amount, lockDays, side).Ok?
    ensures var b := Deposit(st, user, amount, lockDays, side).value.balances;
            user != st.market.account ==>
              BalanceOf(b, user, Underlying) + BalanceOf(b, st.market.account, Underlying)
              == BalanceOf(st.balances, user, Underlying) + BalanceOf(st.balances, st.market.account, Underlying)
  {
  }

  /** One deposit request of a series by the same user. */
  datatype DepositRequest = DepositRequest(amount: nat, lockDays: nat)

  function TotalAmount(reqs: seq<DepositRequest>): nat
  {
    if |reqs| == 0 then 0 else reqs[0].amount + TotalAmount(reqs[1..])
  }

  /** Runs a series of deposits by one user on one side, stopping at the
      first refusal. */
  function DepositAll(st: State, user: Address, side: Side, reqs: seq<DepositRequest>): Result<State>
    decreases |reqs|
  {
    if |reqs| == 0 then Ok(st)
    else
      match Deposit(st, user, reqs[0].amount, reqs[0].lockDays, side)
      case Err(e) => Err(e)
      case Ok(st1) => DepositAll(st1, user, side, reqs[1..])
  }

  /** However the locks of an accepted series differ, the position's
      principal grows by the sum of the amounts, its side is the requested
      side, and no other user's position changes. */
  lemma {:induction false} DepositsAccumulate(st: State, user: Address, side: Side, reqs: seq<DepositRequest>)
    requires DepositAll(st, user, side, reqs).Ok?
    ensures var st' := DepositAll(st, user, side, reqs).value;
            PositionOf(st', user).principalAmount == PositionOf(st, user).principalAmount + TotalAmount(reqs)
    ensures |reqs| > 0 ==> PositionOf(DepositAll(st, user, side, reqs).value, user).side == Some(side)
    ensures forall u :: u != user ==> PositionOf(DepositAll(st, user, side, reqs).value, u) == PositionOf(st, u)
    decreases |reqs|
  {
    if |reqs| > 0 {
      var st1 := Deposit(st, user, reqs[0].amount, reqs[0].lockDays, side).value;
      DepositsAccumulate(st1, user, side, reqs[1..]);
      if |reqs| > 1 {
        assert PositionOf(DepositAll(st1, user, side, reqs[1..]).value, user).side == Some(side);
      }
    }
  }
}
