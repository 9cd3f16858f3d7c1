/** The contract test suite's scenarios, replayed on the model: a market
    with a 30..365-day window, 30- and 90-day yield sources at 500 and 600
    bps, three funded users, and the oracle resolving YES on the resolution
    date. */
module Scenarios {
  import opened Types
  import opened Ledger
  import opened Registry
  import opened HyperMarket
  import opened Properties
  import BettingPower

  const Oracle: Address := 1
  const User1: Address := 2
  const User2: Address := 3
  const User3: Address := 4
  const Usdy: Address := 10
  /** The two yield markets of the tests, a third for the 365-day maturity,
      and the market's own account. */
  const PendleMarket1: Address := 11
  const PendleMarket2: Address := 12
  const PendleMarketMax: Address := 13
  const MarketAccount: Address := 20

  const MinTimeLock: nat := 30
  const MaxTimeLock: nat := 365
  /** The chain time the scenarios start at, and the resolution date 60 days later. */
  const Start: int := 1_700_000_000
  const ResolutionDate: int := Start + 60 * 24 * 60 * 60

  const Ether: nat := BettingPower.Ether

  /** Every user starts with 10000 tokens of the underlying. */
  function Funded(): (b: Balances)
    ensures BalanceOf(b, User1, Underlying) == 10000 * Ether
    ensures BalanceOf(b, User2, Underlying) == 10000 * Ether
    ensures BalanceOf(b, User3, Underlying) == 10000 * Ether
  {
    map[(User1, Underlying) := 10000 * Ether, (User2, Underlying) := 10000 * Ether,
        (User3, Underlying) := 10000 * Ether]
  }

  /** The yield markets quote 5% for 30 days and 6% for 90 days before the
      market exists. */
  function Quotes(): (rates: Rates)
    ensures RateOf(rates, PendleMarket1) == 500 && RateOf(rates, PendleMarket2) == 600
  {
    SetYieldRate(SetYieldRate(map[], PendleMarket1, 500, 30), PendleMarket2, 600, 90)
  }

  /** The market of the tests, with its 30- and 90-day yield markets bound. */
  function Setup(): (st: State)
    ensures !st.market.Resolved() && st.market.oracle == Oracle
    ensures st.market.minTimeLock == MinTimeLock && st.market.maxTimeLock == MaxTimeLock
    ensures st.registry.Keys == {30, 90}
    ensures SourceRate(st, 30) == 500 && SourceRate(st, 90) == 600
    ensures forall u :: PositionOf(st, u) == EmptyPosition
    ensures st.balances == Funded()
  {
    var st0 := CreateMarket(MarketAccount, Usdy, MinTimeLock, MaxTimeLock, ResolutionDate, Oracle, Quotes(), Funded());
    var st1 := RegisterSource(st0, 30, PendleMarket1).value;
    RegisterSource(st1, 90, PendleMarket2).value
  }

  /** A first deposit of 1000 tokens for 30 days on YES is recorded as such,
      with more than 0.04 tokens of betting power. */
  lemma FirstDeposit()
    ensures var r := DepositRaw(Setup(), User1, 1000 * Ether, 30, 1);
            && r.Ok?
            && PositionOf(r.value, User1).principalAmount == 1000 * Ether
            && PositionOf(r.value, User1).side == DecodeSide(1)
            && PositionOf(r.value, User1).bettingPower > 4 * Ether / 100
  {
    BettingPower.ThirtyDayExample();
    SideCodeRoundTrip(Yes);
  }

  /** One day outside either end of the window is refused. */
  lemma OutsideWindow()
    ensures Deposit(Setup(), User1, 1000 * Ether, MinTimeLock - 1, Yes) == Err(InvalidTimeLock)
    ensures Deposit(Setup(), User1, 1000 * Ether, MaxTimeLock + 1, Yes) == Err(InvalidTimeLock)
  {
  }

  /** Deposits for 30 and then 90 days on the same side sum into one position. */
  lemma TwoMaturities()
    ensures var r := DepositAll(Setup(), User1, Yes,
                                [DepositRequest(1000 * Ether, 30), DepositRequest(500 * Ether, 90)]);
            r.Ok? && PositionOf(r.value, User1).principalAmount == 1500 * Ether
  {
    var reqs := [DepositRequest(1000 * Ether, 30), DepositRequest(500 * Ether, 90)];
    var st1 := Deposit(Setup(), User1, 1000 * Ether, 30, Yes).value;
    var st2 := Deposit(st1, User1, 500 * Ether, 90, Yes).value;
    assert reqs[1..][1..] == [];
    assert DepositAll(st2, User1, Yes, reqs[1..][1..]) == Ok(st2);
    assert DepositAll(st1, User1, Yes, reqs[1..]) == Ok(st2);
    assert DepositAll(Setup(), User1, Yes, reqs) == Ok(st2);
    DepositsAccumulate(Setup(), User1, Yes, reqs);
  }

  /** Betting NO after betting YES is refused. */
  lemma HedgeRefused()
    ensures var st1 := DepositRaw(Setup(), User1, 1000 * Ether, 30, 1).value;
            DepositRaw(st1, User1, 1000 * Ether, 30, 2) == Err(CannotHedge)
  {
    assert DepositRaw(Setup(), User1, 1000 * Ether, 30, 1).Ok?;
  }

  /** Once a 365-day yield market is quoted and registered, the upper end of
      the window is accepted. */
  lemma UpperBoundary()
    ensures var st := RegisterSource(SetRate(Setup(), PendleMarketMax, 500, MaxTimeLock), MaxTimeLock, PendleMarketMax);
            st.Ok? && Deposit(st.value, User1, 1000 * Ether, MaxTimeLock, Yes).Ok?
  {
  }

  /** The oracle, and only the oracle, resolves, and not before the date. */
  lemma ResolutionGuards()
    ensures ResolveMarketRaw(Setup(), User1, 1, ResolutionDate) == Err(NotOracle)
    ensures ResolveMarketRaw(Setup(), Oracle, 1, Start) == Err(TooEarly)
    ensures var r := ResolveMarketRaw(Setup(), Oracle, 1, ResolutionDate);
            r.Ok? && r.value.market.Resolved() && r.value.market.outcome.value.Code() == 1
  {
  }

  /** User1 (1000 for 30 days) and User2 (500 for 90 days) bet YES, User3
      (800 for 30 days) bets NO, and YES wins. */
  function Settled(): (st: State)
    ensures st.market.outcome == Some(Yes)
    ensures PositionOf(st, User1) == Position(1000 * Ether, BettingPower.BettingPower(1000 * Ether, 500, 30), Some(Yes), 30, false)
    ensures PositionOf(st, User2) == Position(500 * Ether, BettingPower.BettingPower(500 * Ether, 600, 90), Some(Yes), 90, false)
    ensures PositionOf(st, User3) == Position(800 * Ether, BettingPower.BettingPower(800 * Ether, 500, 30), Some(No), 30, false)
  {
    var st1 := Deposit(Setup(), User1, 1000 * Ether, 30, Yes).value;
    var st2 := Deposit(st1, User2, 500 * Ether, 90, Yes).value;
    var st3 := Deposit(st2, User3, 800 * Ether, 30, No).value;
    ResolveMarket(st3, Oracle, Yes, ResolutionDate).value
  }

  /** Token mode: the winners' PT and YT grow (User2's in the 90-day tokens),
      the loser's PT grows and its YT does not, and a second claim fails. */
  lemma TokenModeClaims()
    ensures var b := Claim(Settled(), User1, TokenMode).value.balances;
            && BalanceOf(b, User1, PrincipalToken(30)) > BalanceOf(Settled().balances, User1, PrincipalToken(30))
            && BalanceOf(b, User1, YieldToken(30)) > BalanceOf(Settled().balances, User1, YieldToken(30))
    ensures var b := Claim(Settled(), User3, TokenMode).value.balances;
            && BalanceOf(b, User3, PrincipalToken(30)) > BalanceOf(Settled().balances, User3, PrincipalToken(30))
            && BalanceOf(b, User3, YieldToken(30)) == BalanceOf(Settled().balances, User3, YieldToken(30))
    ensures var st := Claim(Settled(), User1, TokenMode).value;
            BalanceOf(Claim(st, User2, TokenMode).value.balances, User2, YieldToken(90)) > 0
    ensures var st := Claim(Settled(), User1, TokenMode).value;
            Claim(st, User1, TokenMode) == Err(AlreadyClaimed)
  {
    var st := Settled();
    BettingPower.ThirtyDayExample();
    BettingPower.PositiveIff(500 * Ether, 600, 90);
    TokenClaimByWinner(st, User1);
    TokenClaimByLoser(st, User3);
    var st1 := Claim(st, User1, TokenMode).value;
    assert PositionOf(st1, User2) == PositionOf(st, User2);
    TokenClaimByWinner(st1, User2);
    NoDoubleClaim(st, User1, TokenMode, TokenMode);
  }

  /** Cash mode, with User2 absent: the winner's underlying grows and the
      loser still receives PT. */
  lemma CashModeClaims()
    ensures var st1 := Deposit(Setup(), User1, 1000 * Ether, 30, Yes).value;
            var st2 := Deposit(st1, User3, 800 * Ether, 30, No).value;
            var st := ResolveMarket(st2, Oracle, Yes, ResolutionDate).value;
            && BalanceOf(Claim(st, User1, CashMode).value.balances, User1, Underlying) > BalanceOf(st.balances, User1, Underlying)
            && BalanceOf(Claim(st, User3, CashMode).value.balances, User3, PrincipalToken(30)) > BalanceOf(st.balances, User3, PrincipalToken(30))
  {
    var st1 := Deposit(Setup(), User1, 1000 * Ether, 30, Yes).value;
    var st2 := Deposit(st1, User3, 800 * Ether, 30, No).value;
    var st := ResolveMarket(st2, Oracle, Yes, ResolutionDate).value;
    CashClaimByWinner(st, User1);
    CashClaimByLoser(st, User3);
  }

  /** After resolution a new deposit is refused with "Market resolved". */
  lemma DepositAfterResolution()
    ensures var st1 := Deposit(Setup(), User1, 1000 * Ether, 30, Yes).value;
            var st := ResolveMarket(st1, Oracle, Yes, ResolutionDate).value;
            Deposit(st, User2, 1000 * Ether, 30, Yes) == Err(MarketResolved)
  {
  }
}
