/** The accounting invariant of the market and its preservation by every
    step: each side's running totals are the sums over the positions on that
    side, every stored position has a side and some principal, and nothing is
    claimed before resolution. On top of it, the settlement bound: the yield
    redistributed to winners never exceeds what the losers forfeit. */
module Invariants {
  import opened Types
  import opened Sums
  import opened Ledger
  import opened Registry
  import opened Settlement
  import opened HyperMarket

  /** A position's principal, counted only on side `s`. */
  function PrincipalOn(s: Side): Position -> int
  {
    (p: Position) => if p.side == Some(s) then p.principalAmount else 0
  }

  /** A position's betting power, counted only on side `s`. */
  function PowerOn(s: Side): Position -> int
  {
    (p: Position) => if p.side == Some(s) then p.bettingPower else 0
  }

  /** A position's share of the forfeited yield when side `s` wins. */
  function ShareOn(s: Side, loserPower: nat, winnerPower: nat): Position -> int
  {
    (p: Position) => if p.side == Some(s) then WinnerShare(loserPower, winnerPower, p.bettingPower) else 0
  }

  ghost predicate PoolMatches(st: State, s: Side)
  {
    && SumOver(st.positions, PrincipalOn(s)) == PoolOf(st, s).principal
    && SumOver(st.positions, PowerOn(s)) == PoolOf(st, s).power
  }

  ghost predicate WellFormed(market: MarketParams, p: Position)
  {
    && p.side.Some?
    && p.principalAmount > 0
    && (p.claimed ==> market.Resolved())
  }

  ghost predicate Valid(st: State)
  {
    && (forall u :: u in st.positions ==> WellFormed(st.market, st.positions[u]))
    && PoolMatches(st, Yes)
    && PoolMatches(st, No)
  }

  lemma CreateMarketValid(account: Address, underlying: Address, minTimeLock: nat, maxTimeLock: nat,
                          resolutionDate: int, oracle: Address, rates: Rates, balances: Balances)
    ensures Valid(CreateMarket(account, underlying, minTimeLock, maxTimeLock, resolutionDate, oracle, rates, balances))
  {
  }

  lemma RegisterPreservesValid(st: State, maturity: nat, yieldMarket: Address)
    requires Valid(st)
    requires RegisterSource(st, maturity, yieldMarket).Ok?
    ensures Valid(RegisterSource(st, maturity, yieldMarket).value)
  {
  }

  lemma SetRatePreservesValid(st: State, yieldMarket: Address, rateBps: nat, horizonDays: nat)
    requires Valid(st)
    ensures Valid(SetRate(st, yieldMarket, rateBps, horizonDays))
  {
  }

  /** Replacing `user`'s position by `q` keeps side `s` matched when the
      side's totals move by exactly the difference of the two positions'
      contributions. */
  lemma UpsertKeepsPool(st: State, st': State, user: Address, q: Position, s: Side)
    requires PoolMatches(st, s)
    requires st'.positions == st.positions[user := q]
    requires PoolOf(st', s).principal
             == PoolOf(st, s).principal - PrincipalOn(s)(PositionOf(st, user)) + PrincipalOn(s)(q)
    requires PoolOf(st', s).power
             == PoolOf(st, s).power - PowerOn(s)(PositionOf(st, user)) + PowerOn(s)(q)
    ensures PoolMatches(st', s)
  {
    SumOverUpdate(st.positions, PrincipalOn(s), user, q);
    SumOverUpdate(st.positions, PowerOn(s), user, q);
  }

  /** An upsert of `user`'s position that adds `amount` and `power` on
      `side`, matched by the same change to that side's totals, keeps the
      market valid. */
  lemma UpsertOnSideValid(st: State, st': State, user: Address, side: Side, amount: nat, power: nat)
    requires Valid(st)
    requires amount > 0
    requires PositionOf(st, user).side == None || PositionOf(st, user).side == Some(side)
    requires st'.market == st.market
    requires st'.positions == st.positions[user := PositionOf(st', user)]
    requires PositionOf(st', user)
             == PositionOf(st, user).(principalAmount := PositionOf(st, user).principalAmount + amount,
                                      bettingPower := PositionOf(st, user).bettingPower + power,
                                      side := Some(side),
                                      maturity := PositionOf(st', user).maturity)
    requires PoolOf(st', side) == Pool(PoolOf(st, side).principal + amount, PoolOf(st, side).power + power)
    requires PoolOf(st', side.Other()) == PoolOf(st, side.Other())
    ensures Valid(st')
  {
    var p := PositionOf(st, user);
    var q := PositionOf(st', user);
    assert forall u :: u in st'.positions ==> WellFormed(st'.market, st'.positions[u]);
    // a user without a side has no stored position, hence nothing to replace
    if p.side == None {
      assert user !in st.positions;
    }
    var other := side.Other();
    assert PrincipalOn(side)(p) == p.principalAmount && PowerOn(side)(p) == p.bettingPower;
    assert PrincipalOn(other)(p) == 0 && PowerOn(other)(p) == 0;
    UpsertKeepsPool(st, st', user, q, side);
    UpsertKeepsPool(st, st', user, q, other);
    assert PoolMatches(st', Yes) && PoolMatches(st', No) by {
      if side == Yes {} else {}
    }
  }

  /** Deposits keep each side's totals equal to the sums over its positions. */
  lemma DepositPreservesValid(st: State, user: Address, amount: nat, lockDays: nat, side: Side)
    requires Valid(st)
    requires Deposit(st, user, amount, lockDays, side).Ok?
    ensures Valid(Deposit(st, user, amount, lockDays, side).value)
  {
    var st' := Deposit(st, user, amount, lockDays, side).value;
    UpsertOnSideValid(st, st', user, side, amount, DepositPower(st, amount, lockDays));
  }

  lemma ResolvePreservesValid(st: State, caller: Address, outcome: Side, now: int)
    requires Valid(st)
    requires ResolveMarket(st, caller, outcome, now).Ok?
    ensures Valid(ResolveMarket(st, caller, outcome, now).value)
  {
    var st' := ResolveMarket(st, caller, outcome, now).value;
    assert st'.positions == st.positions;
    assert PoolOf(st', Yes) == PoolOf(st, Yes) && PoolOf(st', No) == PoolOf(st, No);
  }

  /** Claiming flips a flag and moves no totals. */
  lemma ClaimPreservesValid(st: State, user: Address, mode: ClaimMode)
    requires Valid(st)
    requires Claim(st, user, mode).Ok?
    ensures Valid(Claim(st, user, mode).value)
  {
    var st' := Claim(st, user, mode).value;
    var q := PositionOf(st', user);
    assert st'.positions == st.positions[user := q];
    UpsertKeepsPool(st, st', user, q, Yes);
    UpsertKeepsPool(st, st', user, q, No);
  }

  lemma AddScaled(total: int, a: int, sa: int, power: int, b: int, sb: int, loserPower: nat, winnerPower: nat)
    requires total == a + sa && power == b + sb
    requires a * winnerPower <= loserPower * b
    requires sa * winnerPower <= loserPower * sb
    ensures total * winnerPower <= loserPower * power
  {
    assert (a + sa) * winnerPower == a * winnerPower + sa * winnerPower;
    assert loserPower * (b + sb) == loserPower * b + loserPower * sb;
  }

  /** One position's share, scaled by the winning pool, stays within the
      forfeited pool scaled by its power. */
  lemma TermScaled(p: Position, s: Side, loserPower: nat, winnerPower: nat)
    requires winnerPower > 0
    ensures ShareOn(s, loserPower, winnerPower)(p) * winnerPower <= loserPower * PowerOn(s)(p)
  {
  }

  /** Summed over any set of positions, the winners' shares scaled by the
      winning pool stay within the forfeited pool scaled by their power. */
  lemma {:induction false} SharesScaled(m: map<Address, Position>, s: Side, loserPower: nat, winnerPower: nat)
    requires winnerPower > 0
    ensures SumOver(m, ShareOn(s, loserPower, winnerPower)) * winnerPower
            <= loserPower * SumOver(m, PowerOn(s))
    decreases |m|
  {
    if |m| > 0 {
      var k := Pick(m);
      var rest := m - {k};
      SharesScaled(rest, s, loserPower, winnerPower);
      TermScaled(m[k], s, loserPower, winnerPower);
      AddScaled(SumOver(m, ShareOn(s, loserPower, winnerPower)),
                ShareOn(s, loserPower, winnerPower)(m[k]), SumOver(rest, ShareOn(s, loserPower, winnerPower)),
                SumOver(m, PowerOn(s)), PowerOn(s)(m[k]), SumOver(rest, PowerOn(s)), loserPower, winnerPower);
    }
  }

  lemma CancelFactor(total: int, loserPower: nat, winnerPower: nat)
    requires winnerPower > 0
    requires total * winnerPower <= loserPower * winnerPower
    ensures total <= loserPower
  {
    var excess := total - loserPower;
    assert excess * winnerPower == total * winnerPower - loserPower * winnerPower;
    if excess > 0 {
      MulPositive(excess, winnerPower);
      assert false;
    }
  }

  lemma MulPositive(x: int, y: int)
    requires x > 0 && y > 0
    ensures x * y > 0
  {
  }

  /** Settlement never pays winners more of the losers' yield than the losers
      forfeited, and never divides by an empty winning pool. */
  lemma RedistributionWithinForfeit(st: State)
    requires Valid(st)
    requires st.market.Resolved()
    ensures var w := st.market.outcome.value;
            var loserPower := PoolOf(st, w.Other()).power;
            SumOver(st.positions, ShareOn(w, loserPower, PoolOf(st, w).power)) <= loserPower
  {
    var w := st.market.outcome.value;
    var loserPower := PoolOf(st, w.Other()).power;
    var winnerPower := PoolOf(st, w).power;
    var total := SumOver(st.positions, ShareOn(w, loserPower, winnerPower));
    if winnerPower == 0 {
      SumOverZero(st.positions, ShareOn(w, loserPower, winnerPower));
    } else {
      SharesScaled(st.positions, w, loserPower, winnerPower);
      CancelFactor(total, loserPower, winnerPower);
    }
  }
}
