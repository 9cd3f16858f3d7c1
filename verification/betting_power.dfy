/** The betting-power calculator: the projected yield of a deposit over its
    lock period, `amount * rate * days / 365` with the rate in basis points,
    in the asset's own fixed-point units and truncated toward zero. */
module BettingPower {

  const BpsDenominator: nat := 10000
  const DaysPerYear: nat := 365
  /** The divisor of the projected-yield product. */
  const Scale: nat := BpsDenominator * DaysPerYear

  /** One token with 18 decimals, the precision the tests deposit in. */
  const Ether: nat := 1_000_000_000_000_000_000

  /** The largest whole number of asset units not exceeding the projected
      yield `amount * rateBps/10000 * lockDays/365`. */
  function BettingPower(amount: nat, rateBps: nat, lockDays: nat): (bp: nat)
    ensures bp * Scale <= amount * rateBps * lockDays
    ensures amount * rateBps * lockDays < (bp + 1) * Scale
  {
    amount * rateBps * lockDays / Scale
  }

  /** Floor division by the scale is monotone. */
  lemma FloorMonotone(x: nat, y: nat)
    requires x <= y
    ensures x / Scale <= y / Scale
  {
  }

  /** Betting power is positive exactly when the projected yield reaches one
      unit of the asset's smallest denomination. */
  lemma PositiveIff(amount: nat, rateBps: nat, lockDays: nat)
    ensures BettingPower(amount, rateBps, lockDays) > 0 <==> amount * rateBps * lockDays >= Scale
  {
    var bp := BettingPower(amount, rateBps, lockDays);
    if bp > 0 {
      assert bp * Scale >= Scale;
    }
  }

  /** Nothing deposited, nothing projected. */
  lemma ZeroWhenNoAmount(rateBps: nat, lockDays: nat)
    ensures BettingPower(0, rateBps, lockDays) == 0
  {
  }

  /** More principal never earns less power. */
  lemma MonotoneInAmount(a1: nat, a2: nat, rateBps: nat, lockDays: nat)
    requires a1 <= a2
    ensures BettingPower(a1, rateBps, lockDays) <= BettingPower(a2, rateBps, lockDays)
  {
    MulMonotone(a1, a2, rateBps * lockDays);
    assert a1 * rateBps * lockDays <= a2 * rateBps * lockDays;
    FloorMonotone(a1 * rateBps * lockDays, a2 * rateBps * lockDays);
  }

  /** A higher rate never earns less power. */
  lemma MonotoneInRate(amount: nat, r1: nat, r2: nat, lockDays: nat)
    requires r1 <= r2
    ensures BettingPower(amount, r1, lockDays) <= BettingPower(amount, r2, lockDays)
  {
    MulMonotone(r1, r2, amount * lockDays);
    assert amount * r1 * lockDays <= amount * r2 * lockDays;
    FloorMonotone(amount * r1 * lockDays, amount * r2 * lockDays);
  }

  /** A longer lock never earns less power. */
  lemma MonotoneInDays(amount: nat, rateBps: nat, d1: nat, d2: nat)
    requires d1 <= d2
    ensures BettingPower(amount, rateBps, d1) <= BettingPower(amount, rateBps, d2)
  {
    MulMonotone(d1, d2, amount * rateBps);
    assert amount * rateBps * d1 <= amount * rateBps * d2;
    FloorMonotone(amount * rateBps * d1, amount * rateBps * d2);
  }

  lemma MulMonotone(x: nat, y: nat, k: nat)
    requires x <= y
    ensures x * k <= y * k
  {
  }

  /** Splitting one deposit into two at the same rate and lock loses at most
      one unit of power to truncation, and never gains any: rounding cannot be
      farmed by splitting. */
  lemma SplitLosesAtMostOne(a1: nat, a2: nat, rateBps: nat, lockDays: nat)
    ensures BettingPower(a1, rateBps, lockDays) + BettingPower(a2, rateBps, lockDays)
            <= BettingPower(a1 + a2, rateBps, lockDays)
            <= BettingPower(a1, rateBps, lockDays) + BettingPower(a2, rateBps, lockDays) + 1
  {
    var b1 := BettingPower(a1, rateBps, lockDays);
    var b2 := BettingPower(a2, rateBps, lockDays);
    var b := BettingPower(a1 + a2, rateBps, lockDays);
    var k := rateBps * lockDays;
    assert (a1 + a2) * rateBps * lockDays == a1 * rateBps * lockDays + a2 * rateBps * lockDays by {
      assert (a1 + a2) * rateBps * lockDays == (a1 + a2) * k;
      assert a1 * rateBps * lockDays == a1 * k;
      assert a2 * rateBps * lockDays == a2 * k;
    }
  }

  /** The tests' figure: 1000 tokens locked 30 days at 500 bps project about
      4.11 tokens of yield, comfortably above the 0.04 tokens they require. */
  lemma ThirtyDayExample()
    ensures BettingPower(1000 * Ether, 500, 30) == 4_109_589_041_095_890_410
    ensures BettingPower(1000 * Ether, 500, 30) > 4 * Ether / 100
  {
  }
}
