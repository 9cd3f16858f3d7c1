/** Payout arithmetic of a claim. The contract's tests pin only signs (who
    receives which token, and that balances grow or stay put); the concrete
    split below is a modelling choice: a position's betting power stands for
    the yield its deposit projects, losers forfeit theirs, and winners share
    the forfeited yield in proportion to their betting power, truncating. */
module Settlement {
  import opened Types

  /** What one claim pays: principal tokens, yield tokens, and underlying. */
  datatype Payout = Payout(principalTokens: nat, yieldTokens: nat, cash: nat)

  /** A winner's share of the losers' forfeited yield: `loserPower` scaled by
      the winner's fraction `power / winnerPower` of the winning pool, rounded
      down; nothing when the winning pool is empty. */
  function WinnerShare(loserPower: nat, winnerPower: nat, power: nat): (share: nat)
    ensures winnerPower == 0 ==> share == 0
    ensures winnerPower > 0 ==> share * winnerPower <= loserPower * power < (share + 1) * winnerPower
  {
    if winnerPower == 0 then 0 else loserPower * power / winnerPower
  }

  /** A share never exceeds the forfeited pool when the winner's power is part
      of the winning pool. */
  lemma ShareBounded(loserPower: nat, winnerPower: nat, power: nat)
    requires power <= winnerPower
    ensures WinnerShare(loserPower, winnerPower, power) <= loserPower
  {
    if winnerPower > 0 {
      assert loserPower * power <= loserPower * winnerPower;
    }
  }

  /** What a position with the given principal and power is owed once the
      market is settled. A loser gets back its principal as principal tokens
      in either mode and nothing else; a winner gets principal, its own
      projected yield and its share of the losers' yield, as PT and YT in
      token mode or redeemed to the underlying in cash mode. */
  function Entitlement(principal: nat, power: nat, won: bool, mode: ClaimMode,
                       loserPower: nat, winnerPower: nat): (p: Payout)
    ensures !won ==> p == Payout(principal, 0, 0)
    ensures won && mode == TokenMode ==> p.cash == 0 && p.principalTokens == principal
    ensures won && mode == CashMode ==> p.principalTokens == 0 && p.yieldTokens == 0
    ensures won ==> p.principalTokens + p.yieldTokens + p.cash
                    == principal + power + WinnerShare(loserPower, winnerPower, power)
  {
    if !won then Payout(principal, 0, 0)
    else
      var earned := power + WinnerShare(loserPower, winnerPower, power);
      match mode
      case TokenMode => Payout(principal, earned, 0)
      case CashMode => Payout(0, 0, principal + earned)
  }

  /** The mode changes the form of a winner's payout, never its value. */
  lemma ModeDoesNotChangeValue(principal: nat, power: nat, loserPower: nat, winnerPower: nat)
    ensures var t := Entitlement(principal, power, true, TokenMode, loserPower, winnerPower);
            var c := Entitlement(principal, power, true, CashMode, loserPower, winnerPower);
            t.principalTokens + t.yieldTokens == c.cash
  {
  }
}
