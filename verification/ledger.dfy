/** Token balances as an abstract ledger: the underlying asset and, for each
    registered maturity, its principal token (PT) and yield token (YT).
    Allowances and the token contracts themselves are not modelled. */
module Ledger {
  import opened Types

  datatype Token =
    | Underlying
    | PrincipalToken(maturity: nat)
    | YieldToken(maturity: nat)

  /** Balance of every (holder, token) pair; an absent pair holds nothing. */
  type Balances = map<(Address, Token), nat>

  /** `balanceOf(holder)` on token `t`: a pair never credited holds nothing. */
  function BalanceOf(b: Balances, holder: Address, t: Token): (n: nat)
    ensures (holder, t) !in b ==> n == 0
    ensures (holder, t) in b ==> n == b[(holder, t)]
  {
    if (holder, t) in b then b[(holder, t)] else 0
  }

  /** Pays `n` of token `t` to `holder`; no other balance moves. */
  function Credit(b: Balances, holder: Address, t: Token, n: nat): (r: Balances)
    ensures BalanceOf(r, holder, t) == BalanceOf(b, holder, t) + n
    ensures forall a: Address, u: Token :: (a, u) != (holder, t) ==> BalanceOf(r, a, u) == BalanceOf(b, a, u)
  {
    b[(holder, t) := BalanceOf(b, holder, t) + n]
  }

  /** Takes `n` of token `t` from `holder`, who must hold at least that much;
      no other balance moves. */
  function Debit(b: Balances, holder: Address, t: Token, n: nat): (r: Balances)
    requires n <= BalanceOf(b, holder, t)
    ensures BalanceOf(r, holder, t) + n == BalanceOf(b, holder, t)
    ensures forall a: Address, u: Token :: (a, u) != (holder, t) ==> BalanceOf(r, a, u) == BalanceOf(b, a, u)
  {
    b[(holder, t) := BalanceOf(b, holder, t) - n]
  }

  /** Debiting what was just credited restores every balance. */
  lemma DebitUndoesCredit(b: Balances, holder: Address, t: Token, n: nat)
    ensures var c := Credit(b, holder, t, n);
            n <= BalanceOf(c, holder, t) &&
            forall a: Address, u: Token :: BalanceOf(Debit(c, holder, t, n), a, u) == BalanceOf(b, a, u)
  {
  }
}
