/** The yield sources behind the market. Each lock maturity the market
    accepts is bound to one external yield market, which issues that
    maturity's principal and yield tokens. Each yield market quotes its own
    annual rate in basis points. The quote belongs to the yield market, not
    to the binding, and can be set before or after any market binds it. */
module Registry {
  import opened Types

  /** Maturity, counted in lock days, to the address of its yield market. */
  type Registry = map<nat, Address>

  /** A yield market's quote: the annual rate in basis points and the horizon
      in days it was quoted for. */
  datatype Quote = Quote(rateBps: nat, horizonDays: nat)

  /** The quote of every yield market that has been given one. */
  type Rates = map<Address, Quote>

  /** The registry a fresh market starts with. */
  function EmptyRegistry(): (reg: Registry)
    ensures forall days :: days !in reg
  {
    map[]
  }

  /** Binds a maturity to a yield market. A maturity is bound at most once:
      registering it again is refused and leaves the first binding in place. */
  function RegisterPendleMarket(reg: Registry, maturity: nat, market: Address): (r: Result<Registry>)
    ensures r.Ok? <==> maturity !in reg
    ensures r.Err? ==> r.error == AlreadyRegistered
    ensures r.Ok? ==> r.value.Keys == reg.Keys + {maturity} && r.value[maturity] == market
    ensures r.Ok? ==> forall days :: days in reg ==> r.value[days] == reg[days]
  {
    if maturity in reg then Err(AlreadyRegistered) else Ok(reg[maturity := market])
  }

  /** The annual rate a yield market quotes; one never given a quote
      quotes 0, as an unset storage slot reads. */
  function RateOf(rates: Rates, market: Address): (bps: nat)
    ensures market !in rates ==> bps == 0
    ensures market in rates ==> bps == rates[market].rateBps
  {
    if market in rates then rates[market].rateBps else 0
  }

  /** A yield market's `setYieldRate(rateBps, horizonDays)`: replaces that
      market's quote, whether or not any maturity is bound to it, and leaves
      every other market's quote alone. */
  function SetYieldRate(rates: Rates, market: Address, rateBps: nat, horizonDays: nat): (r: Rates)
    ensures market in r && r[market] == Quote(rateBps, horizonDays) && RateOf(r, market) == rateBps
    ensures r.Keys == rates.Keys + {market}
    ensures forall m :: m in rates && m != market ==> r[m] == rates[m]
  {
    rates[market := Quote(rateBps, horizonDays)]
  }

  /** Registering a maturity twice fails the second time, whatever the market. */
  lemma RegisterTwiceFails(reg: Registry, maturity: nat, m1: Address, m2: Address)
    requires RegisterPendleMarket(reg, maturity, m1).Ok?
    ensures RegisterPendleMarket(RegisterPendleMarket(reg, maturity, m1).value, maturity, m2) == Err(AlreadyRegistered)
  {
  }

  /** The last quote wins: setting a market's rate twice is the same as
      setting it once to the second value, and no other market notices. */
  lemma LastQuoteWins(rates: Rates, market: Address, bps1: nat, h1: nat, bps2: nat, h2: nat)
    ensures SetYieldRate(SetYieldRate(rates, market, bps1, h1), market, bps2, h2) == SetYieldRate(rates, market, bps2, h2)
    ensures forall m :: m != market ==> RateOf(SetYieldRate(rates, market, bps2, h2), m) == RateOf(rates, m)
  {
  }
}
