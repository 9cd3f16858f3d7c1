# HyperMarket settlement, modelled in Dafny

This project models the HyperMarket settlement engine of the hyperyield
repository, along with one small string helper from its dashboard.

HyperMarket is a parimutuel market with time-locked yield. A user deposits
the underlying asset (USDY in the tests) on one side of a binary outcome.
Side code 1 is YES and side code 2 is NO. The user also picks a lock of
`minTimeLock`..`maxTimeLock` days (30..365 in the tests). Each lock
maturity is bound to a Pendle yield market, which quotes an annual rate in
basis points. The deposit earns *betting power*: the yield it is projected
to earn over its lock, `amount * rateBps * lockDays / (10000 * 365)`,
truncated. On or after the resolution date the oracle resolves the
outcome, once. Each depositor then claims, once, in one of two modes:
token mode (code 0) pays principal tokens (PT) and yield tokens (YT); cash
mode (code 1) pays the underlying. A loser gets its principal back as PT,
in either mode. A winner also gets yield, including a share of the
losers' yield in proportion to its betting power.

The model is a functional state machine. Every operation is a pure
function from a `State` and its inputs to `Result<State>`, either `Ok` with
the new state or `Err` with the revert. A reverted call cannot leave a
partial change behind, because an `Err` carries no state. The caller's
identity and the current chain time are explicit inputs. There is no
clock.

Files and modules:

- `types.dfy` (`Types`): addresses, `Side` and `ClaimMode` with their
  on-chain codes, the errors and their revert strings, and `Result`.
- `betting_power.dfy` (`BettingPower`): the betting-power calculator and
  its arithmetic properties.
- `registry.dfy` (`Registry`): maturity-to-yield-market bindings
  (`registerPendleMarket`) and the yield markets' own rate quotes
  (`setYieldRate`).
- `ledger.dfy` (`Ledger`): token balances as an abstract ledger.
- `settlement.dfy` (`Settlement`): what a claim pays.
- `market.dfy` (`HyperMarket`): market parameters, positions, pools,
  `deposit`, `resolveMarket` and `claim`.
- `sums.dfy` (`Sums`): sums over maps, for the accounting invariant.
- `invariants.dfy` (`Invariants`): the accounting invariant, its
  preservation, and the bound on redistributed yield.
- `properties.dfy` (`Properties`): the behaviour the tests pin, stated for
  all inputs.
- `scenarios.dfy` (`Scenarios`): the tests' own scenarios, replayed on
  concrete values.
- `ellipsis.dfy` (`AccountEllipsis`): `accountEllipsis`, with JavaScript
  `slice` semantics.

The model encodes what the test suite
`smart-contracts/test/HyperMarket.test.js` pins down; the Solidity
contracts are not modelled. Where the tests leave something open, the model makes a
choice and labels it as one (see "Modelling choices" below).

Modelling choices:

- **Deposit guard order.** `MarketResolved`, then a zero amount, then
  `InvalidTimeLock`, then `CannotHedge`, then a missing yield source, then
  an insufficient balance. Each test triggers only one guard, so the tests
  do not fix this order. Checking resolution first makes "once resolved,
  every deposit fails with Market resolved" hold unconditionally.
- **Resolution guard order.** `NotOracle`, then `TooEarly`, then
  `AlreadyResolved`. The tests do not exercise a second resolution.
- **Resolution date.** The oracle may resolve at `now == resolutionDate`
  and later. The tests advance the chain to the resolution date and then
  resolve in the next block, a second later, so the inclusive boundary is
  not pinned by them.
- **Claim guard order.** Not resolved, then no position, then
  `AlreadyClaimed`.
- **Payout split.** Betting power stands for a position's projected
  yield. Losers forfeit theirs. A winner receives:
  - its principal;
  - its own projected yield;
  - `floor(loserPool * power / winnerPool)` of the forfeited yield, or 0
    when the winning pool is empty.

  In token mode this comes as PT and YT. In cash mode it comes as the
  underlying. The tests check only signs and unchanged balances.
- **Settlement tokens.** A position settles in the PT and YT of its first
  deposit's maturity. The tests check that a 90-day winner receives the
  90-day YT.
- **Maturity keys.** The registry is keyed by lock days. The source keys
  it by maturity timestamp, and in the tests each maturity is now +
  `lockDays` days.
- **Duplicate registration.** Registering a maturity twice is refused.
- **Rates.** A rate belongs to a yield market, not to a binding. The tests
  quote the yield markets (`setYieldRate(500, 30)`) before the market binds
  them, so a quote needs no binding. A deposit reads the current quote of
  the yield market bound to its lock. A market never quoted quotes 0. The
  quote's second argument (30, 90, 365) is recorded as the quote's horizon;
  betting power uses the depositor's lock days, which equal it in every
  test.
- **Custody.** A deposit moves the amount from the depositor to the
  market's own account.
- **Raw codes.** `DepositRaw`, `ResolveMarketRaw` and `ClaimRaw` take the
  side, outcome and mode as the uint codes the contract receives. A code
  that names nothing is refused with "Invalid side" or "Invalid claim mode"
  before any other guard.

A loser is paid in PT in cash mode too: the test `Should allow loser to
exit (PT only)` at `smart-contracts/test/HyperMarket.test.js:314-321`
checks that its PT balance grows.

The comment at `smart-contracts/test/HyperMarket.test.js:153` writes the
rate as `0.05 / 10000` and arrives at about 0.0411 tokens. The rate meant
is 500 bps = 0.05, which gives about 4.11 tokens. The assertion next to the
comment (more than 0.04 tokens) holds either way. `BettingPower.ThirtyDayExample`
gives the exact figure.

## Model

| member | source | states |
|---|---|---|
| Types.DecodeSide | smart-contracts/test/HyperMarket.test.js:229-231 | only codes 1 and 2 name a side, and decoding inverts `Side.Code` (1 = YES, 2 = NO) |
| Types.DecodeClaimMode | smart-contracts/test/HyperMarket.test.js:305-308 | only codes 0 and 1 name a claim mode, and decoding inverts `ClaimMode.Code` (0 = token, 1 = cash) |
| Types.SideCodeRoundTrip | smart-contracts/test/HyperMarket.test.js:118-123 | decoding a side's code gives back the side, so the side a deposit records reads back as the code submitted |
| Types.ClaimModeCodeRoundTrip | smart-contracts/test/HyperMarket.test.js:243 | decoding a claim mode's code gives back the mode |
| Types.MessagesDistinct | smart-contracts/test/HyperMarket.test.js:126-142 | different errors revert with different strings, so "Invalid time lock", "Cannot hedge", "Market resolved", "Not oracle", "Too early" and "Already claimed" tell the failures apart |
| BettingPower.BettingPower | smart-contracts/test/HyperMarket.test.js:144-156 | betting power is the largest whole number of units not exceeding `amount * rate/10000 * days/365` |
| BettingPower.ZeroWhenNoAmount | smart-contracts/test/HyperMarket.test.js:144-151 | a zero amount earns no betting power, whatever the rate and lock |
| BettingPower.PositiveIff | smart-contracts/test/HyperMarket.test.js:150-151 | betting power is positive exactly when the projected yield reaches one unit |
| BettingPower.MonotoneInAmount | smart-contracts/test/HyperMarket.test.js:153-154 | a larger deposit never earns less betting power |
| BettingPower.MonotoneInRate | smart-contracts/test/HyperMarket.test.js:63-65 | a higher source rate never earns less betting power |
| BettingPower.MonotoneInDays | smart-contracts/test/HyperMarket.test.js:153-154 | a longer lock never earns less betting power |
| BettingPower.SplitLosesAtMostOne | smart-contracts/test/HyperMarket.test.js:158-169 | splitting a deposit in two never gains power and loses at most one unit to truncation |
| BettingPower.ThirtyDayExample | smart-contracts/test/HyperMarket.test.js:144-156 | 1000 tokens for 30 days at 500 bps earn 4.109589041095890410 tokens of power, above the 0.04 the test requires |
| Registry.RegisterPendleMarket | smart-contracts/test/HyperMarket.test.js:86-88 | a new maturity is bound to its yield market and every earlier binding is kept; an already bound maturity is refused |
| Registry.RegisterTwiceFails | smart-contracts/test/HyperMarket.test.js:86-88 | a maturity cannot be rebound once registered (a modelling choice) |
| Registry.SetYieldRate | smart-contracts/test/HyperMarket.test.js:63-65 | any yield market can be quoted, bound or not; its quote becomes exactly the given rate and horizon and every other market's quote is kept |
| Registry.LastQuoteWins | smart-contracts/test/HyperMarket.test.js:63-65 | quoting a market twice equals quoting it once with the second rate, and other markets' rates are unaffected |
| Ledger.BalanceOf | smart-contracts/test/HyperMarket.test.js:240-246 | a holder never credited with a token holds none of it |
| Ledger.Credit | smart-contracts/test/HyperMarket.test.js:90-93 | a credit raises exactly one holder's balance of one token by the amount |
| Ledger.Debit | smart-contracts/test/HyperMarket.test.js:114-119 | a debit lowers exactly one holder's balance of one token by the amount |
| Ledger.DebitUndoesCredit | smart-contracts/test/HyperMarket.test.js:114-119 | debiting what was just credited restores every holder's balance of every token |
| HyperMarket.CreateMarket | smart-contracts/test/HyperMarket.test.js:71-79 | a new market carries the given underlying token, window, resolution date and oracle, is unresolved, and has no positions and empty pools |
| HyperMarket.PositionOf | smart-contracts/test/HyperMarket.test.js:121-123 | the `positions(user)` view reads a stored position as it is, and a user who never deposited as no principal, no power, no side and nothing claimed |
| HyperMarket.RegisterSource | smart-contracts/test/HyperMarket.test.js:86-88 | registering a maturity on the market binds it to the yield market and changes nothing else; a bound maturity is refused |
| HyperMarket.SetRate | smart-contracts/test/HyperMarket.test.js:350-353 | quoting a yield market sets the rate deposits bound to it will read, leaves every other market's rate alone and changes nothing else |
| HyperMarket.Deposit | smart-contracts/test/HyperMarket.test.js:113-124 | an accepted deposit adds the amount and its betting power to the user's position and to its side's pool, and sets the side. The first deposit fixes the settlement maturity. The amount moves from the user's wallet to the market's account. Other positions, the other pool and the market are untouched. A resolved market refuses it |
| HyperMarket.ResolveMarket | smart-contracts/test/HyperMarket.test.js:183-215 | resolution succeeds exactly for the oracle, at or after the resolution date, on an unresolved market; it records the outcome and changes nothing else; a non-oracle gets "Not oracle", the oracle before the date gets "Too early" |
| HyperMarket.PayOut | smart-contracts/test/HyperMarket.test.js:239-250 | a payout raises the claimer's PT, YT and underlying of its maturity by the payout's amounts and no other balance |
| HyperMarket.Claim | smart-contracts/test/HyperMarket.test.js:239-286 | a claim succeeds exactly on a resolved market for an unclaimed position with principal. It marks the position claimed and keeps the rest of it as a record. It moves only the claimer's balances. Pools, market and other positions are unchanged. An unresolved market refuses it |
| HyperMarket.DepositRaw | smart-contracts/test/HyperMarket.test.js:118-123 | a deposit with side code other than 1 or 2 is refused; an accepted one records a side whose code is the one submitted and adds the amount to the principal |
| HyperMarket.ResolveMarketRaw | smart-contracts/test/HyperMarket.test.js:193-200 | an outcome code other than 1 or 2 is refused; an accepted resolution was by the oracle on or after the date and records an outcome whose code is the one submitted |
| HyperMarket.ClaimRaw | smart-contracts/test/HyperMarket.test.js:305-308 | a mode code above 1 is refused; an accepted claim was of an unclaimed position and leaves it claimed |
| Settlement.WinnerShare | smart-contracts/test/HyperMarket.test.js:267-278 | a winner's share of the losers' yield is the forfeited pool times its fraction of winning power, rounded down; it is zero when the winning pool is empty |
| Settlement.ShareBounded | smart-contracts/test/HyperMarket.test.js:267-278 | no single winner's share exceeds the forfeited pool |
| Settlement.Entitlement | smart-contracts/test/HyperMarket.test.js:239-265 | a loser is owed its principal in PT and nothing else; a winner is owed principal + own yield + share, as PT and YT in token mode or all in underlying in cash mode (the split is a modelling choice) |
| Settlement.ModeDoesNotChangeValue | smart-contracts/test/HyperMarket.test.js:305-312 | cash mode pays a winner the same total value as token mode |
| Invariants.CreateMarketValid | smart-contracts/test/HyperMarket.test.js:71-84 | a new market satisfies the accounting invariant |
| Invariants.RegisterPreservesValid | smart-contracts/test/HyperMarket.test.js:86-88 | registering sources keeps the accounting invariant |
| Invariants.SetRatePreservesValid | smart-contracts/test/HyperMarket.test.js:350-353 | quoting a yield market keeps the accounting invariant |
| Invariants.DepositPreservesValid | smart-contracts/test/HyperMarket.test.js:158-169 | after any accepted deposit, each side's pool totals still equal the sums of principal and power over that side's positions, and every position still has a side and principal |
| Invariants.ResolvePreservesValid | smart-contracts/test/HyperMarket.test.js:184-200 | resolution keeps the accounting invariant |
| Invariants.ClaimPreservesValid | smart-contracts/test/HyperMarket.test.js:280-286 | claims keep the accounting invariant; no position is claimed before resolution |
| Invariants.RedistributionWithinForfeit | smart-contracts/test/HyperMarket.test.js:267-278 | the winners' shares of forfeited yield, summed over all positions, never exceed what the losers forfeited (a property of the modelled split) |
| Properties.DepositAcceptedIff | smart-contracts/test/HyperMarket.test.js:112-181 | a deposit is accepted exactly when the market is open, the amount positive, the lock inside the window, no opposite position exists, the maturity has a source and the user has the funds |
| Properties.LockWindow | smart-contracts/test/HyperMarket.test.js:126-142 | on an open market a positive deposit is refused with "Invalid time lock" exactly when its lock lies outside the inclusive window |
| Properties.LockBoundaries | smart-contracts/test/HyperMarket.test.js:325-360 | both window ends are accepted once their maturities have sources; min - 1 and max + 1 are refused with "Invalid time lock" |
| Properties.NoHedging | smart-contracts/test/HyperMarket.test.js:171-180 | a user holding one side is refused with "Cannot hedge" on the other |
| Properties.ResolutionClosesDeposits | smart-contracts/test/HyperMarket.test.js:362-374 | after a successful resolution every deposit is refused with "Market resolved" |
| Properties.ResolutionIsFinal | smart-contracts/test/HyperMarket.test.js:184-200 | a second resolution always fails (a modelling choice: the tests do not try one) |
| Properties.TokenClaimByWinner | smart-contracts/test/HyperMarket.test.js:239-251 | a winner's token-mode claim raises its PT by its principal (strictly) and its YT by at least its betting power (strictly when that is positive), and leaves its underlying alone |
| Properties.TokenClaimByLoser | smart-contracts/test/HyperMarket.test.js:253-265 | a loser's token-mode claim raises its PT strictly by its principal and leaves its YT and underlying unchanged |
| Properties.CashClaimByWinner | smart-contracts/test/HyperMarket.test.js:305-312 | a winner's cash claim raises its underlying by at least principal + betting power, strictly, and pays no PT or YT |
| Properties.CashClaimByLoser | smart-contracts/test/HyperMarket.test.js:314-321 | a loser's cash-mode claim still raises its PT strictly and pays no YT or underlying |
| Properties.NoDoubleClaim | smart-contracts/test/HyperMarket.test.js:280-286 | after a successful claim, a second claim by the same user in either mode fails with "Already claimed" |
| Properties.RawCallsAgree | smart-contracts/test/HyperMarket.test.js:229-243 | on valid codes, `deposit`, `resolveMarket` and `claim` called with codes behave exactly as the operations on the sides and modes those codes name |
| Properties.QuoteAndBindCommute | smart-contracts/test/HyperMarket.test.js:63-88 | quoting a yield market before or after binding it reaches the same state, and deposits for the bound maturity then earn at the quoted rate |
| Properties.DepositKeepsUnderlying | smart-contracts/test/HyperMarket.test.js:113-124 | a deposit leaves the depositor's and the market's underlying summing to what they held before |
| Properties.DepositsAccumulate | smart-contracts/test/HyperMarket.test.js:158-169 | over any accepted series of deposits by one user, whatever their locks, the principal grows by the sum of the amounts, the side is the requested one, and other users are untouched |
| Scenarios.FirstDeposit | smart-contracts/test/HyperMarket.test.js:113-124 | 1000 tokens for 30 days on side 1 give principal 1000 tokens, side 1 and more than 0.04 tokens of power |
| Scenarios.OutsideWindow | smart-contracts/test/HyperMarket.test.js:126-142 | 29 and 366 days are refused with "Invalid time lock" |
| Scenarios.TwoMaturities | smart-contracts/test/HyperMarket.test.js:158-169 | 1000 tokens for 30 days then 500 for 90 days give principal 1500 tokens |
| Scenarios.HedgeRefused | smart-contracts/test/HyperMarket.test.js:171-180 | side 2 after side 1 is refused with "Cannot hedge" |
| Scenarios.UpperBoundary | smart-contracts/test/HyperMarket.test.js:334-360 | after registering a 365-day source, a 365-day deposit is accepted |
| Scenarios.ResolutionGuards | smart-contracts/test/HyperMarket.test.js:183-215 | a non-oracle gets "Not oracle", the oracle early gets "Too early", the oracle on the date resolves to outcome 1 |
| Scenarios.TokenModeClaims | smart-contracts/test/HyperMarket.test.js:218-286 | in the three-user scenario the winner's PT and YT grow, the loser's PT grows and YT does not, the 90-day winner holds 90-day YT, and a second claim fails |
| Scenarios.CashModeClaims | smart-contracts/test/HyperMarket.test.js:289-321 | in the two-user scenario the winner's underlying grows and the loser's PT grows |
| Scenarios.DepositAfterResolution | smart-contracts/test/HyperMarket.test.js:362-374 | a deposit after resolution is refused with "Market resolved" |
| AccountEllipsis.ResolveIndex | app/src/components/matchtabs/TabInfopanel.tsx:7 | a slice index counts from the end when negative and is clamped to the string |
| AccountEllipsis.Slice | app/src/components/matchtabs/TabInfopanel.tsx:7 | `slice` returns the characters between the resolved indices, all of a string too short for a negative start, and nothing for an empty range |
| AccountEllipsis.Shorten | app/src/components/matchtabs/TabInfopanel.tsx:5-8 | the empty string stays empty; otherwise the result is the first min(6, n) characters, "...", and the last min(4, n) characters |
| AccountEllipsis.ShortenLength | app/src/components/matchtabs/TabInfopanel.tsx:7 | a non-empty result has min(6, n) + 3 + min(4, n) characters, 13 from six characters up |
| AccountEllipsis.ShortenKeepsEnds | app/src/components/matchtabs/TabInfopanel.tsx:7 | for six characters or more the head, the marker and the tail sit at fixed positions, copied verbatim |
| AccountEllipsis.DefaultContractAddress | app/src/components/matchtabs/TabInfopanel.tsx:5-20 | the default contract address shortens to `0x1234...7890` |

## Left out

- ERC-20 mechanics: allowances (`approve`), `transferFrom` authorisation,
  and PT/YT minting and splitting by the Pendle router and factory. The
  contracts that implement them are not part of this model. Balances are an
  abstract ledger.
- HyperMarket.Claim: payouts are credited to the claimer, not drawn from
  the market's account. The market buys PT and YT with the deposited
  underlying through the Pendle router and redeems them at a cash exit;
  that contract code is not part of this model. So the model does not
  promise that the market's account covers the payouts, and the market's
  holdings of PT and YT are not tracked.
- The market factory (`HyperFactory.createMarket`, `getMarkets`) is not
  part of this model beyond the parameters `CreateMarket` records.
- Access control on `registerPendleMarket` (the tests call it as the
  deployer). The rule is not pinned by the tests.
- The default market (`setDefaultMarket`, `defaultMarket`). Its effect is
  not pinned by the tests, so no fallback binding is modelled. A lock without its own
  source is refused.
- Maturity timestamps. Sources are keyed by lock days, not by
  `now + lockDays * 86400`.
- Events (`Deposited`, `Resolved`, `Claimed`). They are not modelled;
  the state a `Resolved` event reports is the recorded outcome.
- uint256 overflow: amounts and betting power are unbounded integers.
- Hardhat chain time. `time.increaseTo` becomes the `now` input of
  `ResolveMarket`.
- Deployment and verification scripts, the Hardhat configuration, all
  React/MUI presentation components, the floating-point display maths
  (multipliers, odds, expected pot, total betted) and the `getSportName`
  lookup. These are I/O, UI or float arithmetic.
- BettingPower.MonotoneInAmount: monotonicity is stated non-strictly,
  because truncation makes strict growth false for small differences. The
  same holds for `MonotoneInRate` and `MonotoneInDays`.
- BettingPower.PositiveIff: a positive deposit earns positive power only
  when `amount * rateBps * lockDays` reaches 3,650,000 units, not for every
  positive amount, because of truncation. Every amount in the tests is far
  above that threshold.
- Properties.TokenClaimByWinner: the winner's YT is promised to grow
  strictly only when its betting power is positive. A deposit too small to
  project one unit of yield earns no power, and its winner may receive no
  YT.
- HyperMarket.DepositRaw: what the contract does with a side code other
  than 1 or 2 is not pinned by the tests, and the same holds for `ResolveMarketRaw`'s
  outcome code and `ClaimRaw`'s mode code above 1. The model refuses them
  with its own errors, as a modelling choice.
- AccountEllipsis.Shorten: the input is a string. The `undefined` or `null`
  that `!address` maps to `''` cannot be expressed. This happens when a
  match has no `bettingcontract` (`TabInfopanel.tsx:89`). The inputs are
  addresses, which are strings.
- AccountEllipsis.Slice: indices count Unicode scalar values, where
  JavaScript's `slice` counts UTF-16 code units. A character outside the
  Basic Multilingual Plane counts once here and twice there, so it is cut
  differently. The inputs are ASCII hexadecimal addresses, where the two
  counts agree.
- Settlement.Entitlement: the concrete amounts are a modelling choice. The
  tests pin only which balances grow and which stay unchanged.
