# Repeated one-to-one double auction: a verified model

This project models the market-round engines of a small agent-based market simulation, in
two variants that the repository keeps side by side and that are modelled separately:

- **The agent variant** (`ABMImproved.py`, module `AgentMarket` in `agent_market.dfy`).
  Buyers have a budget, a willingness to pay (wtp) and a last bid. Sellers have one unit of
  inventory, an asking price and a sales counter. In each round every buyer bids within 5 of
  its wtp. Then every seller multiplies its price by 1.02 if it sold since its last step, and
  by 0.98 otherwise, and resets its sales. The shuffled buyers and sellers are zipped into
  pairs. A pair is skipped when the buyer has no budget left (`budget <= 0`) or the seller
  has no inventory. Otherwise it trades at the midpoint when bid >= ask. The market's average
  price becomes the mean of the round's trade prices, and stays as it was when nothing traded.
  The value-level specification (`BuyerState`, `SellerState`, `MatchPairs`, `Round`) states
  the round as a function. The classes `Buyer`, `Seller` and `MarketModel` update their
  fields in place and are proved equal to that function.
- **The array variant** (`ABMSimple.py`, module `ArrayMarket` in `array_market.dfy`).
  There are two arrays of reals: buyers' values and sellers' minimum prices. Each step
  shuffles both in place and zips them. A pair trades at `(b + s) / 2` when `b >= s`. If there
  were trades, their mean is appended to the price history, and every value moves 5% of the
  way toward that mean. Otherwise the previous entry is appended, or 100 on the first step.
  `Step` and `Run` are the specification; `Shuffle`, `ZipTrades`, `AdjustSellers`,
  `AdjustBuyers`, `MarketStep` and `Simulate` are the imperative loops proved against it.
- `Stats` (`stats.dfy`) holds the sum, the mean (sum divided by count) and the extremes of
  a sequence of reals, which both variants use.

Modelling choices:

- Floats are Dafny `real`; there is no rounding.
- Random draws are inputs with the range the generator guarantees. The initial budget, wtp
  and price draws lie in [80, 120]. A bid draw lies within 5 of the buyer's wtp.
- The agent variant's shuffles are given permutations of the agent indices. The framework's
  shuffle returns a reordered agent set.
- The array variant's in-place shuffle is a pass of swaps from the last position down to
  position 1. Position i is swapped with a drawn index in [0, i], and the drawn indices are
  inputs.
- The framework's data collector is replaced by an explicit `history` field on `MarketModel`.
  Each round appends the average price to it.

Two consequences of the code's rules, both proved:

- Buyer budgets can go negative: a trade starts only when `budget > 0`, but the price it
  subtracts can exceed the budget (`ABMImproved.py:80`, `:88`). A buyer with budget 80
  bidding 125 against a seller stepped to 98 clears at 111.5 and ends at -31.5
  (`NegativeBudget`).
- Each agent-variant seller has exactly one unit for the whole run, and sellers step before
  matching. So two sellers priced 90 facing two buyers bidding 100 clear both pairs at 94.1
  in the first round and nothing in the second (`TwoByTwoScenario`). Once every seller is out
  of stock, a round clears nothing and leaves every seller out of stock, so no later round
  clears anything either (`SoldOutRound`).

## Model

| member | source | states |
|---|---|---|
| `AgentMarket.BuyerStep` | ABMImproved.py:19-21 | the new bid is within 5 of wtp; budget and wtp are unchanged |
| `AgentMarket.Buyer.constructor` | ABMImproved.py:12-17 | budget and wtp come from draws in [80, 120]; there is no bid yet |
| `AgentMarket.Buyer.Step` | ABMImproved.py:19-21 | only `lastBid` changes, and it becomes the drawn bid |
| `AgentMarket.SellerStep` | ABMImproved.py:35-41 | sales reset to 0, inventory is unchanged, and a positive price stays positive |
| `AgentMarket.SellerStepLaw` | ABMImproved.py:35-41 | the new price is the old price times 1.02 if sales > 0, else times 0.98; it stays positive and rises iff the seller sold; sales become 0; inventory is unchanged |
| `AgentMarket.Seller.constructor` | ABMImproved.py:28-33 | inventory 1, drawn price, sales 0, no unit sold yet |
| `AgentMarket.Seller.Step` | ABMImproved.py:35-41 | price and sales follow the seller law; the invariant (price > 0, inventory >= 0, inventory + units sold == 1) is kept |
| `AgentMarket.Outcome` | ABMImproved.py:80-91 | a pair clears iff budget > 0, inventory > 0 and bid >= ask; the price lies in [ask, bid] at equal distance from both |
| `AgentMarket.BuyerAfter` | ABMImproved.py:86-88 | a pair's outcome changes only the buyer's budget: no trade leaves the buyer as it was, and a trade at a non-negative price does not raise the budget |
| `AgentMarket.SellerAfter` | ABMImproved.py:86-90 | the price is kept and inventory + sales is conserved; no trade leaves the seller as it was, and a trade takes one unit from inventory |
| `AgentMarket.MeetPair` | ABMImproved.py:79-91 | one pair's meeting keeps both populations' sizes and adds at most one trade |
| `AgentMarket.MatchPairs` | ABMImproved.py:79-91 | matching keeps both populations' sizes, every bid and every wtp |
| `AgentMarket.MatchUntouched` | ABMImproved.py:79-91 | an agent in none of the first k pairs is unchanged |
| `AgentMarket.MatchPairEffect` | ABMImproved.py:79-91 | each pair's outcome is decided on the states at the start of matching, because no agent is in two pairs |
| `AgentMarket.PairOutcomes` | ABMImproved.py:79-91 | there is one outcome per zipped pair |
| `AgentMarket.Cleared` | ABMImproved.py:91 | collecting the clearing prices yields at most one price per outcome |
| `AgentMarket.ClearedSpec` | ABMImproved.py:91-93 | there are at most as many prices as pairs; each price is some pair's clearing price, and every clearing pair's price is in the list; the list is empty iff no pair cleared |
| `AgentMarket.MatchStep` | ABMImproved.py:79-91 | the k-th pair appends its own clearing price, if any, to the trades of the first k - 1 pairs |
| `AgentMarket.MatchTrades` | ABMImproved.py:77-91 | the round's trade list is exactly the clearing prices of the cleared pairs, in pair order |
| `AgentMarket.MatchDepletes` | ABMImproved.py:79-91 | budgets never rise; inventory never rises and stays >= 0; inventory + sales is conserved; each seller gains at most one sale; prices, bids and wtp are untouched |
| `AgentMarket.StepBuyers` | ABMImproved.py:68 | after all buyers step, every buyer has a bid |
| `AgentMarket.StepSellers` | ABMImproved.py:71 | all sellers step; the population size is kept |
| `AgentMarket.RoundMatch` | ABMImproved.py:66-91 | the stepped and matched populations keep their sizes |
| `AgentMarket.Round` | ABMImproved.py:66-94 | a round keeps both populations' sizes |
| `AgentMarket.RoundTrades` | ABMImproved.py:66-94 | at most min(#buyers, #sellers) trades; each is a pair's clearing price, in [ask, bid] and positive; avg_price is their mean (between the smallest and largest trade) if any trade cleared, else unchanged |
| `AgentMarket.RoundTradeOrigins` | ABMImproved.py:77-91 | at most min(#buyers, #sellers) trades, each a pair's clearing price, in [ask, bid] and positive |
| `AgentMarket.PairTradeBounds` | ABMImproved.py:84-87 | a pair that clears does so at a positive price within [ask, bid] |
| `AgentMarket.RoundAverage` | ABMImproved.py:93-94 | avg_price becomes the mean of the trades, between the smallest and largest, if there is one, and is unchanged otherwise |
| `AgentMarket.RoundSellers` | ABMImproved.py:35-41 | over a round, seller prices stay positive and follow price * 1.02 or price * 0.98; inventory stays >= 0; sales equal the units sold this round, at most 1; no budget rises |
| `AgentMarket.RoundPairEffect` | ABMImproved.py:80-91 | a skipped or refused pair leaves both agents unchanged; a trade at p lowers the budget by exactly p, and the seller loses one unit and gains one sale |
| `AgentMarket.RoundUnpaired` | ABMImproved.py:79 | agents beyond the shorter population's length are not changed by matching |
| `AgentMarket.NegativeBudget` | ABMImproved.py:80-88 | a buyer with budget 80 bidding 125 against a seller at 100 (stepped to 98) clears at 111.5 and ends with budget -31.5; avg_price becomes 111.5 |
| `AgentMarket.SoldOutRound` | ABMImproved.py:80-94 | when no seller has inventory, a round records no trade, keeps avg_price, and leaves every seller without inventory |
| `AgentMarket.TwoByTwoScenario` | ABMImproved.py:66-94 | two buyers bidding 100 and two sellers at 90: round 1 clears both at 94.1; round 2 clears nothing, avg stays 94.1, prices rise to 89.964 |
| `AgentMarket.TwoByTwoFirstRound` | ABMImproved.py:66-94 | the scenario's first round: both budgets fall to 5.9, both sellers sell at 88.2, avg_price becomes 94.1 |
| `AgentMarket.TwoByTwoFirstMatch` | ABMImproved.py:79-91 | the first round's matching clears both pairs at 94.1 |
| `AgentMarket.TwoByTwoSecondRound` | ABMImproved.py:66-94 | the scenario's second round: nothing clears, buyers are unchanged, avg_price stays 94.1, prices become 89.964 |
| `AgentMarket.MarketModel.constructor` | ABMImproved.py:48-59 | fresh, distinct agents come from the draws; avg_price is 100; the history is empty |
| `AgentMarket.MarketModel.BuyersBid` | ABMImproved.py:68 | every buyer object steps with its own draw |
| `AgentMarket.MarketModel.SellersAdapt` | ABMImproved.py:71 | every seller object steps |
| `AgentMarket.MarketModel.Meet` | ABMImproved.py:80-91 | one pair meets in place; only these two agents change, as `Outcome` says |
| `AgentMarket.MarketModel.MeetNext` | ABMImproved.py:79-91 | one iteration of the zip loop moves the agents and the trade list from the market after k pairs to the market after k + 1 pairs |
| `AgentMarket.MarketModel.MatchAndTrade` | ABMImproved.py:74-91 | the in-place zip loop leaves the agents as `MatchPairs` says and returns its trade list |
| `AgentMarket.MarketModel.Trade` | ABMImproved.py:66-91 | bidding, adapting and matching in place leave the agents as `RoundMatch` says and return its trade list |
| `AgentMarket.MarketModel.Step` | ABMImproved.py:66-97 | the new agent states and avg_price are those of `Round`; the average price is appended to the history; every seller has sold at most one unit over the run |
| `Stats.Min` | ABMSimple.py:20 | the zip length is the smaller of the two lengths |
| `Stats.SeqMin` | ABMSimple.py:24-26 | specification helper (the source computes no minimum): the smallest element is an element and is at most every element; used to state that the recorded mean lies between the smallest and the largest trade |
| `Stats.SeqMax` | ABMSimple.py:24-26 | specification helper (the source computes no maximum): the largest element is an element and is at least every element; used with `SeqMin` for the same bound |
| `Stats.SumBounds` | ABMSimple.py:25 | if every element lies in [lo, hi], the sum lies in [n*lo, n*hi] |
| `Stats.MeanBounds` | ABMImproved.py:94 | `Mean` (sum divided by count, the model of `np.mean`, which carries no contract of its own): if every element lies in [lo, hi], the mean lies in [lo, hi] |
| `Stats.MeanWithinExtremes` | ABMSimple.py:25 | the mean lies between the smallest and the largest element |
| `ArrayMarket.Swap` | ABMSimple.py:18-19 | one exchange keeps the length and swaps the two positions' values |
| `ArrayMarket.SwapPermutes` | ABMSimple.py:18-19 | one exchange leaves every other position alone and keeps the multiset |
| `ArrayMarket.ShufflePrefix` | ABMSimple.py:18-19 | any prefix of the swap pass keeps the length and the multiset |
| `ArrayMarket.Shuffled` | ABMSimple.py:18-19 | the full shuffle keeps the length and the multiset |
| `ArrayMarket.Exchange` | ABMSimple.py:18-19 | one in-place exchange leaves the array as `Swap` says |
| `ArrayMarket.Shuffle` | ABMSimple.py:18-19 | the in-place swap loop leaves the array as `Shuffled` says, a permutation of the old contents |
| `ArrayMarket.TradesUpTo` | ABMSimple.py:20-23 | among k pairs there are at most k trades |
| `ArrayMarket.Trades` | ABMSimple.py:20-23 | the zip has at most min(#buyers, #sellers) trades |
| `ArrayMarket.TradingPairs` | ABMSimple.py:20-21 | the listed trading positions are among the first k, at most k of them |
| `ArrayMarket.TradingPairsSpec` | ABMSimple.py:20-21 | the listed positions increase and are exactly the pairs with b >= s |
| `ArrayMarket.TradesAtPairs` | ABMSimple.py:20-23 | there is one trade per trading pair, and the t-th trade is the t-th trading pair's (b+s)/2, in [s, b] |
| `ArrayMarket.TradingSetStep` | ABMSimple.py:20-21 | one more pair adds its position to the trading set exactly when it trades |
| `ArrayMarket.TradingCount` | ABMSimple.py:20-21 | the number of listed positions is the number of pairs with b >= s |
| `ArrayMarket.NoTrades` | ABMSimple.py:20-24 | there are no trades iff every pair has b < s |
| `ArrayMarket.TradesWithin` | ABMSimple.py:20-23 | if all values lie in [lo, hi], so do all clearing prices |
| `ArrayMarket.TradesUpToSpec` | ABMSimple.py:20-23 | among k pairs the trades are exactly one per pair with b >= s, in pair order: the t-th trade is the t-th such pair's (b+s)/2, in [s, b]; their number is the number of such pairs; every such pair's midpoint occurs at its position; there are none iff every pair has b < s |
| `ArrayMarket.TradesSpec` | ABMSimple.py:20-23 | the same characterization for the whole zip, over min(#buyers, #sellers) pairs |
| `ArrayMarket.ZipTrades` | ABMSimple.py:16-23 | the zip loop returns exactly `Trades` of the shuffled arrays |
| `ArrayMarket.AdjustedBetween` | ABMSimple.py:28-30 | `SellerAdjusted` (line 28) and `BuyerAdjusted` (line 30), which carry no contract of their own: both updates put the value between its old value and avg_price, and the distance to avg_price shrinks by the factor 0.95 |
| `ArrayMarket.SellersAdjusted` | ABMSimple.py:28 | adjusting all sellers keeps the population size |
| `ArrayMarket.BuyersAdjusted` | ABMSimple.py:30 | adjusting all buyers keeps the population size |
| `ArrayMarket.AdjustedAll` | ABMSimple.py:28-30 | after adjusting a whole population, every value is between its old value and avg_price, 0.95 times as far from it |
| `ArrayMarket.AdjustSellers` | ABMSimple.py:28 | every seller value becomes v + 0.05*(avg - v), in place |
| `ArrayMarket.AdjustBuyers` | ABMSimple.py:30 | every buyer value becomes v - 0.05*(v - avg), in place |
| `ArrayMarket.Fallback` | ABMSimple.py:33 | with a history, the entry is its last element; otherwise it is 100 |
| `ArrayMarket.Step` | ABMSimple.py:15-33 | a step keeps both populations' sizes and appends exactly one history entry, leaving earlier entries alone |
| `ArrayMarket.StepWithTrades` | ABMSimple.py:24-30 | with trades, the entry is their mean, between the smallest and largest trade; every value's distance to it shrinks by 0.95 |
| `ArrayMarket.StepWithoutTrades` | ABMSimple.py:31-33 | without trades, the entry is the previous one (or 100 first); buyers and sellers are only permuted |
| `ArrayMarket.MarketStep` | ABMSimple.py:16-33 | the in-place loop body leaves the arrays and history as `Step` says |
| `ArrayMarket.Run` | ABMSimple.py:15-33 | running keeps both populations' sizes |
| `ArrayMarket.RunHistory` | ABMSimple.py:15-33 | after n steps the history has grown by exactly n, and its old entries are kept |
| `ArrayMarket.ShuffledAllIn` | ABMSimple.py:10-19 | shuffling keeps every value in [80, 120] |
| `ArrayMarket.AdjustedAllIn` | ABMSimple.py:28-30 | adjusting toward an average in [80, 120] keeps every value in [80, 120] |
| `ArrayMarket.TradesMeanIn` | ABMSimple.py:20-25 | the mean clearing price of values in [80, 120] lies in [80, 120] |
| `ArrayMarket.StepInRange` | ABMSimple.py:10-33 | if every value and entry lies in [80, 120], so do the values and entries after a step |
| `ArrayMarket.RunInRange` | ABMSimple.py:10-33 | the [80, 120] range holds for the whole run |
| `ArrayMarket.Simulate` | ABMSimple.py:10-33 | the script on fresh arrays ends as `Run` says, with exactly num_steps history entries, all in [80, 120] |

## Left out

- Plotting and the two `__main__` drivers (`ABMImproved.py:103-117`, `ABMSimple.py:35-42`): they only produce output.
- The framework's agent registration, type-filtered dispatch (`agents.select(...).do(...)`) and `DataCollector`. Explicit buyer and seller sequences and a `history` field replace them.
- `unique_id` labels and the `num_buyers`/`num_sellers` fields: these equal the lengths of the agent sequences, and no rule reads them.
- The constructor defaults `num_buyers=50, num_sellers=50, seed=None` (`ABMImproved.py:48`): the model's constructor takes both counts and all draws explicitly, so there are no defaults and no seed.
- Random number generation and seeding: all draws and shuffles are inputs. Reproducibility for a given seed cannot be stated without the generator.
- IEEE floating-point rounding: arithmetic is over `real`, so float-level equalities are not claimed.
- `np.mean` as a library routine: the mean is defined as sum / count of a non-empty sequence.
- The array variant records the integer `100` on a first step without trades; the model records the real 100.0.
