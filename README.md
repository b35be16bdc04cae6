# Copy trading, bot listing and order book — a Dafny model

This project models the three pieces of real logic in a cryptocurrency trading
dashboard and proves properties of them:

- **Copy trading** (`copy_trading.dfy`, module `CopyTrading`). The
  `CopyTradeManager` holds a settings record, a set of followed trader ids and a
  map of open positions keyed by position id. `copyTrade` runs an ordered
  eligibility gate: the trader must be followed, auto-copy must be on, there must
  be room under `maxOpenTrades`, and the size must be within `maxTradeSize`.
  It then sizes the order as `min(size, maxTradeSize * riskPercentage / 100)`,
  derives the stop-loss and take-profit prices, calls the execution stub and
  records the position. The manager is a `class` whose methods update its fields
  in place. Each method promises that its new state is a pure function of the old
  one, over a `ManagerState` value: `Follow`, `Unfollow`, `ReplaceSettings` and
  `CopyTradeStep`. The lemmas are stated about those functions. Toast
  notifications are a ghost log (`toasts`) on the class. The execution stub
  `PlaceTrade` picks success or failure nondeterministically. `CopyTrade`
  therefore promises that its effect is `CopyTradeStep` for one of the two
  outcomes.
- **Bot marketplace listing** (`bot_grid.dfy`, module `BotGrid`). This is the
  filter chain and `sortBy` switch of the grid's `fetchBots`. The six filters
  (search, category, featured, new releases, status, user bots) are values of the
  `Criterion` datatype. `ApplyFilters` applies the active filters one after
  another, as the source reassigns `filteredBots`. `FetchBots` then sorts a copy
  in place, using an array insertion sort (`SortInPlace`) with the key's
  comparator.
- **Order book** (`order_book.dfy`, module `OrderBook`). `TransformMarketDepth`
  merges asks (tagged sell) and bids (tagged buy) into one list sorted by
  descending price. `CalculatePremium` gives the percentage offset of a price from
  the middle entry of the previous list. `ApplyDepthUpdate` handles a depth
  message. `AddTrade` puts a new trade at the front of the recent-trades list and
  keeps at most 50.
- `ordering.dfy` (module `Ordering`) holds the shared pieces: `Option`, comparators
  as total preorders, `Sorted`, an insertion sort on sequences, and the
  subsequence relation.

Numbers are `real`, except the counts `users` and `reviews` (`nat`) and the
timestamps (`int`); the model has no floating-point rounding.

A stop-loss or take-profit percentage of 0 or below leaves the signal's own
stop-loss or take-profit in place. The code copies the signal with a spread and
overwrites each protective price only when its percentage is positive
(src/lib/copy-trading.ts:128-142).

The source's `type` field is called `side` here, because `type` is a Dafny
keyword. This applies to the `'long' | 'short'` field of a `Trade`
(src/lib/api.ts:29) and the `'buy' | 'sell'` field of an order-flow entry
(src/components/trade/order-book.tsx:40).

## Model

| member | source | states |
|---|---|---|
| `CopyTrading.CheckEligibility` | src/lib/copy-trading.ts:96-120 | a signal is allowed iff the trader is followed, auto-copy is on, the open count is below `maxOpenTrades` and the size is within `maxTradeSize`; it is skipped silently iff not followed or auto-copy is off; it is refused with "Maximum number of open trades reached" iff the trader is followed, auto-copy is on and the book is full; it is refused with "Trade size exceeds maximum limit" iff the trader is followed, auto-copy is on, there is room and the size is over the limit; a refusal carries no other message |
| `CopyTrading.CalculatePositionSize` | src/lib/copy-trading.ts:122-125 | the copied size is at most the requested size and at most `maxTradeSize * riskPercentage / 100`, and equals one of the two |
| `CopyTrading.AddRiskManagement` | src/lib/copy-trading.ts:127-145 | id, trader, symbol, side, entry price, leverage and timestamp are the signal's; size is the given size; stop-loss and take-profit are the side-dependent prices when their percentage is positive and the signal's own values otherwise |
| `CopyTrading.CopyTradeManager.constructor` | src/lib/copy-trading.ts:42-46 | the manager starts with the given settings, no open positions, no followed traders and an empty notification log |
| `CopyTrading.CopyTradeManager.UpdateSettings` | src/lib/copy-trading.ts:48-50 | the settings are replaced whole; positions and followed traders are untouched |
| `CopyTrading.CopyTradeManager.FollowTrader` | src/lib/copy-trading.ts:52-54 | the followed set gains the trader and nothing else changes |
| `CopyTrading.CopyTradeManager.UnfollowTrader` | src/lib/copy-trading.ts:56-58 | the followed set loses the trader and nothing else changes |
| `CopyTrading.CopyTradeManager.IsFollowingTrader` | src/lib/copy-trading.ts:60-62 | true iff the trader is in the followed set |
| `CopyTrading.CopyTradeManager.CanCopyTrade` | src/lib/copy-trading.ts:96-120 | returns true iff the gate allows the signal, and appends exactly the gate's refusal notice (none when allowed or skipped) |
| `CopyTrading.CopyTradeManager.CopyTrade` | src/lib/copy-trading.ts:64-94 | the new state, the result and the notifications appended are those of a `copyTrade` call whose execution either succeeded or threw; the old log is a prefix of the new one |
| `CopyTrading.ProviderCopyTrade` | src/contexts/copy-trading-context.tsx:69-74 | without a manager the call returns false; with one it behaves as the manager's `copyTrade` |
| `CopyTrading.ProviderIsFollowingTrader` | src/contexts/copy-trading-context.tsx:65-67 | true iff a manager exists and follows the trader |
| `CopyTrading.FollowMakesFollowing` | src/lib/copy-trading.ts:52-54 | after following x, x is followed, every other trader's status is unchanged, and settings and positions are untouched |
| `CopyTrading.FollowIdempotent` | src/lib/copy-trading.ts:52-54 | following twice equals following once; the set grows by one only if x was not already followed |
| `CopyTrading.UnfollowMakesNotFollowing` | src/lib/copy-trading.ts:56-58 | after unfollowing x, x is not followed and every other trader's status is unchanged |
| `CopyTrading.UnfollowNonMemberIsNoOp` | src/lib/copy-trading.ts:56-58 | unfollowing a trader who is not followed leaves the state unchanged |
| `CopyTrading.FollowUnfollowInverse` | src/lib/copy-trading.ts:52-58 | unfollow undoes a follow of a non-member, and follow undoes an unfollow of a member |
| `CopyTrading.ZeroRequestedSizeCopiesZero` | src/components/social/trade-signals.tsx:79-89 | a signal sent with size 0, as the signal list does, is copied with size 0 whenever the risk budget is non-negative |
| `CopyTrading.StopLossOnLosingSide` | src/lib/copy-trading.ts:130-135 | for a positive entry and percentage, a long's stop-loss is below the entry (and not negative up to 100%) and a short's is above it |
| `CopyTrading.TakeProfitOnWinningSide` | src/lib/copy-trading.ts:137-142 | for a positive entry and percentage, a long's take-profit is above the entry and a short's is below it |
| `CopyTrading.ProtectivePricesMirror` | src/lib/copy-trading.ts:130-142 | long and short stop-losses are symmetric about the entry price, a long's stop equals a short's target for the same percentage and vice versa, and the distance is `entryPrice * percentage / 100` |
| `CopyTrading.ProtectivePriceExamples` | src/lib/copy-trading.ts:130-142 | entry 100 with 5% gives stops 95 (long) and 105 (short); with 10% gives targets 110 (long) and 90 (short) |
| `CopyTrading.NotFollowedIsIgnored` | src/lib/copy-trading.ts:96-100 | a signal from an unfollowed trader returns false, changes nothing and emits nothing, whatever the settings, limits and execution outcome |
| `CopyTrading.AutoCopyOffIsIgnored` | src/lib/copy-trading.ts:102-105 | with auto-copy off every signal returns false, changes nothing and emits nothing |
| `CopyTrading.MaxOpenTradesRefused` | src/lib/copy-trading.ts:107-111 | a followed signal with auto-copy on and a full book returns false with exactly one "Maximum number of open trades reached" error and no state change, even if its size is also too large |
| `CopyTrading.TradeSizeRefused` | src/lib/copy-trading.ts:113-117 | with room in the book, an oversized signal returns false with exactly one "Trade size exceeds maximum limit" error and no state change |
| `CopyTrading.ExecutionFailureReported` | src/lib/copy-trading.ts:89-93 | an eligible signal whose execution throws returns false, leaves the state unchanged and emits exactly "Failed to copy trade" |
| `CopyTrading.ExecutionSuccessRecorded` | src/lib/copy-trading.ts:77-88 | an eligible signal that executes returns true; the adjusted trade is stored under its id; every other key keeps its value; settings and followed set are unchanged; one "Trade Copied" notice is emitted iff notifications are on |
| `CopyTrading.CopiedIffEligibleAndPlaced` | src/lib/copy-trading.ts:64-94 | a call succeeds iff the gate allows it and execution succeeds; a failed call leaves the state unchanged; at most one notification is emitted per call |
| `CopyTrading.CopiedPositionWithinBudget` | src/lib/copy-trading.ts:71-81 | a recorded position's size is at most the requested size, the risk budget and `maxTradeSize` |
| `CopyTrading.OpenTradesCeilingPreserved` | src/lib/copy-trading.ts:107-111 | when `maxOpenTrades` is a whole number n and at most n positions are open, at most n are open after the call |
| `CopyTrading.EndToEndScenario` | src/lib/copy-trading.ts:64-94 | with limit 1000, risk 1%, stop 5%, target 10%, auto-copy and notifications on, a followed long of size 5 at 2000 is stored with size 5, stop 1900 and target 2200, and one notice names it |
| `CopyTrading.FollowLifecycle` | src/lib/copy-trading.ts:52-62 | a caller that follows x twice and unfollows it twice ends with x not followed, the rest of the set as before, and the settings untouched |
| `BotGrid.ToLower` | src/components/bots/bot-grid.tsx:217-219 | lower-casing keeps the length and maps each character to its lower-case form (ASCII letters) |
| `BotGrid.IncludesAt` | src/components/bots/bot-grid.tsx:217-219 | the substring test holds iff the query occurs at some index of the text |
| `BotGrid.Select` | src/components/bots/bot-grid.tsx:216-241 | a filter never grows the list; every survivor was in the list and passes all given filters; every occurrence of a passing bot is kept and every failing one dropped |
| `BotGrid.SelectIsSubsequence` | src/components/bots/bot-grid.tsx:213-241 | a filtered list is a subsequence of its source: no reordering, no duplication |
| `BotGrid.SelectExtend` | src/components/bots/bot-grid.tsx:213-241 | filtering a filtered list by one more condition equals filtering the source once by all the conditions |
| `BotGrid.ActiveCriteriaMeaning` | src/components/bots/bot-grid.tsx:215-241 | passing every active filter is exactly the conjunction, for each option that is set, of that option's condition |
| `BotGrid.SurvivorIff` | src/components/bots/bot-grid.tsx:215-241 | a bot is in the filtered list iff it is in the source and satisfies each active condition: search match, category equal unless "all", featured, new, status equal, user bot |
| `BotGrid.FilteredIsSubsequence` | src/components/bots/bot-grid.tsx:213-241 | the filtered list is a subsequence of the source list |
| `BotGrid.NoFilterKeepsAll` | src/components/bots/bot-grid.tsx:215-241 | with an empty query, category "all" and every flag off, the filtered list is the source list |
| `BotGrid.SortOrderIsTotalPreorder` | src/components/bots/bot-grid.tsx:244-265 | every recognised key's comparator is total and transitive, given that the name comparison is |
| `BotGrid.SortInPlace` | src/components/bots/bot-grid.tsx:245-262 | the array is afterwards sorted by the comparator and a permutation of its old contents |
| `BotGrid.ApplyFilters` | src/components/bots/bot-grid.tsx:212-241 | the step-by-step filter chain yields the list of source bots that pass every active filter |
| `BotGrid.SortedByKey` | src/components/bots/bot-grid.tsx:245-261 | being sorted under a key's comparator means non-increasing users, rating or performance; newest-first or oldest-first dates; or ascending names |
| `BotGrid.SortByKey` | src/components/bots/bot-grid.tsx:243-265 | the result is a permutation of the input, ordered by the key, and equal to the input for an unrecognised key |
| `BotGrid.FetchBots` | src/components/bots/bot-grid.tsx:212-265 | the listing is a permutation of the filtered bots, ordered by the chosen key, and the filtered list in its original order for an unrecognised key |
| `Ordering.InsertionSort` | src/components/trade/order-book.tsx:75 | the result is sorted by the comparator and a permutation of the input |
| `OrderBook.Tag` | src/components/trade/order-book.tsx:61-74 | each price level becomes, at the same index, an entry with its price and size, the side's tag, premium 0 and the clock reading |
| `OrderBook.PriceDescendingIsTotalPreorder` | src/components/trade/order-book.tsx:75 | the `b.price - a.price` comparator is total and transitive |
| `OrderBook.TransformMarketDepth` | src/components/trade/order-book.tsx:59-76 | the merged list has `asks + bids` entries, is ordered by non-increasing price, and holds exactly the tagged asks and bids |
| `OrderBook.TransformSameEntries` | src/components/trade/order-book.tsx:75 | an entry is in the sorted list iff it is in the unsorted concatenation |
| `OrderBook.AsksTaggedSell` | src/components/trade/order-book.tsx:61-67 | every ask appears with its own price and size, tagged sell, with premium 0 |
| `OrderBook.BidsTaggedBuy` | src/components/trade/order-book.tsx:68-74 | every bid appears with its own price and size, tagged buy, with premium 0 |
| `OrderBook.EntriesComeFromTheirSide` | src/components/trade/order-book.tsx:60-75 | every entry carries premium 0 and the clock reading, and a sell entry's pair is an ask and a buy entry's pair is a bid |
| `OrderBook.CalculatePremium` | src/components/trade/order-book.tsx:152-156 | the premium is 0 for an empty list; it is non-finite iff the middle price is 0; otherwise adding that percentage of the middle price to it gives back the price |
| `OrderBook.PremiumSign` | src/components/trade/order-book.tsx:154-155 | against a positive middle price the premium is zero, positive or negative exactly when the price is equal, above or below it |
| `OrderBook.PremiumAtMarketIsZero` | src/components/trade/order-book.tsx:154-155 | the middle price itself has premium 0 |
| `OrderBook.ApplyDepthUpdate` | src/components/trade/order-book.tsx:123-130 | a depth message gives the transformed depth in the same price order, each entry with its premium against the previous list and otherwise unchanged |
| `OrderBook.AddTrade` | src/components/trade/order-book.tsx:131-133 | the new trade is at index 0, the previous trades follow in order, and the length is `min(previous + 1, 50)` |
| `OrderBook.AddTradesKeepsNewest` | src/components/trade/order-book.tsx:131-133 | after a non-empty run of trade messages the list is the newest trades first, then the earlier list, cut to 50 |

Functions without a contract of their own are specifications that the lemmas
above talk about: `ReplaceSettings`, `Follow`, `Unfollow`, `IsFollowing`,
`RiskAmount`, `StopLossPrice`, `TakeProfitPrice`, `AdjustedTrade`,
`CopyTradeStep`, `ErrorToast` and `CopiedToast` in `CopyTrading`; `Includes`,
`MatchesSearch`, `Holds`, `ActiveCriteria`, `Matches`, `FilteredBots` and
`SortOrder` in `BotGrid`; `Unsorted`, `MarketPrice`, `Window` and `AddTrades` in
`OrderBook`. `CopyTradeManager.PlaceTrade` is the execution stub. It has no
contract: its outcome is deliberately left open.

## Left out

- Rendering: React state hooks, JSX, animations and the visible toasts. The toasts
  are kept only as a ghost log.
- Transport: WebSocket setup, subscription messages, reconnects and error
  handlers. Only what the message handlers compute is modelled.
- Real order execution inside `placeTrade`. As written it only logs and never
  throws, yet `copyTrade` handles a throw. The model therefore leaves the outcome
  open, success or throw, and keeps that failure branch reachable.
- Concurrency between overlapping `copyTrade` calls. Calls are modelled as atomic
  and sequential, so the check-then-act race around the execution call is not
  represented.
- `OpenTradesCeilingPreserved` assumes the ceiling is unchanged during the call.
  `updateSettings` can lower `maxOpenTrades` below the number already open, and
  nothing in the source closes positions.
- Floating point. Prices, sizes and percentages are exact reals, so rounding,
  NaN from non-numeric input and infinities are not modelled. The one exception
  is the premium's division by a zero middle price, which is `NonFinite`.
- `TransformMarketDepth`: `Date.now()` is read once per entry in the source. The
  model takes one clock reading `now` for the whole transform.
- `BotGrid.ToLower`: lower-cases ASCII letters only. `toLowerCase` follows
  Unicode case mapping, which the model does not include.
- `BotGrid.SortOrder`: `localeCompare` is abstracted as an arbitrary total
  preorder `nameLe` on names, and `new Date(...).getTime()` as an arbitrary
  function `dateOf` from the date text to a number. Unparseable dates (NaN) are
  not represented.
- `BotGrid.FetchBots` and `OrderBook.TransformMarketDepth` do not state that the
  sort is stable. `Array.prototype.sort` is stable, but the contracts only promise
  order and permutation, so the order of ties is unconstrained.
- The mock bot list, loading and error flags of the grid, and the fetch of recent
  trades over the network.
- `Trade` records keep only id, symbol, side, size, price and timestamp. The
  recent-trades update never inspects a trade, so the other optional fields of the
  API type are not needed.
