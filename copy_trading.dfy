/**
 * The copy-trading engine: a manager that follows traders, decides whether an
 * incoming trade signal may be copied, sizes it against the follower's risk
 * budget, derives stop-loss and take-profit prices, hands it to an execution
 * stub and records the open position.
 *
 * The manager's behaviour is given twice: as pure functions over a
 * `ManagerState` value (what the lemmas talk about) and as the class
 * `CopyTradeManager`, whose methods update its fields in place and promise
 * that the new state is the pure function of the old one.
 */
module CopyTrading {
  import opened Ordering

  datatype Side = Long | Short

  /** A trade signal, and the adjusted order built from it. Absent optional fields are `None`. */
  datatype TradePosition = TradePosition(
    id: string,
    trader: string,
    symbol: string,
    side: Side,
    entryPrice: real,
    leverage: real,
    size: real,
    stopLoss: Option<real>,
    takeProfit: Option<real>,
    timestamp: int)

  datatype CopyTradeSettings = CopyTradeSettings(
    maxTradeSize: real,
    riskPercentage: real,
    stopLossPercentage: real,
    takeProfitPercentage: real,
    autoCopy: bool,
    notifications: bool,
    maxOpenTrades: real)

  /** A UI notification: title, description and whether it uses the destructive variant. */
  datatype Toast = Toast(title: string, description: string, destructive: bool)

  const MaxOpenTradesMessage: string := "Maximum number of open trades reached"
  const TradeSizeMessage: string := "Trade size exceeds maximum limit"
  const FailedToCopyMessage: string := "Failed to copy trade"

  function SideName(side: Side): string {
    match side
    case Long => "long"
    case Short => "short"
  }

  function ErrorToast(message: string): Toast {
    Toast("Error", message, true)
  }

  function CopiedToast(trade: TradePosition): Toast {
    Toast("Trade Copied", "Copied " + SideName(trade.side) + " " + trade.symbol + " trade from " + trade.trader, false)
  }

  /** The three private fields of the manager, as one value. */
  datatype ManagerState = ManagerState(
    settings: CopyTradeSettings,
    openPositions: map<string, TradePosition>,
    followedTraders: set<string>)

  function InitialState(settings: CopyTradeSettings): ManagerState {
    ManagerState(settings, map[], {})
  }

  function ReplaceSettings(st: ManagerState, newSettings: CopyTradeSettings): ManagerState {
    st.(settings := newSettings)
  }

  function Follow(st: ManagerState, traderId: string): ManagerState {
    st.(followedTraders := st.followedTraders + {traderId})
  }

  function Unfollow(st: ManagerState, traderId: string): ManagerState {
    st.(followedTraders := st.followedTraders - {traderId})
  }

  predicate IsFollowing(st: ManagerState, traderId: string) {
    traderId in st.followedTraders
  }

  /** Outcome of the eligibility gate: copy, ignore silently, or refuse with an error message. */
  datatype Gate = Allowed | Skipped | Refused(message: string)

  /** The ordered checks: followed, auto-copy on, room for another position, size within the limit. */
  function CheckEligibility(st: ManagerState, trade: TradePosition): (g: Gate)
    ensures g == Allowed <==>
      && trade.trader in st.followedTraders
      && st.settings.autoCopy
      && (|st.openPositions| as real) < st.settings.maxOpenTrades
      && trade.size <= st.settings.maxTradeSize
    ensures g == Skipped <==> trade.trader !in st.followedTraders || !st.settings.autoCopy
    ensures g.Refused? ==> g.message == MaxOpenTradesMessage || g.message == TradeSizeMessage
    ensures g == Refused(MaxOpenTradesMessage) <==>
      && trade.trader in st.followedTraders
      && st.settings.autoCopy
      && (|st.openPositions| as real) >= st.settings.maxOpenTrades
    ensures g == Refused(TradeSizeMessage) <==>
      && trade.trader in st.followedTraders
      && st.settings.autoCopy
      && (|st.openPositions| as real) < st.settings.maxOpenTrades
      && trade.size > st.settings.maxTradeSize
  {
    if trade.trader !in st.followedTraders then Skipped
    else if !st.settings.autoCopy then Skipped
    else if (|st.openPositions| as real) >= st.settings.maxOpenTrades then Refused(MaxOpenTradesMessage)
    else if trade.size > st.settings.maxTradeSize then Refused(TradeSizeMessage)
    else Allowed
  }

  /** The notifications the gate emits. */
  function GateToasts(g: Gate): seq<Toast> {
    if g.Refused? then [ErrorToast(g.message)] else []
  }

  /** The part of the largest allowed trade that the follower is prepared to risk. */
  function RiskAmount(settings: CopyTradeSettings): real {
    settings.maxTradeSize * settings.riskPercentage / 100.0
  }

  function Min(a: real, b: real): (m: real)
    ensures m <= a && m <= b && (m == a || m == b)
  {
    if a <= b then a else b
  }

  /** The copied size never exceeds the requested size nor the risk budget, and is one of the two. */
  function CalculatePositionSize(settings: CopyTradeSettings, trade: TradePosition): (r: real)
    ensures r <= trade.size && r <= RiskAmount(settings)
    ensures r == trade.size || r == RiskAmount(settings)
  {
    Min(trade.size, RiskAmount(settings))
  }

  /** Price at `percentage` percent below (`below`) or above the entry price. */
  function Offset(entryPrice: real, percentage: real, below: bool): real {
    if below then entryPrice * (1.0 - percentage / 100.0)
    else entryPrice * (1.0 + percentage / 100.0)
  }

  /** A stop-loss sits below the entry for a long and above it for a short. */
  function StopLossPrice(side: Side, entryPrice: real, percentage: real): real {
    Offset(entryPrice, percentage, side == Long)
  }

  /** A take-profit sits above the entry for a long and below it for a short. */
  function TakeProfitPrice(side: Side, entryPrice: real, percentage: real): real {
    Offset(entryPrice, percentage, side == Short)
  }

  /**
   * The signal with its size replaced; each protective price is derived from the
   * settings when its percentage is positive and otherwise kept from the signal.
   */
  function AddRiskManagement(settings: CopyTradeSettings, trade: TradePosition, size: real): (r: TradePosition)
    ensures r.id == trade.id && r.trader == trade.trader && r.symbol == trade.symbol
    ensures r.side == trade.side && r.entryPrice == trade.entryPrice
    ensures r.leverage == trade.leverage && r.timestamp == trade.timestamp
    ensures r.size == size
    ensures settings.stopLossPercentage > 0.0 ==>
      r.stopLoss == Some(StopLossPrice(trade.side, trade.entryPrice, settings.stopLossPercentage))
    ensures settings.stopLossPercentage <= 0.0 ==> r.stopLoss == trade.stopLoss
    ensures settings.takeProfitPercentage > 0.0 ==>
      r.takeProfit == Some(TakeProfitPrice(trade.side, trade.entryPrice, settings.takeProfitPercentage))
    ensures settings.takeProfitPercentage <= 0.0 ==> r.takeProfit == trade.takeProfit
  {
    var sized := trade.(size := size);
    var withStop :=
      if settings.stopLossPercentage > 0.0
      then sized.(stopLoss := Some(StopLossPrice(trade.side, trade.entryPrice, settings.stopLossPercentage)))
      else sized;
    if settings.takeProfitPercentage > 0.0
    then withStop.(takeProfit := Some(TakeProfitPrice(trade.side, trade.entryPrice, settings.takeProfitPercentage)))
    else withStop
  }

  /** The order that is sent to execution: sized, then given its protective prices. */
  function AdjustedTrade(settings: CopyTradeSettings, trade: TradePosition): TradePosition {
    AddRiskManagement(settings, trade, CalculatePositionSize(settings, trade))
  }

  /** What one `copyTrade` call leaves behind: the new state, its result and the notifications it emitted. */
  datatype StepResult = StepResult(state: ManagerState, copied: bool, emitted: seq<Toast>)

  /** One `copyTrade` call, given whether the execution call `placed` the order or threw. */
  function CopyTradeStep(st: ManagerState, trade: TradePosition, placed: bool): StepResult {
    var gate := CheckEligibility(st, trade);
    if gate != Allowed then StepResult(st, false, GateToasts(gate))
    else
      var adjusted := AdjustedTrade(st.settings, trade);
      if !placed then StepResult(st, false, [ErrorToast(FailedToCopyMessage)])
      else
        StepResult(
          st.(openPositions := st.openPositions[adjusted.id := adjusted]),
          true,
          if st.settings.notifications then [CopiedToast(adjusted)] else [])
  }

  class CopyTradeManager {
    var settings: CopyTradeSettings
    var openPositions: map<string, TradePosition>
    var followedTraders: set<string>
    /** Every notification the manager has emitted, oldest first. */
    ghost var toasts: seq<Toast>

    ghost function State(): ManagerState
      reads this
    {
      ManagerState(settings, openPositions, followedTraders)
    }

    constructor (settings: CopyTradeSettings)
      ensures State() == InitialState(settings) && toasts == []
    {
      this.settings := settings;
      openPositions := map[];
      followedTraders := {};
      toasts := [];
    }

    method UpdateSettings(newSettings: CopyTradeSettings)
      modifies this`settings
      ensures State() == ReplaceSettings(old(State()), newSettings)
    {
      settings := newSettings;
    }

    method FollowTrader(traderId: string)
      modifies this`followedTraders
      ensures State() == Follow(old(State()), traderId)
    {
      followedTraders := followedTraders + {traderId};
    }

    method UnfollowTrader(traderId: string)
      modifies this`followedTraders
      ensures State() == Unfollow(old(State()), traderId)
    {
      followedTraders := followedTraders - {traderId};
    }

    function IsFollowingTrader(traderId: string): (r: bool)
      reads this
      ensures r == IsFollowing(State(), traderId)
    {
      traderId in followedTraders
    }

    /** The gate as the source runs it: it emits the refusal notification itself. */
    method CanCopyTrade(trade: TradePosition) returns (ok: bool)
      modifies this`toasts
      ensures ok <==> CheckEligibility(State(), trade) == Allowed
      ensures toasts == old(toasts) + GateToasts(CheckEligibility(State(), trade))
    {
      if trade.trader !in followedTraders {
        return false;
      }
      if !settings.autoCopy {
        return false;
      }
      if (|openPositions| as real) >= settings.maxOpenTrades {
        toasts := toasts + [ErrorToast(MaxOpenTradesMessage)];
        return false;
      }
      if trade.size > settings.maxTradeSize {
        toasts := toasts + [ErrorToast(TradeSizeMessage)];
        return false;
      }
      return true;
    }

    /** The execution stub: it may succeed or throw, and nothing here decides which. */
    method PlaceTrade(trade: TradePosition) returns (placed: bool)
    {
      placed := *;
    }

    /**
     * Copies a signal. The new state, the result and the notifications emitted are
     * those of `CopyTradeStep` for one of the two outcomes of the execution call.
     */
    method CopyTrade(trade: TradePosition) returns (copied: bool)
      modifies this
      ensures old(toasts) <= toasts
      ensures var observed := StepResult(State(), copied, toasts[|old(toasts)|..]);
        observed == CopyTradeStep(old(State()), trade, true) ||
        observed == CopyTradeStep(old(State()), trade, false)
    {
      ghost var before := toasts;
      var ok := CanCopyTrade(trade);
      if !ok {
        assert toasts[|before|..] == GateToasts(CheckEligibility(State(), trade));
        return false;
      }
      var adjustedSize := CalculatePositionSize(settings, trade);
      var adjustedTrade := AddRiskManagement(settings, trade, adjustedSize);
      var placed := PlaceTrade(adjustedTrade);
      if !placed {
        toasts := toasts + [ErrorToast(FailedToCopyMessage)];
        assert toasts[|before|..] == [ErrorToast(FailedToCopyMessage)];
        return false;
      }
      openPositions := openPositions[adjustedTrade.id := adjustedTrade];
      if settings.notifications {
        toasts := toasts + [CopiedToast(adjustedTrade)];
        assert toasts[|before|..] == [CopiedToast(adjustedTrade)];
      } else {
        assert toasts[|before|..] == [];
      }
      return true;
    }
  }

  /** The context wrapper: without a manager instance every call reports `false`. */
  method ProviderCopyTrade(manager: CopyTradeManager?, trade: TradePosition) returns (copied: bool)
    modifies manager
    ensures manager == null ==> !copied
    ensures manager != null ==> old(manager.toasts) <= manager.toasts
    ensures manager != null ==>
      var observed := StepResult(manager.State(), copied, manager.toasts[|old(manager.toasts)|..]);
      observed == CopyTradeStep(old(manager.State()), trade, true) ||
      observed == CopyTradeStep(old(manager.State()), trade, false)
  {
    if manager != null {
      copied := manager.CopyTrade(trade);
    } else {
      copied := false;
    }
  }

  /** The context wrapper's membership query: `false` without a manager instance. */
  function ProviderIsFollowingTrader(manager: CopyTradeManager?, traderId: string): (r: bool)
    reads manager
    ensures r <==> manager != null && traderId in manager.followedTraders
  {
    if manager != null then manager.IsFollowingTrader(traderId) else false
  }

  // ---------------------------------------------------------------------------
  // Following

  lemma FollowMakesFollowing(st: ManagerState, x: string, y: string)
    ensures IsFollowing(Follow(st, x), x)
    ensures y != x ==> (IsFollowing(Follow(st, x), y) <==> IsFollowing(st, y))
    ensures Follow(st, x).settings == st.settings && Follow(st, x).openPositions == st.openPositions
  {
  }

  /** Following twice is following once: the followed traders form a set. */
  lemma FollowIdempotent(st: ManagerState, x: string)
    ensures Follow(Follow(st, x), x) == Follow(st, x)
    ensures |Follow(Follow(st, x), x).followedTraders| == |st.followedTraders| + (if x in st.followedTraders then 0 else 1)
  {
    if x in st.followedTraders {
      assert st.followedTraders + {x} == st.followedTraders;
    }
  }

  lemma UnfollowMakesNotFollowing(st: ManagerState, x: string, y: string)
    ensures !IsFollowing(Unfollow(st, x), x)
    ensures y != x ==> (IsFollowing(Unfollow(st, x), y) <==> IsFollowing(st, y))
  {
  }

  lemma UnfollowNonMemberIsNoOp(st: ManagerState, x: string)
    requires !IsFollowing(st, x)
    ensures Unfollow(st, x) == st
  {
  }

  /** Following and unfollowing undo each other. */
  lemma FollowUnfollowInverse(st: ManagerState, x: string)
    ensures !IsFollowing(st, x) ==> Unfollow(Follow(st, x), x) == st
    ensures IsFollowing(st, x) ==> Follow(Unfollow(st, x), x) == st
  {
  }

  // ---------------------------------------------------------------------------
  // Sizing and risk management

  /** A signal requesting size 0, as the trade-signal list sends, is copied with size 0. */
  lemma ZeroRequestedSizeCopiesZero(settings: CopyTradeSettings, trade: TradePosition)
    requires trade.size == 0.0 && RiskAmount(settings) >= 0.0
    ensures AdjustedTrade(settings, trade).size == 0.0
  {
  }

  /** For a positive entry and percentage the stop-loss is on the losing side, and a long stop of at most 100% is not negative. */
  lemma StopLossOnLosingSide(side: Side, entryPrice: real, percentage: real)
    requires entryPrice > 0.0 && 0.0 < percentage
    ensures side == Short ==> StopLossPrice(side, entryPrice, percentage) > entryPrice
    ensures side == Long ==> StopLossPrice(side, entryPrice, percentage) < entryPrice
    ensures side == Long && percentage <= 100.0 ==> StopLossPrice(side, entryPrice, percentage) >= 0.0
  {
  }

  lemma TakeProfitOnWinningSide(side: Side, entryPrice: real, percentage: real)
    requires entryPrice > 0.0 && 0.0 < percentage
    ensures side == Long ==> TakeProfitPrice(side, entryPrice, percentage) > entryPrice
    ensures side == Short ==> TakeProfitPrice(side, entryPrice, percentage) < entryPrice
  {
  }

  /** Long and short prices mirror each other around the entry price. */
  lemma ProtectivePricesMirror(entryPrice: real, percentage: real)
    ensures StopLossPrice(Long, entryPrice, percentage) + StopLossPrice(Short, entryPrice, percentage) == 2.0 * entryPrice
    ensures StopLossPrice(Long, entryPrice, percentage) == TakeProfitPrice(Short, entryPrice, percentage)
    ensures StopLossPrice(Short, entryPrice, percentage) == TakeProfitPrice(Long, entryPrice, percentage)
    ensures StopLossPrice(Short, entryPrice, percentage) - entryPrice == entryPrice * percentage / 100.0
  {
  }

  /** Worked figures: entry 100 with 5% stop and 10% target. */
  lemma ProtectivePriceExamples()
    ensures StopLossPrice(Long, 100.0, 5.0) == 95.0 && StopLossPrice(Short, 100.0, 5.0) == 105.0
    ensures TakeProfitPrice(Long, 100.0, 10.0) == 110.0 && TakeProfitPrice(Short, 100.0, 10.0) == 90.0
  {
  }

  // ---------------------------------------------------------------------------
  // copyTrade

  /** A trader who is not followed is ignored silently, whatever the settings and limits say. */
  lemma NotFollowedIsIgnored(st: ManagerState, trade: TradePosition, placed: bool)
    requires trade.trader !in st.followedTraders
    ensures CopyTradeStep(st, trade, placed) == StepResult(st, false, [])
  {
  }

  /** With auto-copy off nothing is copied and nothing is reported, followed or not. */
  lemma AutoCopyOffIsIgnored(st: ManagerState, trade: TradePosition, placed: bool)
    requires !st.settings.autoCopy
    ensures CopyTradeStep(st, trade, placed) == StepResult(st, false, [])
  {
  }

  /** A full book is refused with one error, even when the size is also over the limit. */
  lemma MaxOpenTradesRefused(st: ManagerState, trade: TradePosition, placed: bool)
    requires trade.trader in st.followedTraders && st.settings.autoCopy
    requires (|st.openPositions| as real) >= st.settings.maxOpenTrades
    ensures CopyTradeStep(st, trade, placed) == StepResult(st, false, [ErrorToast(MaxOpenTradesMessage)])
  {
  }

  lemma TradeSizeRefused(st: ManagerState, trade: TradePosition, placed: bool)
    requires trade.trader in st.followedTraders && st.settings.autoCopy
    requires (|st.openPositions| as real) < st.settings.maxOpenTrades
    requires trade.size > st.settings.maxTradeSize
    ensures CopyTradeStep(st, trade, placed) == StepResult(st, false, [ErrorToast(TradeSizeMessage)])
  {
  }

  /** An eligible signal whose execution throws leaves the positions alone and reports the failure. */
  lemma ExecutionFailureReported(st: ManagerState, trade: TradePosition)
    requires CheckEligibility(st, trade) == Allowed
    ensures CopyTradeStep(st, trade, false) == StepResult(st, false, [ErrorToast(FailedToCopyMessage)])
  {
  }

  /**
   * An eligible signal that executes is stored under its id as the adjusted order;
   * every other position is untouched and the success notice depends on the setting.
   */
  lemma ExecutionSuccessRecorded(st: ManagerState, trade: TradePosition)
    requires CheckEligibility(st, trade) == Allowed
    ensures var r := CopyTradeStep(st, trade, true);
      && r.copied
      && r.state.settings == st.settings && r.state.followedTraders == st.followedTraders
      && r.state.openPositions.Keys == st.openPositions.Keys + {trade.id}
      && r.state.openPositions[trade.id] == AdjustedTrade(st.settings, trade)
      && (forall k :: k in st.openPositions && k != trade.id ==> r.state.openPositions[k] == st.openPositions[k])
      && (st.settings.notifications <==> r.emitted == [CopiedToast(AdjustedTrade(st.settings, trade))])
      && (!st.settings.notifications <==> r.emitted == [])
  {
  }

  /** A call reports success exactly when the gate lets the signal through and execution succeeds. */
  lemma CopiedIffEligibleAndPlaced(st: ManagerState, trade: TradePosition, placed: bool)
    ensures CopyTradeStep(st, trade, placed).copied <==> CheckEligibility(st, trade) == Allowed && placed
    ensures !CopyTradeStep(st, trade, placed).copied ==> CopyTradeStep(st, trade, placed).state == st
    ensures |CopyTradeStep(st, trade, placed).emitted| <= 1
  {
  }

  /** A recorded position never exceeds what the signal asked for nor the risk budget. */
  lemma CopiedPositionWithinBudget(st: ManagerState, trade: TradePosition, placed: bool)
    requires CopyTradeStep(st, trade, placed).copied
    ensures var p := CopyTradeStep(st, trade, placed).state.openPositions[trade.id];
      p.size <= trade.size && p.size <= RiskAmount(st.settings) && p.size <= st.settings.maxTradeSize
  {
  }

  lemma MapUpdateSize<K, V>(m: map<K, V>, k: K, v: V)
    ensures |m[k := v]| <= |m| + 1
  {
    if k in m {
      assert m[k := v].Keys == m.Keys;
    } else {
      assert m[k := v].Keys == m.Keys + {k};
    }
  }

  /** With a whole-number ceiling, copying never takes the book over the ceiling. */
  lemma OpenTradesCeilingPreserved(st: ManagerState, trade: TradePosition, placed: bool, ceiling: nat)
    requires st.settings.maxOpenTrades == ceiling as real
    requires |st.openPositions| <= ceiling
    ensures |CopyTradeStep(st, trade, placed).state.openPositions| <= ceiling
  {
    var adjusted := AdjustedTrade(st.settings, trade);
    MapUpdateSize(st.openPositions, adjusted.id, adjusted);
  }

  /**
   * The worked scenario: 1% of 1000 is 10, so a long request of 5 ETH at 2000 is
   * copied with size 5, a stop at 1900 and a target at 2200, and one notice.
   */
  lemma EndToEndScenario()
    ensures var settings := CopyTradeSettings(1000.0, 1.0, 5.0, 10.0, true, true, 5.0);
      var st := ManagerState(settings, map[], {"t1"});
      var signal := TradePosition("s1", "t1", "ETH/USDT", Long, 2000.0, 1.0, 5.0, None, None, 0);
      var expected := TradePosition("s1", "t1", "ETH/USDT", Long, 2000.0, 1.0, 5.0, Some(1900.0), Some(2200.0), 0);
      CopyTradeStep(st, signal, true) == StepResult(
        st.(openPositions := map["s1" := expected]), true, [CopiedToast(expected)])
  {
  }

  /** A client: follow twice, unfollow twice; what a caller can conclude from the contracts alone. */
  method FollowLifecycle(m: CopyTradeManager, x: string)
    modifies m
    ensures !m.IsFollowingTrader(x)
    ensures m.followedTraders == old(m.followedTraders) - {x}
    ensures m.settings == old(m.settings)
  {
    m.FollowTrader(x);
    m.FollowTrader(x);
    assert m.IsFollowingTrader(x) && m.followedTraders == old(m.followedTraders) + {x};
    m.UnfollowTrader(x);
    m.UnfollowTrader(x);
  }
}
