/** The H1 backtest of the supply/demand strategy (backtest.py): a bar-by-bar state
    machine over balance, equity, drawdown and one simulated position. The helpers the
    loop calls on the price history (ATR, swings, accumulation, pivot candle,
    confirmations, reversal) are not part of this model: their results for each bar
    are inputs, collected in `BarInput`. */
module Backtest {
  import opened Common
  import opened Config

  /** Trading session: bars whose UTC hour lies outside 6..17 are skipped. */
  const SESSION_START: int := 6
  const SESSION_END: int := 17
  /** Fewer H4 bars than this give a neutral bias. */
  const H4_MIN_BARS: nat := 50
  /** XAUUSD: one lot is worth 10 USD per pip. */
  const PIP_VALUE: real := 10.0
  /** Fraction of the ATR added around the pivot candle, and again beyond the zone for the stop. */
  const ZONE_PAD: real := 0.1
  /** The first bar index the loop visits: ATR_PERIOD + 50. */
  const FIRST_BAR: nat := ATR_PERIOD + 50

  // ================================================================ trend bias

  datatype Bias = Bullish | Bearish | Neutral

  /** get_trend_bias on resampled H4 data: its bar count, last close and EMA50. */
  function GetTrendBias(h4Count: nat, close: real, ema50: real): (b: Bias)
    ensures h4Count < H4_MIN_BARS ==> b == Neutral
    ensures h4Count >= H4_MIN_BARS ==> (b == Bullish <==> close > ema50) && (b == Bearish <==> close < ema50)
    ensures b == Neutral <==> h4Count < H4_MIN_BARS || close == ema50
  {
    if h4Count < H4_MIN_BARS then Neutral
    else if close > ema50 then Bullish
    else if close < ema50 then Bearish
    else Neutral
  }

  // ================================================================ inputs and state

  /** The candle find_pivot_candle returns. */
  datatype Pivot = Pivot(low: real, high: real)

  /** Everything the loop body reads at one bar: the hour, the close, the last ATR
      (`None` for NaN) and the mean of the ATR series, the H4 bias inputs, and the
      results of the strategy helpers for the side the bias selects. */
  datatype BarInput = BarInput(
    hour: int,
    close: real,
    atr: Option<real>,
    meanAtr: real,
    reversal: bool,
    h4Count: nat,
    h4Close: real,
    h4Ema50: real,
    accumulation: bool,
    pivot: Option<Pivot>,
    confirmations: nat,
    lastSwingHigh: Option<real>,
    lastSwingLow: Option<real>)

  datatype ExitKind = ByReversal | ByStopLoss | ByTakeProfit
  datatype Outcome = Win | Loss

  /** An entry of the `trades` list: an opening, or a closing with its rounded profit. */
  datatype TradeEvent =
    | Opened(side: Side, entry: real, sl: real, tp: real, volume: real)
    | Closed(side: Side, how: ExitKind, profit: real, outcome: Outcome)

  /** The simulation variables of backtest_xaufxbot. */
  datatype SimState = SimState(
    balance: real,
    equity: real,
    maxEquity: real,
    maxDrawdown: real,
    position: Option<Side>,
    entry: real,
    sl: real,
    tp: real,
    volume: real,
    trades: seq<TradeEvent>,
    wins: nat,
    losses: nat)

  /** The variables before the first bar. */
  function Initial(initialBalance: real): (s: SimState)
    ensures s.position.None? && s.trades == [] && s.wins == 0 && s.losses == 0
    ensures s.balance == s.equity == s.maxEquity == initialBalance && s.maxDrawdown == 0.0
  {
    SimState(initialBalance, initialBalance, initialBalance, 0.0, None, 0.0, 0.0, 0.0, 0.0, [], 0, 0)
  }

  /** Number of closings in a trade list. */
  function CountClosed(trades: seq<TradeEvent>): nat
  {
    if |trades| == 0 then 0
    else CountClosed(trades[..|trades| - 1]) + (if trades[|trades| - 1].Closed? then 1 else 0)
  }

  lemma CountClosedAppend(trades: seq<TradeEvent>, e: TradeEvent)
    ensures CountClosed(trades + [e]) == CountClosed(trades) + (if e.Closed? then 1 else 0)
  {
    assert (trades + [e])[..|trades|] == trades;
  }

  /** What the loop keeps true: the peak equity bounds the equity, the drawdown is
      never negative, every closing counted exactly one win or loss, and the volume
      is not negative. */
  ghost predicate Inv(s: SimState)
  {
    && s.maxEquity >= s.equity
    && s.maxDrawdown >= 0.0
    && s.wins + s.losses == CountClosed(s.trades)
    && s.volume >= 0.0
  }

  lemma InitialInv(initialBalance: real)
    ensures Inv(Initial(initialBalance))
  {
  }

  // ================================================================ managing a position

  /** Profit in price units of `side` opened at `entry`, valued at `price`. */
  function ProfitPips(side: Side, entry: real, price: real): real
  {
    if side == Buy then price - entry else entry - price
  }

  /** The loop body as written, or with its two corrections: break-even armed only
      while the stop has not yet reached the entry (as written: while it differs from
      the entry), and an entry refused when its target is not on the profit side. */
  datatype Version = AsWritten | Corrected

  predicate BreakEvenArmed(g: Version, side: Side, entry: real, sl: real)
  {
    match g
    case AsWritten => sl != entry
    case Corrected => if side == Buy then sl < entry else sl > entry
  }

  /** Break-even with partial close: once the profit reaches the initial risk, half of
      the floating profit is banked, half the volume is closed and the stop moves to
      the entry. */
  function BreakEven(s: SimState, pips: real, usd: real, g: Version): (r: SimState)
    requires s.position.Some?
    ensures var fires := pips >= Abs(s.entry - s.sl) * BREAKEVEN_MULTIPLIER && BreakEvenArmed(g, s.position.value, s.entry, s.sl);
            && (fires ==> r == s.(balance := s.balance + usd * PARTIAL_CLOSE_PERCENT,
                                  volume := s.volume * (1.0 - PARTIAL_CLOSE_PERCENT), sl := s.entry))
            && (!fires ==> r == s)
    ensures s.volume >= 0.0 ==> 0.0 <= r.volume <= s.volume
  {
    if pips >= Abs(s.entry - s.sl) * BREAKEVEN_MULTIPLIER && BreakEvenArmed(g, s.position.value, s.entry, s.sl) then
      s.(balance := s.balance + usd * PARTIAL_CLOSE_PERCENT,
         volume := s.volume * (1.0 - PARTIAL_CLOSE_PERCENT),
         sl := s.entry)
    else s
  }

  /** Trailing: once the profit exceeds one ATR, the candidate stop is the entry moved
      1.2 ATR into profit; it replaces the stop only when strictly better. */
  function Trail(s: SimState, pips: real, atr: real): (r: SimState)
    requires s.position.Some?
    ensures r == s.(sl := r.sl)
    ensures r.sl != s.sl ==> pips > atr
    ensures s.position.value == Buy ==> r.sl >= s.sl
    ensures s.position.value == Sell ==> r.sl <= s.sl
    ensures var candidate := if s.position.value == Buy then s.entry + atr * TRAILING_MULTIPLIER
                             else s.entry - atr * TRAILING_MULTIPLIER;
            var better := if s.position.value == Buy then candidate > s.sl else candidate < s.sl;
            && (pips > atr && better ==> r.sl == candidate)
            && (!(pips > atr && better) ==> r == s)
  {
    if pips > atr then
      var side := s.position.value;
      var candidate := if side == Buy then s.entry + atr * TRAILING_MULTIPLIER else s.entry - atr * TRAILING_MULTIPLIER;
      if (side == Buy && candidate > s.sl) || (side == Sell && candidate < s.sl) then s.(sl := candidate) else s
    else s
  }

  /** The USD profit of the remaining volume of an open position at `price`. */
  function OpenProfit(s: SimState, price: real): real
    requires s.position.Some?
  {
    ProfitPips(s.position.value, s.entry, price) * s.volume * PIP_VALUE
  }

  /** Closing the position at `exitPrice`: the profit of the remaining volume is
      booked and the closing recorded, its profit rounded to cents, with its outcome. */
  function CloseAt(s: SimState, how: ExitKind, exitPrice: real, outcome: Outcome): (r: SimState)
    requires s.position.Some?
    ensures r.position.None?
    ensures r == s.(balance := r.balance, position := None, trades := r.trades, wins := r.wins, losses := r.losses)
    ensures r.trades == s.trades + [Closed(s.position.value, how, Round2(OpenProfit(s, exitPrice)), outcome)]
    ensures r.wins + r.losses == s.wins + s.losses + 1
    ensures outcome == Win ==> r.wins == s.wins + 1
    ensures outcome == Loss ==> r.losses == s.losses + 1
    ensures r.balance == s.balance + OpenProfit(s, exitPrice)
  {
    var usd := OpenProfit(s, exitPrice);
    s.(balance := s.balance + usd,
       position := None,
       trades := s.trades + [Closed(s.position.value, how, Round2(usd), outcome)],
       wins := if outcome.Win? then s.wins + 1 else s.wins,
       losses := if outcome.Loss? then s.losses + 1 else s.losses)
  }

  predicate StopHit(side: Side, price: real, sl: real)
  {
    (side == Buy && price <= sl) || (side == Sell && price >= sl)
  }

  predicate TargetHit(side: Side, price: real, tp: real)
  {
    (side == Buy && price >= tp) || (side == Sell && price <= tp)
  }

  /** The exits, in order: reversal at the close (a win iff its profit is positive),
      stop at `sl` (always a loss), target at `tp` (always a win). */
  function Exit(s: SimState, price: real, reversal: bool): (r: SimState)
    requires s.position.Some?
    ensures var side := s.position.value;
            r.position.None? <==> reversal || StopHit(side, price, s.sl) || TargetHit(side, price, s.tp)
    ensures r.position.Some? ==> r == s
    ensures r.position.None? ==> r.wins + r.losses == s.wins + s.losses + 1 && |r.trades| == |s.trades| + 1
    ensures !reversal && StopHit(s.position.value, price, s.sl) ==> r == CloseAt(s, ByStopLoss, s.sl, Loss)
    ensures !reversal && !StopHit(s.position.value, price, s.sl) && TargetHit(s.position.value, price, s.tp) ==>
              r == CloseAt(s, ByTakeProfit, s.tp, Win)
    ensures reversal ==> r == CloseAt(s, ByReversal, price, if OpenProfit(s, price) > 0.0 then Win else Loss)
  {
    var side := s.position.value;
    if reversal then CloseAt(s, ByReversal, price, if OpenProfit(s, price) > 0.0 then Win else Loss)
    else if StopHit(side, price, s.sl) then CloseAt(s, ByStopLoss, s.sl, Loss)
    else if TargetHit(side, price, s.tp) then CloseAt(s, ByTakeProfit, s.tp, Win)
    else s
  }

  /** Mark to market at `price`: the equity, its peak and the drawdown from the peak. */
  function MarkToMarket(s: SimState, price: real): (r: SimState)
    requires s.position.Some?
    ensures r == s.(equity := r.equity, maxEquity := r.maxEquity, maxDrawdown := r.maxDrawdown)
    ensures r.equity == s.balance + OpenProfit(s, price)
    ensures r.maxEquity >= r.equity && r.maxEquity >= s.maxEquity
    ensures r.maxEquity == r.equity || r.maxEquity == s.maxEquity
    ensures r.maxDrawdown >= s.maxDrawdown && r.maxDrawdown >= r.maxEquity - r.equity
    ensures r.maxDrawdown == s.maxDrawdown || r.maxDrawdown == r.maxEquity - r.equity
  {
    var equity := s.balance + OpenProfit(s, price);
    var maxEquity := MaxReal(s.maxEquity, equity);
    s.(equity := equity, maxEquity := maxEquity, maxDrawdown := MaxReal(s.maxDrawdown, maxEquity - equity))
  }

  /** One bar with a position open: mark to market, then break-even, trailing and
      the exits. */
  function Manage(s: SimState, bar: BarInput, atr: real, g: Version): (r: SimState)
    requires s.position.Some?
    ensures r.maxEquity >= r.equity
    ensures r.maxDrawdown >= s.maxDrawdown
    ensures r.position.Some? ==> r.position == s.position && r.entry == s.entry && r.tp == s.tp
  {
    var side := s.position.value;
    var pips := ProfitPips(side, s.entry, bar.close);
    Exit(Trail(BreakEven(MarkToMarket(s, bar.close), pips, OpenProfit(s, bar.close), g), pips, atr),
         bar.close, bar.reversal)
  }

  // ================================================================ entering a position

  /** The stop beyond the zone and the target: the last swing on the far side, or
      RR_RATIO ATRs away when there is none. */
  function EntryStop(side: Side, zoneLow: real, zoneHigh: real, atr: real): real
  {
    if side == Buy then zoneLow - atr * ZONE_PAD else zoneHigh + atr * ZONE_PAD
  }

  function EntryTarget(side: Side, bar: BarInput, atr: real): real
  {
    if side == Buy then (if bar.lastSwingHigh.Some? then bar.lastSwingHigh.value else bar.close + atr * RR_RATIO)
    else (if bar.lastSwingLow.Some? then bar.lastSwingLow.value else bar.close - atr * RR_RATIO)
  }

  /** Reward over risk, 0 when the risk is 0. */
  function RewardRisk(price: real, sl: real, tp: real): (rr: real)
    ensures Abs(price - sl) == 0.0 ==> rr == 0.0
    ensures Abs(price - sl) > 0.0 ==> rr * Abs(price - sl) == Abs(tp - price)
  {
    var risk := Abs(price - sl);
    if risk > 0.0 then Abs(tp - price) / risk else 0.0
  }

  /** Entry volume: 1% of the balance at risk over the stop distance, rounded to
      2 decimals, at least 0.01 lot. */
  function EntryVolume(balance: real, risk: real): (v: real)
    requires risk > 0.0
    ensures v >= MIN_LOT
    ensures v == MIN_LOT || v == Round2(balance * RISK_PERCENT / (risk * PIP_VALUE))
    ensures Round2(balance * RISK_PERCENT / (risk * PIP_VALUE)) >= MIN_LOT ==> v == Round2(balance * RISK_PERCENT / (risk * PIP_VALUE))
  {
    MaxReal(Round2(balance * RISK_PERCENT / (risk * PIP_VALUE)), MIN_LOT)
  }

  /** The side the H4 bias selects (BUY unless it is bearish). */
  function EntrySide(bar: BarInput): Side
  {
    if GetTrendBias(bar.h4Count, bar.h4Close, bar.h4Ema50) == Bullish then Buy else Sell
  }

  /** The pivot candle's range widened by ZONE_PAD ATRs on each side. */
  function ZoneLow(bar: BarInput, atr: real): real
    requires bar.pivot.Some?
  {
    bar.pivot.value.low - atr * ZONE_PAD
  }

  function ZoneHigh(bar: BarInput, atr: real): real
    requires bar.pivot.Some?
  {
    bar.pivot.value.high + atr * ZONE_PAD
  }

  /** Corrected, the target must lie on the profit side of the entry; as written any
      target is accepted. */
  predicate TargetAccepted(v: Version, side: Side, price: real, tp: real)
  {
    v == AsWritten || (if side == Buy then tp > price else tp < price)
  }

  /** Every entry gate of the loop passes: a bias, accumulation, a pivot candle, the
      close inside the widened zone, enough confirmations, enough reward for the risk
      and, corrected, a target on the profit side. */
  predicate EntryGatesPass(bar: BarInput, atr: real, v: Version)
  {
    && GetTrendBias(bar.h4Count, bar.h4Close, bar.h4Ema50) != Neutral
    && bar.accumulation && bar.pivot.Some?
    && ZoneLow(bar, atr) <= bar.close <= ZoneHigh(bar, atr)
    && bar.confirmations >= MIN_CONFIRMATIONS
    && var side := EntrySide(bar);
       && TargetAccepted(v, side, bar.close, EntryTarget(side, bar, atr))
       && RewardRisk(bar.close, EntryStop(side, ZoneLow(bar, atr), ZoneHigh(bar, atr), atr), EntryTarget(side, bar, atr)) >= MIN_RR
  }

  /** One bar without a position: bias, accumulation, pivot zone, confirmations and
      reward/risk must all agree before a position is opened. A reward/risk refusal
      still leaves the computed stop and target in `sl` and `tp`. */
  function TryEnter(s: SimState, bar: BarInput, atr: real, v: Version): (r: SimState)
    requires s.position.None?
    ensures r.position.Some? ==> GetTrendBias(bar.h4Count, bar.h4Close, bar.h4Ema50) != Neutral
    ensures r.position.None? ==> r == s.(sl := r.sl, tp := r.tp)
    ensures r.position.Some? ==>
              && r == s.(position := r.position, entry := bar.close, sl := r.sl, tp := r.tp, volume := r.volume,
                         trades := s.trades + [Opened(r.position.value, bar.close, r.sl, r.tp, r.volume)])
              && r.volume >= MIN_LOT
    ensures EntryGatesPass(bar, atr, v) ==>
              var side := EntrySide(bar);
              var sl := EntryStop(side, ZoneLow(bar, atr), ZoneHigh(bar, atr), atr);
              && Abs(bar.close - sl) > 0.0
              && r.position == Some(side) && r.entry == bar.close && r.sl == sl
              && r.tp == EntryTarget(side, bar, atr) && r.volume == EntryVolume(s.balance, Abs(bar.close - sl))
    ensures r.position.Some? ==> EntryGatesPass(bar, atr, v)
    ensures v == Corrected && r.position == Some(Buy) ==> r.tp > r.entry
    ensures v == Corrected && r.position == Some(Sell) ==> r.tp < r.entry
  {
    var bias := GetTrendBias(bar.h4Count, bar.h4Close, bar.h4Ema50);
    if bias == Neutral || !bar.accumulation || bar.pivot.None? then s
    else
      var zoneLow := bar.pivot.value.low - atr * ZONE_PAD;
      var zoneHigh := bar.pivot.value.high + atr * ZONE_PAD;
      var price := bar.close;
      if !(zoneLow <= price <= zoneHigh) || bar.confirmations < MIN_CONFIRMATIONS then s
      else
        var side := if bias == Bullish then Buy else Sell;
        var sl := EntryStop(side, zoneLow, zoneHigh, atr);
        var tp := EntryTarget(side, bar, atr);
        if !TargetAccepted(v, side, price, tp) || RewardRisk(price, sl, tp) < MIN_RR then s.(sl := sl, tp := tp)
        else
          var volume := EntryVolume(s.balance, Abs(price - sl));
          s.(position := Some(side), entry := price, sl := sl, tp := tp, volume := volume,
             trades := s.trades + [Opened(side, price, sl, tp, volume)])
  }

  // ================================================================ one bar

  /** The bar filters: outside the session, no usable ATR, or an ATR below
      VOLATILITY_MIN times its mean. */
  predicate Skipped(bar: BarInput)
  {
    || !(SESSION_START <= bar.hour <= SESSION_END)
    || bar.atr.None? || bar.atr.value <= 0.0
    || bar.atr.value < bar.meanAtr * VOLATILITY_MIN
  }

  function StepWith(s: SimState, bar: BarInput, g: Version): (r: SimState)
    ensures Skipped(bar) ==> r == s
  {
    if Skipped(bar) then s
    else if s.position.Some? then Manage(s, bar, bar.atr.value, g)
    else TryEnter(s, bar, bar.atr.value, g)
  }

  /** The loop body of backtest_xaufxbot with the corrected break-even guard. */
  function StepSpec(s: SimState, bar: BarInput): SimState
  {
    StepWith(s, bar, Corrected)
  }

  /** The loop body exactly as written (break-even guarded by `sl != entry_price`). */
  function StepAsWritten(s: SimState, bar: BarInput): SimState
  {
    StepWith(s, bar, AsWritten)
  }

  /** The bars the loop visits: from FIRST_BAR to the end. */
  function Visited(bars: seq<BarInput>): (v: seq<BarInput>)
    ensures |bars| <= FIRST_BAR ==> v == []
    ensures |bars| > FIRST_BAR ==> |v| == |bars| - FIRST_BAR && forall i :: 0 <= i < |v| ==> v[i] == bars[FIRST_BAR + i]
  {
    if |bars| <= FIRST_BAR then [] else bars[FIRST_BAR..]
  }

  /** The state after stepping through `bars` in order. */
  function Simulate(s: SimState, bars: seq<BarInput>): SimState
  {
    if |bars| == 0 then s else StepSpec(Simulate(s, bars[..|bars| - 1]), bars[|bars| - 1])
  }

  // ================================================================ properties of one bar

  /** A filtered bar changes nothing, with or without a position. */
  lemma SkippedBarChangesNothing(s: SimState, bar: BarInput)
    requires !(SESSION_START <= bar.hour <= SESSION_END) || bar.atr.None? || bar.atr.value <= 0.0
             || bar.atr.value < bar.meanAtr * VOLATILITY_MIN
    ensures StepSpec(s, bar) == s && StepAsWritten(s, bar) == s
  {
  }

  /** Without a position, a neutral H4 bias opens nothing and changes nothing. */
  lemma NeutralBiasOpensNothing(s: SimState, bar: BarInput)
    requires s.position.None?
    requires GetTrendBias(bar.h4Count, bar.h4Close, bar.h4Ema50) == Neutral
    ensures StepSpec(s, bar) == s
  {
  }

  /** A price outside the widened pivot zone, or too few confirmations, refuses the
      entry with no change; a reward/risk below MIN_RR refuses it too, touching only
      `sl` and `tp`. */
  lemma EntryRefusals(s: SimState, bar: BarInput)
    requires s.position.None? && !Skipped(bar)
    requires GetTrendBias(bar.h4Count, bar.h4Close, bar.h4Ema50) != Neutral && bar.accumulation && bar.pivot.Some?
    ensures var atr := bar.atr.value;
            var zoneLow := bar.pivot.value.low - atr * ZONE_PAD;
            var zoneHigh := bar.pivot.value.high + atr * ZONE_PAD;
            && (!(zoneLow <= bar.close <= zoneHigh) || bar.confirmations < MIN_CONFIRMATIONS ==> StepSpec(s, bar) == s)
            && (var side := if GetTrendBias(bar.h4Count, bar.h4Close, bar.h4Ema50) == Bullish then Buy else Sell;
                var sl := EntryStop(side, zoneLow, zoneHigh, atr);
                RewardRisk(bar.close, sl, EntryTarget(side, bar, atr)) < MIN_RR ==> StepSpec(s, bar).position.None?)
  {
  }

  /** An opened position follows the bias, starts at the close with at least MIN_LOT,
      its stop lies beyond the zone (so its risk is positive), its target on the other
      side of the entry, and it is recorded once. */
  lemma EntryOpensWithBias(s: SimState, bar: BarInput)
    requires s.position.None? && StepSpec(s, bar).position.Some?
    ensures var r := StepSpec(s, bar);
            var bias := GetTrendBias(bar.h4Count, bar.h4Close, bar.h4Ema50);
            && (r.position == Some(Buy) <==> bias == Bullish)
            && (r.position == Some(Sell) <==> bias == Bearish)
            && r.entry == bar.close && r.volume >= MIN_LOT
            && (r.position == Some(Buy) ==> r.sl < r.entry < r.tp) && (r.position == Some(Sell) ==> r.tp < r.entry < r.sl)
            && r.trades == s.trades + [Opened(r.position.value, r.entry, r.sl, r.tp, r.volume)]
            && r.wins == s.wins && r.losses == s.losses
  {
    var atr := bar.atr.value;
    assert atr > 0.0;
  }

  /** While a position stays open, the volume never grows. */
  lemma VolumeNeverIncreases(s: SimState, bar: BarInput)
    requires s.position.Some? && s.volume >= 0.0
    ensures StepSpec(s, bar).volume <= s.volume && StepAsWritten(s, bar).volume <= s.volume
  {
  }

  /** Every bar keeps the loop invariant: peak equity, drawdown, the win/loss tally
      and the volume. */
  lemma StepKeepsInv(s: SimState, bar: BarInput, g: Version)
    requires Inv(s)
    ensures Inv(StepWith(s, bar, g))
  {
    if !Skipped(bar) {
      if s.position.Some? {
        ManageKeepsInv(s, bar, bar.atr.value, g);
      } else {
        TryEnterKeepsInv(s, bar, bar.atr.value, g);
      }
    }
  }

  /** An exit keeps the tally: a closing appends one Closed event and one win or loss. */
  lemma ExitKeepsTally(t: SimState, price: real, reversal: bool)
    requires t.position.Some? && t.wins + t.losses == CountClosed(t.trades)
    ensures var r := Exit(t, price, reversal);
            r.wins + r.losses == CountClosed(r.trades) && r.volume == t.volume
  {
    var r := Exit(t, price, reversal);
    if r.position.None? {
      var e := r.trades[|t.trades|];
      assert r.trades == t.trades + [e];
      assert e.Closed?;
      CountClosedAppend(t.trades, e);
    }
  }

  lemma ManageKeepsInv(s: SimState, bar: BarInput, atr: real, g: Version)
    requires Inv(s) && s.position.Some?
    ensures Inv(Manage(s, bar, atr, g))
  {
    var pips := ProfitPips(s.position.value, s.entry, bar.close);
    var be := BreakEven(MarkToMarket(s, bar.close), pips, OpenProfit(s, bar.close), g);
    var t := Trail(be, pips, atr);
    assert t.trades == s.trades && t.wins == s.wins && t.losses == s.losses && t.volume >= 0.0;
    ExitKeepsTally(t, bar.close, bar.reversal);
  }

  lemma TryEnterKeepsInv(s: SimState, bar: BarInput, atr: real, v: Version)
    requires Inv(s) && s.position.None?
    ensures Inv(TryEnter(s, bar, atr, v))
  {
    var r := TryEnter(s, bar, atr, v);
    if r.position.Some? {
      CountClosedAppend(s.trades, r.trades[|s.trades|]);
    }
  }

  /** The maximum drawdown never decreases from one bar to the next. */
  lemma DrawdownNeverDecreases(s: SimState, bar: BarInput, g: Version)
    ensures StepWith(s, bar, g).maxDrawdown >= s.maxDrawdown
  {
  }

  /** Each exit closes the position and counts exactly one win or one loss; a stop
      exit is a loss and a target exit a win. */
  lemma ExitCountsOnce(s: SimState, bar: BarInput)
    requires s.position.Some? && StepSpec(s, bar).position.None?
    ensures var r := StepSpec(s, bar);
            && r.wins + r.losses == s.wins + s.losses + 1
            && |r.trades| == |s.trades| + 1 && r.trades[|s.trades|].Closed?
            && (r.trades[|s.trades|].how == ByStopLoss ==> r.losses == s.losses + 1 && r.wins == s.wins)
            && (r.trades[|s.trades|].how == ByTakeProfit ==> r.wins == s.wins + 1 && r.losses == s.losses)
  {
  }

  // ================================================================ the corrected break-even

  /** With the corrected guard the stop never loosens while the position stays open:
      break-even only moves a stop that is short of the entry up to it, and trailing
      only moves it further into profit. */
  lemma StopNeverLoosens(s: SimState, bar: BarInput)
    requires s.position.Some? && StepSpec(s, bar).position.Some?
    ensures s.position == Some(Buy) ==> StepSpec(s, bar).sl >= s.sl
    ensures s.position == Some(Sell) ==> StepSpec(s, bar).sl <= s.sl
  {
  }

  /** With the corrected guard break-even fires at most once per position: once the
      stop has reached the entry it stays disarmed. */
  lemma BreakEvenFiresOnce(s: SimState, bar: BarInput)
    requires s.position.Some? && !BreakEvenArmed(Corrected, s.position.value, s.entry, s.sl)
    requires StepSpec(s, bar).position.Some?
    ensures var r := StepSpec(s, bar);
            !BreakEvenArmed(Corrected, r.position.value, r.entry, r.sl) && r.volume == s.volume
  {
  }

  /** A BUY opened at 100 with its stop at 90, volume 1 and target 200. */
  function ReentryStart(): SimState
  {
    SimState(1000.0, 1000.0, 1000.0, 0.0, Some(Buy), 100.0, 90.0, 200.0, 1.0, [], 0, 0)
  }

  /** An in-session bar closing at 112 with the given ATR and no reversal. */
  function QuietBar(atr: real): BarInput
  {
    BarInput(10, 112.0, Some(atr), atr, false, 0, 0.0, 0.0, false, None, 0, None, None)
  }

  /** As written, break-even fires again after trailing has moved the stop past the
      entry: two bars at 112 halve the volume twice and pull the stop back from 106
      to 104.8. The corrected step keeps volume 0.5 and the stop at 106. */
  lemma BreakEvenRefiresAsWritten()
    ensures var once := StepAsWritten(ReentryStart(), QuietBar(5.0));
            var twice := StepAsWritten(once, QuietBar(4.0));
            && once.position == Some(Buy) && once.sl == 106.0 && once.volume == 0.5
            && twice.position == Some(Buy) && twice.sl == 104.8 && twice.volume == 0.25
    ensures var once := StepSpec(ReentryStart(), QuietBar(5.0));
            var twice := StepSpec(once, QuietBar(4.0));
            && once.sl == 106.0 && once.volume == 0.5
            && twice.position == Some(Buy) && twice.sl == 106.0 && twice.volume == 0.5
  {
  }

  // ================================================================ the corrected target

  /** With its target on the profit side, a take-profit exit books a gain. */
  lemma TargetExitGains(s: SimState, price: real)
    requires s.position.Some? && s.volume > 0.0
    requires s.position == Some(Buy) ==> s.tp > s.entry
    requires s.position == Some(Sell) ==> s.tp < s.entry
    requires !StopHit(s.position.value, price, s.sl) && TargetHit(s.position.value, price, s.tp)
    ensures Exit(s, price, false).balance > s.balance
    ensures Exit(s, price, false).trades[|s.trades|].outcome == Win
  {
    var pips := ProfitPips(s.position.value, s.entry, s.tp);
    assert pips > 0.0;
    assert pips * s.volume > 0.0;
    assert OpenProfit(s, s.tp) == pips * s.volume * PIP_VALUE;
  }

  /** Corrected, a bar that keeps the position open keeps its target on the profit
      side, so every take-profit exit of a run gains. */
  lemma TargetSideKept(s: SimState, bar: BarInput)
    requires s.position.Some? && StepSpec(s, bar).position.Some?
    requires s.position == Some(Buy) ==> s.tp > s.entry
    requires s.position == Some(Sell) ==> s.tp < s.entry
    ensures var r := StepSpec(s, bar);
            (r.position == Some(Buy) ==> r.tp > r.entry) && (r.position == Some(Sell) ==> r.tp < r.entry)
  {
  }

  /** An in-session bar closing at 100 with a bullish H4 bias, a pivot candle 99-101,
      ATR 10 and the last swing high at 90, below the close. */
  function WrongSideBar(): BarInput
  {
    BarInput(10, 100.0, Some(10.0), 10.0, false, 50, 2.0, 1.0, true, Some(Pivot(99.0, 101.0)), 2, Some(90.0), None)
  }

  /** The next bar, closing at 98. */
  function DipBar(): BarInput
  {
    BarInput(11, 98.0, Some(10.0), 10.0, false, 50, 2.0, 1.0, false, None, 0, None, None)
  }

  /** A third of a lot rounds to 0.33. */
  lemma Round2Third()
    ensures Round2(1000.0 * RISK_PERCENT / (3.0 * PIP_VALUE)) == 0.33
  {
    assert 1000.0 * RISK_PERCENT / (3.0 * PIP_VALUE) * 100.0 == 100.0 / 3.0;
    assert Round(100.0 / 3.0) == 33;
  }

  /** As written, a BUY opens at 100 with its stop at 97 and its target at 90, below the
      entry: the reward/risk uses absolute distances and passes. The next bar at 98
      "takes profit" at 90, counts a win and leaves the balance below its start.
      Corrected, the entry is refused. */
  lemma WrongSideTargetAsWritten()
    ensures var once := StepAsWritten(Initial(1000.0), WrongSideBar());
            && once.position == Some(Buy) && once.entry == 100.0 && once.sl == 97.0 && once.tp == 90.0
    ensures var twice := StepAsWritten(StepAsWritten(Initial(1000.0), WrongSideBar()), DipBar());
            && twice.position.None? && twice.wins == 1 && twice.losses == 0 && twice.balance == 967.0
    ensures StepSpec(Initial(1000.0), WrongSideBar()).position.None?
  {
    var bar := WrongSideBar();
    assert ZoneLow(bar, 10.0) == 98.0 && ZoneHigh(bar, 10.0) == 102.0;
    assert EntryStop(Buy, 98.0, 102.0, 10.0) == 97.0;
    assert RewardRisk(100.0, 97.0, 90.0) * 3.0 == 10.0;
    var once := StepAsWritten(Initial(1000.0), bar);
    assert once.volume == 0.33 by { Round2Third(); }
    assert OpenProfit(once, 90.0) == -33.0;
  }

  // ================================================================ whole runs

  /** The invariant holds after any number of bars. */
  lemma {:induction false} SimulateKeepsInv(s: SimState, bars: seq<BarInput>)
    requires Inv(s)
    ensures Inv(Simulate(s, bars))
    decreases |bars|
  {
    if |bars| > 0 {
      SimulateKeepsInv(s, bars[..|bars| - 1]);
      StepKeepsInv(Simulate(s, bars[..|bars| - 1]), bars[|bars| - 1], Corrected);
    }
  }

  /** Over a whole run the maximum drawdown only grows. */
  lemma {:induction false} SimulateDrawdownMonotone(s: SimState, bars: seq<BarInput>)
    ensures Simulate(s, bars).maxDrawdown >= s.maxDrawdown
    decreases |bars|
  {
    if |bars| > 0 {
      SimulateDrawdownMonotone(s, bars[..|bars| - 1]);
      DrawdownNeverDecreases(Simulate(s, bars[..|bars| - 1]), bars[|bars| - 1], Corrected);
    }
  }

  /** Extending a run by one bar is one more step. */
  lemma SimulateSnoc(s: SimState, bars: seq<BarInput>, bar: BarInput)
    ensures Simulate(s, bars + [bar]) == StepSpec(Simulate(s, bars), bar)
  {
    assert (bars + [bar])[..|bars|] == bars;
  }

  // ================================================================ statistics

  /** The final statistics: closed trades, win rate in percent, net profit and its
      percentage of the initial balance, and the maximum drawdown. */
  datatype Report = Report(actualTrades: nat, winRate: real, profitTotal: real, profitPercent: real,
                           maxDrawdown: real)

  /** The win rate is 100% exactly when no trade was lost. */
  predicate WinRateTouches(wins: nat, losses: nat)
    requires wins + losses > 0
  {
    wins as real / (wins + losses) as real * 100.0 == 100.0 <==> losses == 0
  }

  lemma WinRateFull(wins: nat, losses: nat)
    requires wins + losses > 0
    ensures WinRateTouches(wins, losses)
  {
    var a := (wins + losses) as real;
    var f := wins as real / a;
    assert f * a == wins as real;
    if f * 100.0 == 100.0 {
      assert f == 1.0;
    }
  }

  function Summary(s: SimState, initialBalance: real): (rep: Report)
    ensures rep.actualTrades == s.wins + s.losses
    ensures rep.actualTrades > 0 ==> rep.winRate * rep.actualTrades as real == s.wins as real * 100.0
    ensures 0.0 <= rep.winRate <= 100.0
    ensures rep.actualTrades == 0 ==> rep.winRate == 0.0
    ensures rep.winRate == 100.0 <==> rep.actualTrades > 0 && s.losses == 0
    ensures rep.profitTotal == s.balance - initialBalance
    ensures initialBalance > 0.0 ==> (rep.profitPercent > 0.0 <==> s.balance > initialBalance)
    ensures initialBalance <= 0.0 ==> rep.profitPercent == 0.0
    ensures initialBalance > 0.0 ==> rep.profitPercent * initialBalance == rep.profitTotal * 100.0
    ensures rep.maxDrawdown == s.maxDrawdown
  {
    var actual := s.wins + s.losses;
    var winRate := if actual > 0 then (WinRateFull(s.wins, s.losses); s.wins as real / actual as real * 100.0) else 0.0;
    var profit := s.balance - initialBalance;
    Report(actual, winRate, profit,
           if initialBalance > 0.0 then profit / initialBalance * 100.0 else 0.0,
           s.maxDrawdown)
  }

  // ================================================================ the simulator

  /** backtest_xaufxbot's simulation variables, updated in place bar by bar. */
  class Backtester {
    var balance: real
    var equity: real
    var maxEquity: real
    var maxDrawdown: real
    var position: Option<Side>
    var entry: real
    var sl: real
    var tp: real
    var volume: real
    var trades: seq<TradeEvent>
    var wins: nat
    var losses: nat

    function State(): SimState
      reads this
    {
      SimState(balance, equity, maxEquity, maxDrawdown, position, entry, sl, tp, volume, trades, wins, losses)
    }

    ghost predicate Valid()
      reads this
    {
      Inv(State())
    }

    constructor (initialBalance: real)
      ensures Valid() && State() == Initial(initialBalance)
    {
      balance, equity, maxEquity, maxDrawdown := initialBalance, initialBalance, initialBalance, 0.0;
      position, entry, sl, tp, volume := None, 0.0, 0.0, 0.0, 0.0;
      trades, wins, losses := [], 0, 0;
    }

    /** Book the profit of the remaining volume at `exitPrice` and close. */
    method Close(side: Side, how: ExitKind, exitPrice: real, outcome: Outcome)
      requires position == Some(side)
      modifies this
      ensures State() == CloseAt(old(State()), how, exitPrice, outcome)
    {
      var usd := OpenProfit(State(), exitPrice);
      if outcome.Win? {
        wins := wins + 1;
      } else {
        losses := losses + 1;
      }
      balance := balance + usd;
      trades := trades + [Closed(side, how, Round2(usd), outcome)];
      position := None;
    }

    /** One iteration of the loop over bars. */
    method Step(bar: BarInput)
      requires Valid()
      modifies this
      ensures Valid()
      ensures State() == StepSpec(old(State()), bar)
    {
      StepKeepsInv(State(), bar, Corrected);
      if !(SESSION_START <= bar.hour <= SESSION_END) {
        return;
      }
      if bar.atr.None? || bar.atr.value <= 0.0 {
        return;
      }
      var atr := bar.atr.value;
      if atr < bar.meanAtr * VOLATILITY_MIN {
        return;
      }
      if position.Some? {
        ManageOpen(bar, atr);
      } else {
        TryOpen(bar, atr);
      }
    }

    /** The loop body with a position open: mark to market, break-even with partial
        close, trailing, then the exits. */
    method ManageOpen(bar: BarInput, atr: real)
      requires position.Some?
      modifies this
      ensures State() == Manage(old(State()), bar, atr, Corrected)
    {
      var side := position.value;
      var price := bar.close;
      var pips := ProfitPips(side, entry, price);
      var usd := OpenProfit(State(), price);
      equity := balance + usd;
      maxEquity := MaxReal(maxEquity, equity);
      maxDrawdown := MaxReal(maxDrawdown, maxEquity - equity);
      ghost var marked := State();
      assert marked == MarkToMarket(old(State()), price);
      if pips >= Abs(entry - sl) * BREAKEVEN_MULTIPLIER && BreakEvenArmed(Corrected, side, entry, sl) {
        balance := balance + usd * PARTIAL_CLOSE_PERCENT;
        volume := volume * (1.0 - PARTIAL_CLOSE_PERCENT);
        sl := entry;
      }
      assert State() == BreakEven(marked, pips, usd, Corrected);
      ghost var evened := State();
      if pips > atr {
        var candidate := if side == Buy then entry + atr * TRAILING_MULTIPLIER else entry - atr * TRAILING_MULTIPLIER;
        if (side == Buy && candidate > sl) || (side == Sell && candidate < sl) {
          sl := candidate;
        }
      }
      assert State() == Trail(evened, pips, atr);
      if bar.reversal {
        var profit := OpenProfit(State(), price);
        Close(side, ByReversal, price, if profit > 0.0 then Win else Loss);
      } else if StopHit(side, price, sl) {
        Close(side, ByStopLoss, sl, Loss);
      } else if TargetHit(side, price, tp) {
        Close(side, ByTakeProfit, tp, Win);
      }
    }

    /** The loop body without a position: the entry filters, then the opening. */
    method TryOpen(bar: BarInput, atr: real)
      requires position.None?
      modifies this
      ensures State() == TryEnter(old(State()), bar, atr, Corrected)
    {
      var bias := GetTrendBias(bar.h4Count, bar.h4Close, bar.h4Ema50);
      if bias == Neutral || !bar.accumulation || bar.pivot.None? {
        return;
      }
      var zoneLow := bar.pivot.value.low - atr * ZONE_PAD;
      var zoneHigh := bar.pivot.value.high + atr * ZONE_PAD;
      var price := bar.close;
      if !(zoneLow <= price <= zoneHigh) || bar.confirmations < MIN_CONFIRMATIONS {
        return;
      }
      var side := if bias == Bullish then Buy else Sell;
      sl := EntryStop(side, zoneLow, zoneHigh, atr);
      tp := EntryTarget(side, bar, atr);
      if !TargetAccepted(Corrected, side, price, tp) || RewardRisk(price, sl, tp) < MIN_RR {
        return;
      }
      volume := EntryVolume(balance, Abs(price - sl));
      position := Some(side);
      entry := price;
      trades := trades + [Opened(side, price, sl, tp, volume)];
    }

    /** The loop of backtest_xaufxbot: every bar from FIRST_BAR on, in order. */
    method Run(bars: seq<BarInput>)
      requires Valid()
      modifies this
      ensures Valid()
      ensures State() == Simulate(old(State()), Visited(bars))
    {
      if |bars| <= FIRST_BAR {
        return;
      }
      ghost var start := State();
      ghost var done: seq<BarInput> := [];
      var i := FIRST_BAR;
      while i < |bars|
        invariant FIRST_BAR <= i <= |bars|
        invariant done == bars[FIRST_BAR..i]
        invariant Valid()
        invariant State() == Simulate(start, done)
      {
        SimulateSnoc(start, done, bars[i]);
        Step(bars[i]);
        assert bars[FIRST_BAR..i + 1] == done + [bars[i]];
        done := done + [bars[i]];
        i := i + 1;
      }
      assert done == Visited(bars);
    }
  }
}
