/** The signal pipeline of the structure-confirmation strategy (strategy.py):
    M5 trend context, M1 EMA-cross plus Donchian-breakout trigger, M1 filters,
    squeeze sizing, lot sizing, the chandelier trailing stop and the trade monitor.
    Indicator values (EMA, ATR, ADX, RSI, Bollinger bandwidth) are inputs: `None`
    stands for an indicator the library could not compute. */
module Strategy {
  import opened Common
  import Config
  import Database

  const EMA_M5_PERIOD: nat := 50
  const EMA_M1_KING: nat := 200
  const EMA_M1_SLOW: nat := 21
  const DONCHIAN_PERIOD: nat := 20
  const ADX_THRESHOLD: real := 20.0
  const RSI_BUY_THRESHOLD: real := 55.0
  const RSI_SELL_THRESHOLD: real := 45.0
  const ATR_MULTIPLIER: real := 3.0
  const RISK_PER_TRADE: real := 0.01
  const SQUEEZE_SIZE_MULTIPLIER: real := 1.5
  const EXPANSION_SIZE_MULTIPLIER: real := 0.5
  const SQUEEZE_THRESHOLD: real := 0.85
  const EXPANSION_THRESHOLD: real := 1.15
  const QUIET_ATR_RATIO: real := 0.7
  /** The lot returned when sizing cannot be computed. */
  const FALLBACK_LOT: real := 0.1

  /** Bars needed before the M5 context, the M1 filters and the trigger look at the data. */
  const M5_MIN_BARS: nat := EMA_M5_PERIOD + 5
  const M1_FILTER_MIN_BARS: nat := EMA_M1_KING + 5
  const TRIGGER_MIN_BARS: nat := EMA_M1_SLOW + 5

  // ================================================================ broker data

  datatype Bar = Bar(high: real, low: real, close: real)

  /** A bar as the broker delivers it: the close lies within the bar's range. */
  predicate WellFormedBar(b: Bar)
  {
    b.low <= b.close <= b.high
  }

  datatype Tick = Tick(bid: real, ask: real)

  datatype AccountInfo = AccountInfo(balance: real)

  /** The broker's description of a symbol: value of one price unit per lot and the
      volume constraints. */
  datatype SymbolInfo = SymbolInfo(tickValue: real, volumeMin: real, volumeMax: real, volumeStep: real)

  /** The sizing divides by the tick value and by the volume step. */
  predicate WellFormedSymbol(si: SymbolInfo)
  {
    si.tickValue != 0.0 && si.volumeStep > 0.0
  }

  /** An open position as `positions_get` reports it (`sl == 0` means no stop). */
  datatype Position = Position(ticket: int, side: Side, volume: real, priceOpen: real,
                               priceCurrent: real, sl: real, tp: real, profit: real, magic: int)

  // ================================================================ lot sizing

  /** Risk amount divided by the money lost per lot at the stop. */
  function RiskLot(balance: real, riskPercent: real, distance: real, tickValue: real): real
    requires distance * tickValue != 0.0
  {
    balance * riskPercent / (distance * tickValue)
  }

  /** `r` is what `max(volume_min, min(volume_max, x))` gives: `x` itself when it is
      within the volume bounds, otherwise the bound it passed, and the minimum whenever
      the minimum exceeds the maximum. */
  predicate ClampedTo(r: real, x: real, si: SymbolInfo)
  {
    && r >= si.volumeMin
    && (si.volumeMin <= x <= si.volumeMax ==> r == x)
    && (x < si.volumeMin || si.volumeMax < si.volumeMin ==> r == si.volumeMin)
    && (si.volumeMin <= si.volumeMax < x ==> r == si.volumeMax)
  }

  /** `max(volume_min, min(volume_max, lot))`. */
  function ClampLot(lot: real, si: SymbolInfo): (r: real)
    ensures ClampedTo(r, lot, si)
    ensures si.volumeMin <= si.volumeMax ==> si.volumeMin <= r <= si.volumeMax
  {
    MaxReal(si.volumeMin, MinReal(si.volumeMax, lot))
  }

  /** get_dynamic_lot: risk-based lot, rounded to the volume step and clamped; 0.1 when
      the account or the symbol is unknown or the stop distance is zero. */
  function GetDynamicLot(account: Option<AccountInfo>, symbol: Option<SymbolInfo>,
                         entry: real, sl: real, riskPercent: real): (lot: real)
    requires symbol.Some? ==> WellFormedSymbol(symbol.value)
    ensures account.None? || entry == sl || symbol.None? ==> lot == FALLBACK_LOT
    ensures account.Some? && entry != sl && symbol.Some? ==>
              var raw := RiskLot(account.value.balance, riskPercent, Abs(entry - sl), symbol.value.tickValue);
              var rounded := RoundToStep(raw, symbol.value.volumeStep);
              && ClampedTo(lot, rounded, symbol.value)
              && (symbol.value.volumeMin <= rounded <= symbol.value.volumeMax ==>
                    raw - symbol.value.volumeStep / 2.0 <= lot <= raw + symbol.value.volumeStep / 2.0)
  {
    if account.None? then FALLBACK_LOT
    else
      var distance := Abs(entry - sl);
      if distance == 0.0 then FALLBACK_LOT
      else if symbol.None? then FALLBACK_LOT
      else
        var si := symbol.value;
        var raw := RiskLot(account.value.balance, riskPercent, distance, si.tickValue);
        ClampLot(RoundToStep(raw, si.volumeStep), si)
  }

  // ================================================================ Donchian channel

  function Highs(bars: seq<Bar>): (h: seq<real>)
    ensures |h| == |bars| && forall i :: 0 <= i < |bars| ==> h[i] == bars[i].high
  {
    seq(|bars|, i requires 0 <= i < |bars| => bars[i].high)
  }

  function Lows(bars: seq<Bar>): (l: seq<real>)
    ensures |l| == |bars| && forall i :: 0 <= i < |bars| ==> l[i] == bars[i].low
  {
    seq(|bars|, i requires 0 <= i < |bars| => bars[i].low)
  }

  datatype Channel = Channel(upper: real, lower: real)

  /** calculate_donchian read at the last bar, AS WRITTEN: `rolling(window=period)` over
      highs and lows, a window that ends with the current bar. Undefined (NaN) with
      fewer than `period` bars. */
  function DonchianAsWritten(bars: seq<Bar>, period: nat): (ch: Option<Channel>)
    requires period > 0
    ensures ch.Some? <==> |bars| >= period
    ensures ch.Some? ==> forall i :: |bars| - period <= i < |bars| ==>
              ch.value.lower <= bars[i].low && bars[i].high <= ch.value.upper
  {
    if |bars| < period then None
    else
      var w := bars[|bars| - period..];
      var up, lo := MaxOf(Highs(w)), MinOf(Lows(w));
      assert forall i :: |bars| - period <= i < |bars| ==> bars[i] == w[i - (|bars| - period)];
      Some(Channel(up, lo))
  }

  /** The Donchian channel of the `period` bars BEFORE the current one: the band a
      breakout is measured against. Undefined with fewer than `period + 1` bars. */
  function DonchianPrior(bars: seq<Bar>, period: nat): (ch: Option<Channel>)
    requires period > 0
    ensures ch.Some? <==> |bars| > period
    ensures ch.Some? ==>
              && (forall i :: |bars| - 1 - period <= i < |bars| - 1 ==>
                    ch.value.lower <= bars[i].low && bars[i].high <= ch.value.upper)
              && (exists i :: |bars| - 1 - period <= i < |bars| - 1 && bars[i].high == ch.value.upper)
              && (exists i :: |bars| - 1 - period <= i < |bars| - 1 && bars[i].low == ch.value.lower)
  {
    if |bars| <= period then None
    else
      var w := bars[|bars| - 1 - period..|bars| - 1];
      var up, lo := MaxOf(Highs(w)), MinOf(Lows(w));
      assert forall i :: |bars| - 1 - period <= i < |bars| - 1 ==> bars[i] == w[i - (|bars| - 1 - period)];
      var ju :| 0 <= ju < |w| && Highs(w)[ju] == up;
      var jl :| 0 <= jl < |w| && Lows(w)[jl] == lo;
      assert bars[ju + |bars| - 1 - period].high == up;
      assert bars[jl + |bars| - 1 - period].low == lo;
      Some(Channel(up, lo))
  }

  // ================================================================ trigger

  /** EMA 9 and EMA 21 at the previous and the current M1 bar. */
  datatype EmaPair = EmaPair(prevFast: real, prevSlow: real, fast: real, slow: real)

  /** What detect_ema_cross_and_donchian_break reads: the last M1 bars, the EMAs and ATR. */
  datatype M1Data = M1Data(bars: seq<Bar>, emas: Option<EmaPair>, atr: Option<real>)

  datatype Reason = EmaCrossUpDonchianBreak | EmaCrossDownDonchianBreak

  /** The trigger's signal: direction, entry at the close, ATR stop and 1:3 target. */
  datatype Trigger = Trigger(side: Side, entry: real, sl: real, tp: real, reason: Reason,
                             band: real, atr: real)

  predicate BullishCross(e: EmaPair)
  {
    e.prevFast <= e.prevSlow && e.fast > e.slow
  }

  predicate BearishCross(e: EmaPair)
  {
    e.prevFast >= e.prevSlow && e.fast < e.slow
  }

  /** The decision of detect_ema_cross_and_donchian_break once the data is there:
      BUY first, then SELL. */
  function TriggerDecision(close: real, e: EmaPair, ch: Channel, atr: real): (t: Option<Trigger>)
    ensures t.Some? && t.value.side == Buy <==> BullishCross(e) && close > ch.upper
    ensures t.Some? && t.value.side == Sell <==> !(BullishCross(e) && close > ch.upper) && BearishCross(e) && close < ch.lower
    ensures t.Some? ==> t.value.entry == close
    ensures t.Some? && t.value.side == Buy ==>
              t.value.sl == close - ATR_MULTIPLIER * atr && t.value.tp == close + ATR_MULTIPLIER * atr * 3.0
    ensures t.Some? && t.value.side == Sell ==>
              t.value.sl == close + ATR_MULTIPLIER * atr && t.value.tp == close - ATR_MULTIPLIER * atr * 3.0
    ensures t.Some? ==> Abs(t.value.tp - t.value.entry) == 3.0 * Abs(t.value.entry - t.value.sl)
  {
    if BullishCross(e) && close > ch.upper then
      Some(Trigger(Buy, close, close - ATR_MULTIPLIER * atr, close + ATR_MULTIPLIER * atr * 3.0,
                   EmaCrossUpDonchianBreak, ch.upper, atr))
    else if BearishCross(e) && close < ch.lower then
      Some(Trigger(Sell, close, close + ATR_MULTIPLIER * atr, close - ATR_MULTIPLIER * atr * 3.0,
                   EmaCrossDownDonchianBreak, ch.lower, atr))
    else None
  }

  /** detect_ema_cross_and_donchian_break AS WRITTEN: the band includes the current bar. */
  function DetectEmaCrossAndDonchianBreakAsWritten(m1: M1Data): (t: Option<Trigger>)
    ensures |m1.bars| < TRIGGER_MIN_BARS || m1.emas.None? || m1.atr.None? ==> t.None?
  {
    if |m1.bars| < TRIGGER_MIN_BARS || m1.emas.None? || m1.atr.None? then None
    else
      var ch := DonchianAsWritten(m1.bars, DONCHIAN_PERIOD).value;
      TriggerDecision(m1.bars[|m1.bars| - 1].close, m1.emas.value, ch, m1.atr.value)
  }

  /** As written, the breakout can never fire: the current close lies inside a band
      that contains the current bar. */
  lemma BreakoutUnreachableAsWritten(m1: M1Data)
    requires |m1.bars| > 0 && WellFormedBar(m1.bars[|m1.bars| - 1])
    ensures DetectEmaCrossAndDonchianBreakAsWritten(m1) == None
  {
    if |m1.bars| >= TRIGGER_MIN_BARS && m1.emas.Some? && m1.atr.Some? {
      var ch := DonchianAsWritten(m1.bars, DONCHIAN_PERIOD).value;
      var last := m1.bars[|m1.bars| - 1];
      assert ch.lower <= last.low && last.high <= ch.upper;
    }
  }

  /** detect_ema_cross_and_donchian_break with the breakout measured against the
      previous 20 bars (the corrected band, used by the rest of the model). */
  function DetectEmaCrossAndDonchianBreak(m1: M1Data): (t: Option<Trigger>)
    ensures |m1.bars| < TRIGGER_MIN_BARS || m1.emas.None? || m1.atr.None? ==> t.None?
    ensures t.Some? ==>
              && |m1.bars| >= TRIGGER_MIN_BARS && m1.emas.Some? && m1.atr.Some?
              && var close := m1.bars[|m1.bars| - 1].close;
                 && t.value.entry == close
                 && (t.value.side == Buy ==>
                       BullishCross(m1.emas.value)
                       && (forall i :: |m1.bars| - 1 - DONCHIAN_PERIOD <= i < |m1.bars| - 1 ==> m1.bars[i].high < close)
                       && t.value.sl == close - ATR_MULTIPLIER * m1.atr.value)
                 && (t.value.side == Sell ==>
                       BearishCross(m1.emas.value)
                       && (forall i :: |m1.bars| - 1 - DONCHIAN_PERIOD <= i < |m1.bars| - 1 ==> close < m1.bars[i].low)
                       && t.value.sl == close + ATR_MULTIPLIER * m1.atr.value)
                 && Abs(t.value.tp - t.value.entry) == 3.0 * Abs(t.value.entry - t.value.sl)
  {
    if |m1.bars| < TRIGGER_MIN_BARS || m1.emas.None? || m1.atr.None? then None
    else
      var ch := DonchianPrior(m1.bars, DONCHIAN_PERIOD).value;
      TriggerDecision(m1.bars[|m1.bars| - 1].close, m1.emas.value, ch, m1.atr.value)
  }

  /** 25 flat bars at 1.0, then a bar with range [1, 3] closing at 2. */
  function BreakoutBars(): (bars: seq<Bar>)
    ensures |bars| == 26 && bars[25] == Bar(3.0, 1.0, 2.0)
    ensures forall i :: 0 <= i < 25 ==> bars[i] == Bar(1.0, 1.0, 1.0)
  {
    seq(26, i => if i < 25 then Bar(1.0, 1.0, 1.0) else Bar(3.0, 1.0, 2.0))
  }

  /** With the corrected band a well-formed bar can break out: closing above the
      previous 20 highs on a bullish EMA cross gives a BUY with its 1:3 target. */
  lemma BreakoutReachable()
    ensures forall i :: 0 <= i < |BreakoutBars()| ==> WellFormedBar(BreakoutBars()[i])
    ensures var t := DetectEmaCrossAndDonchianBreak(M1Data(BreakoutBars(), Some(EmaPair(1.0, 2.0, 3.0, 2.0)), Some(0.5)));
            t.Some? && t.value.side == Buy && t.value.sl == 0.5 && t.value.tp == 6.5
  {
    var bars := BreakoutBars();
    var ch := DonchianPrior(bars, DONCHIAN_PERIOD).value;
    var i :| 5 <= i < 25 && bars[i].high == ch.upper;
    assert ch.upper == 1.0;
  }

  // ================================================================ context and filters

  datatype Context = Up | Down | Neutral

  /** get_market_context_m5: close against EMA 50 on M5, neutral without 55 bars. */
  function MarketContextM5(barCount: nat, lastClose: real, ema50: Option<real>): (c: Context)
    ensures barCount < M5_MIN_BARS || ema50.None? ==> c == Neutral
    ensures c == Up <==> barCount >= M5_MIN_BARS && ema50.Some? && lastClose > ema50.value
    ensures c == Down <==> barCount >= M5_MIN_BARS && ema50.Some? && lastClose < ema50.value
  {
    if barCount < M5_MIN_BARS || ema50.None? then Neutral
    else if lastClose > ema50.value then Up
    else if lastClose < ema50.value then Down
    else Neutral
  }

  /** What check_m1_filters reads: bar count, last close, EMA 200, ADX and RSI. */
  datatype M1Filters = M1Filters(barCount: nat, price: real, ema200: Option<real>,
                                 adx: Option<real>, rsi: Option<real>)

  /** check_m1_filters: the King filter, ADX strength and RSI momentum, in that order. */
  function CheckM1Filters(f: M1Filters, side: Side): (ok: bool)
    ensures ok <==>
              && f.barCount >= M1_FILTER_MIN_BARS
              && f.ema200.Some? && f.adx.Some? && f.rsi.Some?
              && f.adx.value > ADX_THRESHOLD
              && (side == Buy ==> f.price > f.ema200.value && f.rsi.value > RSI_BUY_THRESHOLD)
              && (side == Sell ==> f.price < f.ema200.value && f.rsi.value < RSI_SELL_THRESHOLD)
  {
    if f.barCount < M1_FILTER_MIN_BARS || f.ema200.None? then false
    else if side == Buy && f.price <= f.ema200.value then false
    else if side == Sell && f.price >= f.ema200.value then false
    else if f.adx.None? || f.adx.value <= ADX_THRESHOLD then false
    else if f.rsi.None? then false
    else if side == Buy then f.rsi.value > RSI_BUY_THRESHOLD
    else assert side == Sell; f.rsi.value < RSI_SELL_THRESHOLD
  }

  // ================================================================ squeeze

  /** Last Bollinger bandwidth and its 30-bar mean; `None` stands for NaN. */
  datatype Bandwidth = Bandwidth(current: Option<real>, average: Option<real>)

  datatype Squeeze = Squeeze(isSqueeze: bool, multiplier: real)

  predicate BandwidthDefined(bb: Option<Bandwidth>)
  {
    bb.Some? && bb.value.current.Some? && bb.value.average.Some?
  }

  /** detect_squeeze: compression enlarges the size, an expansion already under way
      halves it, anything else (including missing bands) leaves it alone. */
  function DetectSqueeze(bb: Option<Bandwidth>): (s: Squeeze)
    ensures s.isSqueeze <==>
              BandwidthDefined(bb) && bb.value.current.value < bb.value.average.value * SQUEEZE_THRESHOLD
    ensures s.multiplier == SQUEEZE_SIZE_MULTIPLIER <==> s.isSqueeze
    ensures s.multiplier == EXPANSION_SIZE_MULTIPLIER <==>
              && BandwidthDefined(bb)
              && !(bb.value.current.value < bb.value.average.value * SQUEEZE_THRESHOLD)
              && bb.value.current.value > bb.value.average.value * EXPANSION_THRESHOLD
    ensures s.multiplier in {EXPANSION_SIZE_MULTIPLIER, 1.0, SQUEEZE_SIZE_MULTIPLIER}
  {
    if !BandwidthDefined(bb) then Squeeze(false, 1.0)
    else
      var cur, avg := bb.value.current.value, bb.value.average.value;
      if cur < avg * SQUEEZE_THRESHOLD then Squeeze(true, SQUEEZE_SIZE_MULTIPLIER)
      else if cur > avg * EXPANSION_THRESHOLD then Squeeze(false, EXPANSION_SIZE_MULTIPLIER)
      else Squeeze(false, 1.0)
  }

  // ================================================================ the signal

  /** Everything get_smart_signal fetches for one symbol. */
  datatype Market = Market(m5Bars: nat, m5Close: real, m5Ema50: Option<real>,
                           m1: M1Data, filters: M1Filters, bandwidth: Option<Bandwidth>)

  /** The trigger completed with the squeeze sizing. */
  datatype Signal = Signal(trigger: Trigger, sizeMultiplier: real, isSqueeze: bool)

  function ContextOf(m: Market): Context
  {
    MarketContextM5(m.m5Bars, m.m5Close, m.m5Ema50)
  }

  /** The rest of get_smart_signal once the trigger is known: alignment with the
      context, the M1 filters and the squeeze sizing. */
  function SignalFrom(m: Market, trigger: Option<Trigger>): (s: Option<Signal>)
    ensures s.Some? <==>
              && ContextOf(m) != Neutral && trigger.Some?
              && (ContextOf(m) == Up ==> trigger.value.side == Buy)
              && (ContextOf(m) == Down ==> trigger.value.side == Sell)
              && CheckM1Filters(m.filters, trigger.value.side)
    ensures s.Some? ==>
              && s.value.trigger == trigger.value
              && s.value.sizeMultiplier == DetectSqueeze(m.bandwidth).multiplier
              && s.value.isSqueeze == DetectSqueeze(m.bandwidth).isSqueeze
  {
    var context := ContextOf(m);
    if context == Neutral then None
    else if trigger.None? then None
    else if context == Up && trigger.value.side != Buy then None
    else if context == Down && trigger.value.side != Sell then None
    else if !CheckM1Filters(m.filters, trigger.value.side) then None
    else
      var sq := DetectSqueeze(m.bandwidth);
      Some(Signal(trigger.value, sq.multiplier, sq.isSqueeze))
  }

  /** get_smart_signal with the trigger exactly as written. */
  function GetSmartSignalAsWritten(m: Market): (s: Option<Signal>)
    ensures s.Some? ==> DetectEmaCrossAndDonchianBreakAsWritten(m.m1).Some?
  {
    SignalFrom(m, DetectEmaCrossAndDonchianBreakAsWritten(m.m1))
  }

  /** As written, get_smart_signal never signals once the last M1 bar is well formed. */
  lemma SmartSignalSilentAsWritten(m: Market)
    requires |m.m1.bars| > 0 && WellFormedBar(m.m1.bars[|m.m1.bars| - 1])
    ensures GetSmartSignalAsWritten(m) == None
  {
    BreakoutUnreachableAsWritten(m.m1);
  }

  /** get_smart_signal with the corrected trigger: context, trigger, alignment, M1
      filters, squeeze sizing. */
  function GetSmartSignal(m: Market): (s: Option<Signal>)
    ensures ContextOf(m) == Neutral ==> s.None?
    ensures s.Some? <==>
              && ContextOf(m) != Neutral
              && DetectEmaCrossAndDonchianBreak(m.m1).Some?
              && var side := DetectEmaCrossAndDonchianBreak(m.m1).value.side;
                 && (ContextOf(m) == Up ==> side == Buy)
                 && (ContextOf(m) == Down ==> side == Sell)
                 && CheckM1Filters(m.filters, side)
    ensures s.Some? ==>
              && s.value.trigger == DetectEmaCrossAndDonchianBreak(m.m1).value
              && ((ContextOf(m) == Up && s.value.trigger.side == Buy) || (ContextOf(m) == Down && s.value.trigger.side == Sell))
              && s.value.sizeMultiplier in {EXPANSION_SIZE_MULTIPLIER, 1.0, SQUEEZE_SIZE_MULTIPLIER}
              && (s.value.isSqueeze ==> s.value.sizeMultiplier == SQUEEZE_SIZE_MULTIPLIER)
  {
    SignalFrom(m, DetectEmaCrossAndDonchianBreak(m.m1))
  }

  // ================================================================ order preparation

  /** A market-order request (TRADE_ACTION_DEAL). */
  datatype OrderRequest = OrderRequest(symbol: string, volume: real, side: Side, price: real,
                                       sl: real, tp: real, magic: int)

  /** prepare_trade_request's result: the request, the lot, the entry and three targets. */
  datatype Prepared = Prepared(request: OrderRequest, lot: real, entry: real, tp1: real, tp2: real, tp3: real)

  /** The intermediate targets: 33% and 66% of the distance from the entry to the
      final take-profit, on the side of the trade. */
  function Targets(entry: real, tp: real, side: Side): (t: (real, real))
    ensures var distance := Abs(tp - entry);
            var sign := if side == Buy then 1.0 else -1.0;
            t.0 == entry + distance * 0.33 * sign && t.1 == entry + distance * 0.66 * sign
    ensures side == Buy && tp > entry ==> entry < t.0 < t.1 < tp
    ensures side == Sell && tp < entry ==> entry > t.0 > t.1 > tp
  {
    var distance := Abs(tp - entry);
    var sign := if side == Buy then 1.0 else -1.0;
    (entry + distance * 0.33 * sign, entry + distance * 0.66 * sign)
  }

  /** The dynamic lot scaled by the squeeze multiplier, then rounded to the volume
      step and clamped again when the symbol is known. */
  function ScaledLot(base: real, multiplier: real, info: Option<SymbolInfo>): (lot: real)
    requires info.Some? ==> WellFormedSymbol(info.value)
    ensures info.Some? ==> ClampedTo(lot, RoundToStep(base * multiplier, info.value.volumeStep), info.value)
    ensures info.None? ==> lot == base * multiplier
  {
    if info.Some? then ClampLot(RoundToStep(base * multiplier, info.value.volumeStep), info.value) else base * multiplier
  }

  /** prepare_trade_request: entry at ask (BUY) or bid (SELL); lot = dynamic lot times
      the squeeze multiplier, rounded to the step and clamped again; targets at 33%,
      66% and 100% of the way to the final take-profit. No tick, no request. */
  function PrepareTradeRequest(symbol: string, tick: Option<Tick>, account: Option<AccountInfo>,
                               info: Option<SymbolInfo>, s: Signal): (p: Option<Prepared>)
    requires info.Some? ==> WellFormedSymbol(info.value)
    ensures p.None? <==> tick.None?
    ensures p.Some? ==>
              && var r := p.value.request;
                 && r.side == s.trigger.side && r.sl == s.trigger.sl && r.tp == s.trigger.tp
                 && r.price == p.value.entry && r.volume == p.value.lot && r.symbol == symbol
                 && r.magic == Config.MAGIC_NUMBER
                 && p.value.entry == (if s.trigger.side == Buy then tick.value.ask else tick.value.bid)
                 && p.value.tp3 == s.trigger.tp
    ensures p.Some? ==>
              p.value.lot == ScaledLot(GetDynamicLot(account, info, p.value.entry, s.trigger.sl, RISK_PER_TRADE),
                                       s.sizeMultiplier, info)
    ensures p.Some? && info.None? ==> p.value.lot == FALLBACK_LOT * s.sizeMultiplier
    ensures p.Some? ==>
              var distance := Abs(s.trigger.tp - p.value.entry);
              var sign := if s.trigger.side == Buy then 1.0 else -1.0;
              p.value.tp1 == p.value.entry + distance * 0.33 * sign && p.value.tp2 == p.value.entry + distance * 0.66 * sign
    ensures p.Some? && s.trigger.side == Buy && s.trigger.tp > p.value.entry ==>
              p.value.entry < p.value.tp1 < p.value.tp2 < p.value.tp3
    ensures p.Some? && s.trigger.side == Sell && s.trigger.tp < p.value.entry ==>
              p.value.entry > p.value.tp1 > p.value.tp2 > p.value.tp3
  {
    if tick.None? then None
    else
      var isBuy := s.trigger.side == Buy;
      var entry := if isBuy then tick.value.ask else tick.value.bid;
      var lot := ScaledLot(GetDynamicLot(account, info, entry, s.trigger.sl, RISK_PER_TRADE), s.sizeMultiplier, info);
      var targets := Targets(entry, s.trigger.tp, s.trigger.side);
      Some(Prepared(OrderRequest(symbol, lot, s.trigger.side, entry, s.trigger.sl, s.trigger.tp, Config.MAGIC_NUMBER),
                    lot, entry, targets.0, targets.1, s.trigger.tp))
  }

  /** The broker's answer to order_send. */
  datatype OrderResult = OrderResult(done: bool, order: int, price: real)

  function SideName(side: Side): string
  {
    if side == Buy then "BUY" else "SELL"
  }

  /** open_trade: prepare, send, and journal the opening on success. Returns the
      ticket (when the order was filled) and the lot. */
  method OpenTrade(journal: Database.Journal, account: int, symbol: string, tick: Option<Tick>,
                   info: Option<AccountInfo>, symbolInfo: Option<SymbolInfo>, s: Signal,
                   reply: OrderResult, now: int)
    returns (ticket: Option<int>, lot: real)
    requires journal.Valid()
    requires symbolInfo.Some? ==> WellFormedSymbol(symbolInfo.value)
    modifies journal
    ensures journal.Valid()
    ensures var p := PrepareTradeRequest(symbol, tick, info, symbolInfo, s);
            if p.Some? && reply.done then
              && ticket == Some(reply.order) && lot == p.value.lot
              && journal.collections == Database.SaveOpenOn(old(journal.collections), account, symbol, reply.order,
                                                            SideName(s.trigger.side), p.value.entry, now)
            else ticket == None && lot == 0.0 && journal.collections == old(journal.collections)
  {
    var p := PrepareTradeRequest(symbol, tick, info, symbolInfo, s);
    if p.None? {
      return None, 0.0;
    }
    if !reply.done {
      return None, 0.0;
    }
    journal.SaveOpen(account, symbol, reply.order, SideName(s.trigger.side), p.value.entry, now);
    ticket, lot := Some(reply.order), p.value.lot;
  }

  // ================================================================ chandelier exit

  /** A TRADE_ACTION_SLTP request. */
  datatype SlTpRequest = SlTpRequest(ticket: int, sl: real, tp: real)

  /** update_chandelier_exit: the request it sends, if any. The candidate is
      bid - 3*ATR (BUY) or ask + 3*ATR (SELL); it is sent only when it tightens the
      stop (for SELL, also when no stop is set). */
  function UpdateChandelierExit(pos: Option<Position>, atr: Option<real>, tick: Option<Tick>): (m: Option<SlTpRequest>)
    ensures pos.None? || atr.None? || tick.None? ==> m.None?
    ensures m.Some? ==> pos.Some? && m.value.ticket == pos.value.ticket && m.value.tp == pos.value.tp
    ensures m.Some? && pos.value.side == Buy ==> m.value.sl == tick.value.bid - ATR_MULTIPLIER * atr.value
    ensures m.Some? && pos.value.side == Sell ==> m.value.sl == tick.value.ask + ATR_MULTIPLIER * atr.value
    ensures m.Some? && pos.value.side == Buy ==> m.value.sl > pos.value.sl
    ensures m.Some? && pos.value.side == Sell ==> m.value.sl < pos.value.sl || pos.value.sl == 0.0
    ensures pos.Some? && atr.Some? && tick.Some? && pos.value.side == Buy ==>
              (m.Some? <==> tick.value.bid - ATR_MULTIPLIER * atr.value > pos.value.sl)
    ensures pos.Some? && atr.Some? && tick.Some? && pos.value.side == Sell ==>
              (m.Some? <==> tick.value.ask + ATR_MULTIPLIER * atr.value < pos.value.sl || pos.value.sl == 0.0)
  {
    if pos.None? || atr.None? || tick.None? then None
    else
      var p := pos.value;
      if p.side == Buy then
        var candidate := tick.value.bid - ATR_MULTIPLIER * atr.value;
        if candidate > p.sl then Some(SlTpRequest(p.ticket, candidate, p.tp)) else None
      else
        var candidate := tick.value.ask + ATR_MULTIPLIER * atr.value;
        if candidate < p.sl || p.sl == 0.0 then Some(SlTpRequest(p.ticket, candidate, p.tp)) else None
  }

  /** The stop a BUY position ends with when the broker applies each chandelier
      request in turn, starting from `sl`. */
  function TrailBuyStops(sl: real, bids: seq<real>, atr: real): (r: real)
    ensures r >= sl
    decreases |bids|
  {
    if |bids| == 0 then sl
    else
      var m := UpdateChandelierExit(Some(Position(0, Buy, 0.0, 0.0, 0.0, sl, 0.0, 0.0, 0)), Some(atr), Some(Tick(bids[0], bids[0])));
      TrailBuyStops(if m.Some? then m.value.sl else sl, bids[1..], atr)
  }

  /** On a rising market the chandelier stop ends at the last bid minus 3*ATR or higher. */
  lemma {:induction false} TrailBuyFollowsPrice(sl: real, bids: seq<real>, atr: real)
    requires |bids| > 0
    ensures TrailBuyStops(sl, bids, atr) >= bids[|bids| - 1] - ATR_MULTIPLIER * atr
    decreases |bids|
  {
    var m := UpdateChandelierExit(Some(Position(0, Buy, 0.0, 0.0, 0.0, sl, 0.0, 0.0, 0)), Some(atr), Some(Tick(bids[0], bids[0])));
    var next := if m.Some? then m.value.sl else sl;
    if |bids| > 1 {
      TrailBuyFollowsPrice(next, bids[1..], atr);
      assert bids[1..][|bids[1..]| - 1] == bids[|bids| - 1];
    }
  }

  /** The stop a SELL position ends with when the broker applies each chandelier
      request in turn, starting from `sl` (0 for no stop). */
  function TrailSellStops(sl: real, asks: seq<real>, atr: real): (r: real)
    requires atr >= 0.0 && forall i :: 0 <= i < |asks| ==> asks[i] > 0.0
    ensures sl > 0.0 ==> 0.0 < r <= sl
    ensures sl >= 0.0 && |asks| > 0 ==> r > 0.0
    decreases |asks|
  {
    if |asks| == 0 then sl
    else
      var m := UpdateChandelierExit(Some(Position(0, Sell, 0.0, 0.0, 0.0, sl, 0.0, 0.0, 0)), Some(atr), Some(Tick(asks[0], asks[0])));
      TrailSellStops(if m.Some? then m.value.sl else sl, asks[1..], atr)
  }

  /** On a falling market the SELL chandelier stop ends at the last ask plus 3*ATR or
      lower. */
  lemma {:induction false} TrailSellFollowsPrice(sl: real, asks: seq<real>, atr: real)
    requires atr >= 0.0 && forall i :: 0 <= i < |asks| ==> asks[i] > 0.0
    requires |asks| > 0
    ensures TrailSellStops(sl, asks, atr) <= asks[|asks| - 1] + ATR_MULTIPLIER * atr
    decreases |asks|
  {
    var m := UpdateChandelierExit(Some(Position(0, Sell, 0.0, 0.0, 0.0, sl, 0.0, 0.0, 0)), Some(atr), Some(Tick(asks[0], asks[0])));
    var next := if m.Some? then m.value.sl else sl;
    if |asks| > 1 {
      TrailSellFollowsPrice(next, asks[1..], atr);
      assert asks[1..][|asks[1..]| - 1] == asks[|asks| - 1];
    }
  }

  // ================================================================ trade monitor

  /** One poll of monitor_active_trade: the position (None once it is closed), the
      M1 ATR and the tick. */
  datatype Poll = Poll(position: Option<Position>, atr: Option<real>, tick: Option<Tick>)

  /** A deal of the closed position's history. */
  datatype HistoryDeal = HistoryDeal(profit: real, price: real)

  function Profits(h: seq<HistoryDeal>): (p: seq<real>)
    ensures |p| == |h| && forall i :: 0 <= i < |h| ==> p[i] == h[i].profit
  {
    seq(|h|, i requires 0 <= i < |h| => h[i].profit)
  }

  /** Index of the first poll that finds the position gone (|polls| if none does). */
  function CloseIndex(polls: seq<Poll>): (n: nat)
    ensures n <= |polls|
    ensures n < |polls| ==> polls[n].position.None?
    ensures forall k :: 0 <= k < n ==> polls[k].position.Some?
  {
    if |polls| == 0 then 0
    else if polls[0].position.None? then 0
    else 1 + CloseIndex(polls[1..])
  }

  /** The chandelier request of one poll, if update_chandelier_exit sends one. */
  function PollRequests(poll: Poll): (r: seq<SlTpRequest>)
    ensures |r| <= 1
  {
    var m := UpdateChandelierExit(poll.position, poll.atr, poll.tick);
    if m.Some? then [m.value] else []
  }

  /** The chandelier requests of a run of polls, in order. */
  function ChandelierRequests(polls: seq<Poll>): seq<SlTpRequest>
  {
    if |polls| == 0 then [] else ChandelierRequests(polls[..|polls| - 1]) + PollRequests(polls[|polls| - 1])
  }

  /** The best bid seen so far on a BUY position, after one more poll (0 at the start). */
  function TrackHigh(highest: real, poll: Poll): real
  {
    if poll.position.Some? && poll.position.value.side == Buy && poll.tick.Some? && poll.tick.value.bid > highest
    then poll.tick.value.bid else highest
  }

  /** The best ask seen so far on a SELL position, after one more poll (none at the start). */
  function TrackLow(lowest: Option<real>, poll: Poll): Option<real>
  {
    if poll.position.Some? && poll.position.value.side == Sell && poll.tick.Some?
       && (lowest.None? || poll.tick.value.ask < lowest.value)
    then Some(poll.tick.value.ask) else lowest
  }

  /** `highest_reached` after a run of polls. */
  function HighestBid(polls: seq<Poll>): real
  {
    if |polls| == 0 then 0.0 else TrackHigh(HighestBid(polls[..|polls| - 1]), polls[|polls| - 1])
  }

  /** `lowest_reached` after a run of polls (`None` for infinity). */
  function LowestAsk(polls: seq<Poll>): Option<real>
  {
    if |polls| == 0 then None else TrackLow(LowestAsk(polls[..|polls| - 1]), polls[|polls| - 1])
  }

  /** One more poll extends the requests and the tracked extremes by that poll. */
  lemma MonitorStep(polls: seq<Poll>, i: nat)
    requires i < |polls|
    ensures ChandelierRequests(polls[..i + 1]) == ChandelierRequests(polls[..i]) + PollRequests(polls[i])
    ensures HighestBid(polls[..i + 1]) == TrackHigh(HighestBid(polls[..i]), polls[i])
    ensures LowestAsk(polls[..i + 1]) == TrackLow(LowestAsk(polls[..i]), polls[i])
  {
    assert polls[..i + 1][..i] == polls[..i];
  }

  /** The tracked high is never negative, bounds the bid of every poll of a BUY
      position, and is 0 or one of those bids. */
  lemma {:induction false} HighestBidBounds(polls: seq<Poll>)
    ensures HighestBid(polls) >= 0.0
    ensures forall j :: 0 <= j < |polls| && polls[j].position.Some? ==>
              (polls[j].position.value.side == Buy && polls[j].tick.Some? ==> polls[j].tick.value.bid <= HighestBid(polls))
    ensures HighestBid(polls) == 0.0 ||
            exists j :: 0 <= j < |polls| && polls[j].tick.Some? && polls[j].tick.value.bid == HighestBid(polls)
  {
    if |polls| > 0 {
      var init := polls[..|polls| - 1];
      HighestBidBounds(init);
      if HighestBid(polls) != HighestBid(init) {
        assert polls[|polls| - 1].tick.value.bid == HighestBid(polls);
      } else if HighestBid(init) != 0.0 {
        var j :| 0 <= j < |init| && init[j].tick.Some? && init[j].tick.value.bid == HighestBid(init);
        assert polls[j] == init[j];
      }
      forall j | 0 <= j < |polls| - 1
        ensures polls[j] == init[j]
      {
      }
    }
  }

  /** The tracked low bounds the ask of every poll of a SELL position and is one of
      those asks. */
  lemma {:induction false} LowestAskBounds(polls: seq<Poll>)
    ensures forall j :: 0 <= j < |polls| && polls[j].position.Some? ==>
              (polls[j].position.value.side == Sell && polls[j].tick.Some? ==>
                 LowestAsk(polls).Some? && LowestAsk(polls).value <= polls[j].tick.value.ask)
    ensures LowestAsk(polls).Some? ==>
              exists j :: 0 <= j < |polls| && polls[j].tick.Some? && polls[j].tick.value.ask == LowestAsk(polls).value
  {
    if |polls| > 0 {
      var init := polls[..|polls| - 1];
      LowestAskBounds(init);
      if LowestAsk(polls) != LowestAsk(init) {
        assert polls[|polls| - 1].tick.value.ask == LowestAsk(polls).value;
      } else if LowestAsk(init).Some? {
        var j :| 0 <= j < |init| && init[j].tick.Some? && init[j].tick.value.ask == LowestAsk(init).value;
        assert polls[j] == init[j];
      }
      forall j | 0 <= j < |polls| - 1
        ensures polls[j] == init[j]
      {
      }
    }
  }

  /** At most one request per poll, and each one is what update_chandelier_exit
      sends for some poll of the run. */
  lemma {:induction false} ChandelierRequestsSound(polls: seq<Poll>)
    ensures |ChandelierRequests(polls)| <= |polls|
    ensures forall k :: 0 <= k < |ChandelierRequests(polls)| ==>
              exists j :: 0 <= j < |polls| &&
                UpdateChandelierExit(polls[j].position, polls[j].atr, polls[j].tick) == Some(ChandelierRequests(polls)[k])
  {
    if |polls| > 0 {
      var init := polls[..|polls| - 1];
      ChandelierRequestsSound(init);
      var a, b := ChandelierRequests(init), PollRequests(polls[|polls| - 1]);
      forall k | 0 <= k < |a + b|
        ensures exists j :: 0 <= j < |polls| &&
                  UpdateChandelierExit(polls[j].position, polls[j].atr, polls[j].tick) == Some((a + b)[k])
      {
        if k < |a| {
          assert (a + b)[k] == a[k];
          var j :| 0 <= j < |init| && UpdateChandelierExit(init[j].position, init[j].atr, init[j].tick) == Some(a[k]);
          assert init[j] == polls[j];
        } else {
          assert (a + b)[k] == b[0];
          var j := |polls| - 1;
          assert UpdateChandelierExit(polls[j].position, polls[j].atr, polls[j].tick) == Some(b[0]);
        }
      }
    }
  }

  /** monitor_active_trade over a finite run of polls. While the position exists each
      poll may send a chandelier request and tracks the best bid (BUY) or ask (SELL);
      the first poll that finds it gone journals the close from the deal history and
      ends the loop. */
  method MonitorActiveTrade(journal: Database.Journal, account: int, symbol: string, ticket: int,
                            polls: seq<Poll>, history: Option<seq<HistoryDeal>>, now: int)
    returns (sent: seq<SlTpRequest>, highest: real, lowest: Option<real>, closed: bool)
    requires journal.Valid()
    modifies journal
    ensures journal.Valid()
    ensures closed <==> CloseIndex(polls) < |polls|
    ensures sent == ChandelierRequests(polls[..CloseIndex(polls)])
    ensures highest == HighestBid(polls[..CloseIndex(polls)])
    ensures lowest == LowestAsk(polls[..CloseIndex(polls)])
    ensures closed && history.Some? && |history.value| > 0 ==>
              var h := history.value;
              journal.collections == Database.SaveCloseOn(old(journal.collections), account, symbol, ticket,
                                                          Sum(Profits(h)), h[|h| - 1].price, now, "CLOSED")
    ensures !(closed && history.Some? && |history.value| > 0) ==> journal.collections == old(journal.collections)
  {
    sent, highest, lowest, closed := [], 0.0, None, false;
    var n := CloseIndex(polls);
    var i := 0;
    while i < |polls|
      invariant 0 <= i <= n
      invariant !closed
      invariant sent == ChandelierRequests(polls[..i])
      invariant highest == HighestBid(polls[..i])
      invariant lowest == LowestAsk(polls[..i])
      invariant journal.collections == old(journal.collections)
    {
      var poll := polls[i];
      if poll.position.None? {
        closed := true;
        if history.Some? && |history.value| > 0 {
          var h := history.value;
          journal.SaveClose(account, symbol, ticket, Sum(Profits(h)), h[|h| - 1].price, now, "CLOSED");
        }
        return;
      }
      MonitorStep(polls, i);
      var request := UpdateChandelierExit(poll.position, poll.atr, poll.tick);
      if request.Some? {
        sent := sent + [request.value];
      }
      if poll.tick.Some? {
        if poll.position.value.side == Buy {
          if poll.tick.value.bid > highest {
            highest := poll.tick.value.bid;
          }
        } else if lowest.None? || poll.tick.value.ask < lowest.value {
          lowest := Some(poll.tick.value.ask);
        }
      }
      i := i + 1;
    }
  }

  // ================================================================ volatility gate

  datatype VolatilityVerdict = NoData | AtrError | TooQuiet | VolatilityOk

  /** The defined (non-NaN) values of an indicator series. */
  function Defined(s: seq<Option<real>>): (d: seq<real>)
    ensures |d| <= |s|
  {
    if |s| == 0 then []
    else Defined(s[..|s| - 1]) + (if s[|s| - 1].Some? then [s[|s| - 1].value] else [])
  }

  /** The H1 ATR is "too quiet" when its last value is below 70% of the series mean
      (a NaN on either side compares false). */
  predicate TooQuietAtr(atr: seq<Option<real>>)
    requires |atr| > 0
  {
    var current := atr[|atr| - 1];
    var defined := Defined(atr);
    current.Some? && |defined| > 0 && current.value < Mean(defined) * QUIET_ATR_RATIO
  }

  /** is_volatility_good: no data or no ATR refuses; a too quiet ATR refuses;
      anything else is OK. */
  function IsVolatilityGood(barCount: nat, atr: Option<seq<Option<real>>>): (r: (bool, VolatilityVerdict))
    ensures r.0 <==> r.1 == VolatilityOk
    ensures barCount == 0 ==> r.1 == NoData
    ensures barCount > 0 && (atr.None? || |atr.value| == 0) ==> r.1 == AtrError
    ensures r.1 == TooQuiet <==> barCount > 0 && atr.Some? && |atr.value| > 0 && TooQuietAtr(atr.value)
  {
    if barCount == 0 then (false, NoData)
    else if atr.None? || |atr.value| < 1 then (false, AtrError)
    else if TooQuietAtr(atr.value) then (false, TooQuiet)
    else (true, VolatilityOk)
  }

  /** A quiet market is skipped: ATR 1.0 against a mean of 2.0. */
  lemma QuietMarketSkipped()
    ensures IsVolatilityGood(50, Some([Some(3.0), Some(1.0)])) == (false, TooQuiet)
  {
    assert Defined([Some(3.0), Some(1.0)]) == [3.0, 1.0] by {
      assert [Some(3.0), Some(1.0)][..1] == [Some(3.0)];
      assert Defined([Some(3.0)]) == [3.0] by {
        assert [Some(3.0)][..0] == [];
      }
    }
    assert Sum([3.0, 1.0]) == 4.0 by {
      assert [3.0, 1.0][..1] == [3.0];
      assert [3.0][..0] == [];
    }
  }

  lemma {:induction false} SumAtMostMax(s: seq<real>, m: real)
    requires forall i :: 0 <= i < |s| ==> s[i] <= m
    ensures Sum(s) <= |s| as real * m
  {
    if |s| > 0 {
      SumAtMostMax(s[..|s| - 1], m);
    }
  }

  /** An ATR at (or above) every earlier non-negative value is never "too quiet". */
  lemma VolatilityGoodAtPeak(barCount: nat, atr: seq<Option<real>>)
    requires barCount > 0 && |atr| > 0 && atr[|atr| - 1].Some?
    requires forall i :: 0 <= i < |Defined(atr)| ==> 0.0 <= Defined(atr)[i] <= atr[|atr| - 1].value
    ensures IsVolatilityGood(barCount, Some(atr)) == (true, VolatilityOk)
  {
    var d := Defined(atr);
    var c := atr[|atr| - 1].value;
    if |d| > 0 {
      SumAtMostMax(d, c);
      SumNonNegative(d);
      MeanBelow(d, c);
    }
  }

  lemma MeanBelow(d: seq<real>, c: real)
    requires |d| > 0 && Sum(d) <= |d| as real * c && Sum(d) >= 0.0
    ensures 0.0 <= Mean(d) <= c
    ensures !(c < Mean(d) * QUIET_ATR_RATIO)
  {
    QuotientBetween(Sum(d), |d| as real, c);
  }

  /** A non-negative total of at most `n` times `c`, shared out over `n`, lies in [0, c]. */
  lemma QuotientBetween(x: real, n: real, c: real)
    requires n > 0.0 && 0.0 <= x <= n * c
    ensures 0.0 <= x / n <= c
  {
    assert c - x / n == (n * c - x) / n;
  }

  lemma {:induction false} SumNonNegative(s: seq<real>)
    requires forall i :: 0 <= i < |s| ==> s[i] >= 0.0
    ensures Sum(s) >= 0.0
  {
    if |s| > 0 {
      SumNonNegative(s[..|s| - 1]);
    }
  }
}
