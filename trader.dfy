/** The single-account order helper (trader.py): a lot size that risks a fixed share
    of the balance over the stop distance, and a market order built from the
    signal's side and its stops. Every broker query is an input. */
module Trader {
  import opened Common
  import Config
  import Strategy

  /** Python's `round` never moves a larger value below a smaller one. */
  lemma RoundMonotone(x: real, y: real)
    requires x <= y
    ensures Round(x) <= Round(y)
  {
    var fx, fy := x.Floor, y.Floor;
    if fx < fy {
      assert Round(x) <= fx + 1 <= fy <= Round(y);
    } else {
      assert fx == fy;
    }
  }

  lemma Round2Monotone(x: real, y: real)
    requires x <= y
    ensures Round2(x) <= Round2(y)
  {
    RoundMonotone(x * 100.0, y * 100.0);
  }

  /** The point value of the symbol, `symbol_info.point_value or 1.0`. */
  function PointValue(reported: Option<real>): (pv: real)
    ensures reported.Some? && reported.value != 0.0 ==> pv == reported.value
    ensures reported.None? || reported.value == 0.0 ==> pv == 1.0
  {
    if reported.Some? && reported.value != 0.0 then reported.value else 1.0
  }

  /** `risk_amount`: the share of the balance one trade may lose. */
  function RiskAmount(balance: real): real
  {
    balance * Config.RISK_PERCENT
  }

  /** What one lot loses over the stop distance. */
  function StopValue(distancePoints: real, reported: Option<real>): real
  {
    distancePoints * PointValue(reported)
  }

  /** The lot size before rounding: the risk amount over the value of the stop distance. */
  function RawLot(distancePoints: real, balance: real, reported: Option<real>): real
    requires distancePoints != 0.0
  {
    RiskAmount(balance) / StopValue(distancePoints, reported)
  }

  /** calculate_lot_size: the raw lot rounded to two decimals, never below 0.01. */
  function CalculateLotSize(distancePoints: real, balance: real, reported: Option<real>): (lot: real)
    requires distancePoints != 0.0
    ensures lot >= Config.MIN_LOT
    ensures Round2(RawLot(distancePoints, balance, reported)) >= Config.MIN_LOT ==>
              lot == Round2(RawLot(distancePoints, balance, reported))
    ensures Round2(RawLot(distancePoints, balance, reported)) < Config.MIN_LOT ==> lot == Config.MIN_LOT
    ensures RawLot(distancePoints, balance, reported) >= Config.MIN_LOT + 0.005 ==>
              RawLot(distancePoints, balance, reported) - 0.005 <= lot <= RawLot(distancePoints, balance, reported) + 0.005
  {
    MaxReal(Round2(RawLot(distancePoints, balance, reported)), Config.MIN_LOT)
  }

  /** Before rounding, the lot risks exactly RISK_PERCENT of the balance over the stop. */
  lemma RawLotRisksShare(distancePoints: real, balance: real, reported: Option<real>)
    requires distancePoints > 0.0 && (reported.None? || reported.value >= 0.0)
    ensures StopValue(distancePoints, reported) > 0.0
    ensures RawLot(distancePoints, balance, reported) * StopValue(distancePoints, reported) == RiskAmount(balance)
  {
  }

  /** Away from the 0.01 floor, the order risks RISK_PERCENT of the balance, up to
      the rounding of the lot to two decimals. */
  lemma LotRisksShareOfBalance(distancePoints: real, balance: real, reported: Option<real>)
    requires distancePoints > 0.0 && (reported.None? || reported.value >= 0.0)
    requires RawLot(distancePoints, balance, reported) >= Config.MIN_LOT + 0.005
    ensures RiskAmount(balance) - 0.005 * StopValue(distancePoints, reported)
            <= CalculateLotSize(distancePoints, balance, reported) * StopValue(distancePoints, reported)
            <= RiskAmount(balance) + 0.005 * StopValue(distancePoints, reported)
  {
    RawLotRisksShare(distancePoints, balance, reported);
    var raw, lot, unit := RawLot(distancePoints, balance, reported), CalculateLotSize(distancePoints, balance, reported),
                          StopValue(distancePoints, reported);
    ScaledWithin(raw, lot, unit, 0.005, RiskAmount(balance));
  }

  /** A value within `e` of `raw`, scaled by a positive `unit`, stays within `e * unit`
      of `raw * unit`. */
  lemma WithinBound(raw: real, x: real, unit: real, e: real)
    requires raw - e <= x <= raw + e && unit > 0.0
    ensures raw * unit - e * unit <= x * unit <= raw * unit + e * unit
  {
    MultiplyKeepsOrder(raw - e, x, unit);
    MultiplyKeepsOrder(x, raw + e, unit);
  }

  /** The same, with the scaled centre given its own name. */
  lemma ScaledWithin(raw: real, x: real, unit: real, e: real, scaled: real)
    requires raw - e <= x <= raw + e && unit > 0.0 && raw * unit == scaled
    ensures scaled - e * unit <= x * unit <= scaled + e * unit
  {
    WithinBound(raw, x, unit, e);
  }

  lemma MultiplyKeepsOrder(a: real, b: real, c: real)
    requires a <= b && c >= 0.0
    ensures a * c <= b * c
  {
  }

  /** A larger balance never buys a smaller lot for the same stop. */
  lemma LotGrowsWithBalance(distancePoints: real, b1: real, b2: real, reported: Option<real>)
    requires distancePoints > 0.0 && (reported.None? || reported.value >= 0.0)
    requires b1 <= b2
    ensures CalculateLotSize(distancePoints, b1, reported) <= CalculateLotSize(distancePoints, b2, reported)
  {
    var unit := StopValue(distancePoints, reported);
    assert unit > 0.0;
    assert RiskAmount(b1) / unit <= RiskAmount(b2) / unit;
    Round2Monotone(RawLot(distancePoints, b1, reported), RawLot(distancePoints, b2, reported));
  }

  /** The stop distance in points: `abs(price - sl) / point`, or 100 when the
      reported point size is not positive. */
  function SlDistancePoints(price: real, sl: real, point: real): (d: real)
    ensures d >= 0.0
    ensures point > 0.0 ==> d * point == Abs(price - sl)
    ensures point <= 0.0 ==> d == 100.0
  {
    if point > 0.0 then Abs(price - sl) / point else 100.0
  }

  /** How execute_trade ends. A zero stop distance makes the lot computation divide
      by zero. */
  datatype TradeOutcome =
    | NotSelected
    | NoTick
    | MissingStops
    | NoAccount
    | ZeroDistance
    | Sent(request: Strategy.OrderRequest)

  /** execute_trade: checks in the order the source makes them, then the market
      order at the ask for "BUY" and at the bid for anything else. */
  function ExecuteTrade(symbol: string, signal: string, sl: Option<real>, tp: Option<real>, selected: bool,
                        tick: Option<Strategy.Tick>, account: Option<Strategy.AccountInfo>, point: real,
                        reported: Option<real>): (o: TradeOutcome)
    ensures o == NotSelected <==> !selected
    ensures o == NoTick <==> selected && tick.None?
    ensures o == MissingStops <==> selected && tick.Some? && (sl.None? || tp.None?)
    ensures o == NoAccount <==> selected && tick.Some? && sl.Some? && tp.Some? && account.None?
    ensures o.Sent? <==>
              selected && tick.Some? && sl.Some? && tp.Some? && account.Some?
              && SlDistancePoints(if signal == "BUY" then tick.value.ask else tick.value.bid, sl.value, point) != 0.0
    ensures o.Sent? ==>
              && o.request.side == (if signal == "BUY" then Buy else Sell)
              && o.request.price == (if signal == "BUY" then tick.value.ask else tick.value.bid)
              && o.request.sl == sl.value && o.request.tp == tp.value
              && o.request.symbol == symbol && o.request.magic == Config.MAGIC_NUMBER
              && o.request.volume >= Config.MIN_LOT
              && SlDistancePoints(o.request.price, sl.value, point) != 0.0
              && o.request.volume == CalculateLotSize(SlDistancePoints(o.request.price, sl.value, point),
                                                      account.value.balance, reported)
    ensures o == ZeroDistance <==>
              selected && tick.Some? && sl.Some? && tp.Some? && account.Some?
              && SlDistancePoints(if signal == "BUY" then tick.value.ask else tick.value.bid, sl.value, point) == 0.0
  {
    if !selected then NotSelected
    else if tick.None? then NoTick
    else
      var price := if signal == "BUY" then tick.value.ask else tick.value.bid;
      var side := if signal == "BUY" then Buy else Sell;
      if sl.None? || tp.None? then MissingStops
      else if account.None? then NoAccount
      else
        var distance := SlDistancePoints(price, sl.value, point);
        if distance == 0.0 then ZeroDistance
        else
          var lot := CalculateLotSize(distance, account.value.balance, reported);
          Sent(Strategy.OrderRequest(symbol, lot, side, price, sl.value, tp.value, Config.MAGIC_NUMBER))
  }

  /** The stop given with the signal reaches the broker unchanged, whatever the
      point size; only the volume depends on the distance. */
  lemma StopsPassThrough(symbol: string, signal: string, sl: real, tp: real, tick: Strategy.Tick,
                         account: Strategy.AccountInfo, p1: real, p2: real, reported: Option<real>)
    requires var price := if signal == "BUY" then tick.ask else tick.bid;
             SlDistancePoints(price, sl, p1) != 0.0 && SlDistancePoints(price, sl, p2) != 0.0
    ensures var o1 := ExecuteTrade(symbol, signal, Some(sl), Some(tp), true, Some(tick), Some(account), p1, reported);
            var o2 := ExecuteTrade(symbol, signal, Some(sl), Some(tp), true, Some(tick), Some(account), p2, reported);
            o1.Sent? && o2.Sent? && o1.request.(volume := 0.0) == o2.request.(volume := 0.0)
  {
  }
}
