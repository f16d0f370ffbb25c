/** The live position manager (position_manager.py): a daily-loss gate, then for
    every open position break-even with partial close and ATR trailing, sent as
    broker requests; and the full close of one position. The broker replies and the
    per-symbol preset are inputs. */
module PositionManager {
  import opened Common
  import opened Config
  import opened Strategy

  /** Trailing starts once the profit exceeds this many ATRs. */
  const TRAIL_START_ATR: real := 1.5

  // ================================================================ daily loss gate

  /** A deal of today's history. */
  datatype DayDeal = DayDeal(entry: DealEntry, profit: real)

  /** Sum of the profits of today's closing (DEAL_ENTRY_OUT) deals. */
  function ClosedProfit(h: seq<DayDeal>): real
  {
    if |h| == 0 then 0.0
    else ClosedProfit(h[..|h| - 1]) + (if h[|h| - 1].entry == EntryOut then h[|h| - 1].profit else 0.0)
  }

  /** check_loss_limits: trading may go on (true) unless today's closed profit, as a
      fraction of the balance, is below the daily loss limit. No deals or a
      non-positive balance never stop trading. */
  function CheckLossLimits(history: Option<seq<DayDeal>>, balance: real, dailyLossLimit: real): (ok: bool)
    ensures history.None? || |history.value| == 0 || balance <= 0.0 ==> ok
    ensures !ok <==> history.Some? && |history.value| > 0 && balance > 0.0
                      && ClosedProfit(history.value) / balance < dailyLossLimit
  {
    if history.None? || |history.value| == 0 then true
    else if balance <= 0.0 then true
    else !(ClosedProfit(history.value) / balance < dailyLossLimit)
  }

  lemma {:induction false} ClosedProfitAppend(h: seq<DayDeal>, more: seq<DayDeal>)
    ensures ClosedProfit(h + more) == ClosedProfit(h) + ClosedProfit(more)
    decreases |more|
  {
    if |more| == 0 {
      assert h + more == h;
    } else {
      assert (h + more)[..|h + more| - 1] == h + more[..|more| - 1];
      ClosedProfitAppend(h, more[..|more| - 1]);
    }
  }

  lemma {:induction false} ClosedProfitOfLosses(more: seq<DayDeal>)
    requires forall k :: 0 <= k < |more| ==> more[k].profit <= 0.0
    ensures ClosedProfit(more) <= 0.0
  {
    if |more| > 0 {
      ClosedProfitOfLosses(more[..|more| - 1]);
    }
  }

  /** Once the limit is hit it stays hit: further deals that lose (or break even)
      cannot reopen trading for the day. */
  lemma LossLimitStaysHit(h: seq<DayDeal>, more: seq<DayDeal>, balance: real, dailyLossLimit: real)
    requires !CheckLossLimits(Some(h), balance, dailyLossLimit)
    requires forall k :: 0 <= k < |more| ==> more[k].profit <= 0.0
    ensures !CheckLossLimits(Some(h + more), balance, dailyLossLimit)
  {
    ClosedProfitAppend(h, more);
    ClosedProfitOfLosses(more);
    DivideKeepsOrder(ClosedProfit(h + more), ClosedProfit(h), balance);
  }

  lemma DivideKeepsOrder(a: real, b: real, c: real)
    requires a <= b && c > 0.0
    ensures a / c <= b / c
  {
    assert b / c - a / c == (b - a) / c;
  }

  // ================================================================ one position

  /** The manager as written, or with its corrections: the trailing candidate on the
      protective side of the price; break-even armed only while the stop is unset or
      short of the entry; and the trailing candidate weighed against the stop that
      break-even has just set in the same pass. */
  datatype Version = AsWritten | Corrected

  datatype StopReason = BreakEvenStop | TrailingStop

  /** A request sent to the broker: a TRADE_ACTION_DEAL closing (part of) a position,
      or a TRADE_ACTION_SLTP changing its stops. */
  datatype Request =
    | CloseDeal(symbol: string, ticket: int, volume: real, side: Side, price: real, magic: int)
    | ModifyStops(ticket: int, sl: real, tp: real, reason: StopReason)

  function TicketOf(r: Request): int
  {
    if r.CloseDeal? then r.ticket else r.ticket
  }

  /** The initial risk of a position: the stop distance, or the ATR when no stop is set. */
  function RiskDistance(p: Position, atr: real): (d: real)
    ensures p.sl == 0.0 ==> d == atr
    ensures p.sl != 0.0 ==> d == Abs(p.priceOpen - p.sl) && d >= 0.0
  {
    if p.sl != 0.0 then Abs(p.priceOpen - p.sl) else atr
  }

  predicate BreakEvenArmed(p: Position, v: Version)
  {
    match v
    case AsWritten => p.sl != p.priceOpen
    case Corrected => p.sl == 0.0 || (if p.side == Buy then p.sl < p.priceOpen else p.sl > p.priceOpen)
  }

  /** Break-even is due once the profit reaches the risk distance. */
  predicate BreakEvenDue(p: Position, atr: real, v: Version)
  {
    p.profit >= RiskDistance(p, atr) * BREAKEVEN_MULTIPLIER && BreakEvenArmed(p, v)
  }

  /** The trailing stop candidate: as written it lies on the far side of the price
      (above it for BUY); corrected, `trailing` ATRs behind the price. */
  function TrailCandidate(p: Position, atr: real, trailing: real, v: Version): (c: real)
    ensures v == Corrected && atr * trailing > 0.0 ==>
              (p.side == Buy ==> c < p.priceCurrent) && (p.side == Sell ==> c > p.priceCurrent)
    ensures v == AsWritten && atr * trailing > 0.0 ==>
              (p.side == Buy ==> c > p.priceCurrent) && (p.side == Sell ==> c < p.priceCurrent)
  {
    match v
    case AsWritten =>
      if p.side == Sell then p.priceCurrent - atr * trailing else p.priceCurrent + atr * trailing
    case Corrected =>
      if p.side == Buy then p.priceCurrent - atr * trailing else p.priceCurrent + atr * trailing
  }

  /** The stop the trailing rule compares its candidate with: as written the stop the
      pass started from; corrected, the entry once break-even is due in this pass. */
  function StopBeforeTrail(p: Position, atr: real, v: Version): real
  {
    if v == Corrected && BreakEvenDue(p, atr, v) then p.priceOpen else p.sl
  }

  predicate TrailDue(p: Position, atr: real, trailing: real, v: Version)
  {
    var c := TrailCandidate(p, atr, trailing, v);
    var current := StopBeforeTrail(p, atr, v);
    p.profit > atr * TRAIL_START_ATR && ((p.side == Buy && c > current) || (p.side == Sell && c < current))
  }

  /** The break-even requests: the partial close (if its rounded volume is at least
      0.01 lot) at the bid (BUY) or ask (SELL), then the stop moved to the entry. */
  function BreakEvenRequests(symbol: string, p: Position, tick: Tick): (r: seq<Request>)
    ensures |r| == 1 || |r| == 2
    ensures r[|r| - 1] == ModifyStops(p.ticket, p.priceOpen, p.tp, BreakEvenStop)
    ensures |r| == 2 <==> Round2(p.volume * PARTIAL_CLOSE_PERCENT) >= MIN_LOT
    ensures |r| == 2 ==> r[0] == CloseDeal(symbol, p.ticket, Round2(p.volume * PARTIAL_CLOSE_PERCENT),
                                           p.side.Opposite(), if p.side == Buy then tick.bid else tick.ask, p.magic)
  {
    var partial := Round2(p.volume * PARTIAL_CLOSE_PERCENT);
    (if partial >= MIN_LOT
     then [CloseDeal(symbol, p.ticket, partial, p.side.Opposite(), if p.side == Buy then tick.bid else tick.ask, p.magic)]
     else [])
    + [ModifyStops(p.ticket, p.priceOpen, p.tp, BreakEvenStop)]
  }

  /** The requests manage_positions sends for one position, in order. */
  function PositionRequests(symbol: string, p: Position, atr: real, trailing: real, tick: Tick, v: Version): (r: seq<Request>)
    ensures |r| <= 3
    ensures forall k :: 0 <= k < |r| ==> TicketOf(r[k]) == p.ticket
    ensures forall k :: 0 <= k < |r| && r[k].ModifyStops? ==> r[k].tp == p.tp
    ensures forall k :: 0 <= k < |r| && r[k].CloseDeal? ==>
              BreakEvenDue(p, atr, v) && r[k].volume >= MIN_LOT && r[k].side == p.side.Opposite()
    ensures BreakEvenDue(p, atr, v) <==> ModifyStops(p.ticket, p.priceOpen, p.tp, BreakEvenStop) in r
    ensures TrailDue(p, atr, trailing, v) <==>
              ModifyStops(p.ticket, TrailCandidate(p, atr, trailing, v), p.tp, TrailingStop) in r
    ensures !BreakEvenDue(p, atr, v) && !TrailDue(p, atr, trailing, v) ==> r == []
  {
    (if BreakEvenDue(p, atr, v) then BreakEvenRequests(symbol, p, tick) else [])
    + (if TrailDue(p, atr, trailing, v)
       then [ModifyStops(p.ticket, TrailCandidate(p, atr, trailing, v), p.tp, TrailingStop)]
       else [])
  }

  /** The stop a position has once the broker has applied `reqs` in order. */
  function StopAfter(sl: real, reqs: seq<Request>): real
  {
    if |reqs| == 0 then sl
    else
      var last := reqs[|reqs| - 1];
      if last.ModifyStops? then last.sl else StopAfter(sl, reqs[..|reqs| - 1])
  }

  /** Corrected, one pass never loosens a position's stop: break-even only moves an
      unset stop or one short of the entry to the entry, and trailing only sends a
      candidate strictly better than the stop the pass started from. */
  lemma StopNeverLoosensLive(symbol: string, p: Position, atr: real, trailing: real, tick: Tick)
    requires p.priceOpen > 0.0 && p.sl >= 0.0
    ensures var after := StopAfter(p.sl, PositionRequests(symbol, p, atr, trailing, tick, Corrected));
            && (p.side == Buy ==> after >= p.sl)
            && (p.side == Sell ==> p.sl == 0.0 || after <= p.sl)
  {
    var r := PositionRequests(symbol, p, atr, trailing, tick, Corrected);
    var be := if BreakEvenDue(p, atr, Corrected) then BreakEvenRequests(symbol, p, tick) else [];
    if TrailDue(p, atr, trailing, Corrected) {
      assert r[|r| - 1] == ModifyStops(p.ticket, TrailCandidate(p, atr, trailing, Corrected), p.tp, TrailingStop);
    } else {
      assert r == be;
      if BreakEvenDue(p, atr, Corrected) {
        assert r[|r| - 1] == ModifyStops(p.ticket, p.priceOpen, p.tp, BreakEvenStop);
      }
    }
  }

  /** The stop a position has after one corrected pass. */
  function StopAfterPass(symbol: string, p: Position, atr: real, trailing: real, tick: Tick): real
  {
    StopAfter(p.sl, PositionRequests(symbol, p, atr, trailing, tick, Corrected))
  }

  /** Corrected, a pass in which break-even fires leaves the stop at the entry or
      beyond it, so break-even is disarmed for the next pass. */
  lemma BreakEvenDisarmsItself(symbol: string, p: Position, atr: real, trailing: real, tick: Tick)
    requires p.priceOpen > 0.0 && p.priceCurrent > 0.0 && atr > 0.0 && trailing > 0.0
    requires BreakEvenDue(p, atr, Corrected)
    ensures var after := StopAfterPass(symbol, p, atr, trailing, tick);
            && (p.side == Buy ==> after >= p.priceOpen)
            && (p.side == Sell ==> 0.0 < after <= p.priceOpen)
            && !BreakEvenArmed(p.(sl := after), Corrected)
  {
    var r := PositionRequests(symbol, p, atr, trailing, tick, Corrected);
    var be := BreakEvenRequests(symbol, p, tick);
    if TrailDue(p, atr, trailing, Corrected) {
      assert r[|r| - 1] == ModifyStops(p.ticket, TrailCandidate(p, atr, trailing, Corrected), p.tp, TrailingStop);
    } else {
      assert r == be;
    }
  }

  /** Corrected, once the stop is at the entry or beyond it, a pass sends no
      break-even and keeps the stop there. */
  lemma BreakEvenStaysDisarmed(symbol: string, p: Position, atr: real, trailing: real, tick: Tick)
    requires p.priceOpen > 0.0 && p.priceCurrent > 0.0 && atr > 0.0 && trailing > 0.0
    requires !BreakEvenArmed(p, Corrected)
    ensures ModifyStops(p.ticket, p.priceOpen, p.tp, BreakEvenStop) !in PositionRequests(symbol, p, atr, trailing, tick, Corrected)
    ensures !BreakEvenArmed(p.(sl := StopAfterPass(symbol, p, atr, trailing, tick)), Corrected)
  {
    var r := PositionRequests(symbol, p, atr, trailing, tick, Corrected);
    if TrailDue(p, atr, trailing, Corrected) {
      assert r == [ModifyStops(p.ticket, TrailCandidate(p, atr, trailing, Corrected), p.tp, TrailingStop)];
    } else {
      assert r == [];
    }
  }

  /** What one manage_positions pass reads for a position: the position itself, the
      ATR, the trailing multiplier and the tick. */
  datatype Pass = Pass(position: Position, atr: real, trailing: real, tick: Tick)

  predicate Plausible(x: Pass)
  {
    x.position.priceOpen > 0.0 && x.position.priceCurrent > 0.0 && x.atr > 0.0 && x.trailing > 0.0
  }

  /** The position a later pass sees: the broker has applied the earlier pass's stop
      requests; price, profit, volume and ATR may have moved. */
  predicate FollowsPass(symbol: string, prev: Pass, next: Pass)
  {
    && next.position.ticket == prev.position.ticket
    && next.position.side == prev.position.side
    && next.position.priceOpen == prev.position.priceOpen
    && next.position.sl == StopAfterPass(symbol, prev.position, prev.atr, prev.trailing, prev.tick)
  }

  /** Corrected, break-even fires at most once per position: after the pass in which
      it fires, no later pass is armed for it, whatever the price, profit or ATR. */
  lemma {:induction false} BreakEvenFiresOnceLive(symbol: string, passes: seq<Pass>)
    requires forall k :: 0 <= k < |passes| ==> Plausible(passes[k])
    requires forall k :: 0 < k < |passes| ==> FollowsPass(symbol, passes[k - 1], passes[k])
    requires |passes| > 0 && BreakEvenDue(passes[0].position, passes[0].atr, Corrected)
    ensures forall k :: 0 < k < |passes| ==> !BreakEvenArmed(passes[k].position, Corrected)
    ensures forall k :: 0 < k < |passes| ==> !BreakEvenDue(passes[k].position, passes[k].atr, Corrected)
  {
    if |passes| > 1 {
      var n := |passes| - 1;
      var init := passes[..n];
      assert forall k :: 0 <= k < n ==> init[k] == passes[k];
      BreakEvenFiresOnceLive(symbol, init);
      var x := passes[n - 1];
      if n == 1 {
        BreakEvenDisarmsItself(symbol, x.position, x.atr, x.trailing, x.tick);
      } else {
        assert init[n - 1] == x;
        BreakEvenStaysDisarmed(symbol, x.position, x.atr, x.trailing, x.tick);
      }
    }
  }

  /** A BUY opened at 100 with its stop at 90, now at 104 with a 12 profit. */
  function FreshBuy(): Position
  {
    Position(1, Buy, 1.0, 100.0, 104.0, 90.0, 130.0, 12.0, MAGIC_NUMBER)
  }

  /** Corrected, the pass in which break-even fires leaves the stop at the entry: the
      trailing candidate 98 is weighed against 100, not against the old stop 90, so
      the next pass is not armed again. */
  lemma BreakEvenSettlesAtEntry()
    ensures BreakEvenDue(FreshBuy(), 5.0, Corrected)
    ensures StopAfterPass("XAUUSD", FreshBuy(), 5.0, 1.2, Tick(104.0, 104.2)) == 100.0
    ensures !BreakEvenArmed(FreshBuy().(sl := 100.0), Corrected)
  {
    var p := FreshBuy();
    assert TrailCandidate(p, 5.0, 1.2, Corrected) == 98.0;
    assert !TrailDue(p, 5.0, 1.2, Corrected);
    var r := PositionRequests("XAUUSD", p, 5.0, 1.2, Tick(104.0, 104.2), Corrected);
    assert r == BreakEvenRequests("XAUUSD", p, Tick(104.0, 104.2));
  }

  /** Corrected, every trailing request puts the stop behind the current price. */
  lemma TrailingIsProtective(symbol: string, p: Position, atr: real, trailing: real, tick: Tick, k: nat)
    requires atr > 0.0 && trailing > 0.0
    requires var r := PositionRequests(symbol, p, atr, trailing, tick, Corrected);
             k < |r| && r[k].ModifyStops? && r[k].reason == TrailingStop
    ensures var r := PositionRequests(symbol, p, atr, trailing, tick, Corrected);
            (p.side == Buy ==> r[k].sl < p.priceCurrent) && (p.side == Sell ==> r[k].sl > p.priceCurrent)
  {
    var r := PositionRequests(symbol, p, atr, trailing, tick, Corrected);
    assert r[k] in r;
  }

  /** A BUY opened at 100, now at 110 with a 20 profit, stop 95, target 130. */
  function RunningBuy(): Position
  {
    Position(7, Buy, 1.0, 100.0, 110.0, 95.0, 130.0, 20.0, MAGIC_NUMBER)
  }

  /** As written, the BUY trailing stop is sent above the market (114.8 with the price
      at 110); corrected it is 105.2, below the price. */
  lemma TrailingAboveMarketAsWritten()
    ensures var r := PositionRequests("XAUUSD", RunningBuy(), 4.0, 1.2, Tick(110.0, 110.2), AsWritten);
            ModifyStops(7, 114.8, 130.0, TrailingStop) in r && 114.8 > RunningBuy().priceCurrent
    ensures var r := PositionRequests("XAUUSD", RunningBuy(), 4.0, 1.2, Tick(110.0, 110.2), Corrected);
            ModifyStops(7, 105.2, 130.0, TrailingStop) in r && 105.2 < RunningBuy().priceCurrent
  {
    var p := RunningBuy();
    assert TrailCandidate(p, 4.0, 1.2, AsWritten) == 114.8;
    assert TrailCandidate(p, 4.0, 1.2, Corrected) == 105.2;
  }

  /** A BUY whose stop was already trailed to 106, above its entry at 100. */
  function TrailedBuy(): Position
  {
    Position(8, Buy, 1.0, 100.0, 108.0, 106.0, 130.0, 8.0, MAGIC_NUMBER)
  }

  /** As written, break-even fires again on a stop already beyond the entry: another
      half of the volume is closed and the stop is pulled back from 106 to 100.
      Corrected, nothing is sent. */
  lemma BreakEvenRefiresLiveAsWritten()
    ensures var r := PositionRequests("XAUUSD", TrailedBuy(), 6.0, 1.2, Tick(108.0, 108.2), AsWritten);
            && CloseDeal("XAUUSD", 8, 0.5, Sell, 108.0, MAGIC_NUMBER) in r
            && StopAfter(TrailedBuy().sl, r) == 100.0 < TrailedBuy().sl
    ensures PositionRequests("XAUUSD", TrailedBuy(), 6.0, 1.2, Tick(108.0, 108.2), Corrected) == []
  {
    var p := TrailedBuy();
    assert Round(50.0) == 50;
    assert Round2(p.volume * PARTIAL_CLOSE_PERCENT) == 0.5;
    assert !TrailDue(p, 6.0, 1.2, AsWritten);
    var r := PositionRequests("XAUUSD", p, 6.0, 1.2, Tick(108.0, 108.2), AsWritten);
    assert r == BreakEvenRequests("XAUUSD", p, Tick(108.0, 108.2));
    assert r[0] == CloseDeal("XAUUSD", 8, 0.5, Sell, 108.0, MAGIC_NUMBER);
  }

  // ================================================================ all positions

  /** What manage_positions reads for one symbol: its positions, how many H1 rates came
      back, the last ATR (`None` for NaN), the preset's trailing multiplier and the tick. */
  datatype SymbolFeed = SymbolFeed(symbol: string, positions: seq<Position>, rateCount: nat,
                                   atr: Option<real>, trailing: real, tick: Tick)

  /** A symbol is managed when it has positions, rates and a positive ATR. */
  predicate Managed(d: SymbolFeed)
  {
    |d.positions| > 0 && d.rateCount > 0 && d.atr.Some? && d.atr.value > 0.0
  }

  function PositionsRequests(d: SymbolFeed, ps: seq<Position>, v: Version): seq<Request>
    requires d.atr.Some?
  {
    if |ps| == 0 then []
    else PositionsRequests(d, ps[..|ps| - 1], v) + PositionRequests(d.symbol, ps[|ps| - 1], d.atr.value, d.trailing, d.tick, v)
  }

  function SymbolsRequests(ds: seq<SymbolFeed>, v: Version): seq<Request>
  {
    if |ds| == 0 then []
    else
      var d := ds[|ds| - 1];
      SymbolsRequests(ds[..|ds| - 1], v) + (if Managed(d) then PositionsRequests(d, d.positions, v) else [])
  }

  /** Everything one manage_positions call sends, in order; nothing once the daily
      loss limit is hit. */
  function ManageRequests(allowed: bool, ds: seq<SymbolFeed>, v: Version): (r: seq<Request>)
    ensures !allowed ==> r == []
  {
    if allowed then SymbolsRequests(ds, v) else []
  }

  function TicketsOf(ps: seq<Position>): set<int>
  {
    set p | p in ps :: p.ticket
  }

  /** Tickets of the positions of the managed symbols. */
  function ManagedTickets(ds: seq<SymbolFeed>): set<int>
  {
    if |ds| == 0 then {}
    else
      var d := ds[|ds| - 1];
      ManagedTickets(ds[..|ds| - 1]) + (if Managed(d) then TicketsOf(d.positions) else {})
  }

  lemma {:induction false} PositionsRequestsTickets(d: SymbolFeed, ps: seq<Position>, v: Version)
    requires d.atr.Some?
    ensures forall k :: 0 <= k < |PositionsRequests(d, ps, v)| ==>
              TicketOf(PositionsRequests(d, ps, v)[k]) in TicketsOf(ps)
  {
    if |ps| > 0 {
      var init := ps[..|ps| - 1];
      PositionsRequestsTickets(d, init, v);
      var a := PositionsRequests(d, init, v);
      var b := PositionRequests(d.symbol, ps[|ps| - 1], d.atr.value, d.trailing, d.tick, v);
      assert PositionsRequests(d, ps, v) == a + b;
      forall k | 0 <= k < |a + b|
        ensures TicketOf((a + b)[k]) in TicketsOf(ps)
      {
        if k < |a| {
          assert (a + b)[k] == a[k];
          var q :| q in init && q.ticket == TicketOf(a[k]);
          assert q in ps;
        } else {
          assert (a + b)[k] == b[k - |a|];
          assert TicketOf(b[k - |a|]) == ps[|ps| - 1].ticket;
          assert ps[|ps| - 1] in ps;
        }
      }
    }
  }

  /** Tickets of the requests of two runs, one after the other. */
  lemma TicketsOfAppend(a: seq<Request>, b: seq<Request>, s1: set<int>, s2: set<int>)
    requires forall k :: 0 <= k < |a| ==> TicketOf(a[k]) in s1
    requires forall k :: 0 <= k < |b| ==> TicketOf(b[k]) in s2
    ensures forall k :: 0 <= k < |a + b| ==> TicketOf((a + b)[k]) in s1 + s2
  {
    forall k | 0 <= k < |a + b|
      ensures TicketOf((a + b)[k]) in s1 + s2
    {
      if k < |a| {
        assert (a + b)[k] == a[k];
      } else {
        assert (a + b)[k] == b[k - |a|];
      }
    }
  }

  lemma {:induction false} SymbolsRequestsTickets(ds: seq<SymbolFeed>, v: Version)
    ensures forall k :: 0 <= k < |SymbolsRequests(ds, v)| ==> TicketOf(SymbolsRequests(ds, v)[k]) in ManagedTickets(ds)
  {
    if |ds| > 0 {
      var init := ds[..|ds| - 1];
      var d := ds[|ds| - 1];
      SymbolsRequestsTickets(init, v);
      var b := if Managed(d) then PositionsRequests(d, d.positions, v) else [];
      var extra := if Managed(d) then TicketsOf(d.positions) else {};
      if Managed(d) {
        PositionsRequestsTickets(d, d.positions, v);
      }
      TicketsOfAppend(SymbolsRequests(init, v), b, ManagedTickets(init), extra);
    }
  }

  /** Every request concerns a position of a managed symbol: symbols without
      positions, without rates or without a positive ATR get nothing. */
  lemma RequestsConcernManagedPositions(allowed: bool, ds: seq<SymbolFeed>, v: Version)
    ensures forall k :: 0 <= k < |ManageRequests(allowed, ds, v)| ==>
              TicketOf(ManageRequests(allowed, ds, v)[k]) in ManagedTickets(ds)
  {
    if allowed {
      SymbolsRequestsTickets(ds, v);
    }
  }

  lemma PositionsRequestsStep(d: SymbolFeed, ps: seq<Position>, j: nat, v: Version)
    requires d.atr.Some? && j < |ps|
    ensures PositionsRequests(d, ps[..j + 1], v)
            == PositionsRequests(d, ps[..j], v) + PositionRequests(d.symbol, ps[j], d.atr.value, d.trailing, d.tick, v)
  {
    assert ps[..j + 1][..j] == ps[..j];
  }

  lemma SymbolsRequestsStep(ds: seq<SymbolFeed>, i: nat, v: Version)
    requires i < |ds|
    ensures SymbolsRequests(ds[..i + 1], v)
            == SymbolsRequests(ds[..i], v) + (if Managed(ds[i]) then PositionsRequests(ds[i], ds[i].positions, v) else [])
  {
    assert ds[..i + 1][..i] == ds[..i];
  }

  /** manage_positions: the loss gate, then the loop over symbols and, inside it, over
      their positions, collecting the requests sent. */
  method ManagePositions(history: Option<seq<DayDeal>>, balance: real, dailyLossLimit: real,
                         feeds: seq<SymbolFeed>)
    returns (sent: seq<Request>)
    ensures sent == ManageRequests(CheckLossLimits(history, balance, dailyLossLimit), feeds, Corrected)
  {
    sent := [];
    if !CheckLossLimits(history, balance, dailyLossLimit) {
      return;
    }
    var i := 0;
    while i < |feeds|
      invariant 0 <= i <= |feeds|
      invariant sent == SymbolsRequests(feeds[..i], Corrected)
    {
      var d := feeds[i];
      SymbolsRequestsStep(feeds, i, Corrected);
      if Managed(d) {
        var forSymbol := [];
        var j := 0;
        while j < |d.positions|
          invariant 0 <= j <= |d.positions|
          invariant forSymbol == PositionsRequests(d, d.positions[..j], Corrected)
        {
          PositionsRequestsStep(d, d.positions, j, Corrected);
          forSymbol := forSymbol + PositionRequests(d.symbol, d.positions[j], d.atr.value, d.trailing, d.tick, Corrected);
          j := j + 1;
        }
        assert d.positions[..j] == d.positions;
        sent := sent + forSymbol;
      }
      i := i + 1;
    }
    assert feeds[..i] == feeds;
  }

  // ================================================================ closing

  datatype CloseOutcome = Win | Loss | Breakeven

  /** The reply of order_send to a close: whether it was done and the profit it reports. */
  datatype CloseReply = CloseReply(done: bool, profit: real)

  /** The journal update close_position asks for: ticket, profit and outcome. */
  datatype CloseRecord = CloseRecord(ticket: int, profit: real, outcome: CloseOutcome)

  function OutcomeOf(profit: real): (o: CloseOutcome)
    ensures o == Win <==> profit > 0.0
    ensures o == Loss <==> profit < 0.0
    ensures o == Breakeven <==> profit == 0.0
  {
    if profit > 0.0 then Win else if profit < 0.0 then Loss else Breakeven
  }

  /** close_position: without a tick nothing is sent; otherwise the whole volume is
      closed with an opposite deal at the bid (BUY) or ask (SELL), and a done reply
      is journaled with its outcome. */
  function ClosePosition(symbol: string, p: Position, tick: Option<Tick>, reply: CloseReply)
    : (r: (Option<Request>, Option<CloseRecord>))
    ensures tick.None? ==> r.0.None? && r.1.None?
    ensures tick.Some? ==>
              r.0 == Some(CloseDeal(symbol, p.ticket, p.volume, p.side.Opposite(),
                                    if p.side == Buy then tick.value.bid else tick.value.ask, p.magic))
    ensures r.1.Some? <==> tick.Some? && reply.done
    ensures r.1.Some? ==> r.1.value.ticket == p.ticket && r.1.value.profit == reply.profit
                           && r.1.value.outcome == OutcomeOf(reply.profit)
  {
    if tick.None? then (None, None)
    else
      var price := if p.side == Buy then tick.value.bid else tick.value.ask;
      var request := CloseDeal(symbol, p.ticket, p.volume, p.side.Opposite(), price, p.magic);
      if reply.done then (Some(request), Some(CloseRecord(p.ticket, reply.profit, OutcomeOf(reply.profit))))
      else (Some(request), None)
  }
}
